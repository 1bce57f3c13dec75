/** The two primitives that write an agent's execution slot directly. They touch neither lease nor history, but
    they keep the slot exact. */
module ExecutionSlot {
  import opened Options
  import opened TaskStatus
  import opened TaskRows
  import opened TaskInvariants

  datatype SlotResult = Ok | Unavailable | BadInput

  class ExecutionSlot {
    var tasks: map<TaskId, Task>
    var agents: map<AgentId, Agent>

    ghost predicate Valid()
      reads this
    {
      SlotExact(Db(tasks, agents))
    }

    constructor (tasks: map<TaskId, Task>, agents: map<AgentId, Agent>)
      requires SlotExact(Db(tasks, agents))
      ensures Valid() && this.tasks == tasks && this.agents == agents
    {
      this.tasks, this.agents := tasks, agents;
    }

    /** Gives the slot of an idle agent to one of its queued tasks. */
    method Claim(agentId: AgentId, taskId: TaskId) returns (result: SlotResult)
      requires Valid()
      modifies this
      ensures Valid()
      ensures result == Ok <==> agentId in old(agents) && old(agents)[agentId].activeTaskId.None?
                                && taskId in old(tasks) && old(tasks)[taskId].agentId == agentId && old(tasks)[taskId].status == QUEUED
      ensures result == Unavailable <==> agentId in old(agents) && old(agents)[agentId].activeTaskId.Some?
      ensures if result == Ok then
                && tasks == old(tasks)[taskId := old(tasks)[taskId].(status := DISPATCHED)]
                && agents == old(agents)[agentId := old(agents)[agentId].(activeTaskId := Some(taskId))]
              else tasks == old(tasks) && agents == old(agents)
    {
      if agentId !in agents {
        return BadInput;
      }
      if agents[agentId].activeTaskId.Some? {
        return Unavailable;
      }
      if taskId !in tasks || tasks[taskId].agentId != agentId || tasks[taskId].status != QUEUED {
        return BadInput;
      }
      tasks := tasks[taskId := tasks[taskId].(status := DISPATCHED)];
      agents := agents[agentId := agents[agentId].(activeTaskId := Some(taskId))];
      result := Ok;
    }

    /** Ends the agent's active task in a terminal status. */
    method Release(agentId: AgentId, taskId: TaskId, next: Status) returns (result: SlotResult)
      requires Valid() && Terminal(next)
      modifies this
      ensures Valid()
      ensures result == Ok <==> agentId in old(agents) && old(agents)[agentId].activeTaskId == Some(taskId)
      ensures if result == Ok then
                && taskId in old(tasks) && tasks == old(tasks)[taskId := old(tasks)[taskId].(status := next)]
                && agents == old(agents)[agentId := old(agents)[agentId].(activeTaskId := None)]
              else tasks == old(tasks) && agents == old(agents)
    {
      if agentId !in agents {
        return BadInput;
      }
      if agents[agentId].activeTaskId != Some(taskId) {
        return BadInput;
      }
      assert taskId in tasks && tasks[taskId].agentId == agentId;
      tasks := tasks[taskId := tasks[taskId].(status := next)];
      agents := agents[agentId := agents[agentId].(activeTaskId := None)];
      result := Ok;
    }
  }
}
