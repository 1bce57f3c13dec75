/** The keyed lock built from a chain of promises, one chain per key. */
module PromiseLock {
  import opened Options

  type Ticket = nat
  type Key = string

  /** What one key has seen: tickets in arrival order, how many started, how many finished. */
  datatype Line = Line(arrived: seq<Ticket>, started: nat, finished: nat)

  const NOBODY := Line([], 0, 0)

  /** The fields of the lock, as one value. */
  datatype Chain = Chain(
    locks: map<Key, Ticket>,
    previous: map<Ticket, Option<Ticket>>,
    keyOf: map<Ticket, Key>,
    waiting: set<Ticket>,
    running: set<Ticket>,
    released: set<Ticket>,
    next: Ticket)

  function LineOf(lines: map<Key, Line>, key: Key): Line {
    if key in lines then lines[key] else NOBODY
  }

  /** One ticket stands where its line says it does. */
  ghost predicate Placed(c: Chain, line: Line, key: Key, i: nat)
    requires i < |line.arrived|
  {
    var t := line.arrived[i];
    && t < c.next && t in c.keyOf && c.keyOf[t] == key && t in c.previous
    && (t in c.released <==> i < line.finished)
    && (t in c.waiting <==> line.started <= i)
    && (t in c.running <==> line.finished <= i < line.started)
    && (c.previous[t] == None ==> i <= line.finished)
    && (c.previous[t].Some? ==> 0 < i && c.previous[t] == Some(line.arrived[i - 1]))
  }

  /** One key: starts follow arrivals, at most one ticket between start and finish, and the entry is
      the last ticket of a line that is not yet served. */
  ghost predicate GoodLine(c: Chain, line: Line, key: Key) {
    && line.finished <= line.started <= |line.arrived| && line.started <= line.finished + 1
    && (forall i, j :: 0 <= i < j < |line.arrived| ==> line.arrived[i] < line.arrived[j])
    && (forall i :: 0 <= i < |line.arrived| ==> Placed(c, line, key, i))
    && (key in c.locks <==> line.finished < |line.arrived|)
    && (key in c.locks ==> c.locks[key] == line.arrived[|line.arrived| - 1])
  }

  ghost predicate Good(c: Chain, lines: map<Key, Line>) {
    && (forall key :: GoodLine(c, LineOf(lines, key), key))
    && (forall t :: t in c.keyOf ==> t in LineOf(lines, c.keyOf[t]).arrived)
    && c.waiting <= c.keyOf.Keys && c.running <= c.keyOf.Keys && c.released <= c.keyOf.Keys
    && (forall t :: t in c.keyOf ==> t < c.next)
  }

  /** The promise a waiting ticket awaits has settled. */
  predicate MayStart(c: Chain, t: Ticket) {
    t in c.waiting && t in c.previous && (c.previous[t].None? || c.previous[t].value in c.released)
  }

  /** A waiting ticket may start exactly when it is the oldest unfinished one of its key. */
  lemma StartsInOrder(c: Chain, lines: map<Key, Line>, t: Ticket)
    requires Good(c, lines) && t in c.waiting
    ensures var line := LineOf(lines, c.keyOf[t]);
            MayStart(c, t) <==> line.finished < |line.arrived| && t == line.arrived[line.finished] && line.started == line.finished
  {
    var key := c.keyOf[t];
    var line := LineOf(lines, key);
    assert GoodLine(c, line, key);
    var i :| 0 <= i < |line.arrived| && line.arrived[i] == t;
    assert Placed(c, line, key, i);
    if 0 < i {
      assert Placed(c, line, key, i - 1);
    }
    assert line.finished < |line.arrived| ==> Placed(c, line, key, line.finished);
  }

  /** At most one ticket of a key is ever between its start and its finish. */
  lemma OneAtATime(c: Chain, lines: map<Key, Line>, t: Ticket, u: Ticket)
    requires Good(c, lines) && t in c.running && u in c.running && c.keyOf[t] == c.keyOf[u]
    ensures t == u
  {
    var key := c.keyOf[t];
    var line := LineOf(lines, key);
    assert GoodLine(c, line, key);
    var i :| 0 <= i < |line.arrived| && line.arrived[i] == t;
    var j :| 0 <= j < |line.arrived| && line.arrived[j] == u;
    assert Placed(c, line, key, i) && Placed(c, line, key, j);
  }

  /** A key with an entry is never stuck: its oldest ticket is running, or is waiting and may start. */
  lemma NeverStuck(c: Chain, lines: map<Key, Line>, key: Key)
    requires Good(c, lines) && key in c.locks
    ensures var line := LineOf(lines, key);
            line.finished < |line.arrived| && var t := line.arrived[line.finished]; t in c.running || (t in c.waiting && MayStart(c, t))
  {
    var line := LineOf(lines, key);
    assert GoodLine(c, line, key);
    assert Placed(c, line, key, line.finished);
    if line.started == line.finished {
      StartsInOrder(c, lines, line.arrived[line.finished]);
    }
  }

  lemma OtherLineKept(c: Chain, c': Chain, line: Line, key: Key, t: Ticket)
    requires GoodLine(c, line, key) && t !in line.arrived
    requires c.next <= c'.next
    requires forall u :: u != t ==> (u in c.released <==> u in c'.released) && (u in c.waiting <==> u in c'.waiting)
    requires forall u :: u != t ==> (u in c.running <==> u in c'.running)
    requires forall u :: u != t && u in c.keyOf ==> u in c'.keyOf && c'.keyOf[u] == c.keyOf[u]
    requires forall u :: u != t && u in c.previous ==> u in c'.previous && c'.previous[u] == c.previous[u]
    requires key in c.locks <==> key in c'.locks
    requires key in c.locks ==> c'.locks[key] == c.locks[key]
    ensures GoodLine(c', line, key)
  {
    forall i | 0 <= i < |line.arrived| ensures Placed(c', line, key, i) {
      assert Placed(c, line, key, i);
      assert line.arrived[i] in line.arrived;
    }
  }

  lemma TicketOfOneKey(c: Chain, lines: map<Key, Line>, t: Ticket, key: Key)
    requires Good(c, lines) && (t == c.next || (t in c.keyOf && c.keyOf[t] != key))
    ensures t !in LineOf(lines, key).arrived
  {
    var line := LineOf(lines, key);
    assert GoodLine(c, line, key);
    forall i | 0 <= i < |line.arrived| ensures line.arrived[i] != t {
      assert Placed(c, line, key, i);
    }
  }

  class KeyedLock {
    var locks: map<Key, Ticket>
    var previous: map<Ticket, Option<Ticket>>
    var keyOf: map<Ticket, Key>
    var waiting: set<Ticket>
    var running: set<Ticket>
    var released: set<Ticket>
    var next: Ticket
    ghost var lines: map<Key, Line>

    ghost function State(): Chain
      reads this
    {
      Chain(locks, previous, keyOf, waiting, running, released, next)
    }

    ghost predicate Valid()
      reads this
    {
      Good(State(), lines)
    }

    constructor ()
      ensures Valid() && lines == map[]
    {
      locks, previous, keyOf := map[], map[], map[];
      waiting, running, released := {}, {}, {};
      next := 0;
      lines := map[];
    }

    /** A caller reaches the lock: its promise becomes the end of the key's chain. */
    method Arrive(key: Key) returns (ticket: Ticket)
      requires Valid()
      modifies this
      ensures Valid() && running == old(running)
      ensures var line := old(LineOf(lines, key));
              lines == old(lines)[key := line.(arrived := line.arrived + [ticket])]
    {
      hide GoodLine;
      ticket := next;
      ghost var c, line := State(), LineOf(lines, key);
      previous := previous[ticket := if key in locks then Some(locks[key]) else None];
      keyOf := keyOf[ticket := key];
      locks := locks[key := ticket];
      waiting := waiting + {ticket};
      next := next + 1;
      ArrivalKeepsGood(c, State(), lines, key);
      lines := lines[key := line.(arrived := line.arrived + [ticket])];
    }

    /** The awaited promise has settled and the operation begins. */
    method Start(ticket: Ticket)
      requires Valid() && MayStart(State(), ticket)
      modifies this
      ensures Valid() && locks == old(locks) && running == old(running) + {ticket}
      ensures var key := old(keyOf)[ticket];
              var line := old(LineOf(lines, key));
              && line.started == line.finished < |line.arrived| && ticket == line.arrived[line.started]
              && lines == old(lines)[key := line.(started := line.started + 1)]
    {
      hide GoodLine;
      StartsInOrder(State(), lines, ticket);
      ghost var c, key := State(), keyOf[ticket];
      waiting := waiting - {ticket};
      running := running + {ticket};
      StartKeepsGood(c, State(), lines, key);
      lines := lines[key := LineOf(lines, key).(started := LineOf(lines, key).started + 1)];
    }

    /** The operation ends, with a result or an exception: release, and drop the entry if it is ours. */
    method Finish(ticket: Ticket)
      requires Valid() && ticket in running
      modifies this
      ensures Valid() && running == old(running) - {ticket}
      ensures var key := old(keyOf)[ticket];
              var line := old(LineOf(lines, key));
              && lines == old(lines)[key := line.(finished := line.finished + 1)]
              && (key !in locks <==> line.finished + 1 == |line.arrived|)
    {
      hide GoodLine;
      RunningIsOldest(State(), lines, ticket);
      ghost var c, key := State(), keyOf[ticket];
      running := running - {ticket};
      released := released + {ticket};
      if keyOf[ticket] in locks && locks[keyOf[ticket]] == ticket {
        locks := locks - {keyOf[ticket]};
      }
      FinishKeepsGood(c, State(), lines, key);
      lines := lines[key := LineOf(lines, key).(finished := LineOf(lines, key).finished + 1)];
    }
  }

  lemma RunningIsOldest(c: Chain, lines: map<Key, Line>, t: Ticket)
    requires Good(c, lines) && t in c.running
    ensures var line := LineOf(lines, c.keyOf[t]);
            line.started == line.finished + 1 && line.finished < |line.arrived| && t == line.arrived[line.finished]
  {
    var key := c.keyOf[t];
    var line := LineOf(lines, key);
    assert GoodLine(c, line, key);
    var i :| 0 <= i < |line.arrived| && line.arrived[i] == t;
    assert Placed(c, line, key, i);
  }

  lemma ArrivedLine(c: Chain, c': Chain, line: Line, key: Key)
    requires GoodLine(c, line, key)
    requires c.next !in line.arrived && c.next !in c.released && c.next !in c.running
    requires c' == c.(locks := c.locks[key := c.next], keyOf := c.keyOf[c.next := key], waiting := c.waiting + {c.next},
                      previous := c.previous[c.next := if key in c.locks then Some(c.locks[key]) else None], next := c.next + 1)
    ensures GoodLine(c', line.(arrived := line.arrived + [c.next]), key)
  {
    var line' := line.(arrived := line.arrived + [c.next]);
    forall i | 0 <= i < |line'.arrived| ensures Placed(c', line', key, i) && (i < |line.arrived| ==> line'.arrived[i] < c.next) {
      if i < |line.arrived| {
        assert Placed(c, line, key, i);
        assert line'.arrived[i] == line.arrived[i] && line.arrived[i] in line.arrived;
      }
    }
  }

  lemma ArrivalKeepsGood(c: Chain, c': Chain, lines: map<Key, Line>, key: Key)
    requires Good(c, lines)
    requires c' == c.(locks := c.locks[key := c.next], keyOf := c.keyOf[c.next := key], waiting := c.waiting + {c.next},
                      previous := c.previous[c.next := if key in c.locks then Some(c.locks[key]) else None], next := c.next + 1)
    ensures var line := LineOf(lines, key); Good(c', lines[key := line.(arrived := line.arrived + [c.next])])
  {
    hide GoodLine;
    var line := LineOf(lines, key);
    var lines' := lines[key := line.(arrived := line.arrived + [c.next])];
    assert GoodLine(c, line, key);
    TicketOfOneKey(c, lines, c.next, key);
    forall k ensures GoodLine(c', LineOf(lines', k), k) {
      if k != key {
        TicketOfOneKey(c, lines, c.next, k);
        assert GoodLine(c, LineOf(lines, k), k);
        OtherLineKept(c, c', LineOf(lines, k), k, c.next);
      } else {
        ArrivedLine(c, c', line, key);
      }
    }
    forall t | t in c'.keyOf ensures t in LineOf(lines', c'.keyOf[t]).arrived {
      assert t != c.next ==> t in LineOf(lines, c.keyOf[t]).arrived;
    }
  }

  lemma StartedLine(c: Chain, c': Chain, line: Line, key: Key)
    requires GoodLine(c, line, key) && line.started == line.finished < |line.arrived|
    requires var t := line.arrived[line.started]; c' == c.(waiting := c.waiting - {t}, running := c.running + {t})
    ensures GoodLine(c', line.(started := line.started + 1), key)
  {
    var line' := line.(started := line.started + 1);
    forall i | 0 <= i < |line.arrived| ensures Placed(c', line', key, i) {
      assert Placed(c, line, key, i);
    }
  }

  lemma StartKeepsGood(c: Chain, c': Chain, lines: map<Key, Line>, key: Key)
    requires Good(c, lines) && var line := LineOf(lines, key); line.started == line.finished < |line.arrived|
    requires var line := LineOf(lines, key);
             var t := line.arrived[line.started];
             t in c.waiting && c.keyOf[t] == key && c' == c.(waiting := c.waiting - {t}, running := c.running + {t})
    ensures var line := LineOf(lines, key); Good(c', lines[key := line.(started := line.started + 1)])
  {
    hide GoodLine;
    var line := LineOf(lines, key);
    var t, lines' := line.arrived[line.started], lines[key := line.(started := line.started + 1)];
    assert GoodLine(c, line, key);
    forall k ensures GoodLine(c', LineOf(lines', k), k) {
      if k != key {
        TicketOfOneKey(c, lines, t, k);
        assert GoodLine(c, LineOf(lines, k), k);
        OtherLineKept(c, c', LineOf(lines, k), k, t);
      } else {
        StartedLine(c, c', line, key);
      }
    }
  }

  lemma FinishKeepsGood(c: Chain, c': Chain, lines: map<Key, Line>, key: Key)
    requires Good(c, lines) && var line := LineOf(lines, key); line.started == line.finished + 1 <= |line.arrived|
    requires var line := LineOf(lines, key);
             var t := line.arrived[line.finished];
             t in c.running && c.keyOf[t] == key &&
             c' == c.(running := c.running - {t}, released := c.released + {t},
                      locks := if key in c.locks && c.locks[key] == t then c.locks - {key} else c.locks)
    ensures var line := LineOf(lines, key); Good(c', lines[key := line.(finished := line.finished + 1)])
    ensures var line := LineOf(lines, key); key !in c'.locks <==> line.finished + 1 == |line.arrived|
  {
    hide GoodLine;
    var line := LineOf(lines, key);
    var t, lines' := line.arrived[line.finished], lines[key := line.(finished := line.finished + 1)];
    assert GoodLine(c, line, key);
    FinishedLine(c, c', line, key);
    forall k ensures GoodLine(c', LineOf(lines', k), k) {
      if k != key {
        TicketOfOneKey(c, lines, t, k);
        assert GoodLine(c, LineOf(lines, k), k);
        OtherLineKept(c, c', LineOf(lines, k), k, t);
      }
    }
  }

  lemma FinishedLine(c: Chain, c': Chain, line: Line, key: Key)
    requires GoodLine(c, line, key) && line.started == line.finished + 1 <= |line.arrived|
    requires var t := line.arrived[line.finished];
             c' == c.(running := c.running - {t}, released := c.released + {t},
                      locks := if key in c.locks && c.locks[key] == t then c.locks - {key} else c.locks)
    ensures GoodLine(c', line.(finished := line.finished + 1), key)
    ensures key !in c'.locks <==> line.finished + 1 == |line.arrived|
  {
    var line' := line.(finished := line.finished + 1);
    forall i | 0 <= i < |line.arrived| ensures Placed(c', line', key, i) {
      assert Placed(c, line, key, i);
    }
  }
}
