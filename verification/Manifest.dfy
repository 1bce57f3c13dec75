/** Artifact manifest validation, and why an accepted manifest always fits the archive format. */
module Manifest {
  import opened Options
  import opened Utf8
  import opened ZipArchive
  import opened ZipRoundTrip

  const MAX_ARTIFACT_BYTES: int := 0x8000_0000
  const MAX_ARTIFACT_FILES: int := 65_535
  const MAX_SAFE_INTEGER: int := 0x1F_FFFF_FFFF_FFFF

  datatype Item = Item(path: string, size: int, sha256: string)
  datatype Manifest = Manifest(artifactDir: string, totalBytes: int, files: seq<Item>)
  datatype Rejection = ValidationFailed | InvalidPath | SizeLimitExceeded
  datatype Verdict = Accepted(files: seq<Item>) | Rejected(why: Rejection)

  predicate SafeInteger(n: int) {
    -MAX_SAFE_INTEGER <= n <= MAX_SAFE_INTEGER
  }

  function Split(s: string, separator: char): (parts: seq<string>)
    ensures parts != []
  {
    if s == "" then [""]
    else
      var rest := Split(s[..|s| - 1], separator);
      if s[|s| - 1] == separator then rest + [""]
      else rest[..|rest| - 1] + [rest[|rest| - 1] + [s[|s| - 1]]]
  }

  predicate Letter(c: char) {
    'A' <= c <= 'Z' || 'a' <= c <= 'z'
  }

  predicate GoodPart(part: string) {
    part != "" && part != "." && part != ".." && ':' !in part
  }

  predicate GoodPath(path: string) {
    && 1 <= UnitLen(path) <= 2_048
    && path[0] !in "/\\"
    && !(|path| > 1 && Letter(path[0]) && path[1] == ':')
    && (forall i :: 0 <= i < |path| ==> path[i] != '\\' && path[i] as int >= 32 && path[i] as int != 127)
    && (forall i :: 0 <= i < |Split(path, '/')| ==> GoodPart(Split(path, '/')[i]))
    && |Split(path, '/')[|Split(path, '/')| - 1]| <= 512
  }

  predicate GoodDigest(sha256: string) {
    |sha256| == 64 && forall i :: 0 <= i < 64 ==> '0' <= sha256[i] <= '9' || 'a' <= sha256[i] <= 'f'
  }

  predicate GoodItem(item: Item) {
    GoodPath(item.path) && SafeInteger(item.size) && item.size >= 0 && GoodDigest(item.sha256)
  }

  function Sum(files: seq<Item>): int {
    if files == [] then 0 else Sum(files[..|files| - 1]) + files[|files| - 1].size
  }

  predicate GoodHead(m: Manifest) {
    && 1 <= UnitLen(m.artifactDir) <= 1_024
    && (forall i :: 0 <= i < |m.artifactDir| ==> m.artifactDir[i] as int >= 32)
    && 1 <= |m.files| <= MAX_ARTIFACT_FILES
    && 0 <= m.totalBytes <= MAX_ARTIFACT_BYTES
  }

  ghost predicate Distinct(files: seq<Item>) {
    forall i, j :: 0 <= i < j < |files| ==> files[i].path != files[j].path
  }

  /** What a manifest must be to be accepted. */
  ghost predicate Acceptable(m: Manifest) {
    && GoodHead(m)
    && (forall i :: 0 <= i < |m.files| ==> GoodItem(m.files[i]))
    && Distinct(m.files)
    && Sum(m.files) == m.totalBytes
  }

  lemma {:induction false} SumGrows(files: seq<Item>, n: nat)
    requires n <= |files| && forall i :: 0 <= i < |files| ==> files[i].size >= 0
    ensures 0 <= Sum(files[..n]) <= Sum(files)
  {
    if n == |files| {
      assert files[..n] == files;
      if files != [] {
        SumGrows(files[..n - 1], n - 1);
        assert files[..n - 1][..n - 1] == files[..n - 1];
      }
    } else {
      SumGrows(files[..|files| - 1], n);
      assert files[..|files| - 1][..n] == files[..n];
    }
  }

  lemma OverLimit(m: Manifest, n: nat)
    requires n <= |m.files| && Sum(m.files[..n]) > MAX_ARTIFACT_BYTES
    ensures !Acceptable(m)
  {
    if Acceptable(m) {
      SumGrows(m.files, n);
    }
  }

  ghost predicate GoodUpTo(m: Manifest, n: nat)
    requires n <= |m.files|
  {
    (forall i :: 0 <= i < n ==> GoodItem(m.files[i])) && Distinct(m.files[..n])
  }

  lemma GoodStep(m: Manifest, n: nat)
    requires n < |m.files| && GoodUpTo(m, n)
    ensures GoodUpTo(m, n + 1) <==> GoodItem(m.files[n]) && m.files[n].path !in Paths(m.files[..n])
    ensures Paths(m.files[..n + 1]) == Paths(m.files[..n]) + {m.files[n].path}
    ensures Sum(m.files[..n + 1]) == Sum(m.files[..n]) + m.files[n].size
  {
    hide GoodItem, Distinct, Paths;
    assert m.files[..n + 1] == m.files[..n] + [m.files[n]];
    assert m.files[..n + 1][..n] == m.files[..n];
    DistinctStep(m.files[..n], m.files[n]);
    PathsStep(m.files[..n], m.files[n]);
  }

  lemma PathsStep(files: seq<Item>, item: Item)
    ensures Paths(files + [item]) == Paths(files) + {item.path}
  {
    var more := files + [item];
    forall p | p in Paths(files) + {item.path} ensures p in Paths(more) {
      if p == item.path {
        assert more[|files|].path == p;
      } else {
        var k :| 0 <= k < |files| && files[k].path == p;
        assert more[k].path == p;
      }
    }
  }

  lemma DistinctStep(files: seq<Item>, item: Item)
    requires Distinct(files)
    ensures Distinct(files + [item]) <==> item.path !in Paths(files)
  {
    var more := files + [item];
    if item.path in Paths(files) {
      var k :| 0 <= k < |files| && files[k].path == item.path;
      assert more[k].path == more[|files|].path;
    } else {
      forall i, j | 0 <= i < j < |more| ensures more[i].path != more[j].path {
        if j == |files| {
          assert files[i].path in Paths(files);
        }
      }
    }
  }

  function Paths(files: seq<Item>): set<string> {
    set i | 0 <= i < |files| :: files[i].path
  }

  lemma GoodUpToAll(m: Manifest, n: nat)
    requires n <= |m.files| && Acceptable(m)
    ensures GoodUpTo(m, n)
  {
  }

  /** Accepts exactly the acceptable manifests, and returns their files; the size limit is reported only
      when some prefix of the files really exceeds it, an invalid path only when there is one. */
  method ValidateManifest(m: Manifest) returns (verdict: Verdict)
    ensures verdict.Accepted? <==> Acceptable(m)
    ensures verdict.Accepted? ==> verdict.files == m.files
    ensures verdict == Rejected(SizeLimitExceeded) ==>
              exists n :: 0 <= n <= |m.files| && Sum(m.files[..n]) > MAX_ARTIFACT_BYTES
    ensures verdict == Rejected(InvalidPath) ==> exists i :: 0 <= i < |m.files| && !GoodPath(m.files[i].path)
  {
    hide GoodPath, GoodDigest, Distinct;
    if !GoodHead(m) {
      return Rejected(ValidationFailed);
    }
    var seen: set<string> := {};
    var sum := 0;
    assert GoodUpTo(m, 0) by { NothingYet(m); }
    for i := 0 to |m.files|
      invariant GoodUpTo(m, i)
      invariant seen == Paths(m.files[..i])
      invariant sum == Sum(m.files[..i]) <= MAX_ARTIFACT_BYTES
    {
      var item := m.files[i];
      GoodStep(m, i);
      if !GoodPath(item.path) {
        return Rejected(InvalidPath);
      }
      if item.path in seen || !SafeInteger(item.size) || item.size < 0 || !GoodDigest(item.sha256) {
        if Acceptable(m) { GoodUpToAll(m, i + 1); }
        return Rejected(ValidationFailed);
      }
      seen := seen + {item.path};
      sum := sum + item.size;
      if sum > MAX_ARTIFACT_BYTES {
        OverLimit(m, i + 1);
        return Rejected(SizeLimitExceeded);
      }
    }
    assert m.files[..|m.files|] == m.files;
    if sum != m.totalBytes {
      return Rejected(ValidationFailed);
    }
    verdict := Accepted(m.files);
  }

  lemma NothingYet(m: Manifest)
    ensures GoodUpTo(m, 0)
  {
  }

  // --- Where an accepted path leads ---

  /** One component of a path, entered from a directory. */
  function Enter(dir: seq<string>, part: string): seq<string> {
    if part == "" || part == "." then dir
    else if part == ".." then (if dir == [] then [] else dir[..|dir| - 1])
    else dir + [part]
  }

  /** The directory reached, and the component begun, after the characters of the path. */
  function Walked(dir: seq<string>, path: string): (seq<string>, string) {
    if path == "" then (dir, "")
    else
      var before := Walked(dir, path[..|path| - 1]);
      if path[|path| - 1] == '/' then (Enter(before.0, before.1), "") else (before.0, before.1 + [path[|path| - 1]])
  }

  /** The file a relative path names when it is resolved from a directory. */
  function Resolve(dir: seq<string>, path: string): seq<string> {
    Enter(Walked(dir, path).0, Walked(dir, path).1)
  }

  ghost predicate AllGood(parts: seq<string>) {
    forall i :: 0 <= i < |parts| ==> GoodPart(parts[i])
  }

  lemma {:induction false} WalkedParts(dir: seq<string>, path: string)
    requires var parts := Split(path, '/'); AllGood(parts[..|parts| - 1])
    ensures var parts := Split(path, '/');
            Walked(dir, path) == (dir + parts[..|parts| - 1], parts[|parts| - 1])
  {
    var parts := Split(path, '/');
    if path == "" {
      assert dir + [] == dir;
    } else {
      var before := Split(path[..|path| - 1], '/');
      if path[|path| - 1] == '/' {
        assert parts[..|parts| - 1] == before;
        assert before == before[..|before| - 1] + [before[|before| - 1]];
        assert GoodPart(before[|before| - 1]);
        WalkedParts(dir, path[..|path| - 1]);
        assert dir + before[..|before| - 1] + [before[|before| - 1]] == dir + before;
      } else {
        assert parts[..|parts| - 1] == before[..|before| - 1];
        WalkedParts(dir, path[..|path| - 1]);
      }
    }
  }

  lemma ResolvesToParts(dir: seq<string>, path: string)
    requires GoodPath(path)
    ensures Resolve(dir, path) == dir + Split(path, '/')
  {
    var parts := Split(path, '/');
    assert AllGood(parts[..|parts| - 1]) && GoodPart(parts[|parts| - 1]);
    WalkedParts(dir, path);
    hide Split, Walked;
    assert dir + parts[..|parts| - 1] + [parts[|parts| - 1]] == dir + parts;
  }

  lemma {:induction false} SplitInjective(p: string, q: string)
    requires Split(p, '/') == Split(q, '/')
    ensures p == q
    decreases |p|
  {
    if p != "" && q != "" {
      var a, b := p[..|p| - 1], q[..|q| - 1];
      if p[|p| - 1] == '/' && q[|q| - 1] == '/' {
        assert Split(p, '/')[..|Split(p, '/')| - 1] == Split(a, '/');
        assert Split(q, '/')[..|Split(q, '/')| - 1] == Split(b, '/');
        SplitInjective(a, b);
      } else if p[|p| - 1] != '/' && q[|q| - 1] != '/' {
        SplitLast(p);
        SplitLast(q);
        SplitInjective(a, b);
      } else {
        SplitEnds(p);
        SplitEnds(q);
      }
    } else {
      SplitEnds(p);
      SplitEnds(q);
    }
  }

  /** The last component is empty exactly behind a separator, and alone exactly in the empty path. */
  lemma SplitEnds(p: string)
    ensures var parts := Split(p, '/');
            (parts == [""] <==> p == "") && (parts[|parts| - 1] == "" <==> p == "" || p[|p| - 1] == '/')
  {
  }

  lemma SplitLast(p: string)
    requires p != "" && p[|p| - 1] != '/'
    ensures var parts, before := Split(p, '/'), Split(p[..|p| - 1], '/');
            && |parts| == |before| && parts[|parts| - 1] != ""
            && before == parts[..|parts| - 1] + [parts[|parts| - 1][..|parts[|parts| - 1]| - 1]]
            && p == p[..|p| - 1] + [parts[|parts| - 1][|parts[|parts| - 1]| - 1]]
  {
    var parts, before := Split(p, '/'), Split(p[..|p| - 1], '/');
    var last := parts[|parts| - 1];
    assert last == before[|before| - 1] + [p[|p| - 1]];
    assert last[..|last| - 1] == before[|before| - 1];
  }

  /** Wherever an accepted manifest is unpacked: every file lies inside that directory, and no two paths name the
      same file. */
  lemma AcceptedPathsAreConfined(m: Manifest, dir: seq<string>, i: nat, j: nat)
    requires Acceptable(m) && i < |m.files| && j < |m.files|
    ensures dir < Resolve(dir, m.files[i].path) && m.files[i].path[0] !in "/\\"
    ensures Resolve(dir, m.files[i].path) == Resolve(dir, m.files[j].path) ==> i == j
  {
    var p, q := m.files[i].path, m.files[j].path;
    assert GoodItem(m.files[i]) && GoodItem(m.files[j]);
    ResolvesToParts(dir, p);
    ResolvesToParts(dir, q);
    hide Split, Resolve;
    if Resolve(dir, p) == Resolve(dir, q) {
      assert (dir + Split(p, '/'))[|dir|..] == Split(p, '/') && (dir + Split(q, '/'))[|dir|..] == Split(q, '/');
      SplitInjective(p, q);
    }
  }

  // --- Archives of accepted files ---

  /** The archive entries hold these files, in this order, with the sizes the manifest declared. */
  ghost predicate Holds(entries: seq<Entry>, picked: seq<Item>) {
    && |entries| == |picked|
    && forall i :: 0 <= i < |entries| ==> entries[i].name == picked[i].path && |Join(entries[i].chunks)| == picked[i].size
  }

  lemma {:induction false} PickedSum(picked: seq<Item>, files: seq<Item>)
    requires multiset(picked) <= multiset(files)
    requires forall i :: 0 <= i < |files| ==> files[i].size >= 0
    ensures |picked| <= |files| && Sum(picked) <= Sum(files)
    decreases |picked|
  {
    if picked == [] {
      SumGrows(files, 0);
    } else {
      var n := |picked| - 1;
      assert picked[n] in multiset(picked);
      var k :| 0 <= k < |files| && files[k] == picked[n];
      PickOne(picked, files, k);
      SumWithout(files, k);
      PickedSum(picked[..n], files[..k] + files[k + 1..]);
    }
  }

  lemma PickOne(picked: seq<Item>, files: seq<Item>, k: nat)
    requires picked != [] && k < |files| && files[k] == picked[|picked| - 1] && multiset(picked) <= multiset(files)
    ensures multiset(picked[..|picked| - 1]) <= multiset(files[..k] + files[k + 1..])
  {
    assert picked == picked[..|picked| - 1] + [files[k]];
    assert files == files[..k] + ([files[k]] + files[k + 1..]);
    assert multiset(files) == multiset(files[..k] + files[k + 1..]) + multiset{files[k]};
    assert multiset(picked) == multiset(picked[..|picked| - 1]) + multiset{files[k]};
    CancelOne(multiset(picked[..|picked| - 1]), multiset(files[..k] + files[k + 1..]), files[k]);
  }

  lemma CancelOne(a: multiset<Item>, b: multiset<Item>, x: Item)
    requires a + multiset{x} <= b + multiset{x}
    ensures a <= b
  {
    forall e ensures a[e] <= b[e] {
      assert (a + multiset{x})[e] <= (b + multiset{x})[e];
    }
  }

  lemma {:induction false} SumWithout(files: seq<Item>, k: nat)
    requires k < |files|
    ensures Sum(files) == Sum(files[..k] + files[k + 1..]) + files[k].size
  {
    var n := |files| - 1;
    var less := files[..k] + files[k + 1..];
    if k == n {
      assert less == files[..n];
    } else {
      SumWithout(files[..n], k);
      assert less[..|less| - 1] == files[..n][..k] + files[..n][k + 1..];
    }
  }

  lemma {:induction false} DataIsSum(entries: seq<Entry>, picked: seq<Item>)
    requires Holds(entries, picked)
    ensures DataBytes(entries) == Sum(picked)
  {
    if entries != [] {
      DataIsSum(entries[..|entries| - 1], picked[..|picked| - 1]);
    }
  }

  /** Archiving any of the files of an accepted manifest, in any order, stays within the format, and
      the archive reads back as exactly those files. */
  lemma AcceptedArchiveReadsBack(m: Manifest, picked: seq<Item>, entries: seq<Entry>)
    requires Acceptable(m) && multiset(picked) <= multiset(m.files) && Holds(entries, picked)
    ensures Writable(entries) && FitsFormat(Sealed(Files(entries)))
    ensures Recovers(ReadArchive(Archive(Sealed(Files(entries)))), entries)
  {
    PickedSum(picked, m.files);
    DataIsSum(entries, picked);
    forall i | 0 <= i < |entries| ensures UnitLen(entries[i].name) <= 2_048 {
      assert picked[i] in multiset(picked);
      assert picked[i] in m.files;
    }
    NeverTruncates(entries);
    RoundTrip(entries);
  }
}
