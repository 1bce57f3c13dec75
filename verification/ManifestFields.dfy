/** What the fields of an accepted manifest can be: paths by their parts, digests by the bytes they stand for. */
module ManifestFields {
  import opened Utf8
  import opened Manifest

  // --- Paths ---

  /** The parts with a slash between each two. */
  function Joined(parts: seq<string>): string
    requires parts != []
  {
    if |parts| == 1 then parts[0] else Joined(parts[..|parts| - 1]) + "/" + parts[|parts| - 1]
  }

  ghost predicate Unslashed(parts: seq<string>) {
    forall i :: 0 <= i < |parts| ==> '/' !in parts[i]
  }

  lemma {:induction false} SplitAppended(p: string, last: string)
    requires '/' !in last
    ensures Split(p + "/" + last, '/') == Split(p, '/') + [last]
    decreases |last|
  {
    var whole := p + "/" + last;
    if last == "" {
      assert whole[..|whole| - 1] == p;
    } else {
      var before := last[..|last| - 1];
      assert whole[..|whole| - 1] == p + "/" + before;
      SplitAppended(p, before);
      assert whole[|whole| - 1] == last[|last| - 1] && last[|last| - 1] in last;
      assert before + [last[|last| - 1]] == last;
      var rest := Split(p, '/') + [before];
      assert rest[..|rest| - 1] == Split(p, '/');
    }
  }

  lemma {:induction false} SplitWhole(s: string)
    requires '/' !in s
    ensures Split(s, '/') == [s]
  {
    if s != "" {
      SplitWhole(s[..|s| - 1]);
      assert s[|s| - 1] in s;
      assert s[..|s| - 1] + [s[|s| - 1]] == s;
    }
  }

  lemma {:induction false} SplitJoined(parts: seq<string>)
    requires parts != [] && Unslashed(parts)
    ensures Split(Joined(parts), '/') == parts
    decreases |parts|
  {
    var last := parts[|parts| - 1];
    if |parts| == 1 {
      SplitWhole(parts[0]);
    } else {
      SplitJoined(parts[..|parts| - 1]);
      SplitAppended(Joined(parts[..|parts| - 1]), last);
      assert parts[..|parts| - 1] + [last] == parts;
    }
  }

  predicate Printable(c: char) {
    c != '\\' && c as int >= 32 && c as int != 127
  }

  ghost predicate AllPrintable(s: string) {
    forall i :: 0 <= i < |s| ==> Printable(s[i])
  }

  lemma PrintableConcat(a: string, b: string)
    ensures AllPrintable(a + b) <==> AllPrintable(a) && AllPrintable(b)
  {
    var s := a + b;
    assert forall i :: 0 <= i < |a| ==> s[i] == a[i];
    assert forall i :: 0 <= i < |b| ==> s[|a| + i] == b[i];
    if AllPrintable(s) {
      forall i | 0 <= i < |b| ensures Printable(b[i]) {
        assert Printable(s[|a| + i]);
      }
    }
  }

  lemma {:induction false} PrintableJoined(parts: seq<string>)
    requires parts != []
    ensures AllPrintable(Joined(parts)) <==> forall i :: 0 <= i < |parts| ==> AllPrintable(parts[i])
    decreases |parts|
  {
    if |parts| > 1 {
      var before, last := parts[..|parts| - 1], parts[|parts| - 1];
      PrintableJoined(before);
      PrintableConcat(Joined(before) + "/", last);
      PrintableConcat(Joined(before), "/");
      hide AllPrintable;
      assert AllPrintable("/") by { SlashIsPrintable(); }
      assert forall i :: 0 <= i < |before| ==> before[i] == parts[i];
    }
  }

  lemma SlashIsPrintable()
    ensures AllPrintable("/")
  {
  }

  lemma {:induction false} JoinedStart(parts: seq<string>)
    requires parts != []
    ensures parts[0] <= Joined(parts)
    ensures |parts| > 1 ==> |Joined(parts)| > |parts[0]| && Joined(parts)[|parts[0]|] == '/'
    decreases |parts|
  {
    if |parts| > 1 {
      JoinedStart(parts[..|parts| - 1]);
    }
  }

  /** A name a part may have. */
  ghost predicate PlainPart(part: string) {
    part != "" && part != "." && part != ".." && AllPrintable(part) && ':' !in part
  }

  lemma UnitsPositive(s: string)
    requires s != ""
    ensures UnitLen(s) >= 1
  {
  }

  /** A good path starts with no separator and no drive. */
  lemma GoodStart(parts: seq<string>)
    requires parts != [] && Unslashed(parts) && PlainPart(parts[0])
    ensures var path := Joined(parts);
            path != "" && path[0] !in "/\\" && !(|path| > 1 && Letter(path[0]) && path[1] == ':')
  {
    var path := Joined(parts);
    JoinedStart(parts);
    assert path[0] == parts[0][0] && Printable(parts[0][0]) && parts[0][0] in parts[0];
    if |parts[0]| > 1 {
      assert path[1] == parts[0][1] && parts[0][1] in parts[0];
    }
  }

  /** Whatever its parts are, a path is accepted exactly if each of them is a plain name, the last one has at most 512
      characters, and the whole at most 2048 UTF-16 units. */
  lemma PathIsGoodExactly(parts: seq<string>)
    requires parts != [] && Unslashed(parts)
    ensures GoodPath(Joined(parts)) <==>
              && (forall i :: 0 <= i < |parts| ==> PlainPart(parts[i]))
              && |parts[|parts| - 1]| <= 512 && UnitLen(Joined(parts)) <= 2_048
  {
    var path := Joined(parts);
    SplitJoined(parts);
    PrintableJoined(parts);
    hide Split, Joined, Unslashed, UnitLen;
    if forall i :: 0 <= i < |parts| ==> PlainPart(parts[i]) {
      GoodStart(parts);
      UnitsPositive(path);
    }
  }

  // --- Digests ---

  function Digit(n: nat): char
    requires n < 16
  {
    if n < 10 then ('0' as int + n) as char else ('a' as int + n - 10) as char
  }

  /** The bytes in hexadecimal, in lower case. */
  function Hex(bs: seq<byte>): string {
    if bs == [] then "" else [Digit(bs[0] as nat / 16), Digit(bs[0] as nat % 16)] + Hex(bs[1..])
  }

  predicate IsDigit(c: char) {
    '0' <= c <= '9' || 'a' <= c <= 'f'
  }

  function DigitValue(c: char): (n: nat)
    requires IsDigit(c)
    ensures n < 16 && Digit(n) == c
  {
    if c <= '9' then c as int - '0' as int else c as int - 'a' as int + 10
  }

  lemma DigitIsDigit(n: nat)
    requires n < 16
    ensures IsDigit(Digit(n))
  {
  }

  lemma {:induction false} HexShape(bs: seq<byte>)
    ensures |Hex(bs)| == 2 * |bs| && forall i :: 0 <= i < |Hex(bs)| ==> IsDigit(Hex(bs)[i])
  {
    hide IsDigit, Digit;
    if bs != [] {
      HexShape(bs[1..]);
      DigitIsDigit(bs[0] as nat / 16);
      DigitIsDigit(bs[0] as nat % 16);
    }
  }

  lemma Nibbles(high: nat, low: nat)
    requires high < 16 && low < 16
    ensures (16 * high + low) / 16 == high && (16 * high + low) % 16 == low
  {
  }

  function FromDigits(high: char, low: char): (b: byte)
    requires IsDigit(high) && IsDigit(low)
    ensures Digit(b as nat / 16) == high && Digit(b as nat % 16) == low
  {
    var h, l := DigitValue(high), DigitValue(low);
    Nibbles(h, l);
    (16 * h + l) as byte
  }

  lemma {:induction false} Unhex(s: string) returns (bs: seq<byte>)
    requires |s| % 2 == 0 && forall i :: 0 <= i < |s| ==> IsDigit(s[i])
    ensures Hex(bs) == s
    decreases |s|
  {
    hide IsDigit, Digit, FromDigits;
    if s == "" {
      bs := [];
    } else {
      var rest := Unhex(s[2..]);
      bs := [FromDigits(s[0], s[1])] + rest;
      assert bs[1..] == rest;
      assert s == [s[0], s[1]] + s[2..];
    }
  }

  /** A digest is accepted exactly if it is 32 bytes written in hexadecimal. */
  lemma DigestIsGoodExactly(sha256: string)
    ensures GoodDigest(sha256) <==> exists bs :: |bs| == 32 && Hex(bs) == sha256
  {
    if GoodDigest(sha256) {
      assert forall i :: 0 <= i < |sha256| ==> IsDigit(sha256[i]);
      var bs := Unhex(sha256);
      HexShape(bs);
      assert |bs| == 32 && Hex(bs) == sha256;
    }
    if bs :| |bs| == 32 && Hex(bs) == sha256 {
      HexShape(bs);
      assert forall i :: 0 <= i < 64 ==> IsDigit(sha256[i]);
    }
  }

  // --- The whole ---

  /** The declared sizes from the first file on. */
  function Declared(files: seq<Item>): int {
    if files == [] then 0 else files[0].size + Declared(files[1..])
  }

  lemma {:induction false} SumCons(first: Item, rest: seq<Item>)
    ensures Sum([first] + rest) == first.size + Sum(rest)
    decreases |rest|
  {
    var all := [first] + rest;
    if rest == [] {
      assert all[..0] == [] && Sum(all[..0]) == 0;
    } else {
      assert all[..|all| - 1] == [first] + rest[..|rest| - 1];
      SumCons(first, rest[..|rest| - 1]);
    }
  }

  lemma {:induction false} SumIsDeclared(files: seq<Item>)
    ensures Sum(files) == Declared(files)
  {
    if files != [] {
      assert files == [files[0]] + files[1..];
      SumCons(files[0], files[1..]);
      SumIsDeclared(files[1..]);
    }
  }

  /** A manifest of good paths and digests is accepted exactly if its directory name has 1 to 1024 units and no control
      character, it lists 1 to 65,535 files of distinct paths, no size is negative, and the sizes add up to the
      declared total of at most two GiB. */
  lemma AcceptedExactly(m: Manifest)
    requires forall i :: 0 <= i < |m.files| ==> GoodPath(m.files[i].path) && GoodDigest(m.files[i].sha256)
    requires forall i :: 0 <= i < |m.files| ==> SafeInteger(m.files[i].size)
    ensures Acceptable(m) <==>
              && 1 <= UnitLen(m.artifactDir) <= 1_024 && (forall i :: 0 <= i < |m.artifactDir| ==> m.artifactDir[i] >= ' ')
              && 1 <= |m.files| <= 65_535
              && (forall i :: 0 <= i < |m.files| ==> m.files[i].size >= 0)
              && (forall i, j :: 0 <= i < |m.files| && 0 <= j < |m.files| && m.files[i].path == m.files[j].path ==> i == j)
              && Declared(m.files) == m.totalBytes && m.totalBytes <= 2_147_483_648
  {
    SumIsDeclared(m.files);
    hide GoodPath, GoodDigest, Sum, Declared, UnitLen;
    if (forall i :: 0 <= i < |m.files| ==> m.files[i].size >= 0) && Declared(m.files) == m.totalBytes {
      TotalIsNatural(m.files);
    }
  }

  lemma TotalIsNatural(files: seq<Item>)
    requires forall i :: 0 <= i < |files| ==> files[i].size >= 0
    ensures Declared(files) >= 0
  {
    SumIsDeclared(files);
    SumGrows(files, 0);
  }
}
