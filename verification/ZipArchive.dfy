/** The streaming ZIP writer (APPNOTE sections 4.3.7, 4.3.9, 4.3.12 and 4.3.16), and an independent reader. */
module ZipArchive {
  import opened Options
  import opened Utf8
  import opened Crc32

  type Bytes = seq<byte>

  const LOCAL_SIGNATURE: nat := 0x04034b50
  const CENTRAL_SIGNATURE: nat := 0x02014b50
  const DESCRIPTOR_SIGNATURE: nat := 0x08074b50
  const END_SIGNATURE: nat := 0x06054b50
  const FLAGS: nat := 0x808

  /** `value >>> 0` in four bytes, least significant first. */
  function U32(value: nat): (bs: Bytes)
    ensures |bs| == 4
  {
    [(value % 256) as byte, (value / 0x100 % 256) as byte, (value / 0x1_0000 % 256) as byte, (value / 0x100_0000 % 256) as byte]
  }

  /** Two bytes; the writer throws beyond 16 bits. */
  function U16(value: nat): (bs: Bytes)
    requires value < 0x1_0000
    ensures |bs| == 2
  {
    [(value % 256) as byte, (value / 0x100) as byte]
  }

  function Number(bs: Bytes): nat {
    if bs == [] then 0 else bs[0] as nat + 256 * Number(bs[1..])
  }

  lemma NumberStep(bs: Bytes)
    requires bs != []
    ensures Number(bs) == bs[0] as nat + 256 * Number(bs[1..])
  {
  }

  lemma NumberU16(value: nat)
    requires value < 0x1_0000
    ensures Number(U16(value)) == value
  {
    var bs := U16(value);
    assert bs[1..] == [bs[1]];
    NumberStep([bs[1]]);
    assert Number([bs[1]]) == bs[1] as nat;
  }

  lemma NumberU32(value: nat)
    requires value < 0x1_0000_0000
    ensures Number(U32(value)) == value
  {
    var bs := U32(value);
    var hi := value / 0x1_0000;
    assert bs[2] as nat == hi % 256 && bs[3] as nat == hi / 256;
    assert bs[1..][1..] == U16(hi);
    NumberU16(hi);
    NumberStep(bs[1..]);
    assert value / 0x100 == value / 0x100 % 256 + 256 * hi;
  }

  // --- Writer ---

  predicate NameFits(name: Bytes) {
    |name| < 0x1_0000
  }

  function LocalHeader(name: Bytes): Bytes
    requires NameFits(name)
  {
    U32(LOCAL_SIGNATURE) + U16(20) + U16(FLAGS) + U16(0) + U16(0) + U16(0) +
    U32(0) + U32(0) + U32(0) + U16(|name|) + U16(0) + name
  }

  function CentralHeader(name: Bytes, crc: nat, size: nat, offset: nat): Bytes
    requires NameFits(name)
  {
    U32(CENTRAL_SIGNATURE) + U16(20) + U16(20) + U16(FLAGS) + U16(0) + U16(0) + U16(0) +
    U32(crc) + U32(size) + U32(size) + U16(|name|) + U16(0) + U16(0) + U16(0) + U16(0) + U32(0) + U32(offset) + name
  }

  function Descriptor(crc: nat, size: nat): (bs: Bytes)
    ensures |bs| == 16
  {
    U32(DESCRIPTOR_SIGNATURE) + U32(crc) + U32(size) + U32(size)
  }

  function End(count: nat, directorySize: nat, directoryOffset: nat): Bytes
    requires count < 0x1_0000
  {
    U32(END_SIGNATURE) + U16(0) + U16(0) + U16(count) + U16(count) + U32(directorySize) + U32(directoryOffset) + U16(0)
  }

  datatype File = File(name: Bytes, data: Bytes)

  /** One file as it is stored, with whatever checksum was written beside it. */
  datatype Stored = Stored(file: File, crc: nat)

  ghost predicate NamesFit(items: seq<Stored>) {
    forall i :: 0 <= i < |items| ==> NameFits(items[i].file.name)
  }

  function LocalPart(item: Stored): Bytes
    requires NameFits(item.file.name)
  {
    LocalHeader(item.file.name) + item.file.data + Descriptor(item.crc, |item.file.data|)
  }

  function Locals(items: seq<Stored>): Bytes
    requires NamesFit(items)
  {
    if items == [] then [] else Locals(items[..|items| - 1]) + LocalPart(items[|items| - 1])
  }

  function Directory(items: seq<Stored>): Bytes
    requires NamesFit(items)
  {
    if items == [] then []
    else
      var rest, item := items[..|items| - 1], items[|items| - 1];
      Directory(rest) + CentralHeader(item.file.name, item.crc, |item.file.data|, |Locals(rest)|)
  }

  function Archive(items: seq<Stored>): Bytes
    requires NamesFit(items) && |items| < 0x1_0000
  {
    Locals(items) + Directory(items) + End(|items|, |Directory(items)|, |Locals(items)|)
  }

  function Crc(data: Bytes): nat { Value(Checksum(data)) }

  function Sealed(files: seq<File>): (items: seq<Stored>)
    ensures |items| == |files| && forall i :: 0 <= i < |files| ==> items[i] == Stored(files[i], Crc(files[i].data))
  {
    seq(|files|, i requires 0 <= i < |files| => Stored(files[i], Crc(files[i].data)))
  }

  function Join(chunks: seq<Bytes>): Bytes {
    if chunks == [] then [] else Join(chunks[..|chunks| - 1]) + chunks[|chunks| - 1]
  }

  /** An entry as the writer meets it: a name, and the chunks its read stream happens to deliver. */
  datatype Entry = Entry(name: string, chunks: seq<Bytes>)

  function Files(entries: seq<Entry>): (files: seq<File>)
    ensures |files| == |entries|
    ensures forall i :: 0 <= i < |entries| ==> files[i] == File(Encode(entries[i].name), Join(entries[i].chunks))
  {
    seq(|entries|, i requires 0 <= i < |entries| => File(Encode(entries[i].name), Join(entries[i].chunks)))
  }

  ghost predicate Writable(entries: seq<Entry>) {
    |entries| < 0x1_0000 && forall i :: 0 <= i < |entries| ==> NameFits(Encode(entries[i].name))
  }

  /** Streams the archive; the result is what the consumer has received. It fails exactly when a name
      or the entry count does not fit 16 bits. */
  method ZipEntries(entries: seq<Entry>) returns (ok: bool, out: Bytes)
    ensures ok <==> Writable(entries)
    ensures ok ==> NamesFit(Sealed(Files(entries))) && out == Archive(Sealed(Files(entries)))
  {
    hide Encode, LocalPart, CentralHeader, End, Join, Crc;
    var central: Bytes := [];
    var offset := 0;
    ghost var items := Sealed(Files(entries));
    WritableNames(entries);
    out := [];
    for i := 0 to |entries|
      invariant NamesFit(items[..i])
      invariant out == Locals(items[..i]) && offset == |out|
      invariant central == Directory(items[..i])
    {
      var name := Encode(entries[i].name);
      if |name| >= 0x1_0000 {
        return false, out;
      }
      var yielded, record := WriteEntry(name, entries[i].chunks, offset);
      assert items[i].file == File(name, Join(entries[i].chunks));
      PartsGrow(items, i);
      out := out + yielded;
      offset := offset + |yielded|;
      central := central + record;
    }
    assert items[..|items|] == items;
    if |entries| >= 0x1_0000 {
      return false, out;
    }
    ok, out := true, out + central + End(|entries|, |central|, offset);
  }

  /** One entry: header, the file's chunks, descriptor; and the directory record kept for later. */
  method WriteEntry(name: Bytes, chunks: seq<Bytes>, headerOffset: nat) returns (yielded: Bytes, record: Bytes)
    requires NameFits(name)
    ensures var item := Stored(File(name, Join(chunks)), Crc(Join(chunks)));
            yielded == LocalPart(item) && record == CentralHeader(name, item.crc, |item.file.data|, headerOffset)
  {
    var crc, size, data := WriteChunks(chunks);
    yielded := LocalHeader(name) + data + Descriptor(crc, size);
    record := CentralHeader(name, crc, size, headerOffset);
  }

  lemma WritableNames(entries: seq<Entry>)
    ensures Writable(entries) <==> |entries| < 0x1_0000 && NamesFit(Sealed(Files(entries)))
  {
    var items := Sealed(Files(entries));
    assert forall i :: 0 <= i < |entries| ==> items[i].file.name == Encode(entries[i].name);
    if NamesFit(items) {
      forall i | 0 <= i < |entries| ensures NameFits(Encode(entries[i].name)) {
        assert NameFits(items[i].file.name);
      }
    }
  }

  lemma PartsGrow(items: seq<Stored>, i: nat)
    requires i < |items| && NamesFit(items[..i]) && NameFits(items[i].file.name)
    ensures NamesFit(items[..i + 1])
    ensures Locals(items[..i + 1]) == Locals(items[..i]) + LocalPart(items[i])
    ensures Directory(items[..i + 1]) == Directory(items[..i])
              + CentralHeader(items[i].file.name, items[i].crc, |items[i].file.data|, |Locals(items[..i])|)
  {
    assert items[..i + 1][..i] == items[..i];
  }

  /** The read loop of one entry: running checksum, running size, bytes passed on. */
  method WriteChunks(chunks: seq<Bytes>) returns (crc: nat, size: nat, data: Bytes)
    ensures data == Join(chunks) && size == |data| && crc == Crc(data)
  {
    var word := ZERO;
    size, data := 0, [];
    assert Absorb(Xor(ZERO, ONES), []) == Xor(ZERO, ONES);
    XorCancels(ZERO, ONES);
    for i := 0 to |chunks|
      invariant data == Join(chunks[..i]) && size == |data|
      invariant word == Checksum(data)
    {
      assert chunks[..i + 1][..i] == chunks[..i];
      UpdateConcat(ZERO, data, chunks[i]);
      word := Crc32Update(word, chunks[i]);
      size := size + |chunks[i]|;
      data := data + chunks[i];
    }
    assert chunks[..|chunks|] == chunks;
    crc := Value(word);
  }

  // --- Reader ---

  function Field(z: Bytes, at: nat, n: nat): Bytes
    requires at + n <= |z|
  {
    z[at..at + n]
  }

  /** The file that a local header at `offset` introduces, checked against its directory entry. */
  function ReadLocal(z: Bytes, offset: nat, name: Bytes, crc: nat, size: nat): Option<File> {
    if offset + 30 > |z| || Number(Field(z, offset, 4)) != LOCAL_SIGNATURE then None
    else if Number(Field(z, offset + 6, 2)) != FLAGS || Number(Field(z, offset + 8, 2)) != 0 then None
    else
      var nameLen := Number(Field(z, offset + 26, 2));
      var start := offset + 30 + nameLen + Number(Field(z, offset + 28, 2));
      if start + size + 16 > |z| || Field(z, offset + 30, nameLen) != name then None
      else
        var data := Field(z, start, size);
        if Crc(data) != crc then None
        else if Field(z, start + size, 16) != Descriptor(crc, size) then None
        else Some(File(name, data))
  }

  /** The files of the n directory entries starting at `at`; the directory must end where the end record begins. */
  function ReadDirectory(z: Bytes, at: nat, n: nat): Option<seq<File>>
    requires 22 <= |z|
    decreases n
  {
    if n == 0 then if at == |z| - 22 then Some([]) else None
    else if at + 46 > |z| || Number(Field(z, at, 4)) != CENTRAL_SIGNATURE then None
    else
      var nameLen := Number(Field(z, at + 28, 2));
      var next := at + 46 + nameLen + Number(Field(z, at + 30, 2)) + Number(Field(z, at + 32, 2));
      if next > |z| || Number(Field(z, at + 20, 4)) != Number(Field(z, at + 24, 4)) then None
      else
        var file := ReadLocal(z, Number(Field(z, at + 42, 4)), Field(z, at + 46, nameLen),
                              Number(Field(z, at + 16, 4)), Number(Field(z, at + 24, 4)));
        var rest := ReadDirectory(z, next, n - 1);
        if file.None? || rest.None? then None else Some([file.value] + rest.value)
  }

  /** End record, then central directory, then each local header. */
  function ReadArchive(z: Bytes): Option<seq<File>> {
    if |z| < 22 then None
    else
      var e := |z| - 22;
      if Number(Field(z, e, 4)) != END_SIGNATURE || Number(Field(z, e + 20, 2)) != 0 then None
      else if Number(Field(z, e + 8, 2)) != Number(Field(z, e + 10, 2)) then None
      else if Number(Field(z, e + 16, 4)) + Number(Field(z, e + 12, 4)) != e then None
      else ReadDirectory(z, Number(Field(z, e + 16, 4)), Number(Field(z, e + 10, 2)))
  }

  // --- Placement of parts ---

  ghost predicate At(z: Bytes, p: nat, x: Bytes) {
    p + |x| <= |z| && z[p..p + |x|] == x
  }

  lemma AtConcat(z: Bytes, p: nat, x: Bytes, y: Bytes)
    ensures At(z, p, x + y) <==> At(z, p, x) && At(z, p + |x|, y)
  {
    if p + |x| + |y| <= |z| {
      var w := z[p..p + |x| + |y|];
      assert w == z[p..p + |x|] + z[p + |x|..p + |x| + |y|];
      assert w[..|x|] == z[p..p + |x|] && w[|x|..] == z[p + |x|..p + |x| + |y|];
      assert (x + y)[..|x|] == x && (x + y)[|x|..] == y;
    }
  }

  lemma AtField(z: Bytes, p: nat, x: Bytes, a: nat, n: nat)
    requires At(z, p, x) && a + n <= |x|
    ensures Field(z, p + a, n) == x[a..a + n]
  {
    var q, r := z[p + a..p + a + n], x[a..a + n];
    forall k | 0 <= k < n ensures q[k] == r[k] {
      assert z[p..p + |x|][a + k] == x[a + k];
    }
  }

  lemma LocalHeaderFields(name: Bytes)
    requires NameFits(name)
    ensures var h := LocalHeader(name);
            && |h| == 30 + |name|
            && h[0..4] == U32(LOCAL_SIGNATURE) && h[6..8] == U16(FLAGS) && h[8..10] == U16(0)
            && h[26..28] == U16(|name|) && h[28..30] == U16(0) && h[30..30 + |name|] == name
  {
    hide U32, U16, NameFits;
  }

  lemma CentralHeaderFields(name: Bytes, crc: nat, size: nat, offset: nat)
    requires NameFits(name)
    ensures var h := CentralHeader(name, crc, size, offset);
            && |h| == 46 + |name|
            && h[0..4] == U32(CENTRAL_SIGNATURE) && h[16..20] == U32(crc)
            && h[20..24] == U32(size) && h[24..28] == U32(size)
            && h[28..30] == U16(|name|) && h[30..32] == U16(0) && h[32..34] == U16(0)
            && h[42..46] == U32(offset) && h[46..46 + |name|] == name
  {
    hide U32, U16, NameFits;
  }

  lemma EndFields(count: nat, size: nat, offset: nat)
    requires count < 0x1_0000
    ensures var h := End(count, size, offset);
            && |h| == 22
            && h[0..4] == U32(END_SIGNATURE) && h[8..10] == U16(count) && h[10..12] == U16(count)
            && h[12..16] == U32(size) && h[16..20] == U32(offset) && h[20..22] == U16(0)
  {
  }

  // --- The bytes before the varying fields ---

  lemma LocalLiterals()
    ensures U32(LOCAL_SIGNATURE) == [0x50, 0x4B, 0x03, 0x04] && U32(0) == [0, 0, 0, 0]
    ensures U16(20) == [20, 0] && U16(FLAGS) == [8, 8] && U16(0) == [0, 0]
  {
  }

  lemma LocalHeaderBytes(name: Bytes)
    requires NameFits(name)
    ensures var h := LocalHeader(name);
            && |h| == 30 + |name|
            && h[..26] == [0x50, 0x4B, 0x03, 0x04, 20, 0, 8, 8, 0, 0, 0, 0, 0, 0, 0, 0, 0, 0, 0, 0, 0, 0, 0, 0, 0, 0]
            && h[28..30] == [0, 0]
  {
    var h := LocalHeader(name);
    LocalHeaderFields(name);
    hide U32, U16;
    LocalLiterals();
    assert h[..26] == U32(LOCAL_SIGNATURE) + U16(20) + U16(FLAGS) + U16(0) + U16(0) + U16(0) + U32(0) + U32(0) + U32(0);
  }

  lemma CentralHeaderBytes(name: Bytes, crc: nat, size: nat, offset: nat)
    requires NameFits(name)
    ensures var h := CentralHeader(name, crc, size, offset);
            && |h| == 46 + |name|
            && h[..16] == [0x50, 0x4B, 0x01, 0x02, 20, 0, 20, 0, 8, 8, 0, 0, 0, 0, 0, 0]
            && h[30..42] == [0, 0, 0, 0, 0, 0, 0, 0, 0, 0, 0, 0]
  {
    var h := CentralHeader(name, crc, size, offset);
    CentralHeaderFields(name, crc, size, offset);
    assert h[..16] == U32(CENTRAL_SIGNATURE) + U16(20) + U16(20) + U16(FLAGS) + U16(0) + U16(0) + U16(0);
    assert h[30..42] == U16(0) + U16(0) + U16(0) + U16(0) + U32(0);
  }

  lemma EndAndDescriptorBytes(count: nat, directorySize: nat, directoryOffset: nat, crc: nat, size: nat)
    requires count < 0x1_0000
    ensures var h := End(count, directorySize, directoryOffset);
            |h| == 22 && h[..8] == [0x50, 0x4B, 0x05, 0x06, 0, 0, 0, 0] && h[20..22] == [0, 0]
    ensures var d := Descriptor(crc, size);
            d[..4] == [0x50, 0x4B, 0x07, 0x08] && d[4..8] == U32(crc) && d[8..12] == U32(size) && d[12..16] == U32(size)
  {
    var h := End(count, directorySize, directoryOffset);
    EndFields(count, directorySize, directoryOffset);
    assert h[..8] == U32(END_SIGNATURE) + U16(0) + U16(0);
  }
}
