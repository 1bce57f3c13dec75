/** What a reader recovers from an archive, and that no 16- or 32-bit field ever overflows. */
module ZipRoundTrip {
  import opened Options
  import opened Utf8
  import opened Crc32
  import opened Utf8Decoder
  import opened ZipArchive

  function FilesOf(items: seq<Stored>): (files: seq<File>)
    ensures |files| == |items| && forall i :: 0 <= i < |items| ==> files[i] == items[i].file
  {
    seq(|items|, i requires 0 <= i < |items| => items[i].file)
  }

  ghost predicate Intact(item: Stored) {
    item.crc == Crc(item.file.data)
  }

  ghost predicate AllIntact(items: seq<Stored>) {
    forall i :: 0 <= i < |items| ==> Intact(items[i])
  }

  /** Every number the archive stores fits its field. */
  ghost predicate FitsFormat(items: seq<Stored>) {
    && NamesFit(items) && |items| < 0x1_0000
    && |Archive(items)| < 0x1_0000_0000
    && forall i :: 0 <= i < |items| ==> items[i].crc < 0x1_0000_0000
  }

  // --- Reading one entry ---

  lemma SameDescriptor(z: Bytes, p: nat, item: Stored)
    requires At(z, p, Descriptor(item.crc, |item.file.data|))
    ensures Field(z, p, 16) == Descriptor(item.crc, |item.file.data|)
  {
  }

  lemma LocalFields(z: Bytes, p: nat, name: Bytes)
    requires NameFits(name) && At(z, p, LocalHeader(name))
    ensures p + 30 + |name| <= |z|
    ensures Field(z, p, 4) == U32(LOCAL_SIGNATURE) && Field(z, p + 6, 2) == U16(FLAGS) && Field(z, p + 8, 2) == U16(0)
    ensures Field(z, p + 26, 2) == U16(|name|) && Field(z, p + 28, 2) == U16(0) && Field(z, p + 30, |name|) == name
  {
    LocalHeaderFields(name);
    AtField(z, p, LocalHeader(name), 0, 4);
    AtField(z, p, LocalHeader(name), 6, 2);
    AtField(z, p, LocalHeader(name), 8, 2);
    AtField(z, p, LocalHeader(name), 26, 2);
    AtField(z, p, LocalHeader(name), 28, 2);
    AtField(z, p, LocalHeader(name), 30, |name|);
  }

  lemma LocalNumbers(z: Bytes, p: nat, name: Bytes)
    requires NameFits(name) && At(z, p, LocalHeader(name))
    ensures p + 30 + |name| <= |z| && |LocalHeader(name)| == 30 + |name|
    ensures Number(Field(z, p, 4)) == LOCAL_SIGNATURE && Number(Field(z, p + 6, 2)) == FLAGS && Number(Field(z, p + 8, 2)) == 0
    ensures Number(Field(z, p + 26, 2)) == |name| && Number(Field(z, p + 28, 2)) == 0 && Field(z, p + 30, |name|) == name
  {
    hide U16, U32, LocalHeader, Number;
    LocalFields(z, p, name);
    LocalHeaderFields(name);
    NumberU32(LOCAL_SIGNATURE);
    NumberU16(FLAGS);
    NumberU16(0);
    NumberU16(|name|);
  }

  /** A stored file reads back exactly when its checksum is its own. */
  lemma ReadLocalBack(z: Bytes, p: nat, item: Stored)
    requires NameFits(item.file.name) && At(z, p, LocalPart(item))
    ensures ReadLocal(z, p, item.file.name, item.crc, |item.file.data|) == if Intact(item) then Some(item.file) else None
  {
    hide U16, U32, LocalHeader, Descriptor, Number, Crc;
    var name, data := item.file.name, item.file.data;
    var start := p + 30 + |name|;
    AtConcat(z, p, LocalHeader(name) + data, Descriptor(item.crc, |data|));
    AtConcat(z, p, LocalHeader(name), data);
    LocalNumbers(z, p, name);
    AtField(z, start, data, 0, |data|);
    SameDescriptor(z, start + |data|, item);
    assert Field(z, start, |data|) == data;
  }

  lemma CentralFields(z: Bytes, p: nat, name: Bytes, crc: nat, size: nat, offset: nat)
    requires NameFits(name) && At(z, p, CentralHeader(name, crc, size, offset))
    ensures p + 46 + |name| <= |z|
    ensures Field(z, p, 4) == U32(CENTRAL_SIGNATURE) && Field(z, p + 16, 4) == U32(crc)
    ensures Field(z, p + 20, 4) == U32(size) && Field(z, p + 24, 4) == U32(size)
    ensures Field(z, p + 28, 2) == U16(|name|) && Field(z, p + 30, 2) == U16(0) && Field(z, p + 32, 2) == U16(0)
    ensures Field(z, p + 42, 4) == U32(offset) && Field(z, p + 46, |name|) == name
  {
    var h := CentralHeader(name, crc, size, offset);
    CentralHeaderFields(name, crc, size, offset);
    AtField(z, p, h, 0, 4);
    AtField(z, p, h, 16, 4);
    AtField(z, p, h, 20, 4);
    AtField(z, p, h, 24, 4);
    AtField(z, p, h, 28, 2);
    AtField(z, p, h, 30, 2);
    AtField(z, p, h, 32, 2);
    AtField(z, p, h, 42, 4);
    AtField(z, p, h, 46, |name|);
  }

  lemma CentralNumbers(z: Bytes, p: nat, item: Stored, offset: nat)
    requires NameFits(item.file.name) && At(z, p, CentralHeader(item.file.name, item.crc, |item.file.data|, offset))
    requires item.crc < 0x1_0000_0000 && |item.file.data| < 0x1_0000_0000 && offset < 0x1_0000_0000
    ensures p + 46 + |item.file.name| <= |z|
    ensures Number(Field(z, p, 4)) == CENTRAL_SIGNATURE && Number(Field(z, p + 16, 4)) == item.crc
    ensures Number(Field(z, p + 20, 4)) == Number(Field(z, p + 24, 4)) == |item.file.data|
    ensures Number(Field(z, p + 28, 2)) == |item.file.name|
    ensures Number(Field(z, p + 30, 2)) == 0 && Number(Field(z, p + 32, 2)) == 0
    ensures Number(Field(z, p + 42, 4)) == offset && Field(z, p + 46, |item.file.name|) == item.file.name
  {
    hide U16, U32, CentralHeader, Number;
    CentralFields(z, p, item.file.name, item.crc, |item.file.data|, offset);
    NumberU32(CENTRAL_SIGNATURE);
    NumberU32(item.crc);
    NumberU32(|item.file.data|);
    NumberU32(offset);
    NumberU16(|item.file.name|);
    NumberU16(0);
  }

  lemma ReadEntryBack(z: Bytes, p: nat, offset: nat, item: Stored, n: nat)
    requires 22 <= |z| && n > 0 && NameFits(item.file.name)
    requires At(z, p, CentralHeader(item.file.name, item.crc, |item.file.data|, offset)) && At(z, offset, LocalPart(item))
    requires item.crc < 0x1_0000_0000 && |item.file.data| < 0x1_0000_0000 && offset < 0x1_0000_0000
    ensures var rest := ReadDirectory(z, p + 46 + |item.file.name|, n - 1);
            ReadDirectory(z, p, n) == if Intact(item) && rest.Some? then Some([item.file] + rest.value) else None
  {
    hide U16, U32, CentralHeader, LocalPart, ReadLocal, Number, Crc;
    CentralNumbers(z, p, item, offset);
    ReadLocalBack(z, offset, item);
  }

  // --- Where the parts lie ---

  lemma {:induction false} PrefixPlaced(z: Bytes, p: nat, items: seq<Stored>, i: nat)
    requires NamesFit(items) && i <= |items|
    ensures At(z, p, Locals(items)) ==> At(z, p, Locals(items[..i]))
    ensures At(z, p, Directory(items)) ==> At(z, p, Directory(items[..i]))
    decreases |items|
  {
    if i < |items| {
      var n := |items| - 1;
      AtConcat(z, p, Locals(items[..n]), LocalPart(items[n]));
      AtConcat(z, p, Directory(items[..n]),
               CentralHeader(items[n].file.name, items[n].crc, |items[n].file.data|, |Locals(items[..n])|));
      PrefixPlaced(z, p, items[..n], i);
      assert items[..n][..i] == items[..i];
    } else {
      assert items[..i] == items;
    }
  }

  lemma EntryPlaced(z: Bytes, items: seq<Stored>, i: nat)
    requires NamesFit(items) && i < |items|
    requires At(z, 0, Locals(items)) && At(z, |Locals(items)|, Directory(items))
    ensures At(z, |Locals(items[..i])|, LocalPart(items[i]))
    ensures At(z, |Locals(items)| + |Directory(items[..i])|,
               CentralHeader(items[i].file.name, items[i].crc, |items[i].file.data|, |Locals(items[..i])|))
    ensures |Directory(items[..i + 1])| == |Directory(items[..i])| + 46 + |items[i].file.name|
    ensures |LocalPart(items[i])| >= |items[i].file.data|
  {
    hide LocalHeader, CentralHeader, Descriptor, Locals, Directory;
    var item := items[i];
    PrefixPlaced(z, 0, items, i + 1);
    PrefixPlaced(z, |Locals(items)|, items, i + 1);
    PartsGrow(items, i);
    AtConcat(z, 0, Locals(items[..i]), LocalPart(item));
    AtConcat(z, |Locals(items)|, Directory(items[..i]),
             CentralHeader(item.file.name, item.crc, |item.file.data|, |Locals(items[..i])|));
    CentralHeaderFields(item.file.name, item.crc, |item.file.data|, |Locals(items[..i])|);
  }

  lemma {:induction false} ReadDirectoryBack(z: Bytes, items: seq<Stored>, i: nat)
    requires FitsFormat(items) && i <= |items|
    requires At(z, 0, Locals(items)) && At(z, |Locals(items)|, Directory(items))
    requires |z| == |Locals(items)| + |Directory(items)| + 22 < 0x1_0000_0000
    ensures ReadDirectory(z, |Locals(items)| + |Directory(items[..i])|, |items| - i)
            == if AllIntact(items[i..]) then Some(FilesOf(items[i..])) else None
    decreases |items| - i
  {
    hide ReadLocal, ReadDirectory, LocalPart, CentralHeader, End, Locals, Directory, AllIntact, FilesOf, Intact;
    if i == |items| {
      NothingLeft(z, items);
    } else {
      EntryPlaced(z, items, i);
      ReadDirectoryBack(z, items, i + 1);
      ReadEntryBack(z, |Locals(items)| + |Directory(items[..i])|, |Locals(items[..i])|, items[i], |items| - i);
      IntactStep(items, i);
    }
  }

  lemma NothingLeft(z: Bytes, items: seq<Stored>)
    requires 22 <= |z|
    ensures ReadDirectory(z, |z| - 22, 0) == Some([])
    ensures items[..|items|] == items && AllIntact(items[|items|..]) && FilesOf(items[|items|..]) == []
  {
  }

  lemma IntactStep(items: seq<Stored>, i: nat)
    requires i < |items|
    ensures AllIntact(items[i..]) <==> Intact(items[i]) && AllIntact(items[i + 1..])
    ensures FilesOf(items[i..]) == [items[i].file] + FilesOf(items[i + 1..])
  {
    hide Intact;
    assert items[i..] == [items[i]] + items[i + 1..];
    IntactCons(items[i], items[i + 1..]);
  }

  lemma IntactCons(item: Stored, rest: seq<Stored>)
    ensures AllIntact([item] + rest) <==> Intact(item) && AllIntact(rest)
    ensures FilesOf([item] + rest) == [item.file] + FilesOf(rest)
  {
    hide Intact, FilesOf;
    var all := [item] + rest;
    assert all[0] == item && forall j :: 0 <= j < |rest| ==> all[j + 1] == rest[j];
    FilesCons(item, rest);
    if AllIntact(all) {
      forall j | 0 <= j < |rest| ensures Intact(rest[j]) {
        assert Intact(all[j + 1]);
      }
    }
  }

  lemma FilesCons(item: Stored, rest: seq<Stored>)
    ensures FilesOf([item] + rest) == [item.file] + FilesOf(rest)
  {
    hide FilesOf;
    var all, files := [item] + rest, [item.file] + FilesOf(rest);
    forall i | 0 <= i < |all| ensures FilesOf(all)[i] == files[i] {
      assert i > 0 ==> all[i] == rest[i - 1];
    }
  }

  /** For stored files with any checksums beside them: the reader returns exactly the stored files if
      every checksum is right, and refuses the archive if one is wrong. */
  lemma ReadBack(items: seq<Stored>)
    requires FitsFormat(items)
    ensures ReadArchive(Archive(items)) == if AllIntact(items) then Some(FilesOf(items)) else None
  {
    hide U16, U32, Number, LocalPart, CentralHeader, End, Locals, Directory, ReadDirectory, Intact, AllIntact, FilesOf;
    var l, d := Locals(items), Directory(items);
    PartsPlaced(l, d, End(|items|, |d|, |l|));
    EndFields(|items|, |d|, |l|);
    EndPlaced(Archive(items), |l| + |d|, |items|, |d|, |l|);
    ReadDirectoryBack(Archive(items), items, 0);
    NothingRead(items);
  }

  lemma NothingRead(items: seq<Stored>)
    requires NamesFit(items)
    ensures items[0..] == items && Directory(items[..0]) == []
  {
  }

  lemma PartsPlaced(l: Bytes, d: Bytes, end: Bytes)
    ensures At(l + d + end, 0, l) && At(l + d + end, |l|, d) && At(l + d + end, |l| + |d|, end)
  {
    assert At(l + d + end, 0, l + d + end);
    AtConcat(l + d + end, 0, l + d, end);
    AtConcat(l + d + end, 0, l, d);
  }

  lemma EndPlaced(z: Bytes, e: nat, count: nat, size: nat, offset: nat)
    requires count < 0x1_0000 && size < 0x1_0000_0000 && offset < 0x1_0000_0000
    requires At(z, e, End(count, size, offset)) && |z| == e + 22
    ensures Number(Field(z, e, 4)) == END_SIGNATURE && Number(Field(z, e + 20, 2)) == 0
    ensures Number(Field(z, e + 8, 2)) == Number(Field(z, e + 10, 2)) == count
    ensures Number(Field(z, e + 12, 4)) == size && Number(Field(z, e + 16, 4)) == offset
  {
    var h := End(count, size, offset);
    EndFields(count, size, offset);
    AtField(z, e, h, 0, 4);
    AtField(z, e, h, 8, 2);
    AtField(z, e, h, 10, 2);
    AtField(z, e, h, 12, 4);
    AtField(z, e, h, 16, 4);
    AtField(z, e, h, 20, 2);
    NumberU32(END_SIGNATURE);
    NumberU32(size);
    NumberU32(offset);
    NumberU16(count);
    NumberU16(0);
  }

  lemma CrcFits(data: Bytes)
    ensures Crc(data) < 0x1_0000_0000
  {
    ValueBound(Checksum(data));
    Pow2Word();
  }

  // --- Sizes ---

  function NameUnits(entries: seq<Entry>): nat {
    if entries == [] then 0 else NameUnits(entries[..|entries| - 1]) + UnitLen(entries[|entries| - 1].name)
  }

  function DataBytes(entries: seq<Entry>): nat {
    if entries == [] then 0 else DataBytes(entries[..|entries| - 1]) + |Join(entries[|entries| - 1].chunks)|
  }

  /** The limits that an accepted manifest guarantees. */
  ghost predicate WithinLimits(entries: seq<Entry>) {
    && |entries| <= 65_535
    && (forall i :: 0 <= i < |entries| ==> UnitLen(entries[i].name) <= 2_048)
    && DataBytes(entries) <= 0x8000_0000
  }

  lemma LimitsWritable(entries: seq<Entry>)
    requires WithinLimits(entries)
    ensures Writable(entries)
  {
    forall i | 0 <= i < |entries| ensures NameFits(Encode(entries[i].name)) {
      ThreeBytesPerUnit(entries[i].name);
    }
  }

  lemma PartLengths(item: Stored, offset: nat)
    requires NameFits(item.file.name)
    ensures |LocalPart(item)| == 46 + |item.file.name| + |item.file.data|
    ensures |CentralHeader(item.file.name, item.crc, |item.file.data|, offset)| == 46 + |item.file.name|
  {
    LocalHeaderFields(item.file.name);
    CentralHeaderFields(item.file.name, item.crc, |item.file.data|, offset);
  }

  /** Every file costs at most 92 bytes of headers, twice its name, and its data. */
  lemma {:induction false} PartsBound(entries: seq<Entry>)
    requires Writable(entries)
    requires forall i :: 0 <= i < |entries| ==> UnitLen(entries[i].name) <= 2_048
    ensures var items := Sealed(Files(entries));
            NamesFit(items) && |Locals(items)| + |Directory(items)| <= (92 + 2 * 6_144) * |entries| + DataBytes(entries)
  {
    hide LocalPart, CentralHeader, Encode, Join, Crc, ByteLen, UnitLen;
    WritableNames(entries);
    if entries != [] {
      var n := |entries| - 1;
      PartsBound(entries[..n]);
      LastPartBound(entries);
    }
  }

  lemma LastPartBound(entries: seq<Entry>)
    requires Writable(entries) && entries != [] && UnitLen(entries[|entries| - 1].name) <= 2_048
    ensures var n, items, less := |entries| - 1, Sealed(Files(entries)), Sealed(Files(entries[..|entries| - 1]));
            && NamesFit(items) && NamesFit(less)
            && |Locals(items)| + |Directory(items)|
               <= |Locals(less)| + |Directory(less)| + 92 + 2 * 6_144 + |Join(entries[n].chunks)|
  {
    hide LocalPart, CentralHeader, Encode, Join, Crc, Locals, Directory, ByteLen, UnitLen;
    var n, items := |entries| - 1, Sealed(Files(entries));
    WritableNames(entries);
    assert Sealed(Files(entries[..n])) == items[..n];
    assert items[..n + 1] == items;
    PartsGrow(items, n);
    ThreeBytesPerUnit(entries[n].name);
    PartLengths(items[n], |Locals(items[..n])|);
    assert items[n].file == File(Encode(entries[n].name), Join(entries[n].chunks));
  }

  /** Within the limits no field is ever truncated: offsets, sizes, directory size and archive length
      stay below 2^32, names and the count below 2^16. */
  lemma NeverTruncates(entries: seq<Entry>)
    requires WithinLimits(entries)
    ensures Writable(entries) && FitsFormat(Sealed(Files(entries)))
  {
    hide LocalPart, CentralHeader, End, Encode, Join, Crc, Locals, Directory, DataBytes;
    LimitsWritable(entries);
    PartsBound(entries);
    var items := Sealed(Files(entries));
    EndFields(|items|, |Directory(items)|, |Locals(items)|);
    forall i | 0 <= i < |items| ensures items[i].crc < 0x1_0000_0000 {
      CrcFits(items[i].file.data);
    }
  }

  /** The chunks one after the other, from the first on. */
  function Concatenation(chunks: seq<Bytes>): Bytes {
    if chunks == [] then [] else chunks[0] + Concatenation(chunks[1..])
  }

  lemma {:induction false} JoinCons(first: Bytes, rest: seq<Bytes>)
    ensures Join([first] + rest) == first + Join(rest)
  {
    var all := [first] + rest;
    if rest == [] {
      assert all[..0] == [];
      assert Join(all) == [] + first;
      assert first + [] == first;
    } else {
      assert all[..|all| - 1] == [first] + rest[..|rest| - 1];
      JoinCons(first, rest[..|rest| - 1]);
    }
  }

  lemma {:induction false} JoinIsConcatenation(chunks: seq<Bytes>)
    ensures Join(chunks) == Concatenation(chunks)
  {
    if chunks != [] {
      assert chunks == [chunks[0]] + chunks[1..];
      JoinCons(chunks[0], chunks[1..]);
      JoinIsConcatenation(chunks[1..]);
    }
  }

  /** What was read: as UTF-8 the very names of the entries, and the bytes their streams delivered, in order. */
  ghost predicate Recovers(read: Option<seq<File>>, entries: seq<Entry>) {
    && read.Some? && |read.value| == |entries|
    && forall i :: 0 <= i < |entries| ==>
         Decode(read.value[i].name) == Some(entries[i].name) && read.value[i].data == Concatenation(entries[i].chunks)
  }

  lemma FilesRecover(entries: seq<Entry>)
    ensures Recovers(Some(Files(entries)), entries)
  {
    hide Decode, Encode, Join, Concatenation;
    forall i | 0 <= i < |entries|
      ensures Decode(Files(entries)[i].name) == Some(entries[i].name) && Files(entries)[i].data == Concatenation(entries[i].chunks)
    {
      DecodeEncode(entries[i].name);
      JoinIsConcatenation(entries[i].chunks);
    }
  }

  /** Round trip: whatever the chunking, the reader recovers exactly the names and bytes written. */
  lemma RoundTrip(entries: seq<Entry>)
    requires WithinLimits(entries)
    ensures Writable(entries) && NamesFit(Sealed(Files(entries)))
    ensures Recovers(ReadArchive(Archive(Sealed(Files(entries)))), entries)
  {
    hide Recovers, ReadArchive;
    NeverTruncates(entries);
    var items := Sealed(Files(entries));
    ReadBack(items);
    assert AllIntact(items);
    assert FilesOf(items) == Files(entries);
    FilesRecover(entries);
  }

  lemma ByteChangesCrc(data: Bytes, i: nat, b: byte)
    requires i < |data| && data[i] != b
    ensures Crc(data) != Crc(data[i := b])
  {
    OneByteChangesCrc(ZERO, data, i, b);
    if Crc(data) == Crc(data[i := b]) {
      ValueInjective(Checksum(data), Checksum(data[i := b]));
    }
  }

  /** The f-th file with one data byte replaced, its recorded checksum left as it was. */
  function Damage(items: seq<Stored>, f: nat, i: nat, b: byte): (damaged: seq<Stored>)
    requires f < |items| && i < |items[f].file.data|
    ensures |damaged| == |items|
  {
    items[f := Stored(File(items[f].file.name, items[f].file.data[i := b]), items[f].crc)]
  }

  lemma DamageFits(items: seq<Stored>, f: nat, i: nat, b: byte)
    requires FitsFormat(items) && f < |items| && i < |items[f].file.data|
    ensures FitsFormat(Damage(items, f, i, b))
  {
    hide LocalPart, CentralHeader, End, Locals, Directory;
    var damaged := Damage(items, f, i, b);
    SameLength(items, f, damaged[f], |items|);
    assert items[..|items|] == items && damaged[..|items|] == damaged;
    EndFields(|items|, |Directory(items)|, |Locals(items)|);
    EndFields(|damaged|, |Directory(damaged)|, |Locals(damaged)|);
  }

  /** A reader never accepts an archive in which one data byte differs from what was written. */
  lemma DamageIsDetected(entries: seq<Entry>, f: nat, i: nat, b: byte)
    requires WithinLimits(entries) && f < |entries|
    requires i < |Join(entries[f].chunks)| && Join(entries[f].chunks)[i] != b
    ensures var damaged := Damage(Sealed(Files(entries)), f, i, b);
            NamesFit(damaged) && |damaged| < 0x1_0000 && ReadArchive(Archive(damaged)) == None
  {
    hide LocalPart, CentralHeader, End, Locals, Directory, ReadArchive, Crc, Encode, Join, DataBytes, UnitLen;
    var items := Sealed(Files(entries));
    NeverTruncates(entries);
    DamageFits(items, f, i, b);
    ByteChangesCrc(items[f].file.data, i, b);
    assert !Intact(Damage(items, f, i, b)[f]);
    ReadBack(Damage(items, f, i, b));
  }

  lemma {:induction false} SameLength(items: seq<Stored>, f: nat, other: Stored, n: nat)
    requires NamesFit(items) && f < |items| && n <= |items|
    requires other.file.name == items[f].file.name && |other.file.data| == |items[f].file.data|
    ensures var damaged := items[f := other];
            NamesFit(damaged) && |Locals(damaged[..n])| == |Locals(items[..n])| && |Directory(damaged[..n])| == |Directory(items[..n])|
  {
    hide LocalHeader, CentralHeader;
    var damaged := items[f := other];
    if n > 0 {
      SameLength(items, f, other, n - 1);
      PartsGrow(items, n - 1);
      PartsGrow(damaged, n - 1);
      CentralHeaderFields(items[n - 1].file.name, items[n - 1].crc, |items[n - 1].file.data|, |Locals(items[..n - 1])|);
      CentralHeaderFields(damaged[n - 1].file.name, damaged[n - 1].crc, |damaged[n - 1].file.data|, |Locals(damaged[..n - 1])|);
    }
  }
}
