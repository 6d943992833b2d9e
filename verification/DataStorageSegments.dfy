/** The segment index: a dense table of segments, each validated against its own header. */
module DataStorageSegments {
  import opened Words
  import opened DataStorage

  function LowerChar(c: char): char {
    if 'A' <= c <= 'Z' then ((c as int) + 32) as char else c
  }

  function ToLower(name: string): (s: string)
    ensures |s| == |name|
  {
    seq(|name|, i requires 0 <= i < |name| => LowerChar(name[i]))
  }

  function ClassifyKind(name: string): SegmentKind {
    var n := ToLower(name);
    if n == "segidx" then SegmentIndex
    else if n == "datidx" || n == "dindex" then DataIndex
    else if n == "_data_" || n == "data" then Data
    else if n == "schidx" then SchemaIndex
    else if n == "schdat" then SchemaData
    else if n == "search" then Search
    else if "blob" <= n then Blob
    else if n == "prvsav" then PreviousSave
    else if n == "freesp" then FreeSpace
    else if n == "schema" then Schema
    else Unknown
  }

  /** An index slot before its header has been looked at. */
  function BareSegment(i: u32, offset: u64, size: u32): Segment {
    var payloadOffset := CheckedAdd(offset, SEGMENT_HEADER_SIZE);
    Segment(i, offset, size, if payloadOffset.Some? then payloadOffset.value else 0,
            if size >= SEGMENT_HEADER_SIZE then size - SEGMENT_HEADER_SIZE else 0,
            0, "", -1, 0, false, 0, false, 0, 0, Unknown, false)
  }

  function WithHeader(r: ByteReader, bare: Segment): Segment
    requires r.Has(bare.offset, SEGMENT_HEADER_SIZE)
  {
    var at := bare.offset;
    var signature := r.U16(at);
    var name := r.Ascii(at + 2, 6);
    var headerIndex := r.I32(at + 8);
    var identityValid := signature == SEGMENT_SIGNATURE && headerIndex == ToI32(bare.index);
    var kind := if identityValid then ClassifyKind(name) else Unknown;
    bare.(signature := signature, name := name, segmentIndex := headerIndex,
          headerSegmentSize := r.U32(at + 16), hasHeaderSegmentSize := true,
          revision := r.U32(at + 24), hasRevision := true,
          systemDataAlignmentOffset := r.U32(at + 32), objectDataAlignmentOffset := r.U32(at + 36),
          kind := kind, isKnownKind := kind != Unknown)
  }

  predicate ReadsHeader(r: ByteReader, bare: Segment) {
    bare.offset != 0 && bare.size >= SEGMENT_HEADER_SIZE && r.Has(bare.offset, SEGMENT_HEADER_SIZE)
  }

  function DecodeSegment(r: ByteReader, base: u64, i: u32): Segment
    requires r.Has(base, (i + 1) * SEGMENT_INDEX_ENTRY_SIZE)
  {
    var at := base + i * SEGMENT_INDEX_ENTRY_SIZE;
    var bare := BareSegment(i, r.U64(at), r.U32(at + 8));
    if ReadsHeader(r, bare) then WithHeader(r, bare) else bare
  }

  /** Whether a slot raises no structural diagnostic of its own. A wrong signature, a header index
      that differs from the slot, a disagreeing header size and an unaligned size are tolerated. */
  predicate SlotSound(r: ByteReader, s: Segment) {
    && (s.offset != 0 ==> s.size >= SEGMENT_HEADER_SIZE && r.Has(s.offset, SEGMENT_HEADER_SIZE))
    && s.offset as int + s.size as int <= |r.data|
  }

  ghost predicate UsesHeaderIndex(table: seq<Segment>, j: nat, h: i32)
    requires j < |table|
  {
    table[j].hasRevision && table[j].segmentIndex == h
  }

  ghost predicate RepeatsHeaderIndex(table: seq<Segment>, i: nat)
    requires i < |table|
  {
    table[i].hasRevision && exists j :: 0 <= j < i && UsesHeaderIndex(table, j, table[i].segmentIndex)
  }

  ghost predicate Seen(seen: map<i32, u32>, table: seq<Segment>, n: nat)
    requires n <= |table|
  {
    forall h :: h in seen <==> exists j :: 0 <= j < n && UsesHeaderIndex(table, j, h)
  }

  ghost predicate TableSound(r: ByteReader, table: seq<Segment>, n: nat)
    requires n <= |table|
  {
    forall i :: 0 <= i < n ==> SlotSound(r, table[i]) && !RepeatsHeaderIndex(table, i)
  }

  /** Where the index's entries start, and where they must end: a valid self-reference narrows the section. */
  datatype Extent = Extent(base: u64, end: u64, selfReferenceInvalid: bool)

  function IndexExtent(r: ByteReader, offset: u32): (e: Extent)
    ensures e.base == offset as int + SEGMENT_HEADER_SIZE
    ensures e.base < e.end ==> e.end <= |r.data|
  {
    var base := offset + SEGMENT_HEADER_SIZE;
    if r.Has(base, SEGMENT_INDEX_ENTRY_SIZE) && r.U64(base) == offset then
      var size := r.U32(base + 8);
      if size < SEGMENT_HEADER_SIZE || CheckedAdd(offset, size).None? || !IsRangeWithin(offset, size, |r.data|)
      then Extent(base, base, true)
      else Extent(base, Min(|r.data|, offset + size), false)
    else Extent(base, |r.data|, false)
  }

  function SegmentCount(r: ByteReader, offset: u32, declared: u32): (n: u32)
    ensures n <= declared && n <= HARD_MAX_ENTRIES
    ensures n > 0 ==> r.Has(IndexExtent(r, offset).base, n * SEGMENT_INDEX_ENTRY_SIZE)
    ensures n > 0 ==> IndexExtent(r, offset).base + n * SEGMENT_INDEX_ENTRY_SIZE <= IndexExtent(r, offset).end
  {
    var e := IndexExtent(r, offset);
    CapCount(declared, if e.base < e.end then e.end - e.base else 0, SEGMENT_INDEX_ENTRY_SIZE)
  }

  /** The table the reader builds: one segment for every counted slot. */
  ghost function SegmentTable(r: ByteReader, offset: u32, declared: u32): (table: seq<Segment>)
    ensures |table| == SegmentCount(r, offset, declared)
  {
    var base := IndexExtent(r, offset).base;
    seq(SegmentCount(r, offset, declared), i requires 0 <= i < SegmentCount(r, offset, declared) =>
      DecodeSegment(r, base, i))
  }

  ghost predicate SegmentIndexSound(r: ByteReader, offset: u32, declared: u32) {
    && !IndexExtent(r, offset).selfReferenceInvalid
    && SegmentCount(r, offset, declared) == declared
    && TableSound(r, SegmentTable(r, offset, declared), declared)
  }

  /** The bounds checks of one slot, in the order the reader makes them. */
  method CheckSlot(r: ByteReader, section: Section, s: Segment)
    requires section.Valid()
    modifies section`structurallyValid, section`replayAllowed
    ensures section.Valid()
    ensures section.structurallyValid == (old(section.structurallyValid) && SlotSound(r, s))
  {
    if s.offset != 0 && s.size < SEGMENT_HEADER_SIZE {
      section.PushStructuralDiag();
      return;
    }
    if CheckedAdd(s.offset, s.size).None? || !IsRangeWithin(s.offset, s.size, |r.data|) {
      section.PushStructuralDiag();
    }
    if s.offset != 0 && !r.Has(s.offset, SEGMENT_HEADER_SIZE) {
      section.PushStructuralDiag();
    }
  }

  /** The tail of one iteration: diagnostics, the repeated-index check, and the dense append. */
  method AppendSlot(r: ByteReader, section: Section, segment: Segment, seen: map<i32, u32>,
                    ghost table: seq<Segment>, ghost n: nat) returns (seen': map<i32, u32>)
    requires section.Valid() && n < |table| && segment == table[n] && segment.index == n
    requires Seen(seen, table, n)
    modifies section`segments, section`structurallyValid, section`replayAllowed
    ensures section.Valid() && Seen(seen', table, n + 1)
    ensures section.segments == old(section.segments) + [table[n]]
    ensures section.structurallyValid ==
            (old(section.structurallyValid) && SlotSound(r, table[n]) && !RepeatsHeaderIndex(table, n))
  {
    CheckSlot(r, section, segment);
    seen' := seen;
    if segment.hasRevision {
      if segment.segmentIndex in seen {
        section.PushStructuralDiag();
      } else {
        seen' := seen[segment.segmentIndex := segment.index];
      }
      assert UsesHeaderIndex(table, n, segment.segmentIndex);
    }
    section.segments := section.segments + [segment];
  }

  ghost predicate Describes(table: seq<Segment>, r: ByteReader, base: u64) {
    && (|table| > 0 ==> base + |table| * SEGMENT_INDEX_ENTRY_SIZE <= |r.data|)
    && forall j: u32 {:trigger DecodeSegment(r, base, j)} :: j < |table| ==> table[j] == DecodeSegment(r, base, j)
  }

  /** The capped count keeps every entry in bounds, so the per-entry truncation branch never runs. */
  method ReadSlot(r: ByteReader, extent: Extent, i: u32, ghost table: seq<Segment>) returns (segment: Segment)
    requires i < |table| && Describes(table, r, extent.base)
    requires extent.base + |table| * SEGMENT_INDEX_ENTRY_SIZE <= extent.end
    ensures segment == table[i] && segment.index == i
  {
    var delta := CheckedMultiply(i, SEGMENT_INDEX_ENTRY_SIZE);
    if delta.None? || CheckedAdd(extent.base, delta.value).None?
       || !IsRangeWithin(extent.base + delta.value, SEGMENT_INDEX_ENTRY_SIZE, extent.end)
       || !r.Has(extent.base + delta.value, SEGMENT_INDEX_ENTRY_SIZE) {
      assert false;
    }
    segment := DecodeSegment(r, extent.base, i);
  }

  method ReadSlots(r: ByteReader, extent: Extent, maxCount: u32, section: Section, ghost table: seq<Segment>)
    requires section.Valid() && |table| == maxCount && Describes(table, r, extent.base)
    requires maxCount > 0 ==> extent.base + maxCount * SEGMENT_INDEX_ENTRY_SIZE <= extent.end
    modifies section`segments, section`structurallyValid, section`replayAllowed
    ensures section.Valid() && section.segments == old(section.segments) + table
    ensures section.structurallyValid == (old(section.structurallyValid) && TableSound(r, table, maxCount))
  {
    var seenHeaderIndexes: map<i32, u32> := map[];
    var i: u32 := 0;
    while i < maxCount
      invariant i <= maxCount && section.Valid() && Seen(seenHeaderIndexes, table, i)
      invariant section.segments == old(section.segments) + table[..i]
      invariant section.structurallyValid == (old(section.structurallyValid) && TableSound(r, table, i))
    {
      var segment := ReadSlot(r, extent, i, table);
      seenHeaderIndexes := AppendSlot(r, section, segment, seenHeaderIndexes, table, i);
      TakeNext(table, i);
      i := i + 1;
    }
    assert table[..i] == table;
  }

  method ReadSegmentIndex(r: ByteReader, offset: u32, count: u32, section: Section)
    requires section.Valid()
    modifies section`segments, section`structurallyValid, section`replayAllowed
    ensures section.Valid()
    ensures section.segments == old(section.segments) + SegmentTable(r, offset, count)
    ensures section.structurallyValid == (old(section.structurallyValid) && SegmentIndexSound(r, offset, count))
  {
    var extent := IndexExtent(r, offset);
    if extent.selfReferenceInvalid {
      section.PushStructuralDiag();
    }
    var maxCount := SegmentCount(r, offset, count);
    if maxCount < count {
      section.PushStructuralDiag();
    }
    ReadSlots(r, extent, maxCount, section, SegmentTable(r, offset, count));
  }

  /** The table is dense: slot i describes index entry i. */
  lemma SegmentTableIsDense(r: ByteReader, offset: u32, declared: u32, i: nat)
    requires i < SegmentCount(r, offset, declared)
    ensures SegmentTable(r, offset, declared)[i].index == i
  {
  }

  /** An accepted identity means that the slot's header stores the slot's own index. */
  lemma KnownKindStoresItsIndex(r: ByteReader, base: u64, i: u32)
    requires r.Has(base, (i + 1) * SEGMENT_INDEX_ENTRY_SIZE)
    requires DecodeSegment(r, base, i).kind != Unknown
    ensures ReadsHeader(r, DecodeSegment(r, base, i)) && DecodeSegment(r, base, i).hasRevision
    ensures r.I32(DecodeSegment(r, base, i).offset + 8) == ToI32(i)
  {
  }

  /** Two slots whose identity was accepted never share an offset: both would read one header,
      and its stored index matches a single slot. */
  lemma KnownKindsHaveDistinctOffsets(r: ByteReader, offset: u32, declared: u32, i: nat, j: nat)
    requires i < SegmentCount(r, offset, declared) && j < SegmentCount(r, offset, declared)
    requires SegmentTable(r, offset, declared)[i].kind != Unknown
    requires SegmentTable(r, offset, declared)[j].kind != Unknown
    requires SegmentTable(r, offset, declared)[i].offset == SegmentTable(r, offset, declared)[j].offset
    ensures i == j
  {
    var base := IndexExtent(r, offset).base;
    KnownKindStoresItsIndex(r, base, i);
    KnownKindStoresItsIndex(r, base, j);
    assert ToI32(i) == ToI32(j);
  }
}
