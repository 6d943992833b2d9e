/** The schema index: two tables of references behind two headers, both inside the system-data area. */
module DataStorageSchemaIndex {
  import opened Words
  import opened DataStorage

  /** Where a segment's payload starts, where its system data ends and where the segment ends. */
  datatype Bounds = Bounds(start: u64, systemEnd: u64, end: u64)

  function SystemBounds(r: ByteReader, s: Segment): (b: Option<Bounds>)
    ensures b.Some? ==> b.value.start <= b.value.systemEnd <= b.value.end <= |r.data|
    ensures b.Some? ==> s.offset > 0 && b.value.start == s.offset as int + SEGMENT_HEADER_SIZE as int
    ensures b.Some? ==> b.value.end <= s.offset as int + s.size as int
  {
    var start, end := CheckedAdd(s.offset, SEGMENT_HEADER_SIZE), CheckedAdd(s.offset, s.size);
    if s.offset == 0 || s.size < SEGMENT_HEADER_SIZE || start.None? || end.None? then None
    else if start.value > Min(end.value, |r.data|) then None
    else if s.systemDataAlignmentOffset == 0 then
      Some(Bounds(start.value, Min(end.value, |r.data|), Min(end.value, |r.data|)))
    else
      var bytes := CheckedMultiply(s.systemDataAlignmentOffset, 16);
      if bytes.None? then None
      else
        var aligned := CheckedAdd(s.offset, bytes.value);
        if aligned.None? || aligned.value < start.value || aligned.value > Min(end.value, |r.data|) then None
        else Some(Bounds(start.value, aligned.value, Min(end.value, |r.data|)))
  }

  /** The first table stores index, segment, offset; the second stores segment, offset, index. */
  datatype Order = IndexFirst | IndexLast

  function DecodeReference(r: ByteReader, at: u64, order: Order): SchemaReference
    requires r.Has(at, SCHEMA_INDEX_ENTRY_SIZE)
  {
    match order
    case IndexFirst => SchemaReference(r.U32(at), r.U32(at + 4), r.U32(at + 8))
    case IndexLast => SchemaReference(r.U32(at + 8), r.U32(at), r.U32(at + 4))
  }

  function ReferenceCount(declared: u32, base: u64, end: u64): (n: u32)
    ensures n <= declared && (n > 0 ==> base + n * SCHEMA_INDEX_ENTRY_SIZE <= end)
  {
    CapCount(declared, if base < end then end - base else 0, SCHEMA_INDEX_ENTRY_SIZE)
  }

  ghost function References(r: ByteReader, base: u64, n: u32, order: Order): (refs: seq<SchemaReference>)
    requires n > 0 ==> base + n * SCHEMA_INDEX_ENTRY_SIZE <= |r.data|
    ensures |refs| == n
  {
    seq(n, i requires 0 <= i < n => DecodeReference(r, base + i * SCHEMA_INDEX_ENTRY_SIZE, order))
  }

  /** The capped count keeps every entry in bounds, so the per-entry truncation branch never runs. */
  method ReadReferences(r: ByteReader, base: u64, n: u32, end: u64, order: Order) returns (refs: seq<SchemaReference>)
    requires end <= |r.data| && (n > 0 ==> base + n * SCHEMA_INDEX_ENTRY_SIZE <= end)
    ensures refs == References(r, base, n, order)
  {
    refs := [];
    var i: u32 := 0;
    while i < n
      invariant i <= n && refs == References(r, base, n, order)[..i]
    {
      var delta := CheckedMultiply(i, SCHEMA_INDEX_ENTRY_SIZE);
      if delta.None? || CheckedAdd(base, delta.value).None?
         || !IsRangeWithin(base + delta.value, SCHEMA_INDEX_ENTRY_SIZE, end)
         || !r.Has(base + delta.value, SCHEMA_INDEX_ENTRY_SIZE) {
        assert false;
      }
      refs := refs + [DecodeReference(r, base + delta.value, order)];
      i := i + 1;
    }
  }

  /** Both tables, and whether they were complete. */
  datatype Tables = Tables(schemas: seq<SchemaReference>, properties: seq<SchemaReference>, sound: bool)

  ghost function SchemaTables(r: ByteReader, segments: seq<Segment>, which: i32): Tables {
    if which < 0 then Tables([], [], true)
    else if which >= |segments| || segments[which].kind != SchemaIndex then Tables([], [], false)
    else
      match SystemBounds(r, segments[which])
      case None => Tables([], [], false)
      case Some(b) => if b.start + 8 > b.systemEnd then Tables([], [], false) else TablesIn(r, b.start, b.systemEnd)
  }

  /** A table, and whether it was complete. */
  datatype Table = Table(refs: seq<SchemaReference>, complete: bool)

  ghost function TableAt(r: ByteReader, declared: u32, base: u64, end: u64, order: Order): Table
    requires end <= |r.data|
  {
    var n := ReferenceCount(declared, base, end);
    Table(References(r, base, n, order), n == declared)
  }

  /** The second table stands behind the n entries of the first one and two more counts. */
  ghost function PropertyTable(r: ByteReader, start: u64, n: u32, end: u64): Table
    requires start <= end <= |r.data|
  {
    var after := start as int + n * SCHEMA_INDEX_ENTRY_SIZE;
    if after + 16 > end then Table([], false) else TableAt(r, r.U32(after + 8), after + 16, end, IndexLast)
  }

  ghost function TablesIn(r: ByteReader, start: u64, end: u64): Tables
    requires start + 8 <= end <= |r.data|
  {
    var first := TableAt(r, r.U32(start), start + 8, end, IndexFirst);
    var second := PropertyTable(r, start + 8, |first.refs|, end);
    Tables(first.refs, second.refs, first.complete && second.complete)
  }

  /** One table, cut to the entries that fit. */
  method ReadTable(r: ByteReader, declared: u32, base: u64, end: u64, order: Order, section: Section)
    returns (refs: seq<SchemaReference>)
    requires base <= end <= |r.data| && section.Valid()
    modifies section`structurallyValid, section`replayAllowed
    ensures section.Valid() && refs == TableAt(r, declared, base, end, order).refs
    ensures section.structurallyValid ==
            (old(section.structurallyValid) && TableAt(r, declared, base, end, order).complete)
  {
    var n := ReferenceCount(declared, base, end);
    if n < declared {
      section.PushStructuralDiag();
    }
    refs := ReadReferences(r, base, n, end, order);
  }

  method ReadPropertyTable(r: ByteReader, start: u64, n: u32, end: u64, section: Section)
    returns (refs: seq<SchemaReference>)
    requires start <= end <= |r.data| && section.Valid()
    modifies section`structurallyValid, section`replayAllowed
    ensures section.Valid() && refs == PropertyTable(r, start, n, end).refs
    ensures section.structurallyValid ==
            (old(section.structurallyValid) && PropertyTable(r, start, n, end).complete)
  {
    var bytes := CheckedMultiply(n, SCHEMA_INDEX_ENTRY_SIZE);
    var after := if bytes.None? then None else CheckedAdd(start, bytes.value);
    if after.None? || !IsRangeWithin(after.value, 16, end) || !r.Has(after.value, 16) {
      section.PushStructuralDiag();
      return [];
    }
    refs := ReadTable(r, r.U32(after.value + 8), after.value + 16, end, IndexLast, section);
  }

  method ReadTables(r: ByteReader, start: u64, end: u64, section: Section)
    requires start + 8 <= end <= |r.data| && section.Valid()
    modifies section`schemaIndexEntries, section`schemaPropertyEntries, section`structurallyValid,
             section`replayAllowed
    ensures section.Valid()
    ensures section.schemaIndexEntries == old(section.schemaIndexEntries) + TablesIn(r, start, end).schemas
    ensures section.schemaPropertyEntries == old(section.schemaPropertyEntries) + TablesIn(r, start, end).properties
    ensures section.structurallyValid == (old(section.structurallyValid) && TablesIn(r, start, end).sound)
  {
    var schemas := ReadTable(r, r.U32(start), start + 8, end, IndexFirst, section);
    section.schemaIndexEntries := section.schemaIndexEntries + schemas;
    var properties := ReadPropertyTable(r, start + 8, |schemas|, end, section);
    section.schemaPropertyEntries := section.schemaPropertyEntries + properties;
  }

  method ReadSchemaIndex(r: ByteReader, which: i32, section: Section)
    requires section.Valid()
    modifies section`schemaIndexEntries, section`schemaPropertyEntries, section`structurallyValid,
             section`replayAllowed
    ensures section.Valid()
    ensures var t := SchemaTables(r, section.segments, which);
            && section.schemaIndexEntries == old(section.schemaIndexEntries) + t.schemas
            && section.schemaPropertyEntries == old(section.schemaPropertyEntries) + t.properties
            && section.structurallyValid == (old(section.structurallyValid) && t.sound)
  {
    if which < 0 {
      return;
    }
    if which >= |section.segments| || section.segments[which].kind != SchemaIndex {
      section.PushStructuralDiag();
      return;
    }
    var b := SystemBounds(r, section.segments[which]);
    if b.None? || !IsRangeWithin(b.value.start, 8, b.value.systemEnd) || !r.Has(b.value.start, 8) {
      section.PushStructuralDiag();
      return;
    }
    ReadTables(r, b.value.start, b.value.systemEnd, section);
  }
}
