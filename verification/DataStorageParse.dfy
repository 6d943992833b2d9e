/** The whole reader: header checks, then every stage in order on one section object. */
module DataStorageParse {
  import opened Words
  import opened DataStorage
  import Segments = DataStorageSegments
  import SchemaIndex = DataStorageSchemaIndex
  import SchemaData = DataStorageSchemaData
  import DataIndex = DataStorageDataIndex
  import Records = DataStorageRecords
  import RecordIndex = DataStorageRecordIndex
  import Text

  datatype Header = Header(
    segmentIndexOffset: u32, segmentCount: u32, schemaIndex: i32, dataIndex: i32, search: i32,
    previousSave: i32, fileSize: u32)

  function ReadHeader(r: ByteReader): Header
    requires |r.data| >= HEADER_SIZE
  {
    Header(r.U32(24), r.U32(32), r.I32(36), r.I32(40), r.I32(44), r.I32(48), r.U32(52))
  }

  predicate ValidSegmentIndex(index: i32, count: u32) {
    index == -1 || 0 <= index < count
  }

  predicate HeaderSound(h: Header, size: u64) {
    && h.fileSize == size
    && HEADER_SIZE <= h.segmentIndexOffset <= size
    && ValidSegmentIndex(h.schemaIndex, h.segmentCount) && ValidSegmentIndex(h.dataIndex, h.segmentCount)
    && ValidSegmentIndex(h.search, h.segmentCount) && ValidSegmentIndex(h.previousSave, h.segmentCount)
  }

  ghost function SegmentsOf(r: ByteReader): seq<Segment>
    requires |r.data| >= HEADER_SIZE
  {
    Segments.SegmentTable(r, ReadHeader(r).segmentIndexOffset, ReadHeader(r).segmentCount)
  }

  ghost function EntriesOf(r: ByteReader): seq<IndexEntry>
    requires |r.data| >= HEADER_SIZE
  {
    DataIndex.DataIndexOf(r, SegmentsOf(r), ReadHeader(r).dataIndex)
  }

  ghost function DecoderFor(r: ByteReader): Records.Decoder
    requires |r.data| >= HEADER_SIZE
  {
    Records.DecoderOf(r, SegmentsOf(r), |r.data| <= PAYLOAD_BLOB_SECTION_CAP)
  }

  /** The records, and whether no entry was dropped. */
  ghost function ProcessedEntries(r: ByteReader): (seq<Record>, bool)
    requires |r.data| >= HEADER_SIZE
  {
    Records.Process(DecoderFor(r), EntriesOf(r), Records.RecordCap(r, EntriesOf(r)))
  }

  /** The record cache's requirement holds of every parsed segment table. */
  lemma ParsedDataOffsetsAreDistinct(r: ByteReader)
    requires |r.data| >= HEADER_SIZE
    ensures Records.DataOffsetsDistinct(SegmentsOf(r))
  {
    var h, segments := ReadHeader(r), SegmentsOf(r);
    forall i, j | 0 <= i < j < |segments| && segments[i].IsData() && segments[j].IsData()
      ensures segments[i].offset != segments[j].offset
    {
      if segments[i].offset == segments[j].offset {
        Segments.KnownKindsHaveDistinctOffsets(r, h.segmentIndexOffset, h.segmentCount, i, j);
      }
    }
  }

  /** A record comes from an index entry, names an existing data segment, carries the text of its handle, and its
      data and payload are sound in that segment. */
  ghost predicate RecordSound(r: ByteReader, record: Record, segments: seq<Segment>, entries: seq<IndexEntry>) {
    && record.segmentIndex < |segments| && segments[record.segmentIndex].IsData()
    && record.handleKey == Text.Hex(record.handle)
    && (exists e :: e in entries && Records.SameTarget(record, e) && record.schemaIndex == e.schemaIndex)
    && Records.PayloadSound(r, segments, segments[record.segmentIndex], |r.data| <= PAYLOAD_BLOB_SECTION_CAP, record)
  }

  /** Every record of a parse is sound. */
  lemma ParsedRecordIsSound(r: ByteReader, i: nat)
    requires |r.data| >= HEADER_SIZE && i < |ProcessedEntries(r).0|
    ensures RecordSound(r, ProcessedEntries(r).0[i], SegmentsOf(r), EntriesOf(r))
  {
    var es := EntriesOf(r);
    var k := Records.RecordsComeFromEntries(DecoderFor(r), es, Records.RecordCap(r, es), i);
    assert DecoderFor(r)(es[k])
           == Records.Decode(r, SegmentsOf(r), es[k], |r.data| <= PAYLOAD_BLOB_SECTION_CAP);
    Records.KeptRecordNamesItsEntry(r, SegmentsOf(r), es[k], |r.data| <= PAYLOAD_BLOB_SECTION_CAP);
    Records.KeptPayloadIsSound(r, SegmentsOf(r), es[k], |r.data| <= PAYLOAD_BLOB_SECTION_CAP);
  }

  /** No two records share their segment and local offset. */
  lemma ParsedRecordTargetsAreDistinct(r: ByteReader, i: nat, j: nat)
    requires |r.data| >= HEADER_SIZE && i < j < |ProcessedEntries(r).0|
    ensures var records := ProcessedEntries(r).0;
            records[i].segmentIndex != records[j].segmentIndex || records[i].localOffset != records[j].localOffset
  {
    var es := EntriesOf(r);
    forall a, b | 0 <= a < b < |es|
      ensures es[a].segmentIndex != es[b].segmentIndex || es[a].localOffset != es[b].localOffset
    {
      match DataIndex.Locate(r, SegmentsOf(r), ReadHeader(r).dataIndex) {
        case Located(t) => DataIndex.KeptTargetsAreDistinct(DataIndex.RawEntries(r, t));
        case _ => assert false;
      }
    }
    Records.DecoderKeepsTargets(r, SegmentsOf(r), |r.data| <= PAYLOAD_BLOB_SECTION_CAP);
    Records.RecordTargetsAreDistinct(DecoderFor(r), es, Records.RecordCap(r, es), i, j);
  }

  ghost predicate AllSound(r: ByteReader, records: seq<Record>, segments: seq<Segment>, entries: seq<IndexEntry>) {
    forall i :: 0 <= i < |records| ==> RecordSound(r, records[i], segments, entries)
  }

  lemma ParsedRecordsAreSound(r: ByteReader)
    requires |r.data| >= HEADER_SIZE
    ensures AllSound(r, ProcessedEntries(r).0, SegmentsOf(r), EntriesOf(r))
  {
    forall i | 0 <= i < |ProcessedEntries(r).0|
      ensures RecordSound(r, ProcessedEntries(r).0[i], SegmentsOf(r), EntriesOf(r))
    {
      ParsedRecordIsSound(r, i);
    }
  }

  lemma SoundRecordsAreIndexable(r: ByteReader, records: seq<Record>, segments: seq<Segment>, entries: seq<IndexEntry>)
    requires AllSound(r, records, segments, entries)
    ensures RecordIndex.Indexable(records, segments)
  {
    forall i | 0 <= i < |records| ensures RecordSound(r, records[i], segments, entries) {
    }
  }

  ghost function TablesOf(r: ByteReader): SchemaIndex.Tables
    requires |r.data| >= HEADER_SIZE
  {
    SchemaIndex.SchemaTables(r, SegmentsOf(r), ReadHeader(r).schemaIndex)
  }

  ghost function FillFor(r: ByteReader): SchemaData.Fill
    requires |r.data| >= HEADER_SIZE
  {
    SchemaData.FillOf(r, SegmentsOf(r), TablesOf(r).schemas, TablesOf(r).properties)
  }

  // ---------------------------------------------------------------------------------------------
  // The stages

  /** What the stages are to find, as values. */
  datatype Stages = Stages(
    segments: seq<Segment>, segmentsSound: bool, tables: SchemaIndex.Tables, fill: SchemaData.Fill,
    entries: seq<IndexEntry>, entriesSound: bool, decode: Records.Decoder, cap: u32)
  {
    ghost function SchemaPart(): SchemaData.Part {
      SchemaData.SchemaDataOf(fill, tables.schemas, segments)
    }

    /** The records, and whether no entry was dropped. */
    ghost function AllRecords(): (seq<Record>, bool) {
      Records.Process(decode, entries, cap)
    }

    ghost predicate Sound() {
      && segmentsSound && tables.sound && SchemaPart().sound && entriesSound
      && cap == |entries| % 0x1_0000_0000 && AllRecords().1
    }
  }

  ghost function StagesOf(r: ByteReader): Stages
    requires |r.data| >= HEADER_SIZE
  {
    Stages(SegmentsOf(r), Segments.SegmentIndexSound(r, ReadHeader(r).segmentIndexOffset, ReadHeader(r).segmentCount),
           TablesOf(r), FillFor(r),
           EntriesOf(r), DataIndex.DataIndexSound(r, SegmentsOf(r), ReadHeader(r).dataIndex),
           DecoderFor(r), Records.RecordCap(r, EntriesOf(r)))
  }

  ghost predicate DescribesSegments(v: Stages, r: ByteReader, h: Header) {
    forall o, n {:trigger Segments.SegmentTable(r, o, n)} ::
      o == h.segmentIndexOffset && n == h.segmentCount ==>
        v.segments == Segments.SegmentTable(r, o, n) && v.segmentsSound == Segments.SegmentIndexSound(r, o, n)
  }

  ghost predicate DescribesSchemas(v: Stages, r: ByteReader, h: Header) {
    && (forall i {:trigger SchemaIndex.SchemaTables(r, v.segments, i)} ::
          i == h.schemaIndex ==> v.tables == SchemaIndex.SchemaTables(r, v.segments, i))
    && SchemaData.Fills(v.fill, r, v.segments, v.tables.schemas, v.tables.properties)
  }

  ghost predicate DescribesEntries(v: Stages, r: ByteReader, h: Header) {
    && (forall i {:trigger DataIndex.DataIndexOf(r, v.segments, i)} ::
          i == h.dataIndex ==>
            v.entries == DataIndex.DataIndexOf(r, v.segments, i)
            && v.entriesSound == DataIndex.DataIndexSound(r, v.segments, i))
    && (forall es {:trigger Records.RecordCap(r, es)} :: es == v.entries ==> v.cap == Records.RecordCap(r, es))
  }

  ghost predicate DescribesRecords(v: Stages, r: ByteReader) {
    && Records.Decodes(v.decode, r, v.segments, |r.data| <= PAYLOAD_BLOB_SECTION_CAP)
    && Records.DataOffsetsDistinct(v.segments)
  }

  /** The values are the stages' own results, each linked to the function that defines it. */
  ghost predicate Describes(v: Stages, r: ByteReader, h: Header) {
    DescribesSegments(v, r, h) && DescribesSchemas(v, r, h) && DescribesEntries(v, r, h) && DescribesRecords(v, r)
  }

  /** What the stages rely on holds of every input, and what they find is sound. */
  ghost predicate Ready(v: Stages, r: ByteReader, h: Header) {
    && Describes(v, r, h) && v.cap <= HARD_MAX_ENTRIES
    && AllSound(r, v.AllRecords().0, v.segments, v.entries)
  }

  lemma SchemasAreDescribed(r: ByteReader)
    requires |r.data| >= HEADER_SIZE
    ensures DescribesSchemas(StagesOf(r), r, ReadHeader(r))
  {
    SchemaData.FillOfFills(r, SegmentsOf(r), TablesOf(r).schemas, TablesOf(r).properties);
  }

  lemma RecordsAreDescribed(r: ByteReader)
    requires |r.data| >= HEADER_SIZE
    ensures DescribesRecords(StagesOf(r), r)
  {
    ParsedDataOffsetsAreDistinct(r);
    Records.DecoderOfDecodes(r, SegmentsOf(r), |r.data| <= PAYLOAD_BLOB_SECTION_CAP);
  }

  lemma EntriesAreDescribed(r: ByteReader)
    requires |r.data| >= HEADER_SIZE
    ensures DescribesSegments(StagesOf(r), r, ReadHeader(r)) && DescribesEntries(StagesOf(r), r, ReadHeader(r))
  {
  }

  lemma StagesAreReady(r: ByteReader)
    requires |r.data| >= HEADER_SIZE
    ensures Ready(StagesOf(r), r, ReadHeader(r))
  {
    EntriesAreDescribed(r);
    SchemasAreDescribed(r);
    RecordsAreDescribed(r);
    ParsedRecordsAreSound(r);
    assert StagesOf(r).AllRecords() == ProcessedEntries(r);
  }

  lemma EmptyPrefix<T>(s: seq<T>)
    ensures [] + s == s
  {
  }

  ghost predicate NoSchemas(section: Section)
    reads section
  {
    section.schemas == [] && section.schemaPropertyNames == [] && section.schemaUnknownProperties == []
  }

  ghost predicate HoldsSchemas(section: Section, v: Stages)
    reads section
  {
    && section.schemas == v.SchemaPart().schemas && section.schemaPropertyNames == v.SchemaPart().names
    && section.schemaUnknownProperties == v.SchemaPart().unknowns
  }

  method ReadSegmentStage(r: ByteReader, h: Header, section: Section, ghost v: Stages)
    requires section.Valid() && Describes(v, r, h) && section.segments == []
    modifies section`segments, section`structurallyValid, section`replayAllowed
    ensures section.Valid() && section.segments == v.segments
    ensures section.structurallyValid == (old(section.structurallyValid) && v.segmentsSound)
  {
    Segments.ReadSegmentIndex(r, h.segmentIndexOffset, h.segmentCount, section);
    EmptyPrefix(v.segments);
  }

  method ReadSchemaIndexStage(r: ByteReader, h: Header, section: Section, ghost v: Stages)
    requires section.Valid() && Describes(v, r, h) && section.segments == v.segments
    requires section.schemaIndexEntries == [] && section.schemaPropertyEntries == []
    modifies section`schemaIndexEntries, section`schemaPropertyEntries, section`structurallyValid,
             section`replayAllowed
    ensures section.Valid()
    ensures section.schemaIndexEntries == v.tables.schemas && section.schemaPropertyEntries == v.tables.properties
    ensures section.structurallyValid == (old(section.structurallyValid) && v.tables.sound)
  {
    SchemaIndex.ReadSchemaIndex(r, h.schemaIndex, section);
    EmptyPrefix(v.tables.schemas);
    EmptyPrefix(v.tables.properties);
  }

  method ReadSchemaDataStage(r: ByteReader, h: Header, section: Section, ghost v: Stages)
    requires section.Valid() && Describes(v, r, h) && section.segments == v.segments && NoSchemas(section)
    requires section.schemaIndexEntries == v.tables.schemas && section.schemaPropertyEntries == v.tables.properties
    modifies section`schemas, section`schemaPropertyNames, section`schemaUnknownProperties,
             section`structurallyValid, section`replayAllowed
    ensures section.Valid() && HoldsSchemas(section, v)
    ensures section.structurallyValid == (old(section.structurallyValid) && v.SchemaPart().sound)
  {
    SchemaData.ReadSchemaData(r, section, v.fill);
    EmptyPrefix(v.SchemaPart().names);
    EmptyPrefix(v.SchemaPart().unknowns);
    EmptyPrefix(v.SchemaPart().schemas);
  }

  method ReadDataIndexStage(r: ByteReader, h: Header, section: Section, ghost v: Stages)
    requires section.Valid() && Describes(v, r, h) && section.segments == v.segments
    requires section.dataIndexEntries == []
    modifies section`dataIndexEntries, section`structurallyValid, section`replayAllowed
    ensures section.Valid() && section.dataIndexEntries == v.entries
    ensures section.structurallyValid == (old(section.structurallyValid) && v.entriesSound)
  {
    DataIndex.ReadDataIndex(r, h.dataIndex, section);
    EmptyPrefix(v.entries);
  }

  method ReadRecordStage(r: ByteReader, h: Header, section: Section, ghost v: Stages)
    requires section.Valid() && Describes(v, r, h) && section.segments == v.segments
    requires section.dataIndexEntries == v.entries && section.records == []
    modifies section`records, section`structurallyValid, section`replayAllowed
    ensures section.Valid() && section.records == v.AllRecords().0
    ensures section.structurallyValid ==
            (old(section.structurallyValid) && v.cap == |v.entries| % 0x1_0000_0000 && v.AllRecords().1)
  {
    Records.ReadDataRecords(r, section, |r.data| <= PAYLOAD_BLOB_SECTION_CAP, v.decode);
    EmptyPrefix(v.AllRecords().0);
  }

  ghost predicate Untouched(section: Section)
    reads section
  {
    && section.segments == [] && section.dataIndexEntries == [] && section.records == []
    && section.schemaIndexEntries == [] && section.schemaPropertyEntries == [] && NoSchemas(section)
  }

  /** The section holds what the stages found. */
  ghost predicate Holds(section: Section, v: Stages)
    reads section
  {
    && section.segments == v.segments && section.dataIndexEntries == v.entries
    && section.schemaIndexEntries == v.tables.schemas && section.schemaPropertyEntries == v.tables.properties
    && HoldsSchemas(section, v) && section.records == v.AllRecords().0
  }

  method ReadSchemaStages(r: ByteReader, h: Header, section: Section, ghost v: Stages)
    requires section.Valid() && Describes(v, r, h) && section.segments == v.segments
    requires section.schemaIndexEntries == [] && section.schemaPropertyEntries == [] && NoSchemas(section)
    modifies section`schemaIndexEntries, section`schemaPropertyEntries, section`schemas,
             section`schemaPropertyNames, section`schemaUnknownProperties,
             section`structurallyValid, section`replayAllowed
    ensures section.Valid() && HoldsSchemas(section, v)
    ensures section.schemaIndexEntries == v.tables.schemas && section.schemaPropertyEntries == v.tables.properties
    ensures section.structurallyValid == (old(section.structurallyValid) && v.tables.sound && v.SchemaPart().sound)
  {
    ReadSchemaIndexStage(r, h, section, v);
    ReadSchemaDataStage(r, h, section, v);
  }

  method ReadRecordStages(r: ByteReader, h: Header, section: Section, ghost v: Stages)
    requires section.Valid() && Describes(v, r, h) && section.segments == v.segments
    requires section.dataIndexEntries == [] && section.records == []
    modifies section`dataIndexEntries, section`records, section`structurallyValid, section`replayAllowed
    ensures section.Valid() && section.dataIndexEntries == v.entries && section.records == v.AllRecords().0
    ensures section.structurallyValid ==
            (old(section.structurallyValid) && v.entriesSound
             && v.cap == |v.entries| % 0x1_0000_0000 && v.AllRecords().1)
  {
    ReadDataIndexStage(r, h, section, v);
    ReadRecordStage(r, h, section, v);
  }

  method ReadStages(r: ByteReader, h: Header, section: Section, ghost v: Stages)
    requires section.Valid() && Describes(v, r, h) && Untouched(section)
    modifies section`segments, section`dataIndexEntries, section`records, section`schemaIndexEntries,
             section`schemaPropertyEntries, section`schemas, section`schemaPropertyNames,
             section`schemaUnknownProperties, section`structurallyValid, section`replayAllowed
    ensures section.Valid() && Holds(section, v)
    ensures section.structurallyValid == (old(section.structurallyValid) && v.Sound())
  {
    ReadSegmentStage(r, h, section, v);
    ReadSchemaStages(r, h, section, v);
    ReadRecordStages(r, h, section, v);
  }

  /** The section holds what its bytes describe, with sound records, exactly indexed; replay is permitted exactly
      when the header and every stage were sound. */
  ghost predicate Parsed(section: Section, r: ByteReader, v: Stages, headerSound: bool)
    reads section
  {
    && Holds(section, v) && section.replayAllowed == (headerSound && v.Sound())
    && AllSound(r, section.records, section.segments, section.dataIndexEntries)
    && RecordIndex.Indexable(section.records, section.segments) && RecordIndex.IndexesExact(section)
  }

  /** Every stage on a section with a readable header, then the indexes over the records. */
  method ParseReadable(r: ByteReader, h: Header, section: Section, ghost v: Stages)
    requires Ready(v, r, h) && section.Valid() && Untouched(section)
    modifies section`segments, section`dataIndexEntries, section`records, section`schemaIndexEntries,
             section`schemaPropertyEntries, section`schemas, section`schemaPropertyNames,
             section`schemaUnknownProperties, section`structurallyValid, section`replayAllowed,
             section`recordIndexByHandle, section`recordIndexByHandleKey, section`recordIndexesByHandle,
             section`recordIndexesByHandleKey, section`duplicateRecordHandleKeys
    ensures section.Valid() && Parsed(section, r, v, old(section.structurallyValid))
  {
    ReadStages(r, h, section, v);
    SoundRecordsAreIndexable(r, v.AllRecords().0, v.segments, v.entries);
    var indexed := RecordIndex.BuildRecordIndex(section);
    if !indexed {
      assert false;
    }
  }

  /** A new section with the header's verdict. */
  method Open(h: Header, size: u64) returns (section: Section)
    ensures fresh(section) && section.Valid() && Untouched(section) && !section.parseFailed
    ensures section.structurallyValid == HeaderSound(h, size)
    ensures section.payloadsRetained == (size <= PAYLOAD_BLOB_SECTION_CAP)
  {
    section := new Section();
    if !HeaderSound(h, size) {
      section.PushStructuralDiag();
    }
    section.payloadsRetained := size <= PAYLOAD_BLOB_SECTION_CAP;
  }

  method ParseBuffer(r: ByteReader, h: Header, ghost v: Stages) returns (section: Section)
    requires Ready(v, r, h)
    ensures fresh(section) && section.Valid() && !section.parseFailed
    ensures section.payloadsRetained == (|r.data| <= PAYLOAD_BLOB_SECTION_CAP)
    ensures Parsed(section, r, v, HeaderSound(h, |r.data|))
  {
    section := Open(h, |r.data|);
    ParseReadable(r, h, section, v);
  }

  /** Only a missing or too short section fails; any other is indexed whatever its faults, because the
      record ceiling keeps every index position an int. */
  method Parse(data: Option<Buffer>) returns (section: Section)
    ensures fresh(section) && section.Valid()
    ensures section.parseFailed <==> data.None? || |data.value| < HEADER_SIZE
    ensures section.parseFailed ==> !section.replayAllowed && section.segments == [] && section.records == []
    ensures !section.parseFailed ==>
              var r := ByteReader(data.value);
              && section.payloadsRetained == (|r.data| <= PAYLOAD_BLOB_SECTION_CAP)
              && Parsed(section, r, StagesOf(r), HeaderSound(ReadHeader(r), |r.data|))
  {
    if data.None? || |data.value| < HEADER_SIZE {
      section := new Section();
      section.parseFailed := true;
      section.PushStructuralDiag();
      return;
    }
    var r := ByteReader(data.value);
    StagesAreReady(r);
    section := ParseBuffer(r, ReadHeader(r), StagesOf(r));
  }
}
