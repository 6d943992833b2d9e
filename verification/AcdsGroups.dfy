/** The ACDSDATA section: DataStorage records as groups of tagged text, and how they are read back. */
module AcdsGroups {
  import opened Words
  import opened Text
  import opened HexChunks
  import opened ProxyObjects
  import DataStorage

  type Record = DataStorage.Record

  /** What the schema matcher finds: the schemas of thumbnails and of modelers. */
  datatype Roles = Roles(thumbnail: u32, modeler: u32)

  // ---------------------------------------------------------------------------------------------
  // The schema tables in front of the records

  function SchemaHeader(index: int, schema: string, payload: string): seq<Group> {
    [Group(0, Str("ACDSSCHEMA")), Group(90, Num(index)), Group(1, Str(schema)), Group(2, Str("AcDbDs::ID")),
     Group(280, Num(10)), Group(91, Num(8)), Group(2, Str(payload)), Group(280, Num(15)), Group(91, Num(0))]
  }

  function AttributeOfSchema(index: int, target: int, member: string): seq<Group> {
    [Group(101, Str("ACDSRECORD")), Group(95, Num(index)), Group(90, Num(target)), Group(2, Str(member)),
     Group(280, Num(1)), Group(291, Num(1))]
  }

  function AttributeOfId(target: int, member: string, kind: int, code: int): seq<Group> {
    [Group(101, Str("ACDSRECORD")), Group(1, Str("AcDbDs::ID")), Group(90, Num(target)), Group(2, Str(member)),
     Group(280, Num(kind)), Group(code, Num(1))]
  }

  function SchemaAttributes(index: int): seq<Group> {
    AttributeOfSchema(index, 2, "AcDbDs::TreatedAsObjectData") + AttributeOfSchema(index, 3, "AcDbDs::Legacy")
    + AttributeOfId(4, "AcDs:Indexable", 1, 291) + AttributeOfId(5, "AcDbDs::HandleAttribute", 7, 282)
  }

  function MarkerSchema(index: int, schema: string, member: string): seq<Group> {
    [Group(0, Str("ACDSSCHEMA")), Group(90, Num(index)), Group(1, Str(schema)), Group(2, Str(member)),
     Group(280, Num(1)), Group(91, Num(0))]
  }

  function HandleSchema(): seq<Group> {
    [Group(0, Str("ACDSSCHEMA")), Group(90, Num(5)), Group(1, Str("AcDbDs::HandleAttributeSchema")),
     Group(2, Str("AcDbDs::HandleAttribute")), Group(280, Num(7)), Group(91, Num(1)), Group(284, Num(1))]
  }

  function Preamble(): seq<Group> {
    [Group(70, Num(2)), Group(71, Num(2))]
    + SchemaHeader(0, "AcDb_Thumbnail_Schema", "Thumbnail_Data") + SchemaAttributes(0)
    + SchemaHeader(1, "AcDb3DSolid_ASM_Data", "ASM_Data") + SchemaAttributes(1)
    + MarkerSchema(2, "AcDbDs::TreatedAsObjectDataSchema", "AcDbDs::TreatedAsObjectData")
    + MarkerSchema(3, "AcDbDs::LegacySchema", "AcDbDs::Legacy")
    + MarkerSchema(4, "AcDbDs::IndexedPropertySchema", "AcDs:Indexable")
    + HandleSchema()
  }

  // ---------------------------------------------------------------------------------------------
  // The records

  const START: Group := Group(0, Str("ACDSRECORD"))

  /** The writer's test of a thumbnail; the contents were checked before. */
  predicate WrittenAsThumbnail(roles: Roles, r: Record) {
    r.schemaIndex == roles.thumbnail && r.payloadMarker.None?
  }

  function PropertyName(thumbnail: bool): string {
    if thumbnail then "Thumbnail_Data" else "ASM_Data"
  }

  function Opening(thumbnail: bool, key: string, size: nat): (groups: seq<Group>)
    ensures |groups| == 8
  {
    [START, Group(90, Num(if thumbnail then 0 else 1)), Group(2, Str("AcDbDs::ID")), Group(280, Num(10)),
     Group(320, Str(key)), Group(2, Str(PropertyName(thumbnail))), Group(280, Num(15)), Group(94, Num(size))]
  }

  function RecordGroups(roles: Roles, r: Record): seq<Group> {
    Opening(WrittenAsThumbnail(roles, r), r.handleKey, |r.payload|) + ChunkGroups(310, Chunks(r.payload))
  }

  function RecordsGroups(roles: Roles, records: seq<Record>): seq<Group> {
    if records == [] then [] else RecordGroups(roles, records[0]) + RecordsGroups(roles, records[1..])
  }

  function SectionGroups(roles: Roles, records: seq<Record>): seq<Group> {
    Preamble() + RecordsGroups(roles, records)
  }

  // ---------------------------------------------------------------------------------------------
  // Reading the section back

  datatype Decoded = Decoded(key: string, thumbnail: bool, payload: seq<u8>)

  /** How many groups with the code come first. */
  function Run(groups: seq<Group>, code: int): (n: nat)
    ensures n <= |groups|
  {
    if groups == [] || groups[0].code != code then 0 else 1 + Run(groups[1..], code)
  }

  /** One record after the other: a fixed opening and as many binary chunks as follow. */
  function Decode(groups: seq<Group>): Option<seq<Decoded>>
    decreases |groups|
  {
    if groups == [] then Some([])
    else if |groups| < 8 || !groups[4].content.Str? then None
    else
      var thumbnail, key := groups[1].content == Num(0), groups[4].content.s;
      var n := Run(groups[8..], 310);
      var payload := Binary(Select(groups[8..8 + n], 310));
      var rest := Decode(groups[8 + n..]);
      if groups[..8] == Opening(thumbnail, key, |payload|) && rest.Some?
      then Some([Decoded(key, thumbnail, payload)] + rest.value)
      else None
  }

  /** The place of the first record. */
  function FirstRecord(groups: seq<Group>): (n: nat)
    ensures n <= |groups|
  {
    if groups == [] || groups[0] == START then 0 else 1 + FirstRecord(groups[1..])
  }

  function DecodeSection(groups: seq<Group>): Option<seq<Decoded>> {
    Decode(groups[FirstRecord(groups)..])
  }

  function Entry(roles: Roles, r: Record): Decoded {
    Decoded(r.handleKey, WrittenAsThumbnail(roles, r), r.payload)
  }

  function Meaning(roles: Roles, records: seq<Record>): seq<Decoded> {
    seq(|records|, i requires 0 <= i < |records| => Entry(roles, records[i]))
  }

  lemma {:induction false} RunOfChunks(chunks: seq<string>, rest: seq<Group>)
    requires rest == [] || rest[0].code != 310
    ensures Run(ChunkGroups(310, chunks) + rest, 310) == |chunks|
  {
    var groups := ChunkGroups(310, chunks);
    if chunks == [] {
      assert groups + rest == rest;
    } else {
      assert (groups + rest)[1..] == ChunkGroups(310, chunks[1..]) + rest;
      RunOfChunks(chunks[1..], rest);
    }
  }

  lemma SplitGroups(opening: seq<Group>, data: seq<Group>, rest: seq<Group>)
    requires |opening| == 8
    ensures var groups := opening + data + rest;
            groups[..8] == opening && groups[8..] == data + rest
            && groups[8..8 + |data|] == data && groups[8 + |data|..] == rest
  {
  }

  lemma DecodeStep(thumbnail: bool, key: string, payload: seq<u8>, data: seq<Group>, rest: seq<Group>)
    requires Run(data + rest, 310) == |data| && Binary(Select(data, 310)) == payload && Decode(rest).Some?
    ensures Decode(Opening(thumbnail, key, |payload|) + data + rest)
            == Some([Decoded(key, thumbnail, payload)] + Decode(rest).value)
  {
    var opening := Opening(thumbnail, key, |payload|);
    var groups := opening + data + rest;
    SplitGroups(opening, data, rest);
    assert groups[4] == groups[..8][4] == Group(320, Str(key));
    assert groups[1] == groups[..8][1] == Group(90, Num(if thumbnail then 0 else 1));
  }

  /** A record in front of others is read as itself. */
  lemma DecodeOfRecord(roles: Roles, r: Record, rest: seq<Group>)
    requires (rest == [] || rest[0] == START) && Decode(rest).Some?
    ensures Decode(RecordGroups(roles, r) + rest) == Some([Entry(roles, r)] + Decode(rest).value)
  {
    var chunks := Chunks(r.payload);
    RunOfChunks(chunks, rest);
    ChunkGroupsDecode(310, chunks);
    ChunksDecode(r.payload);
    DecodeStep(WrittenAsThumbnail(roles, r), r.handleKey, r.payload, ChunkGroups(310, chunks), rest);
  }

  lemma RecordsStart(roles: Roles, records: seq<Record>)
    ensures var groups := RecordsGroups(roles, records); groups == [] || groups[0] == START
  {
    if records != [] {
      assert RecordGroups(roles, records[0])[0] == START;
    }
  }

  lemma MeaningNext(roles: Roles, records: seq<Record>)
    requires records != []
    ensures Meaning(roles, records) == [Entry(roles, records[0])] + Meaning(roles, records[1..])
  {
  }

  lemma {:induction false} DecodeOfRecords(roles: Roles, records: seq<Record>)
    ensures Decode(RecordsGroups(roles, records)) == Some(Meaning(roles, records))
  {
    if records == [] {
      assert Meaning(roles, records) == [];
    } else {
      DecodeOfRecords(roles, records[1..]);
      RecordsStart(roles, records[1..]);
      DecodeOfRecord(roles, records[0], RecordsGroups(roles, records[1..]));
      MeaningNext(roles, records);
    }
  }

  lemma {:induction false} FirstRecordBehind(front: seq<Group>, rest: seq<Group>)
    requires START !in front && (rest == [] || rest[0] == START)
    ensures FirstRecord(front + rest) == |front|
  {
    if front == [] {
      assert front + rest == rest;
    } else {
      assert (front + rest)[1..] == front[1..] + rest && front[0] in front;
      FirstRecordBehind(front[1..], rest);
    }
  }

  lemma PreambleHasNoRecord()
    ensures START !in Preamble()
  {
    assert "ACDSSCHEMA"[4] != "ACDSRECORD"[4];
    assert START !in [Group(70, Num(2)), Group(71, Num(2))];
    assert START !in SchemaHeader(0, "AcDb_Thumbnail_Schema", "Thumbnail_Data");
    assert START !in SchemaHeader(1, "AcDb3DSolid_ASM_Data", "ASM_Data");
    AttributesHaveNoRecord(0);
    AttributesHaveNoRecord(1);
    assert START !in MarkerSchema(2, "AcDbDs::TreatedAsObjectDataSchema", "AcDbDs::TreatedAsObjectData");
    assert START !in MarkerSchema(3, "AcDbDs::LegacySchema", "AcDbDs::Legacy");
    assert START !in MarkerSchema(4, "AcDbDs::IndexedPropertySchema", "AcDs:Indexable");
    assert START !in HandleSchema();
  }

  lemma AttributesHaveNoRecord(index: int)
    ensures START !in SchemaAttributes(index)
  {
    assert START !in AttributeOfSchema(index, 2, "AcDbDs::TreatedAsObjectData");
    assert START !in AttributeOfSchema(index, 3, "AcDbDs::Legacy");
    assert START !in AttributeOfId(4, "AcDs:Indexable", 1, 291);
    assert START !in AttributeOfId(5, "AcDbDs::HandleAttribute", 7, 282);
  }

  /** The written section reads back as each record's key, role and payload, in order. */
  lemma SectionDecodes(roles: Roles, records: seq<Record>)
    ensures DecodeSection(SectionGroups(roles, records)) == Some(Meaning(roles, records))
  {
    var front, rest := Preamble(), RecordsGroups(roles, records);
    PreambleHasNoRecord();
    RecordsStart(roles, records);
    FirstRecordBehind(front, rest);
    assert (front + rest)[|front|..] == rest;
    DecodeOfRecords(roles, records);
  }

  ghost predicate ChunkFits(g: Group) {
    g.code == 310 ==> g.content.Str? && 0 < |g.content.s| <= 2 * BYTES_PER_CHUNK
  }

  /** No binary group is empty or holds more than 127 bytes. */
  lemma {:induction false} BinaryGroupsFit(roles: Roles, records: seq<Record>)
    ensures forall i :: 0 <= i < |RecordsGroups(roles, records)| ==> ChunkFits(RecordsGroups(roles, records)[i])
  {
    if records == [] {
    } else {
      BinaryGroupsFit(roles, records[1..]);
      var chunks := Chunks(records[0].payload);
      forall k | 0 <= k < |chunks| ensures 0 < |chunks[k]| <= 2 * BYTES_PER_CHUNK {
        ChunksFit(records[0].payload, k);
      }
      var first, rest := RecordGroups(roles, records[0]), RecordsGroups(roles, records[1..]);
      forall i | 0 <= i < |first| ensures ChunkFits(first[i]) {
        if i >= 8 {
          assert first[i] == ChunkGroups(310, chunks)[i - 8];
        }
      }
      forall i | 0 <= i < |first + rest| ensures ChunkFits((first + rest)[i]) {
        if i >= |first| {
          assert (first + rest)[i] == rest[i - |first|];
        }
      }
    }
  }

  // ---------------------------------------------------------------------------------------------
  // The writer

  /** Writes the section; a payload within the cap never overflows its signed length group. */
  method WriteSection(roles: Roles, records: seq<Record>) returns (ok: bool, groups: seq<Group>)
    requires forall i :: 0 <= i < |records| ==> |records[i].payload| <= DataStorage.PAYLOAD_BLOB_SECTION_CAP
    ensures ok && groups == SectionGroups(roles, records)
  {
    groups := Preamble();
    assert records[0..] == records;
    for i := 0 to |records|
      invariant SectionGroups(roles, records) == groups + RecordsGroups(roles, records[i..])
    {
      var r := records[i];
      if |r.payload| > 0x7FFF_FFFF {
        assert false;
      }
      var chunks := MakeChunks(r.payload);
      var next := Opening(WrittenAsThumbnail(roles, r), r.handleKey, |r.payload|) + ChunkGroups(310, chunks);
      assert records[i..][1..] == records[i + 1..];
      ConcatAssociates(groups, next, RecordsGroups(roles, records[i + 1..]));
      groups := groups + next;
    }
    assert groups + [] == groups;
    ok := true;
  }
}
