/** The DataStorage section: constants, the bounded byte reader, checked arithmetic and the section
    object that the readers fill. */
module DataStorage {
  import opened Words

  const HEADER_SIZE: u32 := 56
  const SEGMENT_INDEX_ENTRY_SIZE: u32 := 12
  const SEGMENT_HEADER_SIZE: u32 := 48
  const SEGMENT_SIGNATURE: u16 := 0xd5ac
  const DATA_INDEX_ENTRY_SIZE: u32 := 12
  const DATA_RECORD_HEADER_SIZE: u32 := 20
  const DATA_BLOB_REFERENCE_MARKER: u32 := 0xbb106bb1
  const DATA_BLOB_REFERENCE_FIXED_SIZE: u32 := 32
  const DATA_BLOB_PAGE_ENTRY_SIZE: u32 := 8
  const DATA_BLOB_PAGE_HEADER_SIZE: u32 := 32
  const SCHEMA_INDEX_ENTRY_SIZE: u32 := 12
  const SCHEMA_PROPERTY_TYPE_COUNT: u32 := 16
  const SCHEMA_PROPERTY_NO_NAME: u32 := 0xffffffff
  const HARD_MAX_ENTRIES: u32 := 1000000
  const PAYLOAD_BLOB_SECTION_CAP: u32 := 8 * 1024 * 1024

  /** Offsets are u64 throughout, so every sum passed as an offset is proved not to wrap. */
  datatype ByteReader = ByteReader(data: Buffer) {
    predicate Has(offset: u64, size: u64) {
      offset <= |data| && size <= |data| - offset
    }

    function Slice(offset: u64, size: u64): (b: seq<u8>)
      requires Has(offset, size)
      ensures |b| == size
    {
      data[offset..offset + size]
    }

    function U16(offset: u64): u16
      requires Has(offset, 2)
    {
      Le16(Slice(offset, 2))
    }

    function U32(offset: u64): u32
      requires Has(offset, 4)
    {
      Le32(Slice(offset, 4))
    }

    function I32(offset: u64): i32
      requires Has(offset, 4)
    {
      ToI32(U32(offset))
    }

    function U64(offset: u64): u64
      requires Has(offset, 8)
    {
      Le64(Slice(offset, 8))
    }

    /** The characters before the first NUL, at most size of them. */
    function Ascii(offset: u64, size: u64): (s: string)
      requires Has(offset, size)
      ensures |s| <= size
    {
      ToText(UpTo(Slice(offset, size), 0))
    }
  }

  function ToText(b: seq<u8>): (s: string)
    ensures |s| == |b|
  {
    seq(|b|, i requires 0 <= i < |b| => b[i] as char)
  }

  function CheckedAdd(lhs: u64, rhs: u64): (r: Option<u64>)
    ensures r == if lhs as int + rhs as int <= U64_MAX then Some(lhs as int + rhs as int) else None
  {
    if rhs > U64_MAX - lhs then None else Some(lhs + rhs)
  }

  function CheckedMultiply(lhs: u64, rhs: u64): (r: Option<u64>)
    ensures r.Some? <==> Times(lhs, rhs) <= U64_MAX
    ensures r.Some? ==> r.value == Times(lhs, rhs)
  {
    if lhs != 0 then
      QuotientBound(lhs, rhs);
      if rhs > U64_MAX / lhs then None else Some(Times(lhs, rhs))
    else Some(0)
  }

  function Times(a: nat, b: nat): nat {
    a * b
  }

  lemma ProductMonotonic(a: nat, b: nat, c: nat)
    requires b <= c
    ensures a * b <= a * c
  {
  }

  lemma QuotientBound(lhs: nat, rhs: nat)
    requires lhs != 0
    ensures rhs > U64_MAX / lhs <==> Times(lhs, rhs) > U64_MAX
  {
    var q := U64_MAX / lhs;
    assert U64_MAX == lhs * q + U64_MAX % lhs;
    if rhs > q {
      ProductMonotonic(lhs, q + 1, rhs);
      assert lhs * (q + 1) == lhs * q + lhs;
    } else {
      ProductMonotonic(lhs, rhs, q);
    }
  }

  predicate IsRangeWithin(offset: u64, size: u64, limit: u64)
    ensures IsRangeWithin(offset, size, limit) <==> offset as int + size as int <= limit
  {
    offset <= limit && size <= limit - offset
  }

  /** Adds fifteen and clears the four low bits. */
  function RoundUpTo16(n: u64): Option<u64> {
    if n > U64_MAX - 15 then None else Some(n + 15 - (n + 15) % 16)
  }

  /** Rounding gives the least multiple of sixteen that is not below n. */
  lemma RoundsToLeastMultiple(n: u64)
    ensures RoundUpTo16(n).Some? <==> n as int + 15 <= U64_MAX
    ensures RoundUpTo16(n).Some? ==>
              n <= RoundUpTo16(n).value < n as int + 16 && RoundUpTo16(n).value % 16 == 0
  {
  }

  function Min(a: int, b: int): (m: int) {
    if a <= b then a else b
  }

  /** How many of the declared entries fit: the largest count within the declaration, the bytes and the ceiling. */
  function CapCount(declared: u32, remainingBytes: u64, entrySize: u32): (n: u32)
    requires entrySize > 0
    ensures n <= declared && n <= HARD_MAX_ENTRIES && Times(n, entrySize) <= remainingBytes
    ensures n == declared || n == HARD_MAX_ENTRIES || Times(n + 1, entrySize) > remainingBytes
  {
    var n := Min(Min(declared, remainingBytes / entrySize), HARD_MAX_ENTRIES);
    FloorBound(remainingBytes, entrySize, n);
    n
  }

  lemma FloorBound(x: nat, d: nat, n: nat)
    requires d > 0 && n <= x / d
    ensures Times(n, d) <= x
    ensures n == x / d ==> Times(n + 1, d) > x
  {
    var q := x / d;
    assert x == d * q + x % d;
    ProductMonotonic(d, n, q);
    assert d * (q + 1) == d * q + d;
  }

  datatype SegmentKind =
    | Unknown | SegmentIndex | DataIndex | Data | SchemaIndex | SchemaData | Search | Blob
    | PreviousSave | FreeSpace | Schema

  datatype Segment = Segment(
    index: u32, offset: u64, size: u32, payloadOffset: u64, payloadByteLength: u32,
    signature: u16, name: string, segmentIndex: i32,
    headerSegmentSize: u32, hasHeaderSegmentSize: bool, revision: u32, hasRevision: bool,
    systemDataAlignmentOffset: u32, objectDataAlignmentOffset: u32,
    kind: SegmentKind, isKnownKind: bool)
  {
    predicate IsData() {
      kind == Data || kind == Blob
    }
  }

  datatype IndexEntry = IndexEntry(segmentIndex: u32, localOffset: u32, schemaIndex: u32)

  datatype SchemaReference = SchemaReference(index: u32, segmentIndex: u32, localOffset: u32)

  datatype UnknownProperty = UnknownProperty(
    index: u32, segmentIndex: u32, localOffset: u32, dataSize: u32, flags: u32)

  datatype Property = Property(
    flags: u32, nameIndex: u32, kind: u32, customTypeSize: u32, typeSize: u32,
    unknown1: u32, unknown2: u32, valueCount: u16, name: string, values: seq<seq<u8>>)

  datatype SchemaRecord = SchemaRecord(
    index: u32, segmentIndex: u32, localOffset: u32, indexes: seq<u64>, properties: seq<Property>)

  datatype BlobPage = BlobPage(segmentIndex: u32, byteLength: u32)

  datatype BlobReference = BlobReference(
    totalByteLength: u64, pageCount: u32, recordByteLength: u32, pageByteSize: u32,
    lastPageByteSize: u32, unknown1: u32, unknown2: u32, pages: seq<BlobPage>, payloadRetained: bool)

  /** Where a payload holds the marker of an ACIS binary file. */
  datatype Marker = Marker(offset: u32, length: u32)

  datatype Record = Record(
    handle: u64, handleKey: string, isHandleSafe: bool,
    segmentIndex: u32, localOffset: u32, schemaIndex: u32, entrySize: u32, recordLocalOffset: u32,
    recordOffset: u64, dataOffset: u64, dataByteLength: u32, blob: Option<BlobReference>,
    payload: seq<u8>, payloadMarker: Option<Marker>)

  /** The typed index of one section, filled in place by the readers. */
  class Section {
    var segments: seq<Segment>
    var dataIndexEntries: seq<IndexEntry>
    var schemaIndexEntries: seq<SchemaReference>
    var schemaPropertyEntries: seq<SchemaReference>
    var schemaUnknownProperties: seq<UnknownProperty>
    var schemas: seq<SchemaRecord>
    var schemaPropertyNames: seq<string>
    var records: seq<Record>
    var recordIndexByHandle: map<u64, nat>
    var recordIndexByHandleKey: map<string, nat>
    var recordIndexesByHandle: map<u64, seq<nat>>
    var recordIndexesByHandleKey: map<string, seq<nat>>
    var duplicateRecordHandleKeys: seq<string>
    var payloadsRetained: bool
    var parseFailed: bool
    var structurallyValid: bool
    var replayAllowed: bool

    /** Replay is refused as soon as the section is known to be unsound. */
    ghost predicate Valid()
      reads this
    {
      replayAllowed == structurallyValid
    }

    constructor ()
      ensures Valid() && structurallyValid && !parseFailed && !payloadsRetained
      ensures segments == [] && dataIndexEntries == [] && records == []
      ensures schemaIndexEntries == [] && schemaPropertyEntries == [] && schemaUnknownProperties == []
      ensures schemas == [] && schemaPropertyNames == []
    {
      segments, dataIndexEntries, records := [], [], [];
      schemaIndexEntries, schemaPropertyEntries, schemaUnknownProperties := [], [], [];
      schemas, schemaPropertyNames := [], [];
      recordIndexByHandle, recordIndexByHandleKey := map[], map[];
      recordIndexesByHandle, recordIndexesByHandleKey := map[], map[];
      duplicateRecordHandleKeys := [];
      payloadsRetained, parseFailed, structurallyValid, replayAllowed := false, false, true, true;
    }

    /** Any diagnostic outside the tolerated producer variations withdraws the replay permission. */
    method PushStructuralDiag()
      modifies `structurallyValid, `replayAllowed
      ensures Valid() && !structurallyValid
    {
      structurallyValid := false;
      replayAllowed := false;
    }
  }
}
