/** The record loop: each data-index entry decoded on its own, with a cached data-region base. */
module DataStorageRecords {
  import opened Words
  import opened Text
  import opened DataStorage
  import opened DataStorageBlobs

  /** A kept record, an entry dropped with a structural diagnostic, or one passed over in silence. */
  datatype Outcome = Kept(record: Record) | Dropped | Skipped

  // ---------------------------------------------------------------------------------------------
  // The data region of a segment

  predicate IsPackedHeader(r: ByteReader, base: u64, end: u64, n: nat) {
    && base as int + (n as int + 1) * DATA_RECORD_HEADER_SIZE as int <= end
    && base + n * DATA_RECORD_HEADER_SIZE + 4 <= |r.data|
    && r.U32(base + n * DATA_RECORD_HEADER_SIZE) == DATA_RECORD_HEADER_SIZE
  }

  /** The first n slots are packed headers, and slot n is not, unless n is one past the ceiling. */
  ghost predicate IsPackedRun(r: ByteReader, base: u64, end: u64, n: nat) {
    && n <= HARD_MAX_ENTRIES + 1
    && (forall k :: 0 <= k < n ==> IsPackedHeader(r, base, end, k))
    && (n == HARD_MAX_ENTRIES + 1 || !IsPackedHeader(r, base, end, n))
  }

  lemma {:induction false} PackedRunExists(r: ByteReader, base: u64, end: u64, n: nat)
    requires n <= HARD_MAX_ENTRIES + 1 && forall k :: 0 <= k < n ==> IsPackedHeader(r, base, end, k)
    ensures exists m :: IsPackedRun(r, base, end, m)
    decreases HARD_MAX_ENTRIES + 1 - n
  {
    if n <= HARD_MAX_ENTRIES && IsPackedHeader(r, base, end, n) {
      PackedRunExists(r, base, end, n + 1);
    } else {
      assert IsPackedRun(r, base, end, n);
    }
  }

  lemma PackedRunIsUnique(r: ByteReader, base: u64, end: u64, m: nat, n: nat)
    requires IsPackedRun(r, base, end, m) && IsPackedRun(r, base, end, n)
    ensures m == n
  {
  }

  /** The length of the one run of packed headers. */
  ghost function PackedRun(r: ByteReader, base: u64, end: u64): (n: nat)
    ensures IsPackedRun(r, base, end, n)
  {
    PackedRunExists(r, base, end, 0);
    var n: nat :| IsPackedRun(r, base, end, n);
    n
  }

  method HasPackedHeader(r: ByteReader, base: u64, end: u64, n: u32) returns (packed: bool)
    ensures packed == IsPackedHeader(r, base, end, n)
  {
    var delta := CheckedMultiply(n, DATA_RECORD_HEADER_SIZE);
    if delta.None? || CheckedAdd(base, delta.value).None?
       || !IsRangeWithin(base + delta.value, DATA_RECORD_HEADER_SIZE, end) {
      return false;
    }
    return r.Has(base + delta.value, 4) && r.U32(base + delta.value) == DATA_RECORD_HEADER_SIZE;
  }

  method CountPackedRecordHeaders(r: ByteReader, base: u64, end: u64) returns (n: u32)
    ensures n == PackedRun(r, base, end)
  {
    n := 0;
    while true
      invariant n <= HARD_MAX_ENTRIES && forall k :: 0 <= k < n ==> IsPackedHeader(r, base, end, k)
      decreases HARD_MAX_ENTRIES - n
    {
      var more := HasPackedHeader(r, base, end, n);
      if !more {
        break;
      }
      n := n + 1;
      if n > HARD_MAX_ENTRIES {
        break;
      }
    }
    PackedRunIsUnique(r, base, end, n, PackedRun(r, base, end));
  }

  /** Where the record data of a segment starts: behind the packed headers, on a multiple of sixteen. */
  ghost function RegionBase(r: ByteReader, s: Segment): Option<u64>
    requires s.offset as int + SEGMENT_HEADER_SIZE as int <= U64_MAX && s.offset as int + s.size as int <= U64_MAX
  {
    var base := s.offset + SEGMENT_HEADER_SIZE;
    RegionBehind(base, PackedRun(r, base, s.offset + s.size))
  }

  function RegionBehind(base: u64, headers: u32): Option<u64> {
    match CheckedMultiply(headers, DATA_RECORD_HEADER_SIZE)
    case None => None
    case Some(bytes) =>
      match CheckedAdd(base, bytes)
      case None => None
      case Some(unaligned) => RoundUpTo16(unaligned)
  }

  method ComputeRegionBase(r: ByteReader, s: Segment) returns (region: Option<u64>)
    requires s.offset as int + SEGMENT_HEADER_SIZE as int <= U64_MAX && s.offset as int + s.size as int <= U64_MAX
    ensures region == RegionBase(r, s)
  {
    var count := CountPackedRecordHeaders(r, s.offset + SEGMENT_HEADER_SIZE, s.offset + s.size);
    region := RegionBehind(s.offset + SEGMENT_HEADER_SIZE, count);
  }

  // ---------------------------------------------------------------------------------------------
  // One entry

  predicate HeaderReadable(r: ByteReader, s: Segment, e: IndexEntry) {
    && s.offset as int + s.size as int <= U64_MAX
    && s.offset as int + SEGMENT_HEADER_SIZE as int + e.localOffset as int + DATA_RECORD_HEADER_SIZE as int
       <= Min(s.offset + s.size, |r.data|)
  }

  /** The fixed header of a record. */
  datatype Header = Header(entrySize: u32, handle: u64, recordLocalOffset: u32)

  function ReadHeader(r: ByteReader, s: Segment, e: IndexEntry): Header
    requires HeaderReadable(r, s, e)
  {
    var at := s.offset + SEGMENT_HEADER_SIZE + e.localOffset;
    Header(r.U32(at), r.U64(at + 8), r.U32(at + 16))
  }

  predicate PayloadReadable(r: ByteReader, s: Segment, h: Header, region: u64)
    requires s.offset as int + s.size as int <= U64_MAX
  {
    && h.entrySize >= DATA_RECORD_HEADER_SIZE
    && region as int + h.recordLocalOffset as int + 4 <= Min(s.offset + s.size, |r.data|)
  }

  function BareRecord(e: IndexEntry, h: Header, region: u64): Record
    requires region as int + h.recordLocalOffset as int + 4 <= U64_MAX
  {
    var at := region + h.recordLocalOffset;
    Record(h.handle, Hex(h.handle), h.handle <= 9007199254740991, e.segmentIndex, e.localOffset, e.schemaIndex,
           h.entrySize, h.recordLocalOffset, at, at + 4, 0, None, [], None)
  }

  const MARKER: string := "ACIS BinaryFile"

  predicate MarkerAt(payload: seq<u8>, i: nat) {
    && i + |MARKER| <= |payload|
    && forall j :: 0 <= j < |MARKER| ==> payload[i + j] == MARKER[j] as int
  }

  /** The least position of the marker at or after i. */
  function FindMarker(payload: seq<u8>, i: nat): (at: Option<nat>)
    ensures at.Some? ==> i <= at.value && MarkerAt(payload, at.value)
    ensures forall k :: i <= k && (at.None? || k < at.value) ==> !MarkerAt(payload, k)
    decreases |payload| - i
  {
    if i + |MARKER| > |payload| then None
    else if MarkerAt(payload, i) then Some(i)
    else FindMarker(payload, i + 1)
  }

  function MarkerOf(payload: seq<u8>): (m: Option<Marker>)
    requires |payload| <= U32_MAX
    ensures m.Some? ==> 0 < m.value.length && m.value.offset + m.value.length <= |payload|
  {
    var at := FindMarker(payload, 0);
    if at.Some? then Some(Marker(at.value, |MARKER|)) else None
  }

  function WithPayload(record: Record, payload: seq<u8>): Record
    requires |payload| <= U32_MAX
  {
    record.(payload := payload, payloadMarker := MarkerOf(payload))
  }

  /** A payload stored in place. */
  function PlainOutcome(r: ByteReader, s: Segment, bare: Record, dataSize: u32, retain: bool): Outcome
    requires s.offset as int + s.size as int <= U64_MAX
  {
    if !r.Has(bare.dataOffset, dataSize) || !IsRangeWithin(bare.dataOffset, dataSize, s.offset + s.size) then Dropped
    else
      var sized := bare.(dataByteLength := dataSize);
      Kept(if retain then WithPayload(sized, r.Slice(bare.dataOffset, dataSize)) else sized)
  }

  /** A payload spread over blob segments. */
  ghost function BlobOutcome(r: ByteReader, segments: seq<Segment>, s: Segment, bare: Record, retain: bool): Outcome
    requires s.offset as int + s.size as int <= U64_MAX
  {
    if !IsRangeWithin(bare.dataOffset, DATA_BLOB_REFERENCE_FIXED_SIZE, s.offset + s.size)
       || !r.Has(bare.dataOffset, DATA_BLOB_REFERENCE_FIXED_SIZE) then Dropped
    else
      var d := ReadDescriptor(r, bare.dataOffset);
      if !DescriptorFits(r, d, s.offset + s.size) then Dropped
      else
        match AcceptedPages(r, segments, d)
        case None => Dropped
        case Some(spans) => Kept(BlobRecord(bare, d, spans, BlobPayload(r, segments, d, retain), retain))
  }

  ghost function BlobPayload(r: ByteReader, segments: seq<Segment>, d: Descriptor, retain: bool): (payload: seq<u8>)
    requires AcceptedPages(r, segments, d).Some?
    ensures retain && d.totalByteLength <= PAYLOAD_BLOB_SECTION_CAP ==>
              |payload| == d.totalByteLength && payload == Assemble(r, AcceptedPages(r, segments, d).value)
    ensures !(retain && d.totalByteLength <= PAYLOAD_BLOB_SECTION_CAP) ==> payload == []
  {
    AssembledLength(r, AcceptedPages(r, segments, d).value);
    if retain && d.totalByteLength <= PAYLOAD_BLOB_SECTION_CAP
    then Assemble(r, AcceptedPages(r, segments, d).value)
    else []
  }

  function BlobRecord(bare: Record, d: Descriptor, spans: seq<PageSpan>, payload: seq<u8>, retain: bool): Record
    requires |payload| <= U32_MAX
  {
    var blob := BlobReference(d.totalByteLength, d.pageCount, d.recordByteLength, d.pageByteSize,
                              d.lastPageByteSize, d.unknown1, d.unknown2, PagesOf(spans),
                              retain && d.totalByteLength <= PAYLOAD_BLOB_SECTION_CAP);
    WithPayload(bare.(blob := Some(blob),
                      dataByteLength := if d.totalByteLength <= U32_MAX then d.totalByteLength else 0), payload)
  }

  /** What an entry decodes to, by itself. */
  ghost function Decode(r: ByteReader, segments: seq<Segment>, e: IndexEntry, retain: bool): Outcome {
    if e.segmentIndex >= |segments| then Dropped
    else
      var s := segments[e.segmentIndex];
      if !s.IsData() then Skipped
      else if !HeaderReadable(r, s, e) then Dropped
      else
        match RegionBase(r, s)
        case None => Dropped
        case Some(region) => DecodeInRegion(r, segments, s, e, region, retain)
  }

  ghost function DecodeInRegion(r: ByteReader, segments: seq<Segment>, s: Segment, e: IndexEntry,
                                region: u64, retain: bool): Outcome
    requires HeaderReadable(r, s, e)
  {
    var h := ReadHeader(r, s, e);
    if !PayloadReadable(r, s, h, region) then Dropped
    else
      var bare := BareRecord(e, h, region);
      var dataSize := r.U32(bare.recordOffset);
      if dataSize == DATA_BLOB_REFERENCE_MARKER then BlobOutcome(r, segments, s, bare, retain)
      else PlainOutcome(r, s, bare, dataSize, retain)
  }

  /** A payload stored in place lies within its segment and the section, and is retained whole or not at all. */
  ghost predicate PlainSound(r: ByteReader, s: Segment, retain: bool, record: Record) {
    && record.dataOffset as int + record.dataByteLength as int <= Min(s.offset + s.size, |r.data|)
    && record.payload == if retain then r.Slice(record.dataOffset, record.dataByteLength) else []
  }

  /** A blob's descriptor lies within its segment; the payload holds its pages if it is retained, and is empty else. */
  ghost predicate SpreadSound(r: ByteReader, segments: seq<Segment>, s: Segment, retain: bool, record: Record,
                              b: BlobReference)
  {
    && record.dataOffset as int + DATA_BLOB_REFERENCE_FIXED_SIZE as int <= Min(s.offset + s.size, |r.data|)
    && BlobSound(r, segments, b)
    && record.dataByteLength == (if b.totalByteLength <= U32_MAX then b.totalByteLength else 0)
    && b.payloadRetained == (retain && b.totalByteLength <= PAYLOAD_BLOB_SECTION_CAP)
    && if b.payloadRetained then HoldsPages(r, segments, b, record.payload) else record.payload == []
  }

  /** What a record of segment s holds: its data within bounds, its payload, and the least marker in it. */
  ghost predicate PayloadSound(r: ByteReader, segments: seq<Segment>, s: Segment, retain: bool, record: Record) {
    && |record.payload| <= U32_MAX && record.payloadMarker == MarkerOf(record.payload)
    && match record.blob
       case None => PlainSound(r, s, retain, record)
       case Some(b) => SpreadSound(r, segments, s, retain, record, b)
  }

  lemma PlainOutcomeIsSound(r: ByteReader, segments: seq<Segment>, s: Segment, bare: Record, dataSize: u32,
                            retain: bool)
    requires s.offset as int + s.size as int <= U64_MAX
    requires bare.blob.None? && bare.payload == [] && bare.payloadMarker.None?
    requires PlainOutcome(r, s, bare, dataSize, retain).Kept?
    ensures PayloadSound(r, segments, s, retain, PlainOutcome(r, s, bare, dataSize, retain).record)
  {
  }

  /** A retained blob payload has exactly the declared length, which is that of its pages, and is their
      concatenation, each page behind the earlier ones. */
  lemma RetainedBlob(r: ByteReader, segments: seq<Segment>, s: Segment, bare: Record, retain: bool, record: Record)
    requires s.offset as int + s.size as int <= U64_MAX
    requires BlobOutcome(r, segments, s, bare, retain) == Kept(record)
    ensures record.blob.Some? && PayloadSound(r, segments, s, retain, record)
    ensures record.blob.value.payloadRetained ==> HoldsPages(r, segments, record.blob.value, record.payload)
  {
    var d := ReadDescriptor(r, bare.dataOffset);
    var spans := AcceptedPages(r, segments, d).value;
    assert record == BlobRecord(bare, d, spans, BlobPayload(r, segments, d, retain), retain);
    AcceptedBlobIsSound(r, segments, d, spans, record.blob.value);
    if record.blob.value.payloadRetained {
      AssembledHoldsPages(r, segments, d, spans, record.blob.value);
    }
  }

  method ReadBlob(r: ByteReader, segments: seq<Segment>, s: Segment, bare: Record, retain: bool) returns (o: Outcome)
    requires s.offset as int + s.size as int <= U64_MAX
    ensures o == BlobOutcome(r, segments, s, bare, retain)
  {
    if !IsRangeWithin(bare.dataOffset, DATA_BLOB_REFERENCE_FIXED_SIZE, s.offset + s.size)
       || !r.Has(bare.dataOffset, DATA_BLOB_REFERENCE_FIXED_SIZE) {
      return Dropped;
    }
    var d := ReadDescriptor(r, bare.dataOffset);
    if !DescriptorFits(r, d, s.offset + s.size) {
      return Dropped;
    }
    var spans := CheckPages(r, segments, d);
    if spans.None? {
      return Dropped;
    }
    var payload: seq<u8> := [];
    if retain && d.totalByteLength <= PAYLOAD_BLOB_SECTION_CAP {
      payload := CollectPayload(r, spans.value);
    }
    assert payload == BlobPayload(r, segments, d, retain);
    o := Kept(BlobRecord(bare, d, spans.value, payload, retain));
  }

  method ReadInRegion(r: ByteReader, segments: seq<Segment>, s: Segment, e: IndexEntry,
                      region: u64, retain: bool) returns (o: Outcome)
    requires HeaderReadable(r, s, e)
    ensures o == DecodeInRegion(r, segments, s, e, region, retain)
  {
    var h := ReadHeader(r, s, e);
    if !PayloadReadable(r, s, h, region) {
      return Dropped;
    }
    var bare := BareRecord(e, h, region);
    var dataSize := r.U32(bare.recordOffset);
    if dataSize == DATA_BLOB_REFERENCE_MARKER {
      o := ReadBlob(r, segments, s, bare, retain);
    } else {
      o := PlainOutcome(r, s, bare, dataSize, retain);
    }
  }

  // ---------------------------------------------------------------------------------------------
  // The loop, with its cache and its cap

  /** No two data-carrying segments start at the same offset. */
  ghost predicate DataOffsetsDistinct(segments: seq<Segment>) {
    forall i, j :: 0 <= i < j < |segments| && segments[i].IsData() && segments[j].IsData() ==>
      segments[i].offset != segments[j].offset
  }

  /** Every cached base is the base of whichever data segment starts there. */
  ghost predicate CacheSound(cache: map<u64, u64>, r: ByteReader, segments: seq<Segment>) {
    forall i :: 0 <= i < |segments| && segments[i].IsData() && segments[i].offset in cache
                && segments[i].offset as int + SEGMENT_HEADER_SIZE as int <= U64_MAX
                && segments[i].offset as int + segments[i].size as int <= U64_MAX ==>
      RegionBase(r, segments[i]) == Some(cache[segments[i].offset])
  }

  lemma CacheStaysSound(cache: map<u64, u64>, r: ByteReader, segments: seq<Segment>, n: nat, region: u64)
    requires DataOffsetsDistinct(segments) && CacheSound(cache, r, segments)
    requires n < |segments| && segments[n].IsData()
    requires segments[n].offset as int + SEGMENT_HEADER_SIZE as int <= U64_MAX
    requires segments[n].offset as int + segments[n].size as int <= U64_MAX
    requires RegionBase(r, segments[n]) == Some(region)
    ensures CacheSound(cache[segments[n].offset := region], r, segments)
  {
  }

  method ReadEntry(r: ByteReader, segments: seq<Segment>, e: IndexEntry, retain: bool, cache: map<u64, u64>)
    returns (o: Outcome, cache': map<u64, u64>)
    requires DataOffsetsDistinct(segments) && CacheSound(cache, r, segments)
    ensures o == Decode(r, segments, e, retain)
    ensures CacheSound(cache', r, segments)
  {
    cache' := cache;
    if e.segmentIndex >= |segments| {
      return Dropped, cache';
    }
    var s := segments[e.segmentIndex];
    if !s.IsData() {
      return Skipped, cache';
    }
    if !HeaderReadable(r, s, e) {
      return Dropped, cache';
    }
    var region: u64;
    if s.offset in cache {
      region := cache[s.offset];
    } else {
      var computed := ComputeRegionBase(r, s);
      if computed.None? {
        return Dropped, cache';
      }
      region := computed.value;
      CacheStaysSound(cache, r, segments, e.segmentIndex, region);
      cache' := cache[s.offset := region];
    }
    o := ReadInRegion(r, segments, s, e, region, retain);
  }

  type Decoder = IndexEntry -> Outcome

  ghost function DecoderOf(r: ByteReader, segments: seq<Segment>, retain: bool): Decoder {
    (e: IndexEntry) => Decode(r, segments, e, retain)
  }

  function RecordsOf(o: Outcome): (records: seq<Record>)
    ensures |records| <= 1
  {
    if o.Kept? then [o.record] else []
  }

  /** The records produced so far and whether no entry was dropped; once the cap is reached, nothing changes. */
  ghost function Process(decode: Decoder, es: seq<IndexEntry>, cap: nat): (p: (seq<Record>, bool))
    ensures |p.0| <= cap
    decreases |es|
  {
    if es == [] then ([], true)
    else
      var before := Process(decode, es[..|es| - 1], cap);
      if |before.0| >= cap then before
      else
        var o := decode(es[|es| - 1]);
        (before.0 + RecordsOf(o), before.1 && !o.Dropped?)
  }

  lemma ProcessStep(decode: Decoder, es: seq<IndexEntry>, i: nat, cap: nat)
    requires i < |es| && |Process(decode, es[..i], cap).0| < cap
    ensures var before, after := Process(decode, es[..i], cap), Process(decode, es[..i + 1], cap);
            && after.0 == before.0 + RecordsOf(decode(es[i]))
            && after.1 == (before.1 && !decode(es[i]).Dropped?)
  {
    assert es[..i + 1][..i] == es[..i];
  }

  lemma {:induction false} ProcessSaturates(decode: Decoder, es: seq<IndexEntry>, i: nat, cap: nat)
    requires i <= |es| && |Process(decode, es[..i], cap).0| >= cap
    ensures Process(decode, es, cap) == Process(decode, es[..i], cap)
    decreases |es|
  {
    if i == |es| {
      assert es[..i] == es;
    } else {
      assert es[..|es| - 1][..i] == es[..i];
      ProcessSaturates(decode, es[..|es| - 1], i, cap);
    }
  }

  /** The records of all entries, each decoded by itself, without a cap. */
  ghost function KeptRecords(decode: Decoder, es: seq<IndexEntry>): seq<Record>
    decreases |es|
  {
    if es == [] then [] else KeptRecords(decode, es[..|es| - 1]) + RecordsOf(decode(es[|es| - 1]))
  }

  /** The capped loop yields the first `cap` of the records that the entries decode to one by one. */
  lemma {:induction false} ProcessTakesFirst(decode: Decoder, es: seq<IndexEntry>, cap: nat)
    ensures Process(decode, es, cap).0 == KeptRecords(decode, es)[..Min(cap, |KeptRecords(decode, es)|)]
    decreases |es|
  {
    if es == [] {
    } else {
      ProcessTakesFirst(decode, es[..|es| - 1], cap);
    }
  }

  /** Every record comes from an entry of the index. */
  lemma {:induction false} RecordsComeFromEntries(decode: Decoder, es: seq<IndexEntry>, cap: nat, k: nat)
    returns (i: nat)
    requires k < |Process(decode, es, cap).0|
    ensures i < |es| && decode(es[i]) == Kept(Process(decode, es, cap).0[k])
    decreases |es|
  {
    var n := |es| - 1;
    if k < |Process(decode, es[..n], cap).0| {
      i := RecordsComeFromEntries(decode, es[..n], cap, k);
    } else {
      i := n;
    }
  }

  predicate SameTarget(record: Record, e: IndexEntry) {
    record.segmentIndex == e.segmentIndex && record.localOffset == e.localOffset
  }

  ghost predicate KeepsTargets(decode: Decoder) {
    forall e :: decode(e).Kept? ==> SameTarget(decode(e).record, e)
  }

  /** A record names the data segment and the local offset of the entry it came from. */
  lemma KeptRecordNamesItsEntry(r: ByteReader, segments: seq<Segment>, e: IndexEntry, retain: bool)
    requires Decode(r, segments, e, retain).Kept?
    ensures var record := Decode(r, segments, e, retain).record;
            && SameTarget(record, e) && record.schemaIndex == e.schemaIndex
            && record.segmentIndex < |segments| && segments[record.segmentIndex].IsData()
            && record.handleKey == Hex(record.handle)
  {
  }

  /** And its payload is sound in that segment. */
  lemma KeptPayloadIsSound(r: ByteReader, segments: seq<Segment>, e: IndexEntry, retain: bool)
    requires Decode(r, segments, e, retain).Kept?
    ensures PayloadSound(r, segments, segments[e.segmentIndex], retain, Decode(r, segments, e, retain).record)
  {
    var s := segments[e.segmentIndex];
    var region := RegionBase(r, s).value;
    var bare := BareRecord(e, ReadHeader(r, s, e), region);
    var dataSize := r.U32(bare.recordOffset);
    if dataSize == DATA_BLOB_REFERENCE_MARKER {
      RetainedBlob(r, segments, s, bare, retain, Decode(r, segments, e, retain).record);
    } else {
      PlainOutcomeIsSound(r, segments, s, bare, dataSize, retain);
    }
  }

  lemma DecoderKeepsTargets(r: ByteReader, segments: seq<Segment>, retain: bool)
    ensures KeepsTargets(DecoderOf(r, segments, retain))
  {
    forall e | Decode(r, segments, e, retain).Kept? ensures SameTarget(Decode(r, segments, e, retain).record, e) {
      KeptRecordNamesItsEntry(r, segments, e, retain);
    }
  }

  /** Entries with distinct targets give records with distinct targets. */
  lemma {:induction false} RecordTargetsAreDistinct(decode: Decoder, es: seq<IndexEntry>, cap: nat, i: nat, j: nat)
    requires KeepsTargets(decode)
    requires forall a, b :: 0 <= a < b < |es| ==>
               es[a].segmentIndex != es[b].segmentIndex || es[a].localOffset != es[b].localOffset
    requires i < j < |Process(decode, es, cap).0|
    ensures var records := Process(decode, es, cap).0;
            records[i].segmentIndex != records[j].segmentIndex || records[i].localOffset != records[j].localOffset
    decreases |es|
  {
    var n := |es| - 1;
    if j < |Process(decode, es[..n], cap).0| {
      RecordTargetsAreDistinct(decode, es[..n], cap, i, j);
    } else {
      var a := RecordsComeFromEntries(decode, es[..n], cap, i);
    }
  }

  function RecordCap(r: ByteReader, es: seq<IndexEntry>): u32 {
    CapCount(|es| % 0x1_0000_0000, |r.data|, DATA_RECORD_HEADER_SIZE)
  }

  /** The decoder gives every entry's own outcome. */
  ghost predicate Decodes(decode: Decoder, r: ByteReader, segments: seq<Segment>, retain: bool) {
    forall e {:trigger Decode(r, segments, e, retain)} :: decode(e) == Decode(r, segments, e, retain)
  }

  lemma DecoderOfDecodes(r: ByteReader, segments: seq<Segment>, retain: bool)
    ensures Decodes(DecoderOf(r, segments, retain), r, segments, retain)
  {
  }

  method ReadDataRecords(r: ByteReader, section: Section, retain: bool, ghost decode: Decoder)
    requires section.Valid() && DataOffsetsDistinct(section.segments)
    requires Decodes(decode, r, section.segments, retain)
    modifies section`records, section`structurallyValid, section`replayAllowed
    ensures section.Valid()
    ensures var es := section.dataIndexEntries;
            var all := Process(decode, es, RecordCap(r, es));
            && section.records == old(section.records) + all.0
            && section.structurallyValid ==
               (old(section.structurallyValid) && RecordCap(r, es) == |es| % 0x1_0000_0000 && all.1)
  {
    var cap := RecordCap(r, section.dataIndexEntries);
    if cap < |section.dataIndexEntries| % 0x1_0000_0000 {
      section.PushStructuralDiag();
    }
    ReadEntries(r, section, retain, cap, decode);
  }

  method Publish(section: Section, o: Outcome)
    requires section.Valid()
    modifies section`records, section`structurallyValid, section`replayAllowed
    ensures section.Valid() && section.records == old(section.records) + RecordsOf(o)
    ensures section.structurallyValid == (old(section.structurallyValid) && !o.Dropped?)
  {
    match o
    case Dropped => section.PushStructuralDiag();
    case Skipped =>
    case Kept(record) => section.records := section.records + [record];
  }

  /** One entry: its record, if any, is appended, and the section is unsound if it was dropped. */
  method PublishEntry(r: ByteReader, section: Section, e: IndexEntry, retain: bool, cache: map<u64, u64>,
                      ghost decode: Decoder)
    returns (produced: u32, cache': map<u64, u64>)
    requires section.Valid() && DataOffsetsDistinct(section.segments) && CacheSound(cache, r, section.segments)
    requires Decodes(decode, r, section.segments, retain)
    modifies section`records, section`structurallyValid, section`replayAllowed
    ensures section.Valid() && CacheSound(cache', r, section.segments)
    ensures section.records == old(section.records) + RecordsOf(decode(e)) && produced == |RecordsOf(decode(e))|
    ensures section.structurallyValid == (old(section.structurallyValid) && !decode(e).Dropped?)
  {
    var o;
    o, cache' := ReadEntry(r, section.segments, e, retain, cache);
    Publish(section, o);
    produced := |RecordsOf(o)|;
  }

  method ReadEntries(r: ByteReader, section: Section, retain: bool, cap: u32, ghost decode: Decoder)
    requires section.Valid() && DataOffsetsDistinct(section.segments)
    requires Decodes(decode, r, section.segments, retain)
    modifies section`records, section`structurallyValid, section`replayAllowed
    ensures section.Valid()
    ensures section.records == old(section.records) + Process(decode, section.dataIndexEntries, cap).0
    ensures section.structurallyValid ==
            (old(section.structurallyValid) && Process(decode, section.dataIndexEntries, cap).1)
  {
    var es := section.dataIndexEntries;
    var cache: map<u64, u64> := map[];
    var produced: u32 := 0;
    var i := 0;
    while i < |es| && produced < cap
      invariant 0 <= i <= |es| && section.Valid() && CacheSound(cache, r, section.segments)
      invariant produced == |Process(decode, es[..i], cap).0|
      invariant section.records == old(section.records) + Process(decode, es[..i], cap).0
      invariant section.structurallyValid == (old(section.structurallyValid) && Process(decode, es[..i], cap).1)
    {
      ProcessStep(decode, es, i, cap);
      var found;
      found, cache := PublishEntry(r, section, es[i], retain, cache, decode);
      produced := produced + found;
      i := i + 1;
    }
    if i < |es| {
      ProcessSaturates(decode, es, i, cap);
    } else {
      assert es[..i] == es;
    }
  }
}
