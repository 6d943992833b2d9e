/** Multi-segment blob references: page validation and payload reassembly. */
module DataStorageBlobs {
  import opened Words
  import opened DataStorage

  /** The fixed part of a blob descriptor. */
  datatype Descriptor = Descriptor(
    at: u64, totalByteLength: u64, pageCount: u32, recordByteLength: u32, pageByteSize: u32,
    lastPageByteSize: u32, unknown1: u32, unknown2: u32)

  /** A validated page and where its bytes are. */
  datatype PageSpan = PageSpan(page: BlobPage, dataOffset: u64)

  function ReadDescriptor(r: ByteReader, at: u64): Descriptor
    requires r.Has(at, DATA_BLOB_REFERENCE_FIXED_SIZE)
  {
    Descriptor(at, r.U64(at), r.U32(at + 8), r.U32(at + 12), r.U32(at + 16), r.U32(at + 20),
               r.U32(at + 24), r.U32(at + 28))
  }

  function DescriptorSize(d: Descriptor): nat {
    DATA_BLOB_REFERENCE_FIXED_SIZE + d.pageCount * DATA_BLOB_PAGE_ENTRY_SIZE
  }

  predicate DescriptorFits(r: ByteReader, d: Descriptor, segmentEnd: u64) {
    && d.pageCount <= HARD_MAX_ENTRIES
    && IsRangeWithin(d.at, DescriptorSize(d), segmentEnd) && r.Has(d.at, DescriptorSize(d))
    && (d.recordByteLength == 0 || d.recordByteLength >= DescriptorSize(d))
  }

  /** The length every page but the last must have, and the last one's. */
  function ExpectedLength(d: Descriptor, p: nat): u32 {
    if p + 1 == d.pageCount then d.lastPageByteSize else d.pageByteSize
  }

  /** Whether segment s holds page p: the page header repeats the blob's shape and this page's place in it. */
  predicate PageHeaderAgrees(r: ByteReader, d: Descriptor, s: Segment, p: u32, length: u32, assembled: u64) {
    && s.offset as int + s.size as int <= U64_MAX
    && s.offset as int + SEGMENT_HEADER_SIZE as int + DATA_BLOB_PAGE_HEADER_SIZE as int
       <= Min(s.offset + s.size, |r.data|)
    && var h := s.offset + SEGMENT_HEADER_SIZE;
    && r.U64(h) == d.totalByteLength
    && r.I32(h + 16) == ToI32(p)
    && r.I32(h + 20) == ToI32(d.pageCount)
    && r.U64(h + 8) == assembled
    && r.U64(h + 24) == length
    && length == ExpectedLength(d, p)
    && IsRangeWithin(h + DATA_BLOB_PAGE_HEADER_SIZE, length, s.offset + s.size)
    && r.Has(h + DATA_BLOB_PAGE_HEADER_SIZE, length)
    && assembled as int + length as int <= U64_MAX
  }

  function CheckPage(r: ByteReader, segments: seq<Segment>, d: Descriptor, p: u32, assembled: u64)
    : (span: Option<PageSpan>)
    requires p < d.pageCount && d.at + DescriptorSize(d) <= |r.data|
    ensures span.Some? ==> SpanReadable(r, span.value) && assembled + span.value.page.byteLength <= U64_MAX
  {
    var at := d.at + DATA_BLOB_REFERENCE_FIXED_SIZE + p * DATA_BLOB_PAGE_ENTRY_SIZE;
    var segmentIndex, length := r.U32(at), r.U32(at + 4);
    if segmentIndex >= |segments| || segments[segmentIndex].kind != Blob then None
    else if !PageHeaderAgrees(r, d, segments[segmentIndex], p, length, assembled) then None
    else Some(PageSpan(BlobPage(segmentIndex, length),
                       segments[segmentIndex].offset + SEGMENT_HEADER_SIZE + DATA_BLOB_PAGE_HEADER_SIZE))
  }

  predicate SpanReadable(r: ByteReader, span: PageSpan) {
    r.Has(span.dataOffset, span.page.byteLength)
  }

  ghost predicate Readable(r: ByteReader, spans: seq<PageSpan>) {
    forall i :: 0 <= i < |spans| ==> SpanReadable(r, spans[i])
  }

  function TotalLength(spans: seq<PageSpan>): nat {
    if spans == [] then 0 else TotalLength(spans[..|spans| - 1]) + spans[|spans| - 1].page.byteLength
  }

  ghost function Assemble(r: ByteReader, spans: seq<PageSpan>): seq<u8>
    requires Readable(r, spans)
  {
    if spans == [] then []
    else
      var last := spans[|spans| - 1];
      Assemble(r, spans[..|spans| - 1]) + r.Slice(last.dataOffset, last.page.byteLength)
  }

  /** A page check by position and by the bytes assembled before it. */
  type PageCheck = (nat, nat) -> Option<PageSpan>

  function Checker(r: ByteReader, segments: seq<Segment>, d: Descriptor): PageCheck {
    (p: nat, assembled: nat) =>
      if p < d.pageCount && d.at + DescriptorSize(d) <= |r.data| && assembled <= U64_MAX
      then CheckPage(r, segments, d, p, assembled) else None
  }

  /** The first n pages, each checked against the length of the ones before it. */
  ghost function FirstPages(check: PageCheck, n: nat): (spans: Option<seq<PageSpan>>)
    ensures spans.Some? ==> |spans.value| == n
  {
    if n == 0 then Some([])
    else
      var found := FirstPages(check, n - 1);
      if found.None? then None
      else
        var span := check(n - 1, TotalLength(found.value));
        if span.None? then None else Some(found.value + [span.value])
  }

  lemma NextPage(check: PageCheck, found: seq<PageSpan>, span: PageSpan)
    requires FirstPages(check, |found|) == Some(found) && check(|found|, TotalLength(found)) == Some(span)
    ensures FirstPages(check, |found| + 1) == Some(found + [span])
    ensures TotalLength(found + [span]) == TotalLength(found) + span.page.byteLength
  {
    assert (found + [span])[..|found|] == found;
  }

  lemma {:induction false} RejectionIsFinal(check: PageCheck, m: nat, n: nat)
    requires m <= n && FirstPages(check, m).None?
    ensures FirstPages(check, n).None?
    decreases n
  {
    if m < n {
      RejectionIsFinal(check, m, n - 1);
    }
  }

  /** The first p of the first n pages are the first p pages, and page p passed its check behind them. */
  lemma {:induction false} PassedPage(check: PageCheck, n: nat, p: nat)
    requires p < n && FirstPages(check, n).Some?
    ensures check(p, TotalLength(FirstPages(check, n).value[..p])) == Some(FirstPages(check, n).value[p])
    decreases n
  {
    var spans, found := FirstPages(check, n).value, FirstPages(check, n - 1).value;
    assert spans[..n - 1] == found;
    if p < n - 1 {
      PassedPage(check, n - 1, p);
      assert spans[..p] == found[..p];
    }
  }

  /** A blob is accepted when all its pages pass and together have the declared length. */
  ghost function AcceptedPages(r: ByteReader, segments: seq<Segment>, d: Descriptor): (spans: Option<seq<PageSpan>>)
    ensures spans.Some? ==>
              && |spans.value| == d.pageCount && TotalLength(spans.value) == d.totalByteLength
              && Readable(r, spans.value)
  {
    var check := Checker(r, segments, d);
    var spans := FirstPages(check, d.pageCount);
    if spans.Some? && TotalLength(spans.value) == d.totalByteLength then
      assert Readable(r, spans.value) by {
        forall p | 0 <= p < d.pageCount ensures SpanReadable(r, spans.value[p]) {
          PassedPage(check, d.pageCount, p);
        }
      }
      spans
    else None
  }

  method CheckPages(r: ByteReader, segments: seq<Segment>, d: Descriptor) returns (spans: Option<seq<PageSpan>>)
    requires d.at + DescriptorSize(d) <= |r.data|
    ensures spans == AcceptedPages(r, segments, d)
  {
    spans := CheckPagesWith(r, segments, d, Checker(r, segments, d));
  }

  method CheckPagesWith(r: ByteReader, segments: seq<Segment>, d: Descriptor, ghost check: PageCheck)
    returns (spans: Option<seq<PageSpan>>)
    requires d.at + DescriptorSize(d) <= |r.data|
    requires forall p: u32, assembled: u64 {:trigger CheckPage(r, segments, d, p, assembled)} ::
               p < d.pageCount ==> check(p, assembled) == CheckPage(r, segments, d, p, assembled)
    ensures spans == var all := FirstPages(check, d.pageCount);
                     if all.Some? && TotalLength(all.value) == d.totalByteLength then all else None
  {
    var found: seq<PageSpan> := [];
    var assembled: u64 := 0;
    var p: u32 := 0;
    while p < d.pageCount
      invariant p <= d.pageCount
      invariant FirstPages(check, p) == Some(found) && assembled == TotalLength(found)
    {
      var span := CheckPage(r, segments, d, p, assembled);
      if span.None? {
        RejectionIsFinal(check, p as nat + 1, d.pageCount);
        return None;
      }
      NextPage(check, found, span.value);
      found := found + [span.value];
      assembled := assembled + span.value.page.byteLength;
      p := p + 1;
    }
    return if assembled == d.totalByteLength then Some(found) else None;
  }

  /** The copying loop. Every page was validated, so no copy comes back short. */
  method CollectPayload(r: ByteReader, spans: seq<PageSpan>) returns (payload: seq<u8>)
    requires Readable(r, spans)
    ensures payload == Assemble(r, spans)
  {
    payload := [];
    for i := 0 to |spans|
      invariant payload == Assemble(r, spans[..i])
    {
      assert spans[..i + 1][..i] == spans[..i];
      payload := payload + r.Slice(spans[i].dataOffset, spans[i].page.byteLength);
    }
    assert spans[..|spans|] == spans;
  }

  /** A page lies in a Blob segment, behind its page header and before its end; the header stores
      where the page starts in the payload. */
  ghost predicate Placed(r: ByteReader, segments: seq<Segment>, d: Descriptor, span: PageSpan, p: nat, start: nat) {
    && span.page.segmentIndex < |segments|
    && span.page.byteLength == ExpectedLength(d, p)
    && var s := segments[span.page.segmentIndex];
    && s.kind == Blob
    && s.offset as int + SEGMENT_HEADER_SIZE as int + DATA_BLOB_PAGE_HEADER_SIZE as int == span.dataOffset
    && span.dataOffset + span.page.byteLength <= Min(s.offset + s.size, |r.data|)
    && r.U64(s.offset + SEGMENT_HEADER_SIZE + 8) == start
  }

  lemma CheckedPageIsPlaced(r: ByteReader, segments: seq<Segment>, d: Descriptor, p: nat, start: nat, span: PageSpan)
    requires Checker(r, segments, d)(p, start) == Some(span)
    ensures Placed(r, segments, d, span, p, start)
  {
    assert CheckPage(r, segments, d, p, start) == Some(span);
  }

  /** Every accepted page is placed, and starts where the earlier pages end. */
  lemma PagesArePlaced(r: ByteReader, segments: seq<Segment>, d: Descriptor, spans: seq<PageSpan>, p: nat)
    requires AcceptedPages(r, segments, d) == Some(spans) && p < d.pageCount
    ensures Placed(r, segments, d, spans[p], p, TotalLength(spans[..p]))
  {
    var check := Checker(r, segments, d);
    assert FirstPages(check, d.pageCount) == Some(spans);
    PassedPage(check, d.pageCount, p);
    CheckedPageIsPlaced(r, segments, d, p, TotalLength(spans[..p]), spans[p]);
  }

  lemma {:induction false} FullPages(d: Descriptor, spans: seq<PageSpan>, n: nat)
    requires n <= |spans| && n < d.pageCount
    requires forall p :: 0 <= p < n ==> spans[p].page.byteLength == ExpectedLength(d, p)
    ensures TotalLength(spans[..n]) == n * d.pageByteSize
  {
    if n == 0 {
    } else {
      FullPages(d, spans, n - 1);
      assert spans[..n][..n - 1] == spans[..n - 1];
    }
  }

  /** A non-empty accepted blob has all but its last page full. */
  lemma AcceptedTotal(r: ByteReader, segments: seq<Segment>, d: Descriptor)
    requires AcceptedPages(r, segments, d).Some? && d.pageCount > 0
    ensures d.totalByteLength == (d.pageCount - 1) * d.pageByteSize + d.lastPageByteSize
  {
    var spans := AcceptedPages(r, segments, d).value;
    forall p | 0 <= p < d.pageCount ensures spans[p].page.byteLength == ExpectedLength(d, p) {
      PagesArePlaced(r, segments, d, spans, p);
    }
    FullPages(d, spans, d.pageCount - 1);
  }

  /** Page k's bytes sit in the assembled payload at the sum of the earlier page lengths. */
  lemma {:induction false} AssembledPage(r: ByteReader, spans: seq<PageSpan>, k: nat)
    requires Readable(r, spans)
    requires k < |spans|
    ensures |Assemble(r, spans)| == TotalLength(spans)
    ensures TotalLength(spans[..k]) + spans[k].page.byteLength <= TotalLength(spans)
    ensures Assemble(r, spans)[TotalLength(spans[..k])..][..spans[k].page.byteLength]
            == r.Slice(spans[k].dataOffset, spans[k].page.byteLength)
    decreases |spans|
  {
    var n := |spans| - 1;
    AssembledLength(r, spans);
    AssembledLength(r, spans[..n]);
    if k < n {
      AssembledPage(r, spans[..n], k);
      assert spans[..n][..k] == spans[..k];
      assert Assemble(r, spans) == Assemble(r, spans[..n]) + r.Slice(spans[n].dataOffset, spans[n].page.byteLength);
    }
  }

  lemma {:induction false} AssembledLength(r: ByteReader, spans: seq<PageSpan>)
    requires Readable(r, spans)
    ensures |Assemble(r, spans)| == TotalLength(spans)
  {
    if spans == [] {
    } else {
      AssembledLength(r, spans[..|spans| - 1]);
    }
  }

  // ---------------------------------------------------------------------------------------------
  // The pages of a blob by themselves

  /** A page lies in a Blob segment, behind its page header and before the end of segment and section. */
  ghost predicate PageInSegment(r: ByteReader, segments: seq<Segment>, page: BlobPage) {
    && page.segmentIndex < |segments| && segments[page.segmentIndex].kind == Blob
    && var s := segments[page.segmentIndex];
    s.offset as int + SEGMENT_HEADER_SIZE as int + DATA_BLOB_PAGE_HEADER_SIZE as int + page.byteLength as int
    <= Min(s.offset + s.size, |r.data|)
  }

  ghost function PageBytes(r: ByteReader, segments: seq<Segment>, page: BlobPage): seq<u8>
    requires PageInSegment(r, segments, page)
  {
    r.Slice(segments[page.segmentIndex].offset + SEGMENT_HEADER_SIZE + DATA_BLOB_PAGE_HEADER_SIZE, page.byteLength)
  }

  ghost predicate PagesInSegments(r: ByteReader, segments: seq<Segment>, pages: seq<BlobPage>) {
    forall k :: 0 <= k < |pages| ==> PageInSegment(r, segments, pages[k])
  }

  /** The sum of the page lengths. */
  function PagesLength(pages: seq<BlobPage>): nat {
    if pages == [] then 0 else PagesLength(pages[..|pages| - 1]) + pages[|pages| - 1].byteLength
  }

  /** The page bytes, one page after the other. */
  ghost function PagesBytes(r: ByteReader, segments: seq<Segment>, pages: seq<BlobPage>): seq<u8>
    requires PagesInSegments(r, segments, pages)
  {
    if pages == [] then []
    else PagesBytes(r, segments, pages[..|pages| - 1]) + PageBytes(r, segments, pages[|pages| - 1])
  }

  function PagesOf(spans: seq<PageSpan>): (pages: seq<BlobPage>)
    ensures |pages| == |spans|
  {
    seq(|spans|, i requires 0 <= i < |spans| => spans[i].page)
  }

  lemma {:induction false} PagesHaveSpanLengths(spans: seq<PageSpan>, k: nat)
    requires k <= |spans|
    ensures PagesLength(PagesOf(spans)[..k]) == TotalLength(spans[..k])
    decreases k
  {
    if k == 0 {
    } else {
      PagesHaveSpanLengths(spans, k - 1);
      assert PagesOf(spans)[..k][..k - 1] == PagesOf(spans)[..k - 1] && spans[..k][..k - 1] == spans[..k - 1];
    }
  }

  /** The bytes of a span are those of its page. */
  ghost predicate SpanOfPage(r: ByteReader, segments: seq<Segment>, span: PageSpan) {
    && PageInSegment(r, segments, span.page) && SpanReadable(r, span)
    && r.Slice(span.dataOffset, span.page.byteLength) == PageBytes(r, segments, span.page)
  }

  lemma {:induction false} PagesHaveSpanBytes(r: ByteReader, segments: seq<Segment>, spans: seq<PageSpan>)
    requires forall k :: 0 <= k < |spans| ==> SpanOfPage(r, segments, spans[k])
    ensures PagesInSegments(r, segments, PagesOf(spans)) && Readable(r, spans)
    ensures PagesBytes(r, segments, PagesOf(spans)) == Assemble(r, spans)
  {
    if spans == [] {
    } else {
      var n := |spans| - 1;
      PagesHaveSpanBytes(r, segments, spans[..n]);
      assert PagesOf(spans)[..n] == PagesOf(spans[..n]);
      assert SpanOfPage(r, segments, spans[n]);
    }
  }

  /** Page k of a blob: its own header stores the sum of the earlier lengths as its start, and it has the length
      that its place demands. */
  ghost predicate PageAgrees(r: ByteReader, segments: seq<Segment>, b: BlobReference, k: nat)
    requires k < |b.pages|
  {
    && PageInSegment(r, segments, b.pages[k])
    && r.U64(segments[b.pages[k].segmentIndex].offset + SEGMENT_HEADER_SIZE + 8) == PagesLength(b.pages[..k])
    && b.pages[k].byteLength == if k + 1 == |b.pages| then b.lastPageByteSize else b.pageByteSize
  }

  /** What every blob reference of a record satisfies: every page agrees, and together they have the declared
      length, which is that of full pages and one last page. */
  ghost predicate BlobSound(r: ByteReader, segments: seq<Segment>, b: BlobReference) {
    && |b.pages| == b.pageCount && (forall k :: 0 <= k < |b.pages| ==> PageAgrees(r, segments, b, k))
    && PagesLength(b.pages) == b.totalByteLength
    && (b.pageCount > 0 ==> b.totalByteLength == (b.pageCount - 1) * b.pageByteSize + b.lastPageByteSize)
  }

  /** A retained payload is the concatenation of the pages, and page k stands in it behind the earlier ones. */
  ghost predicate HoldsPages(r: ByteReader, segments: seq<Segment>, b: BlobReference, payload: seq<u8>) {
    && BlobSound(r, segments, b) && PagesInSegments(r, segments, b.pages)
    && |payload| == b.totalByteLength && payload == PagesBytes(r, segments, b.pages)
    && forall k :: 0 <= k < |b.pages| ==> HoldsPage(r, segments, b.pages, k, payload)
  }

  ghost predicate HoldsPage(r: ByteReader, segments: seq<Segment>, pages: seq<BlobPage>, k: nat, payload: seq<u8>)
    requires k < |pages|
  {
    && PageInSegment(r, segments, pages[k])
    && PagesLength(pages[..k]) + pages[k].byteLength <= |payload|
    && payload[PagesLength(pages[..k])..][..pages[k].byteLength] == PageBytes(r, segments, pages[k])
  }

  lemma PlacedPageAgrees(r: ByteReader, segments: seq<Segment>, d: Descriptor, spans: seq<PageSpan>, b: BlobReference,
                         k: nat)
    requires AcceptedPages(r, segments, d) == Some(spans) && k < d.pageCount
    requires b.pages == PagesOf(spans) && b.pageByteSize == d.pageByteSize && b.lastPageByteSize == d.lastPageByteSize
    ensures PageAgrees(r, segments, b, k) && SpanOfPage(r, segments, spans[k])
  {
    PagesArePlaced(r, segments, d, spans, k);
    PagesHaveSpanLengths(spans, k);
  }

  /** The pages that a descriptor's checks accept make a sound blob. */
  lemma AcceptedBlobIsSound(r: ByteReader, segments: seq<Segment>, d: Descriptor, spans: seq<PageSpan>,
                            b: BlobReference)
    requires AcceptedPages(r, segments, d) == Some(spans)
    requires b.pages == PagesOf(spans) && b.pageByteSize == d.pageByteSize && b.lastPageByteSize == d.lastPageByteSize
    requires b.pageCount == d.pageCount && b.totalByteLength == d.totalByteLength
    ensures BlobSound(r, segments, b)
  {
    forall k | 0 <= k < |spans| ensures PageAgrees(r, segments, b, k) {
      PlacedPageAgrees(r, segments, d, spans, b, k);
    }
    PagesHaveSpanLengths(spans, |spans|);
    assert PagesOf(spans)[..|spans|] == PagesOf(spans) && spans[..|spans|] == spans;
    if d.pageCount > 0 {
      AcceptedTotal(r, segments, d);
    }
  }

  /** And what the copying loop assembles holds them. */
  lemma AssembledHoldsPages(r: ByteReader, segments: seq<Segment>, d: Descriptor, spans: seq<PageSpan>,
                            b: BlobReference)
    requires AcceptedPages(r, segments, d) == Some(spans)
    requires b.pages == PagesOf(spans) && b.pageByteSize == d.pageByteSize && b.lastPageByteSize == d.lastPageByteSize
    requires b.pageCount == d.pageCount && b.totalByteLength == d.totalByteLength
    ensures HoldsPages(r, segments, b, Assemble(r, spans))
  {
    AcceptedBlobIsSound(r, segments, d, spans, b);
    AssembledLength(r, spans);
    forall k | 0 <= k < |spans|
      ensures SpanOfPage(r, segments, spans[k]) && HoldsPage(r, segments, b.pages, k, Assemble(r, spans))
    {
      PlacedPageAgrees(r, segments, d, spans, b, k);
      PagesHaveSpanLengths(spans, k);
      AssembledPage(r, spans, k);
    }
    PagesHaveSpanBytes(r, segments, spans);
  }
}
