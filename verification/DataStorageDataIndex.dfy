/** The data index: references to records, de-duplicated by a "segment:offset" text key. */
module DataStorageDataIndex {
  import opened Words
  import opened Text
  import opened DataStorage

  function DecodeEntry(r: ByteReader, at: u64): IndexEntry
    requires r.Has(at, DATA_INDEX_ENTRY_SIZE)
  {
    IndexEntry(r.U32(at), r.U32(at + 4), r.U32(at + 8))
  }

  function Key(e: IndexEntry): string {
    PairKey(e.segmentIndex, e.localOffset)
  }

  predicate SameTarget(a: IndexEntry, b: IndexEntry) {
    a.segmentIndex == b.segmentIndex && a.localOffset == b.localOffset
  }

  predicate IsZeroPlaceholder(e: IndexEntry, segments: seq<Segment>) {
    e == IndexEntry(0, 0, 0) && (segments == [] || !segments[0].IsData())
  }

  /** Where the entries of the data-index segment start, if its header is readable and the count positive. */
  datatype Table = Table(base: u64, end: u64, declared: u32)

  datatype Location = Absent | Malformed | Located(table: Table)

  function Locate(r: ByteReader, segments: seq<Segment>, which: i32): (l: Location)
    ensures l.Located? ==> l.table.end <= |r.data| && l.table.base <= |r.data|
  {
    if which < 0 then Absent
    else if which >= |segments| then Malformed
    else
      var s := segments[which];
      var end := CheckedAdd(s.offset, s.size);
      var at := CheckedAdd(s.offset, SEGMENT_HEADER_SIZE);
      if end.None? || at.None? || !IsRangeWithin(at.value, 8, end.value) || !r.Has(at.value, 8) then Malformed
      else if r.I32(at.value) <= 0 then Absent
      else Located(Table(at.value + 8, Min(end.value, |r.data|), r.I32(at.value)))
  }

  function EntryCount(t: Table): (n: u32)
    ensures n <= t.declared
    ensures n > 0 ==> t.base + n * DATA_INDEX_ENTRY_SIZE <= t.end
  {
    CapCount(t.declared, if t.base < t.end then t.end - t.base else 0, DATA_INDEX_ENTRY_SIZE)
  }

  function EntryAt(r: ByteReader, t: Table, i: u32): IndexEntry
    requires t.end <= |r.data| && i < EntryCount(t)
  {
    DecodeEntry(r, t.base + i * DATA_INDEX_ENTRY_SIZE)
  }

  ghost function RawEntries(r: ByteReader, t: Table): (es: seq<IndexEntry>)
    requires t.end <= |r.data|
    ensures |es| == EntryCount(t)
  {
    seq(EntryCount(t), i requires 0 <= i < EntryCount(t) => EntryAt(r, t, i))
  }

  /** The first entry for each target, in order. */
  ghost function FirstOccurrences(raw: seq<IndexEntry>): (kept: seq<IndexEntry>)
  {
    if raw == [] then []
    else
      var kept := FirstOccurrences(raw[..|raw| - 1]);
      var last := raw[|raw| - 1];
      if exists e :: e in kept && SameTarget(e, last) then kept else kept + [last]
  }

  /** No two kept entries share a target. */
  lemma {:induction false} KeptTargetsAreDistinct(raw: seq<IndexEntry>)
    ensures forall i, j :: 0 <= i < j < |FirstOccurrences(raw)| ==>
              !SameTarget(FirstOccurrences(raw)[i], FirstOccurrences(raw)[j])
  {
    if raw == [] {
    } else {
      KeptTargetsAreDistinct(raw[..|raw| - 1]);
    }
  }

  /** Every entry's target is kept, and nothing else is. */
  lemma {:induction false} KeptTargetsAreComplete(raw: seq<IndexEntry>, e: IndexEntry)
    ensures e in FirstOccurrences(raw) ==> e in raw
    ensures e in raw ==> exists k :: k in FirstOccurrences(raw) && SameTarget(k, e)
  {
    if raw == [] {
    } else {
      var n := |raw| - 1;
      KeptTargetsAreComplete(raw[..n], e);
      assert raw == raw[..n] + [raw[n]];
      var kept := FirstOccurrences(raw[..n]);
      if e in raw[..n] {
        var k :| k in kept && SameTarget(k, e);
        assert k in FirstOccurrences(raw);
      } else if e == raw[n] && e in FirstOccurrences(raw) {
        assert SameTarget(e, e);
      }
    }
  }

  /** An entry repeats an earlier target without being the all-zero placeholder. */
  ghost predicate IsBadRepeat(raw: seq<IndexEntry>, i: nat, segments: seq<Segment>)
    requires i < |raw|
  {
    !IsZeroPlaceholder(raw[i], segments) && exists k :: k in FirstOccurrences(raw[..i]) && SameTarget(k, raw[i])
  }

  ghost predicate NoBadRepeats(raw: seq<IndexEntry>, n: nat, segments: seq<Segment>)
    requires n <= |raw|
  {
    forall i :: 0 <= i < n ==> !IsBadRepeat(raw, i, segments)
  }

  /** What the reader leaves in the section. */
  ghost function DataIndexOf(r: ByteReader, segments: seq<Segment>, which: i32): seq<IndexEntry> {
    match Locate(r, segments, which)
    case Located(t) => FirstOccurrences(RawEntries(r, t))
    case _ => []
  }

  ghost predicate DataIndexSound(r: ByteReader, segments: seq<Segment>, which: i32) {
    match Locate(r, segments, which)
    case Absent => true
    case Malformed => false
    case Located(t) =>
      EntryCount(t) == t.declared && NoBadRepeats(RawEntries(r, t), EntryCount(t), segments)
  }

  /** The text keys collected so far are those of the kept entries. */
  ghost predicate Tracks(seen: map<string, u32>, kept: seq<IndexEntry>) {
    forall k :: k in seen <==> exists e :: e in kept && Key(e) == k
  }

  /** A text key was seen exactly when the target was: the key text is injective. */
  lemma KeySeenIffTargetSeen(seen: map<string, u32>, kept: seq<IndexEntry>, e: IndexEntry)
    requires Tracks(seen, kept)
    ensures Key(e) in seen <==> exists k :: k in kept && SameTarget(k, e)
  {
    if Key(e) in seen {
      var k :| k in kept && Key(k) == Key(e);
      PairKeyInjective(k.segmentIndex, k.localOffset, e.segmentIndex, e.localOffset);
      assert SameTarget(k, e);
    }
    if exists k :: k in kept && SameTarget(k, e) {
      var k :| k in kept && SameTarget(k, e);
      assert Key(k) == Key(e);
    }
  }

  method AppendEntry(section: Section, entry: IndexEntry, i: u32, seen: map<string, u32>,
                     ghost raw: seq<IndexEntry>, ghost prefix: seq<IndexEntry>)
    returns (seen': map<string, u32>)
    requires section.Valid() && i < |raw| && entry == raw[i]
    requires section.dataIndexEntries == prefix + FirstOccurrences(raw[..i])
    requires Tracks(seen, FirstOccurrences(raw[..i]))
    modifies section`dataIndexEntries, section`structurallyValid, section`replayAllowed
    ensures section.Valid() && Tracks(seen', FirstOccurrences(raw[..i + 1]))
    ensures section.dataIndexEntries == prefix + FirstOccurrences(raw[..i + 1])
    ensures section.structurallyValid ==
            (old(section.structurallyValid) && !IsBadRepeat(raw, i, section.segments))
  {
    ghost var kept := FirstOccurrences(raw[..i]);
    assert raw[..i + 1][..i] == raw[..i];
    KeySeenIffTargetSeen(seen, kept, entry);
    var key := Key(entry);
    seen' := seen;
    if key in seen {
      if !IsZeroPlaceholder(entry, section.segments) {
        section.PushStructuralDiag();
      }
    } else {
      seen' := seen[key := i];
      section.dataIndexEntries := section.dataIndexEntries + [entry];
    }
  }

  /** The capped count keeps every entry in bounds, so the per-entry truncation branch never runs. */
  method ReadDataIndex(r: ByteReader, which: i32, section: Section)
    requires section.Valid()
    modifies section`dataIndexEntries, section`structurallyValid, section`replayAllowed
    ensures section.Valid()
    ensures section.dataIndexEntries == old(section.dataIndexEntries) + DataIndexOf(r, section.segments, which)
    ensures section.structurallyValid ==
            (old(section.structurallyValid) && DataIndexSound(r, section.segments, which))
  {
    var location := Locate(r, section.segments, which);
    if location.Absent? {
      return;
    }
    if location.Malformed? {
      section.PushStructuralDiag();
      return;
    }
    var t := location.table;
    var maxCount := EntryCount(t);
    if maxCount < t.declared {
      section.PushStructuralDiag();
    }
    ReadEntries(r, t, maxCount, section, RawEntries(r, t));
  }

  /** The raw entries are those of the table, one for every counted position. */
  ghost predicate Describes(raw: seq<IndexEntry>, r: ByteReader, t: Table) {
    && t.end <= |r.data| && |raw| == EntryCount(t)
    && forall j: u32 {:trigger EntryAt(r, t, j)} :: j < |raw| ==> raw[j] == EntryAt(r, t, j)
  }

  method ReadEntries(r: ByteReader, t: Table, maxCount: u32, section: Section, ghost raw: seq<IndexEntry>)
    requires section.Valid() && maxCount == |raw| && Describes(raw, r, t)
    modifies section`dataIndexEntries, section`structurallyValid, section`replayAllowed
    ensures section.Valid()
    ensures section.dataIndexEntries == old(section.dataIndexEntries) + FirstOccurrences(raw)
    ensures section.structurallyValid ==
              (old(section.structurallyValid) && NoBadRepeats(raw, maxCount, section.segments))
  {
    var seen: map<string, u32> := map[];
    var i: u32 := 0;
    while i < maxCount
      invariant i <= maxCount && section.Valid()
      invariant section.dataIndexEntries == old(section.dataIndexEntries) + FirstOccurrences(raw[..i])
      invariant Tracks(seen, FirstOccurrences(raw[..i]))
      invariant section.structurallyValid == (old(section.structurallyValid) && NoBadRepeats(raw, i, section.segments))
    {
      var entry := ReadEntry(r, t, i, raw);
      seen := AppendEntry(section, entry, i, seen, raw, old(section.dataIndexEntries));
      i := i + 1;
    }
    assert raw[..i] == raw;
  }

  method ReadEntry(r: ByteReader, t: Table, i: u32, ghost raw: seq<IndexEntry>) returns (entry: IndexEntry)
    requires i < |raw| && Describes(raw, r, t)
    ensures entry == raw[i]
  {
    var delta := CheckedMultiply(i, DATA_INDEX_ENTRY_SIZE);
    if delta.None? || CheckedAdd(t.base, delta.value).None?
       || !IsRangeWithin(t.base + delta.value, DATA_INDEX_ENTRY_SIZE, t.end)
       || !r.Has(t.base + delta.value, DATA_INDEX_ENTRY_SIZE) {
      assert false;
    }
    entry := EntryAt(r, t, i);
  }
}
