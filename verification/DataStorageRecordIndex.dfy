/** The preferred-record and grouped-record indexes, by numeric handle and by hexadecimal text. */
module DataStorageRecordIndex {
  import opened Words
  import opened Text
  import opened DataStorage

  /** What decides between two records of one handle. */
  datatype Rank = Rank(hasRevision: bool, revision: u32, dataOffset: u64, segmentIndex: u32)

  predicate Outranks(a: Rank, b: Rank) {
    if a.hasRevision != b.hasRevision then a.hasRevision
    else if a.revision != b.revision then a.revision > b.revision
    else if a.dataOffset != b.dataOffset then a.dataOffset > b.dataOffset
    else a.segmentIndex > b.segmentIndex
  }

  function RankOf(record: Record, segments: seq<Segment>): Rank
    requires record.segmentIndex < |segments|
  {
    var s := segments[record.segmentIndex];
    Rank(s.hasRevision, s.revision, record.dataOffset, record.segmentIndex)
  }

  function KeyOf(record: Record): string {
    if record.handleKey == "" then Hex(record.handle) else record.handleKey
  }

  // ---------------------------------------------------------------------------------------------
  // The index over one kind of key: the handle numbers, or their text

  /** The positions holding key k, ascending. */
  ghost function Positions<K(!new)>(ks: seq<K>, k: K): (ps: seq<nat>)
    ensures forall p :: p in ps ==> p < |ks| && ks[p] == k
  {
    if ks == [] then []
    else
      var n := |ks| - 1;
      if ks[n] == k then Positions(ks[..n], k) + [n] else Positions(ks[..n], k)
  }

  /** The groups partition the positions, each in ascending order. */
  lemma {:induction false} PositionsPartition<K(!new)>(ks: seq<K>, k: K)
    ensures forall p :: 0 <= p < |ks| ==> (p in Positions(ks, k) <==> ks[p] == k)
    ensures forall a, b :: 0 <= a < b < |Positions(ks, k)| ==> Positions(ks, k)[a] < Positions(ks, k)[b]
  {
    if ks == [] {
    } else {
      var n := |ks| - 1;
      var before := Positions(ks[..n], k);
      PositionsPartition(ks[..n], k);
      forall a, b | 0 <= a < b < |Positions(ks, k)| ensures Positions(ks, k)[a] < Positions(ks, k)[b] {
        assert a < |before| ==> before[a] in before;
      }
    }
  }

  /** The position chosen for k by scanning from the left and replacing only by a higher rank. */
  ghost function Chosen<K(!new)>(ks: seq<K>, ranks: seq<Rank>, k: K): (p: nat)
    requires |ks| == |ranks| && Positions(ks, k) != []
    ensures p in Positions(ks, k)
    decreases |ks|
  {
    var n := |ks| - 1;
    if ks[n] != k then Chosen(ks[..n], ranks[..n], k)
    else if Positions(ks[..n], k) == [] then n
    else
      var p := Chosen(ks[..n], ranks[..n], k);
      if Outranks(ranks[n], ranks[p]) then n else p
  }

  /** The chosen record outranks every earlier record of its key and is outranked by none. */
  lemma {:induction false} ChosenIsEarliestGreatest<K(!new)>(ks: seq<K>, ranks: seq<Rank>, k: K, q: nat)
    requires |ks| == |ranks| && q in Positions(ks, k)
    ensures !Outranks(ranks[q], ranks[Chosen(ks, ranks, k)])
    ensures q < Chosen(ks, ranks, k) ==> Outranks(ranks[Chosen(ks, ranks, k)], ranks[q])
    decreases |ks|
  {
    var n := |ks| - 1;
    if q in Positions(ks[..n], k) {
      ChosenIsEarliestGreatest(ks[..n], ranks[..n], k, q);
    }
  }

  /** The keys of second records, in the order in which those appear. */
  ghost function Repeated<K(!new)>(ks: seq<K>): seq<K> {
    if ks == [] then []
    else
      var n := |ks| - 1;
      if |Positions(ks[..n], ks[n])| == 1 then Repeated(ks[..n]) + [ks[n]] else Repeated(ks[..n])
  }

  /** The duplicate list names every key with two or more records. */
  lemma {:induction false} RepeatedIsExact<K(!new)>(ks: seq<K>, k: K)
    ensures k in Repeated(ks) <==> |Positions(ks, k)| >= 2
  {
    if ks == [] {
    } else {
      RepeatedIsExact(ks[..|ks| - 1], k);
    }
  }

  /** The duplicate list names no key twice. */
  lemma {:induction false} RepeatedHasNoDuplicates<K(!new)>(ks: seq<K>)
    ensures forall a, b :: 0 <= a < b < |Repeated(ks)| ==> Repeated(ks)[a] != Repeated(ks)[b]
  {
    if ks == [] {
    } else {
      var n := |ks| - 1;
      RepeatedHasNoDuplicates(ks[..n]);
      RepeatedIsExact(ks[..n], ks[n]);
    }
  }

  datatype KeyIndex<K(==)> = KeyIndex(preferred: map<K, nat>, all: map<K, seq<nat>>)

  /** Key k is indexed if it occurs, with its group and its chosen position. */
  ghost predicate ExactAt<K(!new)>(x: KeyIndex<K>, ks: seq<K>, ranks: seq<Rank>, k: K)
    requires |ks| == |ranks|
  {
    if Positions(ks, k) == [] then k !in x.preferred && k !in x.all
    else
      && k in x.preferred && x.preferred[k] == Chosen(ks, ranks, k)
      && k in x.all && x.all[k] == Positions(ks, k)
  }

  ghost predicate Exact<K(!new)>(x: KeyIndex<K>, ks: seq<K>, ranks: seq<Rank>)
    requires |ks| == |ranks|
  {
    forall k :: ExactAt(x, ks, ranks, k)
  }

  ghost predicate InRange<K(!new)>(x: KeyIndex<K>, n: nat) {
    forall k :: k in x.preferred ==> x.preferred[k] < n
  }

  /** Appends position n to its group and lets it replace the preferred position if it outranks it. */
  function Insert<K(!new)>(x: KeyIndex<K>, ranks: seq<Rank>, k: K, n: nat): KeyIndex<K>
    requires n < |ranks| && InRange(x, |ranks|)
  {
    KeyIndex(
      if k !in x.preferred || Outranks(ranks[n], ranks[x.preferred[k]]) then x.preferred[k := n] else x.preferred,
      x.all[k := (if k in x.all then x.all[k] else []) + [n]])
  }

  lemma ExactIsInRange<K(!new)>(x: KeyIndex<K>, ks: seq<K>, ranks: seq<Rank>)
    requires |ks| == |ranks| && Exact(x, ks, ranks)
    ensures InRange(x, |ks|)
  {
    forall k | k in x.preferred ensures x.preferred[k] < |ks| {
      assert ExactAt(x, ks, ranks, k);
      assert Chosen(ks, ranks, k) in Positions(ks, k);
    }
  }

  lemma InsertKeepsExactAt<K(!new)>(x: KeyIndex<K>, ks: seq<K>, ranks: seq<Rank>, n: nat, k: K)
    requires n < |ks| == |ranks| && ExactAt(x, ks[..n], ranks[..n], k) && InRange(x, n)
    ensures ExactAt(Insert(x, ranks, ks[n], n), ks[..n + 1], ranks[..n + 1], k)
  {
    assert ks[..n + 1][..n] == ks[..n] && ranks[..n + 1][..n] == ranks[..n];
  }

  lemma InsertKeepsExact<K(!new)>(x: KeyIndex<K>, ks: seq<K>, ranks: seq<Rank>, n: nat)
    requires n < |ks| == |ranks| && Exact(x, ks[..n], ranks[..n]) && InRange(x, n)
    ensures Exact(Insert(x, ranks, ks[n], n), ks[..n + 1], ranks[..n + 1])
  {
    var x', ks', ranks' := Insert(x, ranks, ks[n], n), ks[..n + 1], ranks[..n + 1];
    forall k ensures ExactAt(x', ks', ranks', k) {
      assert ExactAt(x, ks[..n], ranks[..n], k);
      InsertKeepsExactAt(x, ks, ranks, n, k);
    }
  }

  // ---------------------------------------------------------------------------------------------
  // The numeric and the text index together

  ghost predicate KeysAreHex(handles: seq<u64>, keys: seq<string>) {
    |keys| == |handles| && forall i :: 0 <= i < |keys| ==> keys[i] == Hex(handles[i])
  }

  /** A handle and its text have the same records, and the same one is preferred. */
  lemma {:induction false} TextAgrees(handles: seq<u64>, keys: seq<string>, ranks: seq<Rank>, h: u64)
    requires KeysAreHex(handles, keys) && |ranks| == |handles|
    ensures Positions(handles, h) == Positions(keys, Hex(h))
    ensures Positions(handles, h) != [] ==> Chosen(handles, ranks, h) == Chosen(keys, ranks, Hex(h))
    decreases |handles|
  {
    if handles == [] {
    } else {
      var n := |handles| - 1;
      TextAgrees(handles[..n], keys[..n], ranks[..n], h);
      if keys[n] == Hex(h) {
        HexInjective(handles[n], h);
      }
    }
  }

  /** Both insertions succeed, or neither; a repeated key is listed when its second record appears. */
  lemma DuplicatesStep(x: KeyIndex<u64>, y: KeyIndex<string>, handles: seq<u64>, keys: seq<string>,
                       ranks: seq<Rank>, n: nat)
    requires KeysAreHex(handles, keys) && |ranks| == |handles| && n < |keys|
    requires Exact(x, handles[..n], ranks[..n]) && Exact(y, keys[..n], ranks[..n])
    ensures handles[n] in x.preferred <==> keys[n] in y.preferred
    ensures Repeated(keys[..n + 1])
            == if keys[n] in y.preferred && keys[n] !in Repeated(keys[..n])
               then Repeated(keys[..n]) + [keys[n]] else Repeated(keys[..n])
  {
    TextAgrees(handles[..n], keys[..n], ranks[..n], handles[n]);
    RepeatedIsExact(keys[..n], keys[n]);
    assert keys[..n + 1][..n] == keys[..n];
    assert ExactAt(x, handles[..n], ranks[..n], handles[n]) && ExactAt(y, keys[..n], ranks[..n], keys[n]);
  }

  /** The scan over all records, maintaining both indexes and the duplicate list. */
  method Scan(handles: seq<u64>, keys: seq<string>, ranks: seq<Rank>)
    returns (x: KeyIndex<u64>, y: KeyIndex<string>, duplicates: seq<string>)
    requires KeysAreHex(handles, keys) && |ranks| == |handles|
    ensures Exact(x, handles, ranks) && Exact(y, keys, ranks) && duplicates == Repeated(keys)
  {
    x, y, duplicates := KeyIndex(map[], map[]), KeyIndex(map[], map[]), [];
    for i := 0 to |handles|
      invariant Exact(x, handles[..i], ranks[..i]) && Exact(y, keys[..i], ranks[..i])
      invariant duplicates == Repeated(keys[..i])
    {
      DuplicatesStep(x, y, handles, keys, ranks, i);
      if !(handles[i] !in x.preferred && keys[i] !in y.preferred) && keys[i] !in duplicates {
        duplicates := duplicates + [keys[i]];
      }
      ExactIsInRange(x, handles[..i], ranks[..i]);
      ExactIsInRange(y, keys[..i], ranks[..i]);
      InsertKeepsExact(x, handles, ranks, i);
      InsertKeepsExact(y, keys, ranks, i);
      x, y := Insert(x, ranks, handles[i], i), Insert(y, ranks, keys[i], i);
    }
    assert handles[..|handles|] == handles && keys[..|handles|] == keys && ranks[..|handles|] == ranks;
  }

  ghost predicate Indexable(records: seq<Record>, segments: seq<Segment>) {
    forall i :: 0 <= i < |records| ==>
      && records[i].segmentIndex < |segments|
      && (records[i].handleKey == "" || records[i].handleKey == Hex(records[i].handle))
  }

  function Handles(records: seq<Record>): seq<u64> {
    seq(|records|, i requires 0 <= i < |records| => records[i].handle)
  }

  function Keys(records: seq<Record>): seq<string> {
    seq(|records|, i requires 0 <= i < |records| => KeyOf(records[i]))
  }

  function Ranks(records: seq<Record>, segments: seq<Segment>): seq<Rank>
    requires Indexable(records, segments)
  {
    seq(|records|, i requires 0 <= i < |records| => RankOf(records[i], segments))
  }

  /** The published indexes are exact: groups, preferred records and repeated keys. */
  ghost predicate IndexesExact(section: Section)
    requires Indexable(section.records, section.segments)
    reads section
  {
    var handles, keys := Handles(section.records), Keys(section.records);
    var ranks := Ranks(section.records, section.segments);
    && Exact(KeyIndex(section.recordIndexByHandle, section.recordIndexesByHandle), handles, ranks)
    && Exact(KeyIndex(section.recordIndexByHandleKey, section.recordIndexesByHandleKey), keys, ranks)
    && section.duplicateRecordHandleKeys == Repeated(keys)
  }

  /** Builds every index in place; only a record count beyond an int is refused. */
  method BuildRecordIndex(section: Section) returns (ok: bool)
    requires Indexable(section.records, section.segments)
    modifies section`recordIndexByHandle, section`recordIndexByHandleKey, section`recordIndexesByHandle,
             section`recordIndexesByHandleKey, section`duplicateRecordHandleKeys
    ensures ok <==> |section.records| < 0x8000_0000
    ensures ok ==> IndexesExact(section)
  {
    section.recordIndexByHandle, section.recordIndexByHandleKey := map[], map[];
    section.recordIndexesByHandle, section.recordIndexesByHandleKey := map[], map[];
    section.duplicateRecordHandleKeys := [];
    if |section.records| > 0x7FFF_FFFF {
      return false;
    }
    var x, y, duplicates :=
      Scan(Handles(section.records), Keys(section.records), Ranks(section.records, section.segments));
    section.recordIndexByHandle, section.recordIndexByHandleKey := x.preferred, y.preferred;
    section.recordIndexesByHandle, section.recordIndexesByHandleKey := x.all, y.all;
    section.duplicateRecordHandleKeys := duplicates;
    ok := true;
  }
}
