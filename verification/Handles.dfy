/** Items told apart by a handle, and their index. */
module Handles {
  import opened Words
  import opened Lists

  ghost function Keys<T>(items: seq<T>, key: T -> u32): (keys: seq<u32>)
    ensures |keys| == |items|
  {
    seq(|items|, i requires 0 <= i < |items| => key(items[i]))
  }

  lemma KeyOfMember<T>(items: seq<T>, key: T -> u32, t: T)
    requires t in items
    ensures key(t) in Keys(items, key)
  {
    var i :| 0 <= i < |items| && items[i] == t;
    assert Keys(items, key)[i] == key(t);
  }

  lemma MemberOfKey<T>(items: seq<T>, key: T -> u32, x: u32) returns (t: T)
    requires x in Keys(items, key)
    ensures t in items && key(t) == x
  {
    var i :| 0 <= i < |items| && Keys(items, key)[i] == x;
    t := items[i];
  }

  /** No two items share a handle, and none is zero. */
  ghost predicate Keyed<T>(items: seq<T>, key: T -> u32) {
    0 !in Keys(items, key) && Distinct(Keys(items, key))
  }

  lemma SameKeySameItem<T>(items: seq<T>, key: T -> u32, s: T, t: T)
    requires Keyed(items, key) && s in items && t in items && key(s) == key(t)
    ensures s == t
  {
    var i :| 0 <= i < |items| && items[i] == s;
    var j :| 0 <= j < |items| && items[j] == t;
    assert Keys(items, key)[i] == Keys(items, key)[j];
  }

  ghost predicate Index<T>(byHandle: map<u32, T>, items: seq<T>, key: T -> u32) {
    && (forall x :: x in byHandle <==> x in Keys(items, key))
    && (forall x :: x in byHandle ==> byHandle[x] in items && key(byHandle[x]) == x)
  }

  lemma MemberIsIndexed<T>(byHandle: map<u32, T>, items: seq<T>, key: T -> u32, t: T)
    requires Index(byHandle, items, key) && Keyed(items, key) && t in items
    ensures key(t) in byHandle && byHandle[key(t)] == t
  {
    KeyOfMember(items, key, t);
    SameKeySameItem(items, key, byHandle[key(t)], t);
  }

  lemma PrefixDistinct(hs: seq<u32>, n: nat)
    requires n <= |hs|
    ensures Distinct(hs) ==> Distinct(hs[..n])
  {
  }

  method IndexItems<T>(items: seq<T>, key: T -> u32) returns (ok: bool, byHandle: map<u32, T>)
    ensures ok <==> Keyed(items, key)
    ensures ok ==> Index(byHandle, items, key)
  {
    byHandle := map[];
    for i := 0 to |items|
      invariant Keyed(items[..i], key) && Index(byHandle, items[..i], key)
    {
      ghost var keys := Keys(items[..i], key);
      assert Keys(items[..i + 1], key) == keys + [key(items[i])] == Keys(items, key)[..i + 1];
      DistinctNext(keys, key(items[i]));
      if key(items[i]) == 0 || key(items[i]) in byHandle {
        PrefixDistinct(Keys(items, key), i + 1);
        assert Keys(items, key)[i] == key(items[i]);
        return false, byHandle;
      }
      assert items[..i + 1] == items[..i] + [items[i]];
      byHandle := byHandle[key(items[i]) := items[i]];
    }
    assert items[..|items|] == items;
    ok := true;
  }
}
