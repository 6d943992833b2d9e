/** Lists without repetition, and their sets. */
module Lists {

  ghost predicate Distinct<T>(s: seq<T>) {
    forall i, j :: 0 <= i < j < |s| ==> s[i] != s[j]
  }

  ghost function Elements<T>(s: seq<T>): set<T> {
    set x | x in s
  }

  lemma {:induction false} DistinctCount<T>(s: seq<T>)
    requires Distinct(s)
    ensures |Elements(s)| == |s|
  {
    if s == [] {
    } else {
      var n := |s| - 1;
      DistinctCount(s[..n]);
      assert s[n] !in s[..n];
      assert Elements(s) == Elements(s[..n]) + {s[n]};
    }
  }

  lemma {:induction false} SubsetSize<T>(a: set<T>, b: set<T>)
    requires a <= b
    ensures |a| <= |b|
    ensures |a| == |b| ==> a == b
    decreases a
  {
    if a == {} {
    } else {
      var x :| x in a;
      SubsetSize(a - {x}, b - {x});
      assert b == (b - {x}) + {x} && a == (a - {x}) + {x};
    }
  }

  lemma DistinctConcat<T>(s: seq<T>, t: seq<T>)
    requires Distinct(s) && Distinct(t) && forall x :: x in t ==> x !in s
    ensures Distinct(s + t)
  {
    forall i, j | 0 <= i < j < |s + t| ensures (s + t)[i] != (s + t)[j] {
      if i < |s| <= j {
        assert (s + t)[j] in t;
      }
    }
  }

  lemma DistinctNext<T>(s: seq<T>, x: T)
    requires Distinct(s)
    ensures Distinct(s + [x]) <==> x !in s
  {
    if x in s {
      var i :| 0 <= i < |s| && s[i] == x;
      assert (s + [x])[i] == (s + [x])[|s|];
    }
  }

  lemma DistinctPrefix<T>(a: seq<T>, b: seq<T>)
    requires Distinct(a + b)
    ensures Distinct(a)
  {
    forall i, j | 0 <= i < j < |a| ensures a[i] != a[j] {
      assert (a + b)[i] == a[i] && (a + b)[j] == a[j];
    }
  }

  lemma DistinctSuffix<T>(a: seq<T>, b: seq<T>)
    requires Distinct(a + b)
    ensures Distinct(b) && forall x :: x in b ==> x !in a
  {
    forall i, j | 0 <= i < j < |b| ensures b[i] != b[j] {
      assert (a + b)[|a| + i] == b[i] && (a + b)[|a| + j] == b[j];
    }
    forall i, j | 0 <= i < |a| && 0 <= j < |b| ensures a[i] != b[j] {
      assert (a + b)[i] == a[i] && (a + b)[|a| + j] == b[j];
    }
  }

  /** Two distinct lists of one length, the first within the second, have the same elements. */
  lemma SameElements<T>(s: seq<T>, t: seq<T>)
    requires Distinct(s) && Distinct(t) && |s| == |t| && forall x :: x in s ==> x in t
    ensures forall x :: x in t ==> x in s
  {
    DistinctCount(s);
    DistinctCount(t);
    SubsetSize(Elements(s), Elements(t));
    forall x | x in t ensures x in s {
      assert x in Elements(t);
    }
  }

  /** Appends what is not yet there. */
  function AddOnce<T(==, !new)>(s: seq<T>, x: T): (t: seq<T>)
    ensures Distinct(s) ==> Distinct(t)
    ensures forall y :: y in t <==> y in s || y == x
  {
    if x in s then s else s + [x]
  }

  /** The items that are kept, in order. */
  function Kept<T>(s: seq<T>, keep: T -> bool): seq<T> {
    if s == [] then []
    else Kept(s[..|s| - 1], keep) + (if keep(s[|s| - 1]) then [s[|s| - 1]] else [])
  }

  lemma {:induction false} KeptPrefix<T>(s: seq<T>, keep: T -> bool, i: nat)
    requires i <= |s|
    ensures Kept(s[..i], keep) <= Kept(s, keep)
    decreases |s|
  {
    if i == |s| {
      assert s[..i] == s;
    } else {
      assert s[..|s| - 1][..i] == s[..i];
      KeptPrefix(s[..|s| - 1], keep, i);
    }
  }

  /** The kept items of each block in turn. */
  function KeptOf<T>(blocks: seq<seq<T>>, keep: T -> bool): seq<T> {
    if blocks == [] then [] else KeptOf(blocks[..|blocks| - 1], keep) + Kept(blocks[|blocks| - 1], keep)
  }

  lemma {:induction false} KeptOfPrefix<T>(blocks: seq<seq<T>>, keep: T -> bool, i: nat)
    requires i <= |blocks|
    ensures KeptOf(blocks[..i], keep) <= KeptOf(blocks, keep)
    decreases |blocks|
  {
    if i == |blocks| {
      assert blocks[..i] == blocks;
    } else {
      assert blocks[..|blocks| - 1][..i] == blocks[..i];
      KeptOfPrefix(blocks[..|blocks| - 1], keep, i);
    }
  }
}
