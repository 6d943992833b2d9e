/** The resolved record graph, and the cycle-guarded walks over its loops and coedges. */
module AcisRings {
  import opened Words
  import opened Lists
  import opened AcisItems
  import opened AcisSab
  import Signature = AcisSignature

  datatype Node = Node(kind: seq<u8>, tokens: seq<Token>, refs: seq<int>)

  // ---------------------------------------------------------------------------------------------
  // Pointer resolution

  function Resolve(target: int, n: nat): (r: int)
    ensures -1 <= r < n
  {
    if 0 <= target < n then target else -1
  }

  /** A token's integer slot, zero if the token does not use it. */
  function Ival(p: Payload): int {
    match p
    case Number(v) => v
    case Level(depth) => depth
    case _ => 0
  }

  /** The resolved pointers, in the order of their tokens. */
  function RefsOf(tokens: seq<Token>, n: nat): (refs: seq<int>)
    ensures forall r :: r in refs ==> -1 <= r < n
  {
    if tokens == [] then []
    else
      var last, before := tokens[|tokens| - 1], RefsOf(tokens[..|tokens| - 1], n);
      if last.tag == NODE_REF then before + [Resolve(Ival(last.payload), n)] else before
  }

  method ResolveRefs(tokens: seq<Token>, n: nat) returns (refs: seq<int>)
    ensures refs == RefsOf(tokens, n)
  {
    refs := [];
    for i := 0 to |tokens|
      invariant refs == RefsOf(tokens[..i], n)
    {
      assert tokens[..i + 1][..i] == tokens[..i];
      if tokens[i].tag == NODE_REF {
        refs := refs + [Resolve(Ival(tokens[i].payload), n)];
      }
    }
    assert tokens[..|tokens|] == tokens;
  }

  ghost predicate Closed(nodes: seq<Node>) {
    forall i, r :: 0 <= i < |nodes| && r in nodes[i].refs ==> -1 <= r < |nodes|
  }

  ghost predicate IsModelOf(nodes: seq<Node>, records: seq<Record>) {
    && |nodes| == (if |records| > 0x7FFF_FFFF then 0 else |records|)
    && forall i :: 0 <= i < |nodes| ==>
         nodes[i] == Node(records[i].kind, records[i].tokens, RefsOf(records[i].tokens, |nodes|))
  }

  /** One node a record, every reference a node index or -1; nothing at all for more records than an int counts. */
  method BuildModel(records: seq<Record>) returns (nodes: seq<Node>)
    ensures IsModelOf(nodes, records) && Closed(nodes)
  {
    nodes := [];
    if |records| > 0x7FFF_FFFF {
      return;
    }
    for i := 0 to |records|
      invariant |nodes| == i
      invariant forall j :: 0 <= j < i ==>
                  nodes[j] == Node(records[j].kind, records[j].tokens, RefsOf(records[j].tokens, |records|))
    {
      var refs := ResolveRefs(records[i].tokens, |records|);
      nodes := nodes + [Node(records[i].kind, records[i].tokens, refs)];
    }
  }

  // ---------------------------------------------------------------------------------------------
  // Typed references

  predicate EndsWith(s: seq<u8>, suffix: seq<u8>) {
    |s| >= |suffix| && s[|s| - |suffix|..] == suffix
  }

  /** Whether a reference names a node whose type is, or with exact unset ends in, the given one. */
  predicate NamesType(nodes: seq<Node>, r: int, kind: seq<u8>, exact: bool) {
    0 <= r < |nodes| && (nodes[r].kind == kind || (!exact && EndsWith(nodes[r].kind, kind)))
  }

  /** The first reference of the type; -1 without one. */
  function FirstOfType(nodes: seq<Node>, refs: seq<int>, kind: seq<u8>, exact: bool): (r: int)
    ensures r == -1 || (r in refs && NamesType(nodes, r, kind, exact))
    ensures r == -1 ==> forall x :: x in refs ==> !NamesType(nodes, x, kind, exact)
  {
    if refs == [] then -1
    else if NamesType(nodes, refs[0], kind, exact) then refs[0]
    else FirstOfType(nodes, refs[1..], kind, exact)
  }

  method RefOfType(nodes: seq<Node>, refs: seq<int>, suffix: seq<u8>) returns (r: int)
    ensures r == FirstOfType(nodes, refs, suffix, false)
  {
    for i := 0 to |refs|
      invariant FirstOfType(nodes, refs, suffix, false) == FirstOfType(nodes, refs[i..], suffix, false)
    {
      if NamesType(nodes, refs[i], suffix, false) {
        return refs[i];
      }
    }
    return -1;
  }

  /** All references of exactly the type, in order. */
  function AllOfType(nodes: seq<Node>, refs: seq<int>, kind: seq<u8>): seq<int> {
    if refs == [] then []
    else
      var n := |refs| - 1;
      AllOfType(nodes, refs[..n], kind) + if NamesType(nodes, refs[n], kind, true) then [refs[n]] else []
  }

  lemma {:induction false} FirstOfTypeNext(nodes: seq<Node>, refs: seq<int>, r: int, kind: seq<u8>)
    ensures var first := FirstOfType(nodes, refs, kind, true);
            FirstOfType(nodes, refs + [r], kind, true)
            == if first != -1 then first else if NamesType(nodes, r, kind, true) then r else -1
  {
    if refs == [] {
      assert [r][1..] == [] && refs + [r] == [r];
    } else {
      assert (refs + [r])[1..] == refs[1..] + [r];
      FirstOfTypeNext(nodes, refs[1..], r, kind);
    }
  }

  /** The list holds exactly the references of the type, and starts with the first of them. */
  lemma {:induction false} AllOfTypeHolds(nodes: seq<Node>, refs: seq<int>, kind: seq<u8>)
    ensures var all := AllOfType(nodes, refs, kind);
            && FirstOfType(nodes, refs, kind, true) == (if all == [] then -1 else all[0])
            && forall r :: r in all <==> r in refs && NamesType(nodes, r, kind, true)
  {
    if refs == [] {
    } else {
      var n := |refs| - 1;
      var front, last := AllOfType(nodes, refs[..n], kind), refs[n];
      assert refs == refs[..n] + [last];
      AllOfTypeHolds(nodes, refs[..n], kind);
      FirstOfTypeNext(nodes, refs[..n], last, kind);
      assert front != [] ==> front[0] in front;
      assert AllOfType(nodes, refs, kind) == if NamesType(nodes, last, kind, true) then front + [last] else front;
    }
  }

  method RefsOfType(nodes: seq<Node>, refs: seq<int>, kind: seq<u8>) returns (found: seq<int>)
    ensures found == AllOfType(nodes, refs, kind)
  {
    found := [];
    for i := 0 to |refs|
      invariant found == AllOfType(nodes, refs[..i], kind)
    {
      assert refs[..i + 1][..i] == refs[..i];
      if NamesType(nodes, refs[i], kind, true) {
        found := found + [refs[i]];
      }
    }
    assert refs[..|refs|] == refs;
  }

  // ---------------------------------------------------------------------------------------------
  // Walking a successor table until it ends or repeats

  type Table = next: seq<int> | forall i :: 0 <= i < |next| ==> -1 <= next[i] < |next|

  ghost function Below(n: nat): (s: set<int>)
    ensures forall x :: x in s <==> 0 <= x < n
  {
    if n == 0 then {} else Below(n - 1) + {n - 1}
  }

  ghost function Indexes(next: Table): set<int> {
    Below(|next|)
  }

  /** The nodes met from `at` on, up to the end of the chain or the first node met before. */
  ghost function Walk(next: Table, at: int, seen: set<int>): seq<int>
    requires -1 <= at < |next|
    decreases Indexes(next) - seen
  {
    if at < 0 || at in seen then []
    else
      assert at in Indexes(next) - seen && Indexes(next) - (seen + {at}) < Indexes(next) - seen;
      [at] + Walk(next, next[at], seen + {at})
  }

  /** The walk follows the table, repeats nothing, and ends where the chain ends or comes back. */
  lemma {:induction false} WalkFollows(next: Table, at: int, seen: set<int>)
    requires -1 <= at < |next|
    ensures var w := Walk(next, at, seen);
            && (w == [] <==> at < 0 || at in seen) && (w != [] ==> w[0] == at)
            && (forall k :: 0 <= k < |w| ==> 0 <= w[k] < |next| && w[k] !in seen)
            && (forall k :: 0 <= k < |w| - 1 ==> w[k + 1] == next[w[k]])
            && (forall j, k :: 0 <= j < k < |w| ==> w[j] != w[k])
            && (w != [] ==> var end := next[w[|w| - 1]]; end < 0 || end in seen || end in w)
    decreases Indexes(next) - seen
  {
    if at >= 0 && at !in seen {
      assert at in Indexes(next) - seen && Indexes(next) - (seen + {at}) < Indexes(next) - seen;
      WalkFollows(next, next[at], seen + {at});
    }
  }

  /** Following the table k times; -1 once the chain has ended. */
  ghost function Iterate(next: Table, at: int, k: nat): (r: int)
    requires -1 <= at < |next|
    ensures -1 <= r < |next|
  {
    if k == 0 then at
    else
      var before := Iterate(next, at, k - 1);
      if before < 0 then -1 else next[before]
  }

  /** x is start, or reached from it by following the table. */
  ghost predicate InOrbit(next: Table, start: int, x: int)
    requires -1 <= start < |next|
  {
    x >= 0 && exists k: nat :: Iterate(next, start, k) == x
  }

  lemma {:induction false} OrbitIsWalked(next: Table, start: int, k: nat)
    requires -1 <= start < |next|
    ensures Iterate(next, start, k) >= 0 ==> Iterate(next, start, k) in Walk(next, start, {})
  {
    var w := Walk(next, start, {});
    WalkFollows(next, start, {});
    if k == 0 {
    } else {
      OrbitIsWalked(next, start, k - 1);
      var before := Iterate(next, start, k - 1);
      if before >= 0 {
        var j :| 0 <= j < |w| && w[j] == before;
        assert j < |w| - 1 ==> w[j + 1] == next[before];
      }
    }
  }

  lemma {:induction false} WalkedIsIterate(next: Table, start: int, k: nat)
    requires -1 <= start < |next| && k < |Walk(next, start, {})|
    ensures Walk(next, start, {})[k] == Iterate(next, start, k)
  {
    WalkFollows(next, start, {});
    if k == 0 {
    } else {
      WalkedIsIterate(next, start, k - 1);
      assert Walk(next, start, {})[k - 1 + 1] == next[Walk(next, start, {})[k - 1]];
    }
  }

  /** The walk is the orbit of its start, without repetition. */
  lemma WalkIsOrbit(next: Table, start: int, x: int)
    requires -1 <= start < |next|
    ensures x in Walk(next, start, {}) <==> InOrbit(next, start, x)
  {
    WalkFollows(next, start, {});
    if x in Walk(next, start, {}) {
      var k :| 0 <= k < |Walk(next, start, {})| && Walk(next, start, {})[k] == x;
      WalkedIsIterate(next, start, k);
    }
    if InOrbit(next, start, x) {
      var k: nat :| Iterate(next, start, k) == x;
      OrbitIsWalked(next, start, k);
    }
  }

  /** The length of the walk is the number of nodes in the orbit. */
  lemma WalkCountsOrbit(next: Table, start: int)
    requires -1 <= start < |next|
    ensures |Walk(next, start, {})| == |Elements(Walk(next, start, {}))|
    ensures forall x :: x in Elements(Walk(next, start, {})) <==> InOrbit(next, start, x)
  {
    WalkFollows(next, start, {});
    DistinctCount(Walk(next, start, {}));
    forall x ensures x in Walk(next, start, {}) <==> InOrbit(next, start, x) {
      WalkIsOrbit(next, start, x);
    }
  }

  /** The state of a cycle-guarded walk loop: what was met, and what is still to come. */
  ghost predicate Walking(next: Table, start: int, met: seq<int>, seen: set<int>, at: int) {
    && -1 <= start < |next| && -1 <= at < |next|
    && Walk(next, start, {}) == met + Walk(next, at, seen)
    && seen == Elements(met) && |seen| == |met| && seen <= Indexes(next)
  }

  lemma WalkStarts(next: Table, start: int)
    requires -1 <= start < |next|
    ensures Walking(next, start, [], {}, start)
  {
  }

  lemma WalkAdvances(next: Table, start: int, met: seq<int>, seen: set<int>, at: int)
    requires Walking(next, start, met, seen, at) && at >= 0 && at !in seen
    ensures Walking(next, start, met + [at], seen + {at}, next[at])
    ensures Indexes(next) - (seen + {at}) < Indexes(next) - seen
  {
    assert met + ([at] + Walk(next, next[at], seen + {at})) == (met + [at]) + Walk(next, next[at], seen + {at});
    assert at in Indexes(next) - seen;
  }

  // ---------------------------------------------------------------------------------------------
  // Coedge rings and face loops

  const COEDGE: seq<u8> := Signature.Bytes("coedge")
  const LOOP: seq<u8> := Signature.Bytes("loop")

  /** Each node's first reference of the type. */
  ghost function Successors(nodes: seq<Node>, kind: seq<u8>, exact: bool): (next: Table)
    requires Closed(nodes)
    ensures |next| == |nodes|
  {
    seq(|nodes|, i requires 0 <= i < |nodes| => FirstOfType(nodes, nodes[i].refs, kind, exact))
  }

  ghost function FirstCoedge(nodes: seq<Node>, i: nat): int
    requires i < |nodes|
  {
    FirstOfType(nodes, nodes[i].refs, COEDGE, false)
  }

  /** The ring of a loop: the orbit of its first coedge under next-coedge. */
  ghost function Ring(nodes: seq<Node>, i: nat): seq<int>
    requires Closed(nodes) && i < |nodes|
  {
    Walk(Successors(nodes, COEDGE, true), FirstCoedge(nodes, i), {})
  }

  /** The guard for a missing node never fires: every reference stays in range. */
  method LoopCoedgeCount(nodes: seq<Node>, i: nat) returns (count: nat)
    requires Closed(nodes) && i < |nodes|
    ensures count == |Ring(nodes, i)|
  {
    var start := RefOfType(nodes, nodes[i].refs, COEDGE);
    ghost var next := Successors(nodes, COEDGE, true);
    if start < 0 {
      return 0;
    }
    var seen: set<int> := {};
    ghost var met: seq<int> := [];
    var coedge := start;
    WalkStarts(next, start);
    while coedge >= 0 && coedge !in seen
      invariant Walking(next, start, met, seen, coedge)
      decreases Indexes(next) - seen
    {
      WalkAdvances(next, start, met, seen, coedge);
      met := met + [coedge];
      seen := seen + {coedge};
      if coedge >= |nodes| {
        assert false;
      }
      var nexts := RefsOfType(nodes, nodes[coedge].refs, COEDGE);
      AllOfTypeHolds(nodes, nodes[coedge].refs, COEDGE);
      coedge := if nexts == [] then -1 else nexts[0];
    }
    assert met + [] == met;
    return |seen|;
  }

  datatype FaceLoop = FaceLoop(node: int, coedgeCount: nat)

  /** A face's loops: the orbit of its first loop, each with the size of its ring. */
  ghost function FaceLoops(nodes: seq<Node>, i: nat): (loops: seq<FaceLoop>)
    requires Closed(nodes) && i < |nodes|
  {
    var next := Successors(nodes, LOOP, false);
    var start := FirstOfType(nodes, nodes[i].refs, LOOP, false);
    WalkFollows(next, start, {});
    Counted(nodes, Walk(next, start, {}))
  }

  ghost function Counted(nodes: seq<Node>, path: seq<int>): seq<FaceLoop>
    requires Closed(nodes) && forall k :: 0 <= k < |path| ==> 0 <= path[k] < |nodes|
  {
    seq(|path|, k requires 0 <= k < |path| => FaceLoop(path[k], |Ring(nodes, path[k])|))
  }

  lemma CountedNext(nodes: seq<Node>, path: seq<int>, at: int)
    requires Closed(nodes) && 0 <= at < |nodes| && forall k :: 0 <= k < |path| ==> 0 <= path[k] < |nodes|
    ensures Counted(nodes, path + [at]) == Counted(nodes, path) + [FaceLoop(at, |Ring(nodes, at)|)]
  {
  }

  method ReadFaceLoops(nodes: seq<Node>, i: nat) returns (loops: seq<FaceLoop>)
    requires Closed(nodes) && i < |nodes|
    ensures loops == FaceLoops(nodes, i)
  {
    ghost var next := Successors(nodes, LOOP, false);
    var start := RefOfType(nodes, nodes[i].refs, LOOP);
    loops := [];
    var seen: set<int> := {};
    ghost var met: seq<int> := [];
    var at := start;
    WalkStarts(next, start);
    while at >= 0 && at !in seen
      invariant Walking(next, start, met, seen, at)
      invariant forall k :: 0 <= k < |met| ==> 0 <= met[k] < |nodes|
      invariant loops == Counted(nodes, met)
      decreases Indexes(next) - seen
    {
      WalkAdvances(next, start, met, seen, at);
      CountedNext(nodes, met, at);
      met := met + [at];
      seen := seen + {at};
      if at >= |nodes| {
        assert false;
      }
      var count := LoopCoedgeCount(nodes, at);
      loops := loops + [FaceLoop(at, count)];
      at := RefOfType(nodes, nodes[at].refs, LOOP);
    }
    assert met + [] == met;
    WalkFollows(next, start, {});
  }
}
