/** The typed history of box solids: each modeler owns a history object, that an evaluation graph, that a box,
    and nothing else of these kinds is in the drawing. */
module BoxHistory {
  import opened Words
  import opened Lists
  import opened Text
  import opened Handles
  import opened ProxyHistory

  /** A double: only finite values are ever compared. */
  datatype Double = Finite(r: real) | NotFinite

  datatype Links = Links(extData: nat, appData: nat, reactors: seq<u32>, xDict: u32, xDictFlag: u8)

  datatype PrefixKind = EvalExpr | HistoryNode | ActionBody | OtherPrefix

  datatype Prefix = Prefix(kind: PrefixKind, complete: bool)

  datatype EvalPrefix = EvalPrefix(complete: bool, hasValue: bool, valueCode: i32, id: i32, value98: i32, value99: i32)

  datatype NodePrefix = NodePrefix(
    complete: bool, major: i32, minor: i32, transform: seq<Double>, color: u32, nodeValue: i32, material: u32,
    hasRgb: bool, colorName: string, bookName: string)

  /** An object of the shape history: a history or one of the shapes. */
  datatype Acsh = Acsh(
    handle: u32, parent: u32, recordName: string, owner: u32, major: u32, minor: u32, nodeId: u32,
    showHistory: bool, recordHistory: bool, links: Links, prefixes: seq<Prefix>,
    eval: EvalPrefix, node: NodePrefix, shape: seq<Double>)

  datatype GraphNode = GraphNode(index: i32, flags: i32, next: i32, data: seq<i32>, expression: u32)

  datatype Graph = Graph(
    handle: u32, parent: u32, value96: i32, value97: i32, nodes: seq<GraphNode>, edges: nat, links: Links)

  datatype TypedDrawing = TypedDrawing(base: Drawing, rawProxies: nat, acsh: seq<Acsh>, graphs: seq<Graph>)

  // ---------------------------------------------------------------------------------------------
  // One chain

  datatype Chain = Chain(m: Entity, history: Acsh, graph: Graph, box: Acsh)

  predicate NoLinks(l: Links) {
    l.extData == 0 && l.appData == 0 && l.reactors == [] && l.xDict == 0 && l.xDictFlag == 0
  }

  predicate HistoryFits(m: Entity, h: Acsh) {
    && h.recordName == HISTORY.recordName && h.parent == m.handle && h.owner != 0
    && h.major <= 0x7FFF_FFFF && h.minor <= 0x7FFF_FFFF && h.nodeId <= 0x7FFF_FFFF
    && NoLinks(h.links) && h.prefixes == [Prefix(HistoryNode, true)]
  }

  predicate GraphFits(h: Acsh, g: Graph) {
    && g.parent == h.handle && g.value96 == 1 && g.value97 == 1 && |g.nodes| == 1 && g.edges == 0 && NoLinks(g.links)
    && g.nodes[0] == GraphNode(0, 32, 1, [-1, -1, -1, -1], g.nodes[0].expression) && g.nodes[0].expression != 0
  }

  predicate AllFinite(values: seq<Double>) {
    forall i :: 0 <= i < |values| ==> values[i].Finite?
  }

  predicate BoxFits(h: Acsh, g: Graph, b: Acsh) {
    && b.recordName == BOX.recordName && b.parent == g.handle && NoLinks(b.links)
    && b.prefixes == [Prefix(EvalExpr, true), Prefix(HistoryNode, true), Prefix(ActionBody, true)]
    && b.eval.complete && !b.eval.hasValue && b.eval.valueCode <= 0 && b.eval.id > 0
    && b.node.complete && b.node.major == h.major && b.node.minor == h.minor && b.node.nodeValue == 3
    && b.node.material != 0 && !b.node.hasRgb && b.node.colorName == "" && b.node.bookName == ""
    && b.major == b.node.major && b.minor == b.node.minor
    && |b.shape| == 3 && (forall i :: 0 <= i < 3 ==> b.shape[i].Finite? && b.shape[i].r > 0.0)
    && AllFinite(b.node.transform)
  }

  /** Modeler, history, graph and box, each owning the next, and the one material of the box. */
  ghost predicate IsChain(d: TypedDrawing, c: Chain) {
    && c.history in d.acsh && c.graph in d.graphs && c.box in d.acsh
    && c.history.handle == c.m.history && HistoryFits(c.m, c.history)
    && c.graph.handle == c.history.owner && GraphFits(c.history, c.graph)
    && c.box.handle == c.graph.nodes[0].expression && BoxFits(c.history, c.graph, c.box)
    && Occurrences(d.base.materials, c.box.node.material) == 1
  }

  // ---------------------------------------------------------------------------------------------
  // The written objects

  datatype Value = Whole(n: i32) | Name(s: string) | Measure(x: Double)

  datatype TypedGroup = TypedGroup(code: int, value: Value)

  datatype TypedObject = TypedObject(name: string, handle: u32, parent: u32, groups: seq<TypedGroup>)

  function HistoryObject(h: Acsh): TypedObject {
    TypedObject(HISTORY.recordName, h.handle, h.parent, [
      TypedGroup(5, Name(Hex(h.handle))), TypedGroup(330, Name(Hex(h.parent))), TypedGroup(100, Name("AcDbShHistory")),
      TypedGroup(90, Whole(ToI32(h.major))), TypedGroup(91, Whole(ToI32(h.minor))),
      TypedGroup(360, Name(Hex(h.owner))), TypedGroup(92, Whole(ToI32(h.nodeId))),
      TypedGroup(280, Whole(if h.showHistory then 1 else 0)),
      TypedGroup(281, Whole(if h.recordHistory then 1 else 0))])
  }

  function Numbers(values: seq<Double>): (groups: seq<TypedGroup>)
    ensures |groups| == |values|
  {
    seq(|values|, i requires 0 <= i < |values| => TypedGroup(40 + i, Measure(values[i])))
  }

  function BoxHead(b: Acsh): seq<TypedGroup> {
    [TypedGroup(5, Name(Hex(b.handle))), TypedGroup(330, Name(Hex(b.parent))), TypedGroup(100, Name("AcDbEvalExpr")),
     TypedGroup(90, Whole(b.eval.id)), TypedGroup(98, Whole(b.eval.value98)), TypedGroup(99, Whole(b.eval.value99)),
     TypedGroup(100, Name("AcDbShHistoryNode")),
     TypedGroup(90, Whole(b.node.major)), TypedGroup(91, Whole(b.node.minor))]
  }

  function BoxMiddle(b: Acsh): seq<TypedGroup> {
    [TypedGroup(62, Whole(ToI32(b.node.color))), TypedGroup(92, Whole(b.node.nodeValue)),
     TypedGroup(347, Name(Hex(b.node.material))), TypedGroup(100, Name("AcDbShPrimitive")),
     TypedGroup(100, Name("AcDbShBox")), TypedGroup(90, Whole(ToI32(b.major))), TypedGroup(91, Whole(ToI32(b.minor)))]
  }

  function BoxObject(b: Acsh): TypedObject {
    TypedObject(BOX.recordName, b.handle, b.parent,
                BoxHead(b) + Numbers(b.node.transform) + BoxMiddle(b) + Numbers(b.shape))
  }

  lemma SameParts<T>(a: seq<T>, b: seq<T>, a': seq<T>, b': seq<T>)
    requires |a| == |a'| && a + b == a' + b'
    ensures a == a' && b == b'
  {
    assert a == (a + b)[..|a|] && a' == (a' + b')[..|a|];
    assert b == (a + b)[|a|..] && b' == (a' + b')[|a|..];
  }

  lemma NumbersKeepValues(a: seq<Double>, b: seq<Double>)
    requires Numbers(a) == Numbers(b)
    ensures a == b
  {
    assert |Numbers(a)| == |a| && |Numbers(b)| == |b|;
    forall i | 0 <= i < |a| ensures a[i] == b[i] {
      assert Numbers(a)[i].value == Measure(a[i]) && Numbers(b)[i].value == Measure(b[i]);
    }
  }

  /** The groups of a history determine every field that a fitting history is free to choose. */
  lemma HistoryIsWritten(h: Acsh, k: Acsh)
    requires HistoryObject(h).groups == HistoryObject(k).groups
    ensures h.handle == k.handle && h.parent == k.parent && h.owner == k.owner
    ensures h.major == k.major && h.minor == k.minor && h.nodeId == k.nodeId
    ensures h.showHistory == k.showHistory && h.recordHistory == k.recordHistory
  {
    var a, b := HistoryObject(h).groups, HistoryObject(k).groups;
    assert a[0] == b[0] && a[1] == b[1] && a[3] == b[3] && a[4] == b[4];
    assert a[5] == b[5] && a[6] == b[6] && a[7] == b[7] && a[8] == b[8];
    HexInjective(h.handle, k.handle);
    HexInjective(h.parent, k.parent);
    HexInjective(h.owner, k.owner);
  }

  /** The groups of a box determine its place, its frame, its material and its three lengths. */
  lemma BoxIsWritten(b: Acsh, c: Acsh)
    requires |b.node.transform| == 16 == |c.node.transform| && BoxObject(b).groups == BoxObject(c).groups
    ensures b.handle == c.handle && b.parent == c.parent && b.shape == c.shape
    ensures b.eval.id == c.eval.id && b.eval.value98 == c.eval.value98 && b.eval.value99 == c.eval.value99
    ensures b.node.transform == c.node.transform && b.node.color == c.node.color && b.node.material == c.node.material
    ensures b.node.major == c.node.major && b.node.minor == c.node.minor && b.node.nodeValue == c.node.nodeValue
  {
    SameParts(BoxHead(b) + Numbers(b.node.transform) + BoxMiddle(b), Numbers(b.shape),
              BoxHead(c) + Numbers(c.node.transform) + BoxMiddle(c), Numbers(c.shape));
    SameParts(BoxHead(b) + Numbers(b.node.transform), BoxMiddle(b),
              BoxHead(c) + Numbers(c.node.transform), BoxMiddle(c));
    SameParts(BoxHead(b), Numbers(b.node.transform), BoxHead(c), Numbers(c.node.transform));
    NumbersKeepValues(b.shape, c.shape);
    NumbersKeepValues(b.node.transform, c.node.transform);
    HeadIsWritten(b, c);
    MiddleIsWritten(b, c);
  }

  lemma HeadIsWritten(b: Acsh, c: Acsh)
    requires BoxHead(b) == BoxHead(c)
    ensures b.handle == c.handle && b.parent == c.parent
    ensures b.eval.id == c.eval.id && b.eval.value98 == c.eval.value98 && b.eval.value99 == c.eval.value99
    ensures b.node.major == c.node.major && b.node.minor == c.node.minor
  {
    var x, y := BoxHead(b), BoxHead(c);
    assert x[0] == y[0] && x[1] == y[1] && x[3] == y[3] && x[4] == y[4] && x[5] == y[5] && x[7] == y[7] && x[8] == y[8];
    HexInjective(b.handle, c.handle);
    HexInjective(b.parent, c.parent);
  }

  lemma MiddleIsWritten(b: Acsh, c: Acsh)
    requires BoxMiddle(b) == BoxMiddle(c)
    ensures b.node.color == c.node.color && b.node.nodeValue == c.node.nodeValue && b.node.material == c.node.material
  {
    var x, y := BoxMiddle(b), BoxMiddle(c);
    assert x[0] == y[0] && x[1] == y[1] && x[2] == y[2];
    HexInjective(b.node.material, c.node.material);
  }

  const ACSH_HANDLE: Acsh -> u32 := (o: Acsh) => o.handle
  const GRAPH_HANDLE: Graph -> u32 := (g: Graph) => g.handle
  const HISTORY_OF: Chain -> u32 := (c: Chain) => c.history.handle
  const GRAPH_OF: Chain -> u32 := (c: Chain) => c.graph.handle
  const BOX_OF: Chain -> u32 := (c: Chain) => c.box.handle

  // ---------------------------------------------------------------------------------------------
  // One chain, found by handles

  lemma ChainIsUnique(d: TypedDrawing, c: Chain, e: Chain)
    requires Keyed(d.acsh, ACSH_HANDLE) && Keyed(d.graphs, GRAPH_HANDLE)
    requires IsChain(d, c) && IsChain(d, e) && c.m == e.m
    ensures c == e
  {
    SameKeySameItem(d.acsh, ACSH_HANDLE, c.history, e.history);
    SameKeySameItem(d.graphs, GRAPH_HANDLE, c.graph, e.graph);
    SameKeySameItem(d.acsh, ACSH_HANDLE, c.box, e.box);
  }

  method FindHistory(d: TypedDrawing, m: Entity, acsh: map<u32, Acsh>) returns (h: Option<Acsh>)
    requires Index(acsh, d.acsh, ACSH_HANDLE) && Keyed(d.acsh, ACSH_HANDLE)
    ensures h.Some? ==> h.value in d.acsh && h.value.handle == m.history && HistoryFits(m, h.value)
    ensures forall k :: k in d.acsh && k.handle == m.history && HistoryFits(m, k) ==> h == Some(k)
  {
    h := if m.history in acsh && HistoryFits(m, acsh[m.history]) then Some(acsh[m.history]) else None;
    forall k | k in d.acsh && k.handle == m.history && HistoryFits(m, k) ensures h == Some(k) {
      MemberIsIndexed(acsh, d.acsh, ACSH_HANDLE, k);
    }
  }

  method FindGraph(d: TypedDrawing, h: Acsh, graphs: map<u32, Graph>) returns (g: Option<Graph>)
    requires Index(graphs, d.graphs, GRAPH_HANDLE) && Keyed(d.graphs, GRAPH_HANDLE)
    ensures g.Some? ==> g.value in d.graphs && g.value.handle == h.owner && GraphFits(h, g.value)
    ensures forall k :: k in d.graphs && k.handle == h.owner && GraphFits(h, k) ==> g == Some(k)
  {
    g := if h.owner in graphs && GraphFits(h, graphs[h.owner]) then Some(graphs[h.owner]) else None;
    forall k | k in d.graphs && k.handle == h.owner && GraphFits(h, k) ensures g == Some(k) {
      MemberIsIndexed(graphs, d.graphs, GRAPH_HANDLE, k);
    }
  }

  ghost predicate BoxOf(d: TypedDrawing, h: Acsh, g: Graph, b: Acsh) {
    && b in d.acsh && |g.nodes| == 1 && b.handle == g.nodes[0].expression && BoxFits(h, g, b)
    && Occurrences(d.base.materials, b.node.material) == 1
  }

  method FindBox(d: TypedDrawing, h: Acsh, g: Graph, acsh: map<u32, Acsh>) returns (b: Option<Acsh>)
    requires Index(acsh, d.acsh, ACSH_HANDLE) && Keyed(d.acsh, ACSH_HANDLE) && |g.nodes| == 1
    ensures b.Some? ==> BoxOf(d, h, g, b.value)
    ensures forall k :: BoxOf(d, h, g, k) ==> b == Some(k)
  {
    var x := g.nodes[0].expression;
    b := None;
    if x in acsh && BoxFits(h, g, acsh[x]) {
      var matches := CountMaterials(d.base.materials, acsh[x].node.material);
      b := if matches == 1 then Some(acsh[x]) else None;
    }
    forall k | BoxOf(d, h, g, k) ensures b == Some(k) {
      MemberIsIndexed(acsh, d.acsh, ACSH_HANDLE, k);
    }
  }

  /** Follows the handles; fails exactly if the modeler has no chain. */
  method FindChain(d: TypedDrawing, m: Entity, acsh: map<u32, Acsh>, graphs: map<u32, Graph>)
    returns (chain: Option<Chain>)
    requires Index(acsh, d.acsh, ACSH_HANDLE) && Index(graphs, d.graphs, GRAPH_HANDLE)
    requires Keyed(d.acsh, ACSH_HANDLE) && Keyed(d.graphs, GRAPH_HANDLE)
    ensures chain.Some? ==> IsChain(d, chain.value) && chain.value.m == m
    ensures forall c :: IsChain(d, c) && c.m == m ==> chain == Some(c)
  {
    var h := FindHistory(d, m, acsh);
    if h.None? {
      return None;
    }
    var g := FindGraph(d, h.value, graphs);
    if g.None? {
      return None;
    }
    var b := FindBox(d, h.value, g.value, acsh);
    chain := if b.Some? then Some(Chain(m, h.value, g.value, b.value)) else None;
    forall c | IsChain(d, c) && c.m == m ensures chain == Some(c) {
      assert BoxOf(d, h.value, g.value, c.box);
    }
  }

  // ---------------------------------------------------------------------------------------------
  // The chains of all modelers

  ghost predicate Separate(chains: seq<Chain>) {
    && Distinct(Keys(chains, HISTORY_OF)) && Distinct(Keys(chains, GRAPH_OF)) && Distinct(Keys(chains, BOX_OF))
  }

  /** One chain for each modeler with a history, in their order, sharing nothing. */
  ghost predicate Chained(d: TypedDrawing, linked: seq<Entity>, chains: seq<Chain>) {
    && |chains| == |WithHistory(linked)| && Separate(chains)
    && forall k :: 0 <= k < |chains| ==> IsChain(d, chains[k]) && chains[k].m == WithHistory(linked)[k]
  }

  lemma ChainsArePrefix(d: TypedDrawing, linked: seq<Entity>, i: nat, chains: seq<Chain>, all: seq<Chain>)
    requires Keyed(d.acsh, ACSH_HANDLE) && Keyed(d.graphs, GRAPH_HANDLE) && i < |linked| && linked[i].history != 0
    requires Chained(d, linked[..i], chains) && Chained(d, linked, all)
    ensures |chains| < |all| && all[|chains|].m == linked[i] && chains == all[..|chains|]
  {
    KeptPrefix(linked, HAS_HISTORY, i);
    KeptPrefix(linked, HAS_HISTORY, i + 1);
    assert linked[..i + 1][..i] == linked[..i];
    assert WithHistory(linked[..i + 1]) == WithHistory(linked[..i]) + [linked[i]];
    forall k | 0 <= k < |chains| ensures chains[k] == all[k] {
      ChainIsUnique(d, chains[k], all[k]);
    }
  }

  lemma NoChainNoChains(d: TypedDrawing, linked: seq<Entity>, i: nat, chains: seq<Chain>, all: seq<Chain>)
    requires Keyed(d.acsh, ACSH_HANDLE) && Keyed(d.graphs, GRAPH_HANDLE) && i < |linked| && linked[i].history != 0
    requires Chained(d, linked[..i], chains)
    requires forall c :: IsChain(d, c) ==> c.m != linked[i]
    ensures !Chained(d, linked, all)
  {
    if Chained(d, linked, all) {
      ChainsArePrefix(d, linked, i, chains, all);
    }
  }

  lemma KeysPrefix(chains: seq<Chain>, n: nat, key: Chain -> u32)
    requires n < |chains|
    ensures Distinct(Keys(chains, key)) ==> Distinct(Keys(chains[..n] + [chains[n]], key))
  {
    assert chains[..n] + [chains[n]] == chains[..n + 1];
    PrefixDistinct(Keys(chains, key), n + 1);
    assert Keys(chains[..n + 1], key) == Keys(chains, key)[..n + 1];
  }

  lemma SharedNoChains(d: TypedDrawing, linked: seq<Entity>, i: nat, chains: seq<Chain>, c: Chain, all: seq<Chain>)
    requires Keyed(d.acsh, ACSH_HANDLE) && Keyed(d.graphs, GRAPH_HANDLE) && i < |linked| && linked[i].history != 0
    requires Chained(d, linked[..i], chains) && IsChain(d, c) && c.m == linked[i]
    requires !Separate(chains + [c])
    ensures !Chained(d, linked, all)
  {
    if Chained(d, linked, all) {
      var n := |chains|;
      ChainsArePrefix(d, linked, i, chains, all);
      ChainIsUnique(d, c, all[n]);
      KeysPrefix(all, n, HISTORY_OF);
      KeysPrefix(all, n, GRAPH_OF);
      KeysPrefix(all, n, BOX_OF);
    }
  }

  /** What the chains make the export write. */
  function ObjectsOf(chains: seq<Chain>): seq<TypedObject> {
    Interleaved(chains, WRITTEN_HISTORY, WRITTEN_BOX)
  }

  const WRITTEN_HISTORY: Chain -> TypedObject := (c: Chain) => HistoryObject(c.history)
  const WRITTEN_BOX: Chain -> TypedObject := (c: Chain) => BoxObject(c.box)

  /** Two results for each item, side by side. */
  function Interleaved<S, T>(items: seq<S>, first: S -> T, second: S -> T): seq<T> {
    if items == [] then []
    else var n := |items| - 1;
         Interleaved(items[..n], first, second) + [first(items[n]), second(items[n])]
  }

  lemma {:induction false} InterleavedAt<S, T>(items: seq<S>, first: S -> T, second: S -> T, k: nat)
    requires k < |items|
    ensures |Interleaved(items, first, second)| == 2 * |items|
    ensures Interleaved(items, first, second)[2 * k] == first(items[k])
    ensures Interleaved(items, first, second)[2 * k + 1] == second(items[k])
  {
    var n := |items| - 1;
    if n > 0 {
      InterleavedAt(items[..n], first, second, if k < n then k else 0);
    } else {
      assert items[..n] == [];
    }
  }

  function GraphsOf(chains: seq<Chain>): seq<Graph> {
    if chains == [] then [] else GraphsOf(chains[..|chains| - 1]) + [chains[|chains| - 1].graph]
  }

  function MaterialsOf(chains: seq<Chain>): seq<u32> {
    if chains == [] then [] else AddOnce(MaterialsOf(chains[..|chains| - 1]), chains[|chains| - 1].box.node.material)
  }

  /** Two objects for each chain, history before box, and its graph. */
  lemma {:induction false} ChainIsWritten(chains: seq<Chain>, k: nat)
    requires k < |chains|
    ensures |ObjectsOf(chains)| == 2 * |chains| && |GraphsOf(chains)| == |chains|
    ensures ObjectsOf(chains)[2 * k] == HistoryObject(chains[k].history)
    ensures ObjectsOf(chains)[2 * k + 1] == BoxObject(chains[k].box) && GraphsOf(chains)[k] == chains[k].graph
  {
    InterleavedAt(chains, WRITTEN_HISTORY, WRITTEN_BOX, k);
    GraphIsWritten(chains, k);
  }

  lemma {:induction false} GraphIsWritten(chains: seq<Chain>, k: nat)
    requires k < |chains|
    ensures |GraphsOf(chains)| == |chains| && GraphsOf(chains)[k] == chains[k].graph
  {
    var n := |chains| - 1;
    if n > 0 {
      GraphIsWritten(chains[..n], if k < n then k else 0);
    } else {
      assert chains[..n] == [];
    }
  }

  /** Every material of a box is listed, once. */
  lemma {:induction false} MaterialsAreListedOnce(chains: seq<Chain>)
    ensures Distinct(MaterialsOf(chains))
    ensures forall x :: x in MaterialsOf(chains) <==> exists k :: 0 <= k < |chains| && chains[k].box.node.material == x
  {
    if chains == [] {
    } else {
      var n := |chains| - 1;
      MaterialsAreListedOnce(chains[..n]);
      forall x | x in MaterialsOf(chains) ensures exists k :: 0 <= k < |chains| && chains[k].box.node.material == x {
        if x in MaterialsOf(chains[..n]) {
          var k :| 0 <= k < n && chains[..n][k].box.node.material == x;
          assert chains[k].box.node.material == x;
        }
      }
      forall k | 0 <= k < |chains| ensures chains[k].box.node.material in MaterialsOf(chains) {
        if k < n {
          assert chains[..n][k] == chains[k];
        }
      }
    }
  }

  /** What the collection has gathered, and the handles it has used. */
  datatype Gathered = Gathered(
    objects: seq<TypedObject>, graphs: seq<Graph>, materials: seq<u32>,
    usedHistories: set<u32>, usedGraphs: set<u32>, usedShapes: set<u32>)

  ghost predicate Gathers(g: Gathered, chains: seq<Chain>) {
    && Separate(chains) && Used(g, chains)
    && g.objects == ObjectsOf(chains) && g.graphs == GraphsOf(chains) && g.materials == MaterialsOf(chains)
  }

  ghost predicate Used(g: Gathered, chains: seq<Chain>) {
    && g.usedHistories == Elements(Keys(chains, HISTORY_OF)) && g.usedGraphs == Elements(Keys(chains, GRAPH_OF))
    && g.usedShapes == Elements(Keys(chains, BOX_OF))
  }

  lemma SeparateNext(g: Gathered, chains: seq<Chain>, c: Chain)
    requires Used(g, chains) && Separate(chains)
    ensures Separate(chains + [c]) <==>
              c.history.handle !in g.usedHistories && c.graph.handle !in g.usedGraphs && c.box.handle !in g.usedShapes
    ensures Elements(Keys(chains + [c], HISTORY_OF)) == g.usedHistories + {c.history.handle}
    ensures Elements(Keys(chains + [c], GRAPH_OF)) == g.usedGraphs + {c.graph.handle}
    ensures Elements(Keys(chains + [c], BOX_OF)) == g.usedShapes + {c.box.handle}
  {
    assert Keys(chains + [c], HISTORY_OF) == Keys(chains, HISTORY_OF) + [c.history.handle];
    assert Keys(chains + [c], GRAPH_OF) == Keys(chains, GRAPH_OF) + [c.graph.handle];
    assert Keys(chains + [c], BOX_OF) == Keys(chains, BOX_OF) + [c.box.handle];
    DistinctNext(Keys(chains, HISTORY_OF), c.history.handle);
    DistinctNext(Keys(chains, GRAPH_OF), c.graph.handle);
    DistinctNext(Keys(chains, BOX_OF), c.box.handle);
  }

  /** Adds a chain, unless it shares a part with an earlier one. */
  method AddChain(g: Gathered, ghost chains: seq<Chain>, c: Chain) returns (ok: bool, g': Gathered)
    requires Gathers(g, chains)
    ensures ok <==> Separate(chains + [c])
    ensures ok ==> Gathers(g', chains + [c])
  {
    g' := g;
    SeparateNext(g, chains, c);
    if c.history.handle in g.usedHistories || c.graph.handle in g.usedGraphs || c.box.handle in g.usedShapes {
      return false, g';
    }
    assert (chains + [c])[..|chains|] == chains;
    ok, g' := true, Gathered(
      g.objects + [HistoryObject(c.history), BoxObject(c.box)], g.graphs + [c.graph],
      AddOnce(g.materials, c.box.node.material),
      g.usedHistories + {c.history.handle}, g.usedGraphs + {c.graph.handle}, g.usedShapes + {c.box.handle});
  }

  lemma ChainedNext(d: TypedDrawing, linked: seq<Entity>, i: nat, chains: seq<Chain>, c: Chain)
    requires i < |linked| && linked[i].history != 0
    requires Chained(d, linked[..i], chains) && IsChain(d, c) && c.m == linked[i] && Separate(chains + [c])
    ensures Chained(d, linked[..i + 1], chains + [c])
  {
    assert linked[..i + 1][..i] == linked[..i];
    assert WithHistory(linked[..i + 1]) == WithHistory(linked[..i]) + [linked[i]];
  }

  lemma ChainedSkip(d: TypedDrawing, linked: seq<Entity>, i: nat, chains: seq<Chain>)
    requires i < |linked| && linked[i].history == 0 && Chained(d, linked[..i], chains)
    ensures Chained(d, linked[..i + 1], chains)
  {
    assert linked[..i + 1][..i] == linked[..i];
    assert WithHistory(linked[..i]) + [] == WithHistory(linked[..i]);
  }

  // ---------------------------------------------------------------------------------------------
  // The collection

  ghost predicate NoChains(d: TypedDrawing, linked: seq<Entity>) {
    forall all :: !Chained(d, linked, all)
  }

  /** One modeler: a region without history adds nothing. */
  method GatherChain(d: TypedDrawing, ghost linked: seq<Entity>, ghost i: nat, m: Entity,
                     acsh: map<u32, Acsh>, graphs: map<u32, Graph>, g: Gathered, ghost chains: seq<Chain>)
    returns (ok: bool, g': Gathered, ghost chains': seq<Chain>)
    requires Index(acsh, d.acsh, ACSH_HANDLE) && Index(graphs, d.graphs, GRAPH_HANDLE)
    requires Keyed(d.acsh, ACSH_HANDLE) && Keyed(d.graphs, GRAPH_HANDLE)
    requires i < |linked| && linked[i] == m
    requires Gathers(g, chains) && Chained(d, linked[..i], chains)
    ensures ok ==> Gathers(g', chains') && Chained(d, linked[..i + 1], chains')
    ensures !ok ==> NoChains(d, linked)
  {
    g', chains' := g, chains;
    if m.history == 0 {
      ChainedSkip(d, linked, i, chains);
      return true, g', chains';
    }
    var chain := FindChain(d, m, acsh, graphs);
    if chain.None? {
      forall all ensures !Chained(d, linked, all) {
        NoChainNoChains(d, linked, i, chains, all);
      }
      return false, g', chains';
    }
    ok, g' := AddChain(g, chains, chain.value);
    if ok {
      ChainedNext(d, linked, i, chains, chain.value);
      chains' := chains + [chain.value];
    } else {
      forall all ensures !Chained(d, linked, all) {
        SharedNoChains(d, linked, i, chains, chain.value, all);
      }
    }
  }

  /** Gathers the chains of all modelers; fails exactly if some modeler does not fit or has no chain of its own. */
  method GatherChains(d: TypedDrawing, linked: seq<Entity>, acsh: map<u32, Acsh>, graphs: map<u32, Graph>)
    returns (ok: bool, g: Gathered, ghost chains: seq<Chain>)
    requires Index(acsh, d.acsh, ACSH_HANDLE) && Index(graphs, d.graphs, GRAPH_HANDLE)
    requires Keyed(d.acsh, ACSH_HANDLE) && Keyed(d.graphs, GRAPH_HANDLE)
    ensures ok ==> ModelersFit(linked) && Gathers(g, chains) && Chained(d, linked, chains)
    ensures !ok ==> !ModelersFit(linked) || NoChains(d, linked)
  {
    g, chains := Gathered([], [], [], {}, {}, {}), [];
    var handles: set<u32> := {};
    for i := 0 to |linked|
      invariant Gathers(g, chains) && Chained(d, linked[..i], chains)
      invariant ModelersFit(linked[..i]) && handles == Elements(Keys(linked[..i], ENTITY_HANDLE))
    {
      ok, handles := CheckModeler(linked, i, linked[i], handles);
      if !ok {
        return;
      }
      ok, g, chains := GatherChain(d, linked, i, linked[i], acsh, graphs, g, chains);
      if !ok {
        return;
      }
    }
    assert linked[..|linked|] == linked;
    ok := true;
  }

  /** The chains use every shape-history object and every evaluation graph of the drawing exactly once. */
  ghost predicate Partition(d: TypedDrawing, chains: seq<Chain>) {
    && chains != []
    && Distinct(Keys(chains, HISTORY_OF) + Keys(chains, BOX_OF)) && Distinct(Keys(chains, GRAPH_OF))
    && (forall o :: o in d.acsh <==> InSomeChain(o, chains))
    && (forall g :: g in d.graphs <==> exists k :: 0 <= k < |chains| && chains[k].graph == g)
  }

  ghost predicate InSomeChain(o: Acsh, chains: seq<Chain>) {
    exists k :: 0 <= k < |chains| && (chains[k].history == o || chains[k].box == o)
  }

  /** Histories and boxes are told apart by their record names. */
  lemma HistoriesAreNotBoxes(d: TypedDrawing, c: Chain, e: Chain)
    requires Keyed(d.acsh, ACSH_HANDLE) && IsChain(d, c) && IsChain(d, e)
    ensures c.history.handle != e.box.handle
  {
    assert |HISTORY.recordName| == 18 && |BOX.recordName| == 14;
    if c.history.handle == e.box.handle {
      SameKeySameItem(d.acsh, ACSH_HANDLE, c.history, e.box);
    }
  }

  lemma AcshHandlesAreDistinct(d: TypedDrawing, linked: seq<Entity>, chains: seq<Chain>)
    requires Keyed(d.acsh, ACSH_HANDLE) && Chained(d, linked, chains)
    ensures Distinct(Keys(chains, HISTORY_OF) + Keys(chains, BOX_OF))
    ensures forall x :: x in Keys(chains, HISTORY_OF) + Keys(chains, BOX_OF) ==> x in Keys(d.acsh, ACSH_HANDLE)
  {
    var hs, bs := Keys(chains, HISTORY_OF), Keys(chains, BOX_OF);
    forall x | x in bs ensures x !in hs {
      var e := MemberOfKey(chains, BOX_OF, x);
      forall k | 0 <= k < |hs| ensures hs[k] != x {
        HistoriesAreNotBoxes(d, chains[k], e);
      }
    }
    DistinctConcat(hs, bs);
    forall k | 0 <= k < |chains| ensures hs[k] in Keys(d.acsh, ACSH_HANDLE) && bs[k] in Keys(d.acsh, ACSH_HANDLE) {
      KeyOfMember(d.acsh, ACSH_HANDLE, chains[k].history);
      KeyOfMember(d.acsh, ACSH_HANDLE, chains[k].box);
    }
  }

  lemma AcshObjectIsInChain(d: TypedDrawing, linked: seq<Entity>, chains: seq<Chain>, o: Acsh)
    requires Keyed(d.acsh, ACSH_HANDLE) && Chained(d, linked, chains) && o in d.acsh
    requires o.handle in Keys(chains, HISTORY_OF) + Keys(chains, BOX_OF)
    ensures InSomeChain(o, chains)
  {
    if o.handle in Keys(chains, HISTORY_OF) {
      var c := MemberOfKey(chains, HISTORY_OF, o.handle);
      SameKeySameItem(d.acsh, ACSH_HANDLE, o, c.history);
    } else {
      var c := MemberOfKey(chains, BOX_OF, o.handle);
      SameKeySameItem(d.acsh, ACSH_HANDLE, o, c.box);
    }
  }

  /** The two final counts decide whether the chains leave anything over. */
  lemma CountsForcePartition(d: TypedDrawing, linked: seq<Entity>, chains: seq<Chain>)
    requires Keyed(d.acsh, ACSH_HANDLE) && Keyed(d.graphs, GRAPH_HANDLE) && Chained(d, linked, chains)
    ensures Partition(d, chains) <==> 2 * |chains| == |d.acsh| && |chains| == |d.graphs| && chains != []
  {
    AcshHandlesAreDistinct(d, linked, chains);
    if 2 * |chains| == |d.acsh| && |chains| == |d.graphs| && chains != [] {
      AllAcshUsed(d, linked, chains);
      AllGraphsUsed(d, linked, chains);
    }
    if Partition(d, chains) {
      PartitionCountsAcsh(d, chains);
      PartitionCountsGraphs(d, chains);
    }
  }

  lemma AllAcshUsed(d: TypedDrawing, linked: seq<Entity>, chains: seq<Chain>)
    requires Keyed(d.acsh, ACSH_HANDLE) && Chained(d, linked, chains) && 2 * |chains| == |d.acsh|
    ensures forall o :: o in d.acsh <==> InSomeChain(o, chains)
  {
    AcshHandlesAreDistinct(d, linked, chains);
    SameElements(Keys(chains, HISTORY_OF) + Keys(chains, BOX_OF), Keys(d.acsh, ACSH_HANDLE));
    forall o | o in d.acsh ensures InSomeChain(o, chains) {
      KeyOfMember(d.acsh, ACSH_HANDLE, o);
      AcshObjectIsInChain(d, linked, chains, o);
    }
  }

  lemma AllGraphsUsed(d: TypedDrawing, linked: seq<Entity>, chains: seq<Chain>)
    requires Keyed(d.graphs, GRAPH_HANDLE) && Chained(d, linked, chains) && |chains| == |d.graphs|
    ensures forall g :: g in d.graphs <==> exists k :: 0 <= k < |chains| && chains[k].graph == g
  {
    var keys := Keys(chains, GRAPH_OF);
    forall k | 0 <= k < |chains| ensures keys[k] in Keys(d.graphs, GRAPH_HANDLE) {
      KeyOfMember(d.graphs, GRAPH_HANDLE, chains[k].graph);
    }
    SameElements(keys, Keys(d.graphs, GRAPH_HANDLE));
    forall g | g in d.graphs ensures exists k :: 0 <= k < |chains| && chains[k].graph == g {
      KeyOfMember(d.graphs, GRAPH_HANDLE, g);
      var c := MemberOfKey(chains, GRAPH_OF, g.handle);
      SameKeySameItem(d.graphs, GRAPH_HANDLE, g, c.graph);
    }
  }

  lemma SameCount<T>(s: seq<T>, t: seq<T>)
    requires Distinct(s) && Distinct(t) && forall x :: x in s <==> x in t
    ensures |s| == |t|
  {
    DistinctCount(s);
    DistinctCount(t);
    assert Elements(s) == Elements(t);
  }

  lemma PartitionCountsAcsh(d: TypedDrawing, chains: seq<Chain>)
    requires Keyed(d.acsh, ACSH_HANDLE) && Partition(d, chains)
    ensures 2 * |chains| == |d.acsh|
  {
    var used := Keys(chains, HISTORY_OF) + Keys(chains, BOX_OF);
    forall x | x in used ensures x in Keys(d.acsh, ACSH_HANDLE) {
      if x in Keys(chains, HISTORY_OF) {
        var c := MemberOfKey(chains, HISTORY_OF, x);
        assert InSomeChain(c.history, chains);
        KeyOfMember(d.acsh, ACSH_HANDLE, c.history);
      } else {
        var c := MemberOfKey(chains, BOX_OF, x);
        assert InSomeChain(c.box, chains);
        KeyOfMember(d.acsh, ACSH_HANDLE, c.box);
      }
    }
    forall x | x in Keys(d.acsh, ACSH_HANDLE) ensures x in used {
      var o := MemberOfKey(d.acsh, ACSH_HANDLE, x);
      var k :| 0 <= k < |chains| && (chains[k].history == o || chains[k].box == o);
      assert Keys(chains, HISTORY_OF)[k] == x || Keys(chains, BOX_OF)[k] == x;
    }
    SameCount(used, Keys(d.acsh, ACSH_HANDLE));
  }

  lemma PartitionCountsGraphs(d: TypedDrawing, chains: seq<Chain>)
    requires Keyed(d.graphs, GRAPH_HANDLE) && Partition(d, chains)
    ensures |chains| == |d.graphs|
  {
    forall x | x in Keys(chains, GRAPH_OF) ensures x in Keys(d.graphs, GRAPH_HANDLE) {
      var c := MemberOfKey(chains, GRAPH_OF, x);
      KeyOfMember(d.graphs, GRAPH_HANDLE, c.graph);
    }
    forall x | x in Keys(d.graphs, GRAPH_HANDLE) ensures x in Keys(chains, GRAPH_OF) {
      var g := MemberOfKey(d.graphs, GRAPH_HANDLE, x);
      var k :| 0 <= k < |chains| && chains[k].graph == g;
      assert Keys(chains, GRAPH_OF)[k] == x;
    }
    SameCount(Keys(chains, GRAPH_OF), Keys(d.graphs, GRAPH_HANDLE));
  }

  /** What the drawing must be before any modeler is looked at. */
  ghost predicate Ready(d: TypedDrawing) {
    && d.base.hasStorage && d.base.proxies == [] && d.rawProxies == 0 && d.base.coverageComplete
    && FindClass(d.base.classes, HISTORY).Number? && FindClass(d.base.classes, GRAPH).Number?
    && FindClass(d.base.classes, BOX).Number?
    && Keyed(d.acsh, ACSH_HANDLE) && Keyed(d.graphs, GRAPH_HANDLE) && OnlyModelers(d.base.blocks)
  }

  /** The chains of exactly the modelers with a history, and nothing left over. */
  ghost predicate Collected(d: TypedDrawing, chains: seq<Chain>) {
    && Ready(d) && ModelersFit(Modelers(d.base.blocks))
    && Chained(d, Modelers(d.base.blocks), chains) && Partition(d, chains)
  }

  method HasRequiredClasses(entries: seq<ClassEntry>) returns (ok: bool)
    ensures ok <==> FindClass(entries, HISTORY).Number? && FindClass(entries, GRAPH).Number?
                    && FindClass(entries, BOX).Number?
  {
    var history := SourceClassId(entries, HISTORY);
    var graph := SourceClassId(entries, GRAPH);
    var box := SourceClassId(entries, BOX);
    ok := history.Some? && graph.Some? && box.Some?;
  }

  method NothingLeft(d: TypedDrawing, ghost linked: seq<Entity>, g: Gathered, ghost chains: seq<Chain>)
    returns (ok: bool)
    requires Keyed(d.acsh, ACSH_HANDLE) && Keyed(d.graphs, GRAPH_HANDLE)
    requires Gathers(g, chains) && Chained(d, linked, chains)
    ensures ok ==> Partition(d, chains)
    ensures !ok ==> forall all :: Chained(d, linked, all) ==> !Partition(d, all)
  {
    DistinctCount(Keys(chains, HISTORY_OF));
    DistinctCount(Keys(chains, GRAPH_OF));
    CountsForcePartition(d, linked, chains);
    ok := |g.usedHistories| * 2 == |d.acsh| && |g.usedGraphs| == |d.graphs| && g.usedHistories != {};
    forall all | Chained(d, linked, all) ensures Partition(d, all) ==> Partition(d, chains) {
      CountsForcePartition(d, linked, all);
    }
  }

  method Prepare(d: TypedDrawing)
    returns (ok: bool, acsh: map<u32, Acsh>, graphs: map<u32, Graph>, linked: seq<Entity>)
    ensures ok <==> Ready(d)
    ensures ok ==> Index(acsh, d.acsh, ACSH_HANDLE) && Index(graphs, d.graphs, GRAPH_HANDLE)
    ensures ok ==> linked == Modelers(d.base.blocks)
  {
    acsh, graphs, linked := map[], map[], [];
    ok := HasRequiredClasses(d.base.classes);
    if !d.base.hasStorage || d.base.proxies != [] || d.rawProxies != 0 || !d.base.coverageComplete || !ok {
      return false, acsh, graphs, linked;
    }
    ok, acsh := IndexItems(d.acsh, ACSH_HANDLE);
    if ok {
      ok, graphs := IndexItems(d.graphs, GRAPH_HANDLE);
    }
    if ok {
      ok, linked := LinkedModelers(d.base.blocks);
    }
  }

  ghost predicate NeverCollected(d: TypedDrawing) {
    forall all :: !Collected(d, all)
  }

  method CollectChains(d: TypedDrawing) returns (ok: bool, g: Gathered, ghost chains: seq<Chain>)
    ensures ok ==> Gathers(g, chains) && Collected(d, chains)
    ensures !ok ==> NeverCollected(d)
  {
    g, chains := Gathered([], [], [], {}, {}, {}), [];
    var acsh, graphs, linked;
    ok, acsh, graphs, linked := Prepare(d);
    if ok {
      ok, g, chains := GatherChains(d, linked, acsh, graphs);
      if ok {
        ok := NothingLeft(d, linked, g, chains);
      }
    }
  }

  /** The three lists of the exporter that a collection fills. */
  class TypedExport {
    var objects: seq<TypedObject>
    var graphs: seq<Graph>
    var materials: seq<u32>

    /** Succeeds exactly if the drawing's chains use up its objects and graphs; otherwise nothing is touched. */
    method Collect(d: TypedDrawing) returns (ok: bool, ghost chains: seq<Chain>)
      modifies this
      ensures ok ==> Collected(d, chains)
      ensures !ok ==> NeverCollected(d) && unchanged(this)
      ensures ok ==> objects == ObjectsOf(chains) && graphs == GraphsOf(chains)
      ensures ok ==> materials == old(materials) + MaterialsOf(chains)
    {
      var g;
      ok, g, chains := CollectChains(d);
      if ok {
        objects := g.objects;
        graphs := g.graphs;
        materials := materials + g.materials;
      }
    }
  }
}
