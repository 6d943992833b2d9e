/** The export preflight of extension dictionaries: a mutually recursive walk from the linetypes. */
module ExtensionGraph {
  import opened Words
  import opened Lists

  datatype Dictionary = Dictionary(
    handle: u32, parent: u32, xDict: u32, reactors: seq<u32>, entries: seq<u32>, complete: bool)

  /** A typed value of an extension record, as far as handle checks look at it. */
  datatype Content = Integer(i: i32) | Integer64(i64: int) | Text(s: string) | Other

  datatype TypedValue = TypedValue(code: int, content: Content)

  datatype HandleValue = HandleValue(code: int, target: u64)

  datatype XRecord = XRecord(
    handle: u32, parent: u32, xDict: u32, reactors: seq<u32>, rawDataValid: bool,
    dataEntries: seq<TypedValue>, values: seq<TypedValue>, handleValues: seq<HandleValue>)

  datatype Node = InDictionary(d: Dictionary) | InXRecord(r: XRecord) {
    function XDict(): u32 {
      if InDictionary? then d.xDict else r.xDict
    }

    function Reactors(): seq<u32> {
      if InDictionary? then d.reactors else r.reactors
    }

    function Entries(): seq<u32> {
      if InDictionary? then d.entries else []
    }

    function Parent(): u32 {
      if InDictionary? then d.parent else r.parent
    }

    /** A dictionary must have complete entries; a record neither raw data nor a handle value of code zero. */
    predicate Usable() {
      if InDictionary? then d.complete
      else !r.rawDataValid && forall v :: v in r.handleValues ==> v.code != 0
    }
  }

  datatype Graph = Graph(nodes: map<u32, Node>, linetypes: set<u32>)

  const NAMED_OBJECTS: u32 := 0xC
  const GROUPS: u32 := 0xD

  // ---------------------------------------------------------------------------------------------
  // Reachability

  /** What a node contains: its extension dictionary and, for a dictionary, its entries. */
  ghost predicate Contains(node: Node, target: u32) {
    (target == node.XDict() && node.XDict() != 0) || target in node.Entries()
  }

  /** A back-reference that is followed: one to anything but a linetype. */
  ghost predicate Follows(g: Graph, reactors: seq<u32>, target: u32) {
    target in reactors && target !in g.linetypes
  }

  ghost predicate Edge(g: Graph, a: u32, b: u32) {
    a in g.nodes && (Contains(g.nodes[a], b) || Follows(g, g.nodes[a].Reactors(), b))
  }

  /** A linetype: its extension dictionary and its reactors. */
  datatype LineType = LineType(handle: u32, xDict: u32, reactors: seq<u32>)

  ghost predicate IsRoot(g: Graph, lines: seq<LineType>, h: u32) {
    exists i :: 0 <= i < |lines| && RootOf(g, lines[i], h)
  }

  ghost predicate RootOf(g: Graph, line: LineType, h: u32) {
    (h == line.xDict && line.xDict != 0) || Follows(g, line.reactors, h)
  }

  ghost predicate IsPath(g: Graph, lines: seq<LineType>, path: seq<u32>) {
    && path != [] && IsRoot(g, lines, path[0])
    && forall i :: 0 <= i < |path| - 1 ==> Edge(g, path[i], path[i + 1])
  }

  ghost predicate Reachable(g: Graph, lines: seq<LineType>, h: u32) {
    exists path :: IsPath(g, lines, path) && path[|path| - 1] == h
  }

  lemma RootIsReachable(g: Graph, lines: seq<LineType>, h: u32)
    requires IsRoot(g, lines, h)
    ensures Reachable(g, lines, h)
  {
    assert IsPath(g, lines, [h]);
  }

  lemma EdgeExtends(g: Graph, lines: seq<LineType>, a: u32, b: u32)
    requires Reachable(g, lines, a) && Edge(g, a, b)
    ensures Reachable(g, lines, b)
  {
    var path :| IsPath(g, lines, path) && path[|path| - 1] == a;
    var longer := path + [b];
    forall i | 0 <= i < |longer| - 1 ensures Edge(g, longer[i], longer[i + 1]) {
      if i < |path| - 1 {
        assert Edge(g, path[i], path[i + 1]);
      }
    }
    assert longer[0] == path[0];
    assert IsPath(g, lines, longer);
  }

  /** A way along edges, possibly of no steps. */
  ghost predicate IsWay(g: Graph, path: seq<u32>, a: u32, b: u32) {
    && path != [] && path[0] == a && path[|path| - 1] == b
    && forall i :: 0 <= i < |path| - 1 ==> Edge(g, path[i], path[i + 1])
  }

  ghost predicate Leads(g: Graph, a: u32, b: u32) {
    exists path :: IsWay(g, path, a, b)
  }

  lemma LeadsToItself(g: Graph, a: u32)
    ensures Leads(g, a, a)
  {
    assert IsWay(g, [a], a, a);
  }

  lemma LeadsFurther(g: Graph, a: u32, b: u32, c: u32)
    requires Leads(g, a, b) && Edge(g, b, c)
    ensures Leads(g, a, c)
  {
    var path :| IsWay(g, path, a, b);
    var longer := path + [c];
    forall i | 0 <= i < |longer| - 1 ensures Edge(g, longer[i], longer[i + 1]) {
      if i < |path| - 1 {
        assert Edge(g, path[i], path[i + 1]);
      }
    }
    assert IsWay(g, longer, a, c);
  }

  /** A set that holds the roots and is closed under edges holds everything reachable. */
  lemma {:induction false} ClosedHoldsPaths(g: Graph, lines: seq<LineType>, closed: set<u32>, path: seq<u32>)
    requires forall h :: IsRoot(g, lines, h) ==> h in closed
    requires forall a, b :: a in closed && Edge(g, a, b) ==> b in closed
    requires IsPath(g, lines, path)
    ensures path[|path| - 1] in closed
    decreases |path|
  {
    if |path| > 1 {
      var n := |path| - 1;
      var shorter := path[..n];
      forall i | 0 <= i < |shorter| - 1 ensures Edge(g, shorter[i], shorter[i + 1]) {
        assert Edge(g, path[i], path[i + 1]);
      }
      assert shorter[0] == path[0];
      ClosedHoldsPaths(g, lines, closed, shorter);
      assert Edge(g, path[n - 1], path[n - 1 + 1]);
    }
  }

  // ---------------------------------------------------------------------------------------------
  // The state of the walk

  /** The nodes being visited, the finished ones in the order in which they finished, and the two lists. */
  datatype State = State(visiting: set<u32>, finished: seq<u32>, dictionaries: seq<u32>, xRecords: seq<u32>)

  const START: State := State({}, [], [], [])

  /** A handle has been met. */
  ghost predicate Met(s: State, h: u32) {
    h in s.visiting || h in s.finished
  }

  predicate HoldsDictionary(g: Graph, h: u32) {
    h in g.nodes && g.nodes[h].InDictionary?
  }

  /** A usable node whose extension dictionary is a dictionary, but none of the writer's own two dictionaries. */
  ghost predicate Allowed(g: Graph, h: u32) {
    && h in g.nodes && g.nodes[h].Usable()
    && (g.nodes[h].InDictionary? ==> h != NAMED_OBJECTS && h != GROUPS)
    && (g.nodes[h].XDict() != 0 ==> HoldsDictionary(g, g.nodes[h].XDict()))
  }

  /** A node that is back where it started after a containment edge, whatever the other edges are. */
  ghost predicate ContainsAncestor(g: Graph, lines: seq<LineType>, a: u32, b: u32) {
    Reachable(g, lines, a) && a in g.nodes && Contains(g.nodes[a], b) && Leads(g, b, a)
  }

  /** Why a walk may fail: something reachable is not allowed, or contains what leads to it. */
  ghost predicate Broken(g: Graph, lines: seq<LineType>) {
    || (exists h :: Reachable(g, lines, h) && !Allowed(g, h))
    || (exists a, b :: ContainsAncestor(g, lines, a, b))
  }

  ghost predicate RootsFit(g: Graph, lines: seq<LineType>) {
    forall i :: 0 <= i < |lines| && lines[i].xDict != 0 ==> HoldsDictionary(g, lines[i].xDict)
  }

  /** Each list holds, once each, the met nodes of its type. */
  ghost predicate Listed(g: Graph, s: State) {
    && Distinct(s.dictionaries) && Distinct(s.xRecords) && Distinct(s.finished)
    && (forall h :: h in s.dictionaries <==> Met(s, h) && h in g.nodes && g.nodes[h].InDictionary?)
    && (forall h :: h in s.xRecords <==> Met(s, h) && h in g.nodes && g.nodes[h].InXRecord?)
    && (forall h :: h in s.visiting ==> h in g.nodes && h !in s.finished)
    && (forall h :: h in s.finished ==> Allowed(g, h))
  }

  /** The back-references of a finished node have been met. */
  ghost predicate ReactorsMet(g: Graph, s: State, reactors: seq<u32>) {
    forall r :: r in reactors ==> r != 0 && (r in g.linetypes || Met(s, r))
  }

  /** Everything that a node contains finished before it. */
  ghost predicate ContentsFinished(node: Node, finished: seq<u32>) {
    forall t :: Contains(node, t) ==> t in finished
  }

  ghost predicate AllFinished(entries: seq<u32>, finished: seq<u32>) {
    forall e :: e in entries ==> e in finished
  }

  lemma AllFinishedNext(entries: seq<u32>, i: nat, before: seq<u32>, after: seq<u32>)
    requires i < |entries| && AllFinished(entries[..i], before) && entries[i] in after
    requires forall h :: h in before ==> h in after
    ensures AllFinished(entries[..i + 1], after)
  {
    assert entries[..i + 1] == entries[..i] + [entries[i]];
  }

  ghost predicate Settled(g: Graph, s: State) {
    forall i :: 0 <= i < |s.finished| && s.finished[i] in g.nodes ==>
      ReactorsMet(g, s, g.nodes[s.finished[i]].Reactors())
  }

  ghost predicate Ordered(g: Graph, finished: seq<u32>) {
    forall i :: 0 <= i < |finished| && finished[i] in g.nodes ==>
      ContentsFinished(g.nodes[finished[i]], finished[..i])
  }

  ghost predicate AllReachable(g: Graph, lines: seq<LineType>, s: State) {
    forall h :: Met(s, h) ==> Reachable(g, lines, h)
  }

  ghost predicate Sound(g: Graph, lines: seq<LineType>, s: State) {
    Listed(g, s) && Settled(g, s) && Ordered(g, s.finished) && AllReachable(g, lines, s)
  }

  /** Nothing that was met is forgotten, and the walk is back where it was. */
  ghost predicate Grows(a: State, b: State) {
    a.visiting == b.visiting && (forall h :: h in a.finished ==> h in b.finished)
  }

  ghost function Entered(g: Graph, s: State, h: u32): State
    requires h in g.nodes
  {
    State(s.visiting + {h}, s.finished,
          if g.nodes[h].InDictionary? then s.dictionaries + [h] else s.dictionaries,
          if g.nodes[h].InDictionary? then s.xRecords else s.xRecords + [h])
  }

  lemma EnterKeepsSound(g: Graph, lines: seq<LineType>, s: State, h: u32)
    requires Sound(g, lines, s) && h in g.nodes && !Met(s, h) && Reachable(g, lines, h)
    ensures Sound(g, lines, Entered(g, s, h))
  {
    var t := Entered(g, s, h);
    assert forall x :: Met(t, x) <==> Met(s, x) || x == h;
    assert Settled(g, t) by {
      forall i | 0 <= i < |t.finished| && t.finished[i] in g.nodes
        ensures ReactorsMet(g, t, g.nodes[t.finished[i]].Reactors())
      {
        assert ReactorsMet(g, s, g.nodes[s.finished[i]].Reactors());
      }
    }
  }

  ghost function Finished(s: State, h: u32): State {
    s.(visiting := s.visiting - {h}, finished := s.finished + [h])
  }

  lemma FinishKeepsSound(g: Graph, lines: seq<LineType>, s: State, h: u32)
    requires Sound(g, lines, s) && h in s.visiting && Allowed(g, h)
    requires ContentsFinished(g.nodes[h], s.finished) && ReactorsMet(g, s, g.nodes[h].Reactors())
    ensures Sound(g, lines, Finished(s, h))
  {
    var t := Finished(s, h);
    assert forall x :: Met(t, x) <==> Met(s, x);
    assert Ordered(g, t.finished) by {
      forall i | 0 <= i < |t.finished| && t.finished[i] in g.nodes
        ensures ContentsFinished(g.nodes[t.finished[i]], t.finished[..i])
      {
        if i < |s.finished| {
          assert ContentsFinished(g.nodes[s.finished[i]], s.finished[..i]);
          assert t.finished[..i] == s.finished[..i];
        } else {
          assert t.finished[..i] == s.finished;
        }
      }
    }
    assert Settled(g, t) by {
      forall i | 0 <= i < |t.finished| && t.finished[i] in g.nodes
        ensures ReactorsMet(g, t, g.nodes[t.finished[i]].Reactors())
      {
        if i < |s.finished| {
          assert ReactorsMet(g, s, g.nodes[s.finished[i]].Reactors());
        }
      }
    }
  }

  /** Containment goes from later to earlier finishers, so no node contains itself through others. */
  lemma {:induction false} ContainmentIsAcyclic(g: Graph, finished: seq<u32>, i: nat, j: nat, chain: seq<u32>)
    requires Ordered(g, finished) && Distinct(finished) && i < |finished| && j < |finished|
    requires |chain| >= 2 && chain[0] == finished[i] && chain[|chain| - 1] == finished[j]
    requires forall k :: 0 <= k < |chain| - 1 ==> chain[k] in g.nodes && Contains(g.nodes[chain[k]], chain[k + 1])
    ensures j < i
    decreases |chain|
  {
    assert Contains(g.nodes[chain[0]], chain[0 + 1]);
    assert ContentsFinished(g.nodes[finished[i]], finished[..i]);
    var m :| 0 <= m < i && finished[..i][m] == chain[1];
    if |chain| > 2 {
      var rest := chain[1..];
      forall k | 0 <= k < |rest| - 1 ensures rest[k] in g.nodes && Contains(g.nodes[rest[k]], rest[k + 1]) {
        assert Contains(g.nodes[chain[k + 1]], chain[k + 1 + 1]);
      }
      ContainmentIsAcyclic(g, finished, m, j, rest);
    }
  }

  /** A visit that enters, grows and finishes has grown. */
  lemma VisitGrows(g: Graph, a: State, b: State, h: u32)
    requires h in g.nodes && h !in a.visiting && Grows(Entered(g, a, h), b)
    ensures Grows(a, Finished(b, h)) && h in Finished(b, h).finished
  {
  }

  // ---------------------------------------------------------------------------------------------
  // The walk as a function of the graph and the state

  ghost function AfterXDict(g: Graph, s: State, xDict: u32): (t: Option<State>)
    ensures t.Some? ==> t.value.visiting == s.visiting
    decreases g.nodes.Keys - s.visiting, 1
  {
    if xDict == 0 then Some(s) else AfterDictionary(g, s, xDict)
  }

  ghost function AfterReactor(g: Graph, s: State, reactor: u32): (t: Option<State>)
    ensures t.Some? ==> t.value.visiting == s.visiting
    decreases g.nodes.Keys - s.visiting, 1
  {
    if reactor == 0 then None
    else if reactor in g.linetypes || reactor in s.visiting then Some(s)
    else if HoldsDictionary(g, reactor) then AfterDictionary(g, s, reactor)
    else AfterXRecord(g, s, reactor)
  }

  ghost function AfterReactors(g: Graph, s: State, reactors: seq<u32>): (t: Option<State>)
    ensures t.Some? ==> t.value.visiting == s.visiting
    decreases g.nodes.Keys - s.visiting, 2, |reactors|
  {
    if reactors == [] then Some(s)
    else
      var t := AfterReactor(g, s, reactors[0]);
      if t.None? then None else AfterReactors(g, t.value, reactors[1..])
  }

  ghost function AfterEntry(g: Graph, s: State, entry: u32): (t: Option<State>)
    ensures t.Some? ==> t.value.visiting == s.visiting
    decreases g.nodes.Keys - s.visiting, 1
  {
    if entry == 0 then None
    else if HoldsDictionary(g, entry) then AfterDictionary(g, s, entry)
    else AfterXRecord(g, s, entry)
  }

  ghost function AfterEntries(g: Graph, s: State, entries: seq<u32>): (t: Option<State>)
    ensures t.Some? ==> t.value.visiting == s.visiting
    decreases g.nodes.Keys - s.visiting, 2, |entries|
  {
    if entries == [] then Some(s)
    else
      var t := AfterEntry(g, s, entries[0]);
      if t.None? then None else AfterEntries(g, t.value, entries[1..])
  }

  lemma ReactorsNext(g: Graph, s: State, reactors: seq<u32>, i: nat)
    requires i < |reactors|
    ensures var t := AfterReactor(g, s, reactors[i]);
            AfterReactors(g, s, reactors[i..])
            == if t.None? then None else AfterReactors(g, t.value, reactors[i + 1..])
  {
    assert reactors[i..][1..] == reactors[i + 1..];
  }

  lemma EntriesNext(g: Graph, s: State, entries: seq<u32>, i: nat)
    requires i < |entries|
    ensures var t := AfterEntry(g, s, entries[i]);
            AfterEntries(g, s, entries[i..]) == if t.None? then None else AfterEntries(g, t.value, entries[i + 1..])
  {
    assert entries[i..][1..] == entries[i + 1..];
  }

  /** Behind the extension dictionary and the back-references. */
  ghost function AfterLinks(g: Graph, s: State, xDict: u32, reactors: seq<u32>): (t: Option<State>)
    ensures t.Some? ==> t.value.visiting == s.visiting
    decreases g.nodes.Keys - s.visiting, 3
  {
    var t := AfterXDict(g, s, xDict);
    if t.None? then None else AfterReactors(g, t.value, reactors)
  }

  /** Behind everything that a node refers to. */
  ghost function AfterContents(g: Graph, s: State, node: Node): (t: Option<State>)
    ensures t.Some? ==> t.value.visiting == s.visiting
    decreases g.nodes.Keys - s.visiting, 4
  {
    var t := AfterLinks(g, s, node.XDict(), node.Reactors());
    if t.None? then None else AfterEntries(g, t.value, node.Entries())
  }

  /** A node that is not on the walk, and if it has not finished, is entered, followed and finished. */
  ghost function AfterNode(g: Graph, s: State, h: u32): (t: Option<State>)
    requires h in g.nodes
    ensures t.Some? ==> t.value.visiting == s.visiting
    decreases g.nodes.Keys - s.visiting, 0, 0
  {
    if h in s.visiting then None
    else if h in s.finished then Some(s)
    else if !g.nodes[h].Usable() then None
    else
      assert h in g.nodes.Keys - s.visiting;
      var t := AfterContents(g, Entered(g, s, h), g.nodes[h]);
      if t.None? then None else Some(Finished(t.value, h))
  }

  ghost function AfterXRecord(g: Graph, s: State, h: u32): (t: Option<State>)
    ensures t.Some? ==> t.value.visiting == s.visiting
    decreases g.nodes.Keys - s.visiting, 0, 1
  {
    if h !in g.nodes || g.nodes[h].InDictionary? then None else AfterNode(g, s, h)
  }

  ghost function AfterDictionary(g: Graph, s: State, h: u32): (t: Option<State>)
    ensures t.Some? ==> t.value.visiting == s.visiting
    decreases g.nodes.Keys - s.visiting, 0, 1
  {
    if !HoldsDictionary(g, h) || h == NAMED_OBJECTS || h == GROUPS then None else AfterNode(g, s, h)
  }

  /** Behind every linetype in turn. */
  ghost function AfterLineTypes(g: Graph, s: State, lines: seq<LineType>): Option<State>
    decreases |lines|
  {
    if lines == [] then Some(s)
    else
      var t := AfterLinks(g, s, lines[0].xDict, lines[0].reactors);
      if t.None? then None else AfterLineTypes(g, t.value, lines[1..])
  }

  // ---------------------------------------------------------------------------------------------
  // The walk

  /** The two visited sets are the finished nodes by type. */
  ghost predicate Visited(g: Graph, finished: seq<u32>, dictionaries: set<u32>, xRecords: set<u32>) {
    && (forall h :: h in dictionaries <==> h in finished && h in g.nodes && g.nodes[h].InDictionary?)
    && (forall h :: h in xRecords <==> h in finished && h in g.nodes && g.nodes[h].InXRecord?)
  }

  lemma VisitedNext(g: Graph, finished: seq<u32>, dictionaries: set<u32>, xRecords: set<u32>, h: u32)
    requires Visited(g, finished, dictionaries, xRecords) && h in g.nodes
    ensures if g.nodes[h].InDictionary? then Visited(g, finished + [h], dictionaries + {h}, xRecords)
            else Visited(g, finished + [h], dictionaries, xRecords + {h})
  {
  }

  class ExtensionWalk {
    const g: Graph
    ghost const lines: seq<LineType>
    var visiting: set<u32>
    var visitedDictionaries: set<u32>
    var visitedXRecords: set<u32>
    var dictionaryHandles: seq<u32>
    var xRecordHandles: seq<u32>
    ghost var finished: seq<u32>

    ghost function Now(): State
      reads this
    {
      State(visiting, finished, dictionaryHandles, xRecordHandles)
    }

    ghost predicate Valid()
      reads this
    {
      && Sound(g, lines, Now()) && 0 !in g.nodes && 0 !in g.linetypes
      && Visited(g, finished, visitedDictionaries, visitedXRecords)
    }

    /** Everything on the walk leads to h. */
    ghost predicate AllLeadTo(h: u32)
      reads this
    {
      forall v :: v in visiting ==> Leads(g, v, h)
    }

    /** A handle to be entered: everything on the walk leads to it, and finding it there means a broken graph. */
    ghost predicate Comes(h: u32)
      reads this
    {
      Reachable(g, lines, h) && AllLeadTo(h) && (h in visiting ==> Broken(g, lines))
    }

    lemma EdgeComes(c: u32, h: u32)
      requires Valid() && c in visiting && AllLeadTo(c) && Edge(g, c, h)
      requires Contains(g.nodes[c], h) || h !in visiting
      ensures Comes(h)
    {
      assert Met(Now(), c);
      EdgeExtends(g, lines, c, h);
      forall v | v in visiting ensures Leads(g, v, h) {
        LeadsFurther(g, v, c, h);
      }
      if h in visiting {
        assert ContainsAncestor(g, lines, c, h);
      }
    }

    constructor (g: Graph, ghost lines: seq<LineType>)
      requires 0 !in g.nodes && 0 !in g.linetypes
      ensures Valid() && Now() == START && this.g == g && this.lines == lines
    {
      this.g := g;
      this.lines := lines;
      visiting, visitedDictionaries, visitedXRecords := {}, {}, {};
      dictionaryHandles, xRecordHandles, finished := [], [], [];
    }

    predicate IsXRecord(h: u32) {
      h in g.nodes && g.nodes[h].InXRecord?
    }

    method Enter(h: u32)
      requires Valid() && h in g.nodes && !Met(Now(), h) && Comes(h)
      modifies this
      ensures Valid() && Now() == Entered(g, old(Now()), h)
      ensures g.nodes.Keys - visiting < old(g.nodes.Keys - visiting)
      ensures AllLeadTo(h)
    {
      EnterKeepsSound(g, lines, Now(), h);
      LeadsToItself(g, h);
      assert h in g.nodes.Keys - visiting;
      visiting := visiting + {h};
      if g.nodes[h].InDictionary? {
        dictionaryHandles := dictionaryHandles + [h];
      } else {
        xRecordHandles := xRecordHandles + [h];
      }
    }

    method Finish(h: u32)
      requires Valid() && h in visiting && Allowed(g, h)
      requires ContentsFinished(g.nodes[h], finished) && ReactorsMet(g, Now(), g.nodes[h].Reactors())
      modifies this
      ensures Valid() && Now() == Finished(old(Now()), h)
    {
      FinishKeepsSound(g, lines, Now(), h);
      VisitedNext(g, finished, visitedDictionaries, visitedXRecords, h);
      visiting := visiting - {h};
      finished := finished + [h];
      if g.nodes[h].InDictionary? {
        visitedDictionaries := visitedDictionaries + {h};
      } else {
        visitedXRecords := visitedXRecords + {h};
      }
    }

    /** An extension dictionary, if there is one. */
    method VisitXDict(xDict: u32) returns (ok: bool)
      requires Valid() && (xDict != 0 ==> Comes(xDict))
      modifies this
      ensures ok ==> Valid() && Grows(old(Now()), Now())
      ensures ok && xDict != 0 ==> xDict in finished && HoldsDictionary(g, xDict)
      ensures !ok ==> Broken(g, lines) || (xDict != 0 && !HoldsDictionary(g, xDict))
      ensures AfterXDict(g, old(Now()), xDict) == if ok then Some(Now()) else None
      decreases g.nodes.Keys - visiting, 1
    {
      ok := true;
      if xDict != 0 {
        ok := VisitDictionary(xDict);
      }
    }

    ghost predicate ReactorsCome(reactors: seq<u32>)
      reads this
    {
      forall r :: Follows(g, reactors, r) ==> Reachable(g, lines, r) && AllLeadTo(r)
    }

    lemma NothingThere(h: u32)
      requires Valid() && Reachable(g, lines, h) && (h == 0 || h !in g.nodes)
      ensures Broken(g, lines)
    {
      assert !Allowed(g, h);
    }

    /** One back-reference: a linetype or a node on the walk is passed over. */
    method VisitReactor(reactor: u32) returns (ok: bool)
      requires Valid() && (reactor !in g.linetypes ==> Reachable(g, lines, reactor) && AllLeadTo(reactor))
      modifies this
      ensures ok ==> Valid() && Grows(old(Now()), Now())
      ensures ok ==> reactor != 0 && (reactor in g.linetypes || Met(Now(), reactor))
      ensures !ok ==> Broken(g, lines)
      ensures AfterReactor(g, old(Now()), reactor) == if ok then Some(Now()) else None
      decreases g.nodes.Keys - visiting, 1
    {
      if reactor == 0 {
        NothingThere(reactor);
        return false;
      }
      if reactor in g.linetypes || reactor in visiting {
        return true;
      }
      if HoldsDictionary(g, reactor) {
        ok := VisitDictionary(reactor);
      } else if IsXRecord(reactor) {
        ok := VisitXRecord(reactor);
      } else {
        NothingThere(reactor);
        return false;
      }
    }

    /** The back-references, in order. */
    method VisitReactors(reactors: seq<u32>) returns (ok: bool)
      requires Valid() && ReactorsCome(reactors)
      modifies this
      ensures ok ==> Valid() && Grows(old(Now()), Now()) && ReactorsMet(g, Now(), reactors)
      ensures !ok ==> Broken(g, lines)
      ensures AfterReactors(g, old(Now()), reactors) == if ok then Some(Now()) else None
      decreases g.nodes.Keys - visiting, 2
    {
      for i := 0 to |reactors|
        invariant Valid() && Grows(old(Now()), Now()) && ReactorsMet(g, Now(), reactors[..i])
        invariant AfterReactors(g, Now(), reactors[i..]) == AfterReactors(g, old(Now()), reactors)
      {
        ReactorsNext(g, Now(), reactors, i);
        ghost var before := Now();
        assert reactors[i] !in g.linetypes ==> Follows(g, reactors, reactors[i]);
        ok := VisitReactor(reactors[i]);
        if !ok {
          return;
        }
        ReactorsStayMet(before, Now(), reactors[..i]);
        assert reactors[..i + 1] == reactors[..i] + [reactors[i]];
      }
      assert reactors[..|reactors|] == reactors;
      return true;
    }

    lemma ReactorsStayMet(a: State, b: State, reactors: seq<u32>)
      requires Grows(a, b) && ReactorsMet(g, a, reactors)
      ensures ReactorsMet(g, b, reactors)
    {
    }

    /** One entry of a dictionary. */
    method VisitEntry(entry: u32) returns (ok: bool)
      requires Valid() && Comes(entry)
      modifies this
      ensures ok ==> Valid() && Grows(old(Now()), Now()) && entry in finished
      ensures !ok ==> Broken(g, lines)
      ensures AfterEntry(g, old(Now()), entry) == if ok then Some(Now()) else None
      decreases g.nodes.Keys - visiting, 1
    {
      if entry == 0 {
        NothingThere(entry);
        return false;
      }
      if HoldsDictionary(g, entry) {
        ok := VisitDictionary(entry);
      } else if IsXRecord(entry) {
        ok := VisitXRecord(entry);
      } else {
        NothingThere(entry);
        return false;
      }
    }

    method VisitEntries(c: u32, entries: seq<u32>) returns (ok: bool)
      requires Valid() && c in visiting && AllLeadTo(c) && entries == g.nodes[c].Entries()
      modifies this
      ensures ok ==> Valid() && Grows(old(Now()), Now()) && AllFinished(entries, finished)
      ensures !ok ==> Broken(g, lines)
      ensures AfterEntries(g, old(Now()), entries) == if ok then Some(Now()) else None
      decreases g.nodes.Keys - visiting, 2
    {
      for i := 0 to |entries|
        invariant Valid() && Grows(old(Now()), Now()) && AllFinished(entries[..i], finished)
        invariant AfterEntries(g, Now(), entries[i..]) == AfterEntries(g, old(Now()), entries)
      {
        EntriesNext(g, Now(), entries, i);
        assert entries[i] in entries;
        EdgeComes(c, entries[i]);
        ghost var before := finished;
        ok := VisitEntry(entries[i]);
        if !ok {
          return;
        }
        AllFinishedNext(entries, i, before, finished);
      }
      assert entries[..|entries|] == entries;
      return true;
    }

    method VisitXRecord(h: u32) returns (ok: bool)
      requires Valid() && Comes(h)
      modifies this
      ensures ok ==> Valid() && Grows(old(Now()), Now()) && h in finished
      ensures !ok ==> Broken(g, lines) || !IsXRecord(h)
      ensures AfterXRecord(g, old(Now()), h) == if ok then Some(Now()) else None
      decreases g.nodes.Keys - visiting, 0
    {
      if !IsXRecord(h) || h in visiting {
        return false;
      }
      if h in visitedXRecords {
        return true;
      }
      if !g.nodes[h].Usable() {
        assert !Allowed(g, h);
        return false;
      }
      Enter(h);
      ok := VisitContents(h);
      assert AfterContents(g, Entered(g, old(Now()), h), g.nodes[h]) == if ok then Some(Now()) else None;
      if !ok {
        return false;
      }
      VisitGrows(g, old(Now()), Now(), h);
      Finish(h);
    }

    lemma ContentsCome(h: u32)
      requires Valid() && h in visiting && AllLeadTo(h)
      ensures Reachable(g, lines, h) && ReactorsCome(g.nodes[h].Reactors())
      ensures g.nodes[h].XDict() != 0 ==> Comes(g.nodes[h].XDict())
    {
      var node := g.nodes[h];
      assert Met(Now(), h);
      if node.XDict() != 0 {
        EdgeComes(h, node.XDict());
      }
      forall r | Follows(g, node.Reactors(), r) ensures Reachable(g, lines, r) && AllLeadTo(r) {
        EdgeExtends(g, lines, h, r);
        forall v | v in visiting ensures Leads(g, v, r) {
          LeadsFurther(g, v, h, r);
        }
      }
    }

    /** What both visits do between entering and their own part: the extension dictionary and the reactors. */
    method VisitContents(h: u32) returns (ok: bool)
      requires Valid() && h in visiting && AllLeadTo(h)
      modifies this
      ensures ok ==> Valid() && Grows(old(Now()), Now()) && ReactorsMet(g, Now(), g.nodes[h].Reactors())
      ensures ok ==> g.nodes[h].XDict() != 0 ==> g.nodes[h].XDict() in finished
      ensures ok ==> g.nodes[h].XDict() != 0 ==> HoldsDictionary(g, g.nodes[h].XDict())
      ensures !ok ==> Broken(g, lines)
      ensures AfterLinks(g, old(Now()), g.nodes[h].XDict(), g.nodes[h].Reactors()) == if ok then Some(Now()) else None
      decreases g.nodes.Keys - visiting, 3
    {
      var node := g.nodes[h];
      ContentsCome(h);
      ok := VisitXDict(node.XDict());
      if !ok {
        assert !Broken(g, lines) ==> !Allowed(g, h);
        return;
      }
      ContentsCome(h);
      ok := VisitReactors(node.Reactors());
    }

    method VisitDictionary(h: u32) returns (ok: bool)
      requires Valid() && Comes(h)
      modifies this
      ensures ok ==> Valid() && Grows(old(Now()), Now()) && h in finished
      ensures ok ==> HoldsDictionary(g, h)
      ensures !ok ==> Broken(g, lines) || !HoldsDictionary(g, h)
      ensures AfterDictionary(g, old(Now()), h) == if ok then Some(Now()) else None
      decreases g.nodes.Keys - visiting, 0
    {
      if !HoldsDictionary(g, h) || h == NAMED_OBJECTS || h == GROUPS || h in visiting {
        assert !HoldsDictionary(g, h) || h in visiting || !Allowed(g, h);
        return false;
      }
      if h in visitedDictionaries {
        return true;
      }
      if !g.nodes[h].Usable() {
        assert !Allowed(g, h);
        return false;
      }
      Enter(h);
      ok := VisitDictionaryContents(h);
      if !ok {
        return;
      }
      VisitGrows(g, old(Now()), Now(), h);
      Finish(h);
    }

    /** The extension dictionary, the reactors and then the entries. */
    method VisitDictionaryContents(h: u32) returns (ok: bool)
      requires Valid() && h in visiting && HoldsDictionary(g, h) && AllLeadTo(h)
      modifies this
      ensures ok ==> Valid() && Grows(old(Now()), Now())
      ensures ok ==> ContentsFinished(g.nodes[h], finished) && ReactorsMet(g, Now(), g.nodes[h].Reactors())
      ensures ok ==> g.nodes[h].XDict() != 0 ==> HoldsDictionary(g, g.nodes[h].XDict())
      ensures !ok ==> Broken(g, lines)
      ensures AfterContents(g, old(Now()), g.nodes[h]) == if ok then Some(Now()) else None
      decreases g.nodes.Keys - visiting, 4
    {
      ok := VisitContents(h);
      if !ok {
        return;
      }
      ghost var before := Now();
      ok := VisitEntries(h, g.nodes[h].Entries());
      if !ok {
        return;
      }
      ReactorsStayMet(before, Now(), g.nodes[h].Reactors());
    }

    /** One linetype; nothing is on the walk. */
    method VisitLineType(line: LineType, ghost i: nat) returns (ok: bool)
      requires Valid() && visiting == {} && i < |lines| && lines[i] == line
      modifies this
      ensures ok ==> Valid() && visiting == {} && Grows(old(Now()), Now())
      ensures ok ==> forall h :: RootOf(g, line, h) ==> h in finished
      ensures ok ==> line.xDict != 0 ==> HoldsDictionary(g, line.xDict)
      ensures !ok ==> Broken(g, lines) || !RootsFit(g, lines)
      ensures AfterLinks(g, old(Now()), line.xDict, line.reactors) == if ok then Some(Now()) else None
    {
      forall h | RootOf(g, line, h) ensures Reachable(g, lines, h) {
        assert IsRoot(g, lines, h);
        RootIsReachable(g, lines, h);
      }
      ok := VisitXDict(line.xDict);
      if !ok {
        return;
      }
      ok := VisitReactors(line.reactors);
    }

    /** From every linetype in turn. */
    method VisitLineTypes(sources: seq<LineType>) returns (ok: bool)
      requires Valid() && Now() == START && sources == lines
      modifies this
      ensures ok ==> Valid() && visiting == {} && forall h :: IsRoot(g, lines, h) ==> h in finished
      ensures ok ==> RootsFit(g, lines)
      ensures !ok ==> Broken(g, lines) || !RootsFit(g, lines)
      ensures AfterLineTypes(g, START, lines) == if ok then Some(Now()) else None
    {
      for i := 0 to |sources|
        invariant Valid() && visiting == {}
        invariant forall h :: IsRoot(g, sources[..i], h) ==> h in finished
        invariant RootsFit(g, sources[..i])
        invariant AfterLineTypes(g, Now(), sources[i..]) == AfterLineTypes(g, START, sources)
      {
        assert sources[i..][1..] == sources[i + 1..];
        ok := VisitLineType(sources[i], i);
        if !ok {
          return;
        }
        forall h | IsRoot(g, sources[..i + 1], h) ensures h in finished {
          var k :| 0 <= k < |sources[..i + 1]| && RootOf(g, sources[..i + 1][k], h);
          if k < i {
            assert RootOf(g, sources[..i][k], h);
          }
        }
        assert sources[..i + 1] == sources[..i] + [sources[i]];
      }
      assert sources[..|sources|] == sources;
      return true;
    }
  }

  /** When a whole walk succeeds, the lists hold exactly the reachable dictionaries and extension records. */
  ghost predicate Complete(g: Graph, lines: seq<LineType>, s: State) {
    && Distinct(s.dictionaries) && Distinct(s.xRecords)
    && (forall h :: h in s.dictionaries <==> Reachable(g, lines, h) && h in g.nodes && g.nodes[h].InDictionary?)
    && (forall h :: h in s.xRecords <==> Reachable(g, lines, h) && h in g.nodes && g.nodes[h].InXRecord?)
    && (forall h :: Reachable(g, lines, h) ==> Allowed(g, h))
  }

  lemma WalkIsComplete(g: Graph, lines: seq<LineType>, s: State)
    requires Sound(g, lines, s) && s.visiting == {} && forall h :: IsRoot(g, lines, h) ==> h in s.finished
    ensures Complete(g, lines, s)
  {
    var closed := set h | h in s.finished;
    forall a, b | a in closed && Edge(g, a, b) ensures b in closed {
      var i :| 0 <= i < |s.finished| && s.finished[i] == a;
      assert ReactorsMet(g, s, g.nodes[s.finished[i]].Reactors());
      assert ContentsFinished(g.nodes[s.finished[i]], s.finished[..i]);
    }
    forall h | Reachable(g, lines, h) ensures h in closed {
      var path :| IsPath(g, lines, path) && path[|path| - 1] == h;
      ClosedHoldsPaths(g, lines, closed, path);
    }
    assert forall h :: Met(s, h) <==> h in closed;
  }

  lemma NoContainedAncestor(g: Graph, lines: seq<LineType>, finished: seq<u32>, a: u32, b: u32)
    requires Ordered(g, finished) && Distinct(finished) && a in finished
    requires FollowsNothing(g)
    ensures !ContainsAncestor(g, lines, a, b)
  {
    if ContainsAncestor(g, lines, a, b) {
      var way :| IsWay(g, way, b, a);
      var chain := [a] + way;
      forall k | 0 <= k < |chain| - 1 ensures chain[k] in g.nodes && Contains(g.nodes[chain[k]], chain[k + 1]) {
        if k > 0 {
          assert Edge(g, way[k - 1], way[k - 1 + 1]);
        }
      }
      var i :| 0 <= i < |finished| && finished[i] == a;
      ContainmentIsAcyclic(g, finished, i, i, chain);
    }
  }

  /** Every edge is a containment: no back-reference leads anywhere else. */
  ghost predicate FollowsNothing(g: Graph) {
    forall x, y :: Edge(g, x, y) ==> Contains(g.nodes[x], y)
  }

  /** Where no back-reference is followed, success and failure decide exactly whether the graph is broken. */
  lemma ReactorFreeWalkIsExact(g: Graph, lines: seq<LineType>, s: State)
    requires Complete(g, lines, s) && Ordered(g, s.finished) && Distinct(s.finished)
    requires forall h :: h in s.finished <==> h in s.dictionaries || h in s.xRecords
    requires FollowsNothing(g)
    ensures !Broken(g, lines)
  {
    forall a, b ensures !ContainsAncestor(g, lines, a, b) {
      if Reachable(g, lines, a) {
        assert Allowed(g, a);
        NoContainedAncestor(g, lines, s.finished, a, b);
      }
    }
  }

  // ---------------------------------------------------------------------------------------------
  // The order of entry: a record whose back-reference names the dictionary that contains it

  const RECORD: u32 := 0x100
  const OWNER: u32 := 0x200

  const MUTUAL: Graph := Graph(
    map[RECORD := InXRecord(XRecord(RECORD, OWNER, 0, [OWNER], false, [], [], [])),
        OWNER := InDictionary(Dictionary(OWNER, 0, 0, [], [RECORD], true))],
    {0x10, 0x20})

  const AT_RECORD: LineType := LineType(0x10, 0, [RECORD])
  const AT_OWNER: LineType := LineType(0x20, 0, [OWNER])

  ghost function InRecord(): State {
    Entered(MUTUAL, START, RECORD)
  }

  ghost function InOwner(): State {
    Entered(MUTUAL, START, OWNER)
  }

  /** Entered through the record, the walk follows the back-reference and finds the record contained in itself. */
  lemma RecordFirstFails()
    ensures AfterXRecord(MUTUAL, START, RECORD).None?
  {
    var inside := Entered(MUTUAL, InRecord(), OWNER);
    assert !HoldsDictionary(MUTUAL, RECORD) && AfterNode(MUTUAL, inside, RECORD).None?;
    assert AfterEntry(MUTUAL, inside, RECORD).None?;
    assert AfterEntries(MUTUAL, inside, [RECORD]).None?;
    assert AfterReactors(MUTUAL, inside, []) == Some(inside);
    assert AfterLinks(MUTUAL, inside, 0, []) == Some(inside);
    assert AfterContents(MUTUAL, inside, MUTUAL.nodes[OWNER]).None?;
    assert AfterDictionary(MUTUAL, InRecord(), OWNER).None?;
    assert AfterReactors(MUTUAL, InRecord(), [OWNER]).None?;
    assert AfterLinks(MUTUAL, InRecord(), 0, [OWNER]).None?;
    assert AfterContents(MUTUAL, InRecord(), MUTUAL.nodes[RECORD]).None?;
  }

  /** Entered through the dictionary, the walk passes the back-reference over and finishes both. */
  lemma OwnerFirstSucceeds() returns (t: State)
    ensures AfterDictionary(MUTUAL, START, OWNER) == Some(t)
    ensures t.visiting == {} && t.finished == [RECORD, OWNER]
  {
    var inside := Entered(MUTUAL, InOwner(), RECORD);
    assert AfterReactor(MUTUAL, inside, OWNER) == Some(inside);
    assert [OWNER][1..] == [];
    assert AfterReactors(MUTUAL, inside, [OWNER]) == Some(inside);
    assert AfterLinks(MUTUAL, inside, 0, [OWNER]) == Some(inside);
    assert AfterContents(MUTUAL, inside, MUTUAL.nodes[RECORD]) == Some(inside);
    var record := Finished(inside, RECORD);
    assert AfterXRecord(MUTUAL, InOwner(), RECORD) == Some(record);
    assert [RECORD][1..] == [];
    assert AfterEntries(MUTUAL, InOwner(), [RECORD]) == Some(record);
    assert AfterLinks(MUTUAL, InOwner(), 0, []) == Some(InOwner());
    assert AfterContents(MUTUAL, InOwner(), MUTUAL.nodes[OWNER]) == Some(record);
    t := Finished(record, OWNER);
  }

  /** The same graph and the same two linetypes: one order is refused, the other accepted. */
  lemma OrderDecides()
    ensures AfterLineTypes(MUTUAL, START, [AT_RECORD, AT_OWNER]).None?
    ensures AfterLineTypes(MUTUAL, START, [AT_OWNER, AT_RECORD]).Some?
  {
    RecordFirstFails();
    assert AfterReactors(MUTUAL, START, [RECORD]).None?;
    assert AfterLinks(MUTUAL, START, 0, [RECORD]).None?;
    var both := OwnerFirstSucceeds();
    assert [OWNER][1..] == [] && [RECORD][1..] == [];
    assert AfterReactors(MUTUAL, START, [OWNER]) == Some(both);
    assert AfterLinks(MUTUAL, START, 0, [OWNER]) == Some(both);
    assert AfterXRecord(MUTUAL, both, RECORD) == Some(both);
    assert AfterReactors(MUTUAL, both, [RECORD]) == Some(both);
    assert AfterLinks(MUTUAL, both, 0, [RECORD]) == Some(both);
    assert [AT_OWNER, AT_RECORD][1..] == [AT_RECORD] && [AT_RECORD][1..] == [];
    assert AfterLineTypes(MUTUAL, both, [AT_RECORD]) == Some(both);
  }

  // ---------------------------------------------------------------------------------------------
  // The sources and their index

  datatype Sources = Sources(
    lineTypes: seq<LineType>, dictionaries: seq<Dictionary>, xRecords: seq<XRecord>, evaluationGraphs: seq<u32>)

  function NonZero(handles: seq<u32>): seq<u32> {
    if handles == [] then []
    else NonZero(handles[..|handles| - 1])
         + (if handles[|handles| - 1] == 0 then [] else [handles[|handles| - 1]])
  }

  function LineHandles(src: Sources): seq<u32> {
    seq(|src.lineTypes|, i requires 0 <= i < |src.lineTypes| => src.lineTypes[i].handle)
  }

  function DictionaryHandles(src: Sources): seq<u32> {
    seq(|src.dictionaries|, i requires 0 <= i < |src.dictionaries| => src.dictionaries[i].handle)
  }

  function XRecordHandles(src: Sources): seq<u32> {
    seq(|src.xRecords|, i requires 0 <= i < |src.xRecords| => src.xRecords[i].handle)
  }

  /** Every handle that a source claims. */
  function Claimed(src: Sources): seq<u32> {
    NonZero(LineHandles(src)) + NonZero(DictionaryHandles(src)) + NonZero(XRecordHandles(src)) + src.evaluationGraphs
  }

  /** The graph of the sources: their objects by handle. */
  ghost predicate Indexes(g: Graph, src: Sources) {
    && (forall h :: h in g.linetypes <==> h != 0 && h in LineHandles(src))
    && (forall d :: d in src.dictionaries && d.handle != 0 ==>
          d.handle in g.nodes && g.nodes[d.handle] == InDictionary(d))
    && (forall r :: r in src.xRecords && r.handle != 0 ==> r.handle in g.nodes && g.nodes[r.handle] == InXRecord(r))
    && (forall h :: h in g.nodes ==> IsSource(g.nodes[h], h, src))
  }

  ghost predicate IsSource(node: Node, h: u32, src: Sources) {
    h != 0 && match node
              case InDictionary(d) => d in src.dictionaries && d.handle == h
              case InXRecord(r) => r in src.xRecords && r.handle == h
  }

  ghost predicate SetOf(s: set<u32>, handles: seq<u32>) {
    forall h :: h in s <==> h in handles
  }

  /** One of the source loops: every handle, but zero, must be new. */
  method ClaimAll(handles: seq<u32>, claimed: set<u32>, ghost before: seq<u32>)
    returns (ok: bool, claimed': set<u32>)
    requires SetOf(claimed, before) && Distinct(before)
    ensures ok <==> Distinct(before + NonZero(handles))
    ensures ok ==> SetOf(claimed', before + NonZero(handles))
  {
    claimed' := claimed;
    assert before + [] == before;
    for i := 0 to |handles|
      invariant Distinct(before + NonZero(handles[..i])) && SetOf(claimed', before + NonZero(handles[..i]))
    {
      assert handles[..i + 1][..i] == handles[..i];
      if handles[i] != 0 {
        ghost var done := before + NonZero(handles[..i]);
        assert before + NonZero(handles[..i + 1]) == done + [handles[i]];
        DistinctNext(done, handles[i]);
        if handles[i] in claimed' {
          NonZeroPrefix(handles, i + 1);
          RepeatsStay(before + NonZero(handles[..i]), handles[i], before + NonZero(handles));
          return false, claimed';
        }
        claimed' := claimed' + {handles[i]};
      } else {
        assert NonZero(handles[..i + 1]) == NonZero(handles[..i]);
      }
    }
    assert handles[..|handles|] == handles;
    ok := true;
  }

  lemma {:induction false} NonZeroPrefix(handles: seq<u32>, n: nat)
    requires n <= |handles|
    ensures NonZero(handles[..n]) <= NonZero(handles)
    decreases |handles|
  {
    if n < |handles| {
      NonZeroPrefix(handles[..|handles| - 1], n);
      assert handles[..|handles| - 1][..n] == handles[..n];
    } else {
      assert handles[..n] == handles;
    }
  }

  lemma RepeatsStay(s: seq<u32>, h: u32, whole: seq<u32>)
    requires h in s && s + [h] <= whole
    ensures !Distinct(whole)
  {
    var i :| 0 <= i < |s| && s[i] == h;
    assert whole[i] == (s + [h])[i] && whole[|s|] == (s + [h])[|s|];
  }

  /** Refuses two objects with one handle, and an evaluation graph without one. */
  method ClaimSources(src: Sources) returns (ok: bool)
    ensures ok <==> Distinct(Claimed(src)) && 0 !in src.evaluationGraphs
  {
    var lines, dictionaries, records :=
      NonZero(LineHandles(src)), NonZero(DictionaryHandles(src)), NonZero(XRecordHandles(src));
    var graphs := src.evaluationGraphs;
    assert Claimed(src) == lines + (dictionaries + (records + graphs)) == (lines + dictionaries) + (records + graphs)
           == (lines + dictionaries + records) + graphs;
    var claimed: set<u32>;
    ok, claimed := ClaimAll(LineHandles(src), {}, []);
    assert [] + lines == lines;
    if !ok {
      if Distinct(Claimed(src)) { DistinctPrefix(lines, dictionaries + (records + graphs)); }
      return;
    }
    ok, claimed := ClaimAll(DictionaryHandles(src), claimed, lines);
    if !ok {
      if Distinct(Claimed(src)) { DistinctPrefix(lines + dictionaries, records + graphs); }
      return;
    }
    ok, claimed := ClaimAll(XRecordHandles(src), claimed, lines + dictionaries);
    if !ok {
      if Distinct(Claimed(src)) { DistinctPrefix(lines + dictionaries + records, graphs); }
      return;
    }
    if 0 in graphs {
      return false;
    }
    NonZeroKeepsAll(graphs);
    ok, claimed := ClaimAll(graphs, claimed, lines + dictionaries + records);
  }

  lemma {:induction false} NonZeroKeepsAll(handles: seq<u32>)
    requires 0 !in handles
    ensures NonZero(handles) == handles
  {
    if handles == [] {
    } else {
      NonZeroKeepsAll(handles[..|handles| - 1]);
    }
  }

  lemma {:induction false} NonZeroHas(handles: seq<u32>, h: u32)
    ensures h in NonZero(handles) <==> h != 0 && h in handles
  {
    if handles == [] {
    } else {
      NonZeroHas(handles[..|handles| - 1], h);
      assert handles == handles[..|handles| - 1] + [handles[|handles| - 1]];
    }
  }

  lemma {:induction false} NonZeroApart(handles: seq<u32>, i: nat, j: nat)
    requires Distinct(NonZero(handles)) && i < j < |handles| && handles[i] != 0
    ensures handles[i] != handles[j]
    decreases |handles|
  {
    var n := |handles| - 1;
    if j == n {
      NonZeroHas(handles[..n], handles[i]);
      if handles[n] != 0 {
        DistinctPrefix(NonZero(handles[..n]), [handles[n]]);
        DistinctNext(NonZero(handles[..n]), handles[n]);
      }
    } else {
      NonZeroPrefix(handles, n);
      DistinctPrefix(NonZero(handles[..n]), NonZero(handles)[|NonZero(handles[..n])|..]);
      assert NonZero(handles) == NonZero(handles[..n]) + NonZero(handles)[|NonZero(handles[..n])|..];
      NonZeroApart(handles[..n], i, j);
    }
  }

  /** What the claims of all sources being distinct gives the two indexes. */
  ghost predicate Apart(src: Sources) {
    && (forall i, j :: 0 <= i < j < |src.dictionaries| && src.dictionaries[i].handle != 0 ==>
          src.dictionaries[i].handle != src.dictionaries[j].handle)
    && (forall i, j :: 0 <= i < j < |src.xRecords| && src.xRecords[i].handle != 0 ==>
          src.xRecords[i].handle != src.xRecords[j].handle)
    && (forall i, j :: 0 <= i < |src.dictionaries| && 0 <= j < |src.xRecords| && src.dictionaries[i].handle != 0 ==>
          src.dictionaries[i].handle != src.xRecords[j].handle)
  }

  lemma ClaimsAreApart(src: Sources)
    requires Distinct(Claimed(src))
    ensures Apart(src)
  {
    var lines, dictionaries, records :=
      NonZero(LineHandles(src)), NonZero(DictionaryHandles(src)), NonZero(XRecordHandles(src));
    DistinctPrefix(lines + dictionaries + records, src.evaluationGraphs);
    DistinctSuffix(lines + dictionaries, records);
    DistinctPrefix(lines + dictionaries, records);
    DistinctSuffix(lines, dictionaries);
    forall i, j | 0 <= i < j < |src.dictionaries| && src.dictionaries[i].handle != 0
      ensures src.dictionaries[i].handle != src.dictionaries[j].handle
    {
      NonZeroApart(DictionaryHandles(src), i, j);
    }
    forall i, j | 0 <= i < j < |src.xRecords| && src.xRecords[i].handle != 0
      ensures src.xRecords[i].handle != src.xRecords[j].handle
    {
      NonZeroApart(XRecordHandles(src), i, j);
    }
    forall i, j | 0 <= i < |src.dictionaries| && 0 <= j < |src.xRecords| && src.dictionaries[i].handle != 0
      ensures src.dictionaries[i].handle != src.xRecords[j].handle
    {
      NonZeroHas(DictionaryHandles(src), src.dictionaries[i].handle);
      NonZeroHas(XRecordHandles(src), src.xRecords[j].handle);
      assert DictionaryHandles(src)[i] == src.dictionaries[i].handle;
      assert XRecordHandles(src)[j] == src.xRecords[j].handle;
      assert src.dictionaries[i].handle in lines + dictionaries;
    }
  }

  method IndexObjects(src: Sources) returns (nodes: map<u32, Node>)
    requires Apart(src)
    ensures forall d :: d in src.dictionaries && d.handle != 0 ==>
              d.handle in nodes && nodes[d.handle] == InDictionary(d)
    ensures forall r :: r in src.xRecords && r.handle != 0 ==> r.handle in nodes && nodes[r.handle] == InXRecord(r)
    ensures forall h :: h in nodes ==> IsSource(nodes[h], h, src)
  {
    nodes := map[];
    for i := 0 to |src.dictionaries|
      invariant forall k :: 0 <= k < i && src.dictionaries[k].handle != 0 ==>
                  && src.dictionaries[k].handle in nodes
                  && nodes[src.dictionaries[k].handle] == InDictionary(src.dictionaries[k])
      invariant forall h :: h in nodes ==> IsSource(nodes[h], h, src) && nodes[h].InDictionary?
    {
      var d := src.dictionaries[i];
      if d.handle != 0 {
        nodes := nodes[d.handle := InDictionary(d)];
      }
    }
    for i := 0 to |src.xRecords|
      invariant forall k :: 0 <= k < |src.dictionaries| && src.dictionaries[k].handle != 0 ==>
                  && src.dictionaries[k].handle in nodes
                  && nodes[src.dictionaries[k].handle] == InDictionary(src.dictionaries[k])
      invariant forall k :: 0 <= k < i && src.xRecords[k].handle != 0 ==>
                  && src.xRecords[k].handle in nodes
                  && nodes[src.xRecords[k].handle] == InXRecord(src.xRecords[k])
      invariant forall h :: h in nodes ==> IsSource(nodes[h], h, src)
    {
      var r := src.xRecords[i];
      if r.handle != 0 {
        nodes := nodes[r.handle := InXRecord(r)];
      }
    }
  }

  method IndexSources(src: Sources) returns (ok: bool, g: Graph)
    ensures ok <==> Distinct(Claimed(src)) && 0 !in src.evaluationGraphs
    ensures ok ==> Indexes(g, src)
  {
    g := Graph(map[], {});
    ok := ClaimSources(src);
    if !ok {
      return;
    }
    ClaimsAreApart(src);
    var nodes := IndexObjects(src);
    var linetypes := set h | h in LineHandles(src) && h != 0;
    g := Graph(nodes, linetypes);
  }

  // ---------------------------------------------------------------------------------------------
  // The checks behind the walk

  /** A parent is none, one of the writer's dictionaries, a linetype or something on the lists. */
  ghost predicate HasParent(g: Graph, dictionaries: seq<u32>, xRecords: seq<u32>, parent: u32) {
    || parent == 0 || parent == NAMED_OBJECTS || parent == GROUPS
    || parent in g.linetypes || parent in dictionaries || parent in xRecords
  }

  predicate IsHandleCode(code: int) {
    320 <= code <= 369 || 390 <= code <= 399 || 480 <= code <= 481 || code == 5 || code == 105 || 1005 <= code <= 1009
  }

  predicate IsHexDigit(c: char) {
    '0' <= c <= '9' || 'A' <= c <= 'F' || 'a' <= c <= 'f'
  }

  function HexDigit(c: char): nat
    requires IsHexDigit(c)
  {
    if c <= '9' then c as int - '0' as int
    else if c <= 'F' then c as int - 'A' as int + 10
    else c as int - 'a' as int + 10
  }

  function HexValue(s: string): nat
    requires forall i :: 0 <= i < |s| ==> IsHexDigit(s[i])
  {
    if s == "" then 0 else HexValue(s[..|s| - 1]) * 16 + HexDigit(s[|s| - 1])
  }

  /** The whole text as a 64-bit hexadecimal number. */
  function ParseHex(s: string): Option<u64> {
    if s != "" && (forall i :: 0 <= i < |s| ==> IsHexDigit(s[i])) && HexValue(s) <= U64_MAX then Some(HexValue(s))
    else None
  }

  /** The handle in a typed value, if it holds one. */
  function TargetOf(content: Content): Option<u64> {
    match content
    case Integer(i) => if i < 0 then None else Some(i)
    case Integer64(i) => if 0 <= i <= U64_MAX then Some(i) else None
    case Text(s) => ParseHex(s)
    case Other => None
  }

  ghost predicate TargetMet(g: Graph, dictionaries: seq<u32>, xRecords: seq<u32>, target: u64) {
    target <= U32_MAX && (target == 0 || target in g.linetypes || target in dictionaries || target in xRecords)
  }

  ghost predicate ValueMet(g: Graph, dictionaries: seq<u32>, xRecords: seq<u32>, v: TypedValue) {
    IsHandleCode(v.code) ==>
      TargetOf(v.content).Some? && TargetMet(g, dictionaries, xRecords, TargetOf(v.content).value)
  }

  /** The handle values of a record: of its data entries if it has any, else of its values and handle values. */
  ghost predicate ValuesMet(g: Graph, dictionaries: seq<u32>, xRecords: seq<u32>, r: XRecord) {
    if r.dataEntries != [] then forall v :: v in r.dataEntries ==> ValueMet(g, dictionaries, xRecords, v)
    else
      && (forall v :: v in r.values ==> ValueMet(g, dictionaries, xRecords, v))
      && (forall v :: v in r.handleValues && IsHandleCode(v.code) ==> TargetMet(g, dictionaries, xRecords, v.target))
  }

  method CheckTyped(g: Graph, dictionaries: seq<u32>, xRecords: seq<u32>, met: set<u32>, vs: seq<TypedValue>)
    returns (ok: bool)
    requires forall h :: h in met <==> h in g.linetypes || h in dictionaries || h in xRecords
    ensures ok <==> forall v :: v in vs ==> ValueMet(g, dictionaries, xRecords, v)
  {
    for i := 0 to |vs|
      invariant forall k :: 0 <= k < i ==> ValueMet(g, dictionaries, xRecords, vs[k])
    {
      if IsHandleCode(vs[i].code) {
        var target := TargetOf(vs[i].content);
        if target.None? || target.value > U32_MAX || !(target.value == 0 || target.value in met) {
          assert !ValueMet(g, dictionaries, xRecords, vs[i]);
          return false;
        }
      }
    }
    return true;
  }

  method CheckRecord(g: Graph, dictionaries: seq<u32>, xRecords: seq<u32>, met: set<u32>, r: XRecord)
    returns (ok: bool)
    requires forall h :: h in met <==> h in g.linetypes || h in dictionaries || h in xRecords
    ensures ok <==> ValuesMet(g, dictionaries, xRecords, r)
  {
    if r.dataEntries != [] {
      ok := CheckTyped(g, dictionaries, xRecords, met, r.dataEntries);
      return;
    }
    ok := CheckTyped(g, dictionaries, xRecords, met, r.values);
    if !ok {
      return;
    }
    for i := 0 to |r.handleValues|
      invariant forall k :: 0 <= k < i && IsHandleCode(r.handleValues[k].code) ==>
                  TargetMet(g, dictionaries, xRecords, r.handleValues[k].target)
    {
      var v := r.handleValues[i];
      if IsHandleCode(v.code) && (v.target > U32_MAX || !(v.target == 0 || v.target in met)) {
        assert !TargetMet(g, dictionaries, xRecords, v.target);
        return false;
      }
    }
    return true;
  }

  /** What the checks behind the walk establish. */
  ghost predicate AllAnchored(g: Graph, dictionaries: seq<u32>, xRecords: seq<u32>) {
    && (forall h :: (h in dictionaries || h in xRecords) && h in g.nodes ==>
          HasParent(g, dictionaries, xRecords, g.nodes[h].Parent()))
    && (forall h :: h in xRecords && h in g.nodes && g.nodes[h].InXRecord? ==>
          ValuesMet(g, dictionaries, xRecords, g.nodes[h].r))
  }

  method CheckAnchors(g: Graph, dictionaries: seq<u32>, xRecords: seq<u32>) returns (ok: bool)
    requires forall h :: h in dictionaries ==> h in g.nodes
    requires forall h :: h in xRecords ==> h in g.nodes && g.nodes[h].InXRecord?
    ensures ok <==> AllAnchored(g, dictionaries, xRecords)
  {
    var met := g.linetypes + (set h | h in dictionaries) + (set h | h in xRecords);
    for i := 0 to |dictionaries|
      invariant forall k :: 0 <= k < i ==> HasParent(g, dictionaries, xRecords, g.nodes[dictionaries[k]].Parent())
    {
      var parent := g.nodes[dictionaries[i]].Parent();
      if !(parent == 0 || parent == NAMED_OBJECTS || parent == GROUPS || parent in met) {
        return false;
      }
    }
    for i := 0 to |xRecords|
      invariant forall k :: 0 <= k < i ==>
                  && HasParent(g, dictionaries, xRecords, g.nodes[xRecords[k]].Parent())
                  && ValuesMet(g, dictionaries, xRecords, g.nodes[xRecords[k]].r)
    {
      var parent := g.nodes[xRecords[i]].Parent();
      if !(parent == 0 || parent == NAMED_OBJECTS || parent == GROUPS || parent in met) {
        return false;
      }
      ok := CheckRecord(g, dictionaries, xRecords, met, g.nodes[xRecords[i]].r);
      if !ok {
        return;
      }
    }
    return true;
  }

  /** No handle is claimed twice, and no evaluation graph is without one. */
  ghost predicate WellClaimed(src: Sources) {
    Distinct(Claimed(src)) && 0 !in src.evaluationGraphs
  }

  /** What an accepted preflight guarantees: the lists hold exactly what is reachable, containment among it is
      ordered, and every parent and handle value points at something known. */
  ghost predicate Prepared(g: Graph, src: Sources, s: State) {
    && Complete(g, src.lineTypes, s)
    && Ordered(g, s.finished) && Distinct(s.finished)
    && (forall h :: h in s.finished <==> h in s.dictionaries || h in s.xRecords)
    && RootsFit(g, src.lineTypes) && AllAnchored(g, s.dictionaries, s.xRecords)
  }

  /** Accepted exactly if the handles are well claimed, the walk succeeds and its lists are anchored. The walk
      succeeds on every graph that is not broken; where no back-reference is followed, on no other. */
  method PrepareExtensionObjectGraph(src: Option<Sources>)
    returns (ok: bool, dictionaries: seq<u32>, xRecords: seq<u32>, g: Graph, ghost finished: seq<u32>)
    ensures src.Some? && WellClaimed(src.value) ==> Indexes(g, src.value)
    ensures ok ==> src.Some? && WellClaimed(src.value)
    ensures ok ==> Prepared(g, src.value, State({}, finished, dictionaries, xRecords))
    ensures src.Some? && WellClaimed(src.value) ==>
              var walked := AfterLineTypes(g, START, src.value.lineTypes);
              && (walked.Some? ==> walked == Some(State({}, finished, dictionaries, xRecords)))
              && (ok <==> walked.Some? && AllAnchored(g, dictionaries, xRecords))
              && (!Broken(g, src.value.lineTypes) && RootsFit(g, src.value.lineTypes) ==> walked.Some?)
              && (FollowsNothing(g) ==>
                    (walked.Some? <==> !Broken(g, src.value.lineTypes) && RootsFit(g, src.value.lineTypes)))
  {
    dictionaries, xRecords, finished := [], [], [];
    g := Graph(map[], {});
    if src.None? {
      return false, dictionaries, xRecords, g, finished;
    }
    ok, g := IndexSources(src.value);
    if !ok {
      return;
    }
    var walk := new ExtensionWalk(g, src.value.lineTypes);
    ok := walk.VisitLineTypes(src.value.lineTypes);
    dictionaries, xRecords, finished := walk.dictionaryHandles, walk.xRecordHandles, walk.finished;
    if !ok {
      return;
    }
    WalkIsComplete(g, src.value.lineTypes, walk.Now());
    if FollowsNothing(g) {
      ReactorFreeWalkIsExact(g, src.value.lineTypes, walk.Now());
    }
    ok := CheckAnchors(g, dictionaries, xRecords);
  }
}
