/** The proxy-history closures of ACIS modelers: three linked proxies each, disjoint between modelers, and
    together all proxies of the drawing. */
module ProxyHistory {
  import opened Words
  import opened Lists
  import opened Handles
  import opened ProxyObjects

  datatype ClassEntry = ClassEntry(
    recordName: string, className: string, classNumber: u16, published: bool, entityFlag: u16)

  datatype Kind = Solid | Region | OtherKind

  /** An entity as far as the closure looks at it. */
  datatype Entity = Entity(handle: u32, kind: Kind, carriesStorage: bool, history: u32)

  /** The blocks are given in the order in which they are looked at, the main block first. */
  datatype Drawing = Drawing(
    hasStorage: bool, blocks: seq<seq<Entity>>, coverageComplete: bool, classes: seq<ClassEntry>,
    proxies: seq<Proxy>, materials: seq<u32>)

  // ---------------------------------------------------------------------------------------------
  // Source classes

  datatype ProxyClass = ProxyClass(recordName: string, className: string, subclass: string)

  const HISTORY: ProxyClass := ProxyClass("ACSH_HISTORY_CLASS", "AcDbShHistory", "cn:AcDbShHistory")
  const GRAPH: ProxyClass := ProxyClass("ACAD_EVALUATION_GRAPH", "AcDbEvalGraph", "cn:AcDbEvalGraph")
  const CONE: ProxyClass := ProxyClass("ACSH_CONE_CLASS", "AcDbShCone", "cn:AcDbShCone")
  const BOX: ProxyClass := ProxyClass("ACSH_BOX_CLASS", "AcDbShBox", "cn:AcDbShBox")
  const EXTRUSION: ProxyClass := ProxyClass("ACSH_EXTRUSION_CLASS", "AcDbShExtrusion", "cn:AcDbShExtrusion")

  function ClassForSubclass(subclass: string): (c: Option<ProxyClass>)
    ensures c.Some? ==> c.value.subclass == subclass
  {
    if subclass == HISTORY.subclass then Some(HISTORY)
    else if subclass == GRAPH.subclass then Some(GRAPH)
    else if subclass == CONE.subclass then Some(CONE)
    else if subclass == BOX.subclass then Some(BOX)
    else if subclass == EXTRUSION.subclass then Some(EXTRUSION)
    else None
  }

  predicate Names(e: ClassEntry, c: ProxyClass) {
    e.recordName == c.recordName && e.className == c.className
  }

  predicate Qualified(e: ClassEntry) {
    e.published && e.entityFlag == 0x1F3 && e.classNumber >= 500
  }

  datatype Found = Unseen | Number(n: u16) | Ambiguous

  /** The class number of the one qualified entry of a class; ambiguous after a second or an unqualified one. */
  function FindClass(entries: seq<ClassEntry>, c: ProxyClass): Found {
    if entries == [] then Unseen
    else
      var before, e := FindClass(entries[..|entries| - 1], c), entries[|entries| - 1];
      if !Names(e, c) then before
      else if before.Unseen? && Qualified(e) then Number(e.classNumber)
      else Ambiguous
  }

  /** The number belongs to the only entry of the class, and that entry is qualified. */
  lemma {:induction false} FoundClassIsUnique(entries: seq<ClassEntry>, c: ProxyClass) returns (i: nat)
    requires FindClass(entries, c).Number?
    ensures i < |entries| && Names(entries[i], c) && Qualified(entries[i])
    ensures FindClass(entries, c).n == entries[i].classNumber
    ensures forall k :: 0 <= k < |entries| && Names(entries[k], c) ==> k == i
  {
    var n := |entries| - 1;
    if Names(entries[n], c) {
      i := n;
      UnseenNamesNothing(entries[..n], c);
      assert forall k :: 0 <= k < n ==> entries[..n][k] == entries[k];
    } else {
      i := FoundClassIsUnique(entries[..n], c);
      assert forall k :: 0 <= k < n ==> entries[..n][k] == entries[k];
    }
  }

  lemma {:induction false} UnseenNamesNothing(entries: seq<ClassEntry>, c: ProxyClass)
    ensures FindClass(entries, c).Unseen? <==> forall k :: 0 <= k < |entries| ==> !Names(entries[k], c)
  {
    if entries == [] {
    } else {
      var n := |entries| - 1;
      UnseenNamesNothing(entries[..n], c);
      assert forall k :: 0 <= k < n ==> entries[..n][k] == entries[k];
    }
  }

  method SourceClassId(entries: seq<ClassEntry>, c: ProxyClass) returns (id: Option<u16>)
    ensures id == match FindClass(entries, c) case Number(n) => Some(n) case _ => None
  {
    var found: Option<u16> := None;
    for i := 0 to |entries|
      invariant FindClass(entries[..i], c) == if found.None? then Unseen else Number(found.value)
    {
      assert entries[..i + 1][..i] == entries[..i];
      if Names(entries[i], c) {
        if found.Some? || !Qualified(entries[i]) {
          AmbiguousStays(entries, c, i + 1);
          return None;
        }
        found := Some(entries[i].classNumber);
      }
    }
    assert entries[..|entries|] == entries;
    return found;
  }

  lemma {:induction false} AmbiguousStays(entries: seq<ClassEntry>, c: ProxyClass, n: nat)
    requires n <= |entries| && FindClass(entries[..n], c).Ambiguous?
    ensures FindClass(entries, c).Ambiguous?
    decreases |entries|
  {
    if n < |entries| {
      assert entries[..|entries| - 1][..n] == entries[..n];
      AmbiguousStays(entries[..|entries| - 1], c, n);
    } else {
      assert entries[..n] == entries;
    }
  }

  // ---------------------------------------------------------------------------------------------
  // One closure

  const PROXY_HANDLE: Proxy -> u32 := (p: Proxy) => p.handle

  ghost function HandlesOf(proxies: seq<Proxy>): (hs: seq<u32>)
    ensures |hs| == |proxies|
  {
    Keys(proxies, PROXY_HANDLE)
  }

  /** A proxy of the drawing, of the class, with exactly one reference. */
  ghost predicate Fits(d: Drawing, p: Proxy, c: ProxyClass, owner: u32) {
    && p in d.proxies && p.parent == owner && p.subclass == c.subclass && |p.refs| == 1 && Emittable(p)
    && FindClass(d.classes, c).Number? && p.classId == Some(FindClass(d.classes, c).n)
  }

  /** The first links: the history owns the graph, which owns the shape. */
  ghost predicate Linked(d: Drawing, history: u32, owner: u32, chain: seq<Proxy>) {
    && |chain| <= 3
    && (|chain| > 0 ==> chain[0].handle == history && Fits(d, chain[0], HISTORY, owner))
    && (|chain| > 1 ==> chain[0].refs == [Reference(360, chain[1].handle)] && Fits(d, chain[1], GRAPH, chain[0].handle))
    && (|chain| > 2 ==>
          && chain[1].refs == [Reference(360, chain[2].handle)]
          && IsShape(d, chain[2], chain[1].handle))
  }

  /** The last proxy: of a supported class with a number that is neither the history's nor the graph's. */
  ghost predicate IsShape(d: Drawing, p: Proxy, owner: u32) {
    && ClassForSubclass(p.subclass).Some? && Fits(d, p, ClassForSubclass(p.subclass).value, owner)
    && FindClass(d.classes, ClassForSubclass(p.subclass).value) != FindClass(d.classes, HISTORY)
    && FindClass(d.classes, ClassForSubclass(p.subclass).value) != FindClass(d.classes, GRAPH)
  }

  function Occurrences(s: seq<u32>, x: u32): nat {
    if s == [] then 0 else Occurrences(s[..|s| - 1], x) + (if s[|s| - 1] == x then 1 else 0)
  }

  /** Three linked proxies, the last of which names one material and no proxy. */
  ghost predicate Closure(d: Drawing, m: Entity, chain: seq<Proxy>) {
    |chain| == 3 && Linked(d, m.history, m.handle, chain) && NamesMaterial(d, chain[2])
  }

  ghost predicate NamesMaterial(d: Drawing, p: Proxy) {
    && |p.refs| == 1 && p.refs[0].code == 340 && 0 < p.refs[0].handle <= U32_MAX
    && p.refs[0].handle !in HandlesOf(d.proxies) && Occurrences(d.materials, p.refs[0].handle) == 1
  }

  ghost predicate NoClosure(d: Drawing, m: Entity) {
    forall c :: !Closure(d, m, c)
  }

  ghost function RawsOf(chain: seq<Proxy>): (raws: seq<RawObject>)
    requires forall i :: 0 <= i < |chain| ==> Emittable(chain[i]) && chain[i].classId.Some?
    ensures |raws| == |chain|
  {
    seq(|chain|, i requires 0 <= i < |chain| => Raw(chain[i], chain[i].classId.value))
  }

  method CountMaterials(materials: seq<u32>, target: u32) returns (n: nat)
    ensures n == Occurrences(materials, target)
  {
    n := 0;
    for i := 0 to |materials|
      invariant n == Occurrences(materials[..i], target)
    {
      assert materials[..i + 1][..i] == materials[..i];
      if materials[i] == target {
        n := n + 1;
      }
    }
    assert materials[..|materials|] == materials;
  }

  /** What the proxy at a depth must be. */
  ghost predicate FitsAt(d: Drawing, p: Proxy, depth: nat, owner: u32) {
    if depth == 0 then Fits(d, p, HISTORY, owner)
    else if depth == 1 then Fits(d, p, GRAPH, owner)
    else IsShape(d, p, owner)
  }

  /** One proxy of the closure at its depth, checked and made raw. */
  method CheckProxy(d: Drawing, p: Proxy, depth: nat, owner: u32, historyId: u16, graphId: u16)
    returns (raw: Option<RawObject>)
    requires depth < 3 && p in d.proxies && p.parent == owner
    requires FindClass(d.classes, HISTORY) == Number(historyId) && FindClass(d.classes, GRAPH) == Number(graphId)
    ensures raw.Some? <==> FitsAt(d, p, depth, owner)
    ensures raw.Some? ==> p.classId.Some? && Emittable(p) && raw.value == Raw(p, p.classId.value)
  {
    var expected :=
      if depth == 0 then Some(HISTORY) else if depth == 1 then Some(GRAPH) else ClassForSubclass(p.subclass);
    if expected.None? || p.classId.None? {
      return None;
    }
    var id := SourceClassId(d.classes, expected.value);
    if id.None? || (depth == 2 && (id.value == historyId || id.value == graphId))
       || p.classId.value != id.value || p.subclass != expected.value.subclass || |p.refs| != 1 {
      return None;
    }
    raw := MakeRawProxyObject(p, p.classId.value);
  }

  /** The next object: the history itself, or what the last proxy's only reference names. */
  ghost predicate Next(m: Entity, chain: seq<Proxy>, next: (u32, u32)) {
    if chain == [] then next == (m.history, m.handle)
    else
      var last := chain[|chain| - 1];
      |chain| < 3 && last.refs == [Reference(360, next.0)] && next.1 == last.handle
  }

  /** Every closure of the modeler starts with the chain. */
  ghost predicate Forced(d: Drawing, m: Entity, chain: seq<Proxy>) {
    forall c :: Closure(d, m, c) ==> chain <= c
  }

  /** The next object of every closure is the one that the chain names. */
  lemma ClosureContinues(d: Drawing, m: Entity, chain: seq<Proxy>, c: seq<Proxy>, next: (u32, u32))
    requires Closure(d, m, c) && chain <= c && |chain| < 3 && Next(m, chain, next)
    ensures c[|chain|].handle == next.0 && FitsAt(d, c[|chain|], |chain|, next.1)
  {
    assert chain != [] ==> chain[|chain| - 1] == c[|chain| - 1];
  }

  lemma NextIsNew(d: Drawing, m: Entity, chain: seq<Proxy>, c: seq<Proxy>)
    requires Keyed(d.proxies, PROXY_HANDLE) && Closure(d, m, c) && chain <= c && |chain| < 3
    ensures c[|chain|].handle !in HandlesOf(chain)
  {
    ClosureIsDistinct(d, m, c);
    forall i | 0 <= i < |chain| ensures HandlesOf(chain)[i] != c[|chain|].handle {
      assert HandlesOf(c)[i] == chain[i].handle && HandlesOf(c)[|chain|] == c[|chain|].handle;
    }
  }

  /** So a handle that the chain met already ends the search. */
  lemma RepeatedHandle(d: Drawing, m: Entity, chain: seq<Proxy>, next: (u32, u32))
    requires Keyed(d.proxies, PROXY_HANDLE) && Forced(d, m, chain) && |chain| < 3 && Next(m, chain, next)
    requires next.0 in HandlesOf(chain)
    ensures NoClosure(d, m)
  {
    forall c ensures !Closure(d, m, c) {
      if Closure(d, m, c) {
        ClosureContinues(d, m, chain, c, next);
        NextIsNew(d, m, chain, c);
      }
    }
  }

  /** The proxy that was found is the next of every closure, so if it does not fit there is none. */
  lemma FoundIsForced(d: Drawing, m: Entity, chain: seq<Proxy>, next: (u32, u32), p: Proxy)
    requires Keyed(d.proxies, PROXY_HANDLE) && Forced(d, m, chain) && |chain| < 3 && Next(m, chain, next)
    requires p in d.proxies && p.handle == next.0
    ensures Forced(d, m, chain + [p])
    ensures !FitsAt(d, p, |chain|, next.1) ==> NoClosure(d, m)
  {
    forall c | Closure(d, m, c) ensures chain + [p] <= c && FitsAt(d, p, |chain|, next.1) {
      ClosureContinues(d, m, chain, c, next);
      SameKeySameItem(d.proxies, PROXY_HANDLE, p, c[|chain|]);
    }
  }

  lemma MissingIsForced(d: Drawing, m: Entity, chain: seq<Proxy>, next: (u32, u32))
    requires Forced(d, m, chain) && |chain| < 3 && Next(m, chain, next)
    requires next.0 !in HandlesOf(d.proxies)
    ensures NoClosure(d, m)
  {
    forall c ensures !Closure(d, m, c) {
      if Closure(d, m, c) {
        ClosureContinues(d, m, chain, c, next);
        KeyOfMember(d.proxies, PROXY_HANDLE, c[|chain|]);
      }
    }
  }

  /** What follows a checked proxy: another object to visit, or the material at the end. */
  datatype Step = Refused | Visit(target: u32) | End(material: u32)

  /** The only reference of a fitting proxy; refused exactly if no closure follows it. */
  method FollowReference(d: Drawing, m: Entity, p: Proxy, byHandle: map<u32, Proxy>, depth: nat,
                         ghost chain: seq<Proxy>)
    returns (step: Step)
    requires Index(byHandle, d.proxies, PROXY_HANDLE) && Keyed(d.proxies, PROXY_HANDLE)
    requires depth == |chain| < 3 && |p.refs| == 1
    requires Linked(d, m.history, m.handle, chain + [p]) && Forced(d, m, chain + [p])
    ensures step.Visit? ==> |chain + [p]| < 3 && Next(m, chain + [p], (step.target, p.handle))
    ensures step.End? ==> Closure(d, m, chain + [p]) && p.refs[0].handle == step.material
    ensures step.Refused? ==> NoClosure(d, m)
  {
    var reference := p.refs[0];
    if depth < 2 {
      if reference.handle == 0 || reference.handle > U32_MAX || reference.code != 360 || reference.handle !in byHandle {
        NothingFollows(d, m, chain, p);
        return Refused;
      }
      return Visit(reference.handle);
    }
    if reference.handle == 0 || reference.handle > U32_MAX || reference.code != 340 || reference.handle in byHandle {
      NothingFollows(d, m, chain, p);
      return Refused;
    }
    var matches := CountMaterials(d.materials, reference.handle);
    if matches != 1 {
      NothingFollows(d, m, chain, p);
      return Refused;
    }
    return End(reference.handle);
  }

  lemma NothingFollows(d: Drawing, m: Entity, chain: seq<Proxy>, p: Proxy)
    requires Keyed(d.proxies, PROXY_HANDLE) && |chain| < 3 && |p.refs| == 1 && Forced(d, m, chain + [p])
    requires |chain| < 2 ==>
               p.refs[0].handle == 0 || p.refs[0].code != 360 || p.refs[0].handle > U32_MAX
               || p.refs[0].handle !in HandlesOf(d.proxies)
    requires |chain| == 2 ==> !NamesMaterial(d, p)
    ensures NoClosure(d, m)
  {
    forall c ensures !Closure(d, m, c) {
      if Closure(d, m, c) {
        assert c[|chain|] == (chain + [p])[|chain|] == p;
        if |chain| < 2 {
          KeyOfMember(d.proxies, PROXY_HANDLE, c[|chain| + 1]);
        }
      }
    }
  }

  /** One visit: the proxy is looked up, checked, made raw, and its only reference followed. */
  method VisitProxy(d: Drawing, m: Entity, handle: u32, owner: u32, historyId: u16, graphId: u16,
                    byHandle: map<u32, Proxy>, depth: nat, ghost chain: seq<Proxy>)
    returns (step: Step, raw: Option<RawObject>, ghost p: Option<Proxy>)
    requires FindClass(d.classes, HISTORY) == Number(historyId) && FindClass(d.classes, GRAPH) == Number(graphId)
    requires Index(byHandle, d.proxies, PROXY_HANDLE) && Keyed(d.proxies, PROXY_HANDLE)
    requires depth == |chain| < 3 && Linked(d, m.history, m.handle, chain) && Next(m, chain, (handle, owner))
    requires Forced(d, m, chain)
    ensures step.Refused? ==> NoClosure(d, m)
    ensures !step.Refused? ==> raw.Some? && p.Some? && Emittable(p.value) && p.value.classId.Some?
                               && raw.value == Raw(p.value, p.value.classId.value) && p.value.handle == handle
    ensures !step.Refused? ==> Linked(d, m.history, m.handle, chain + [p.value]) && Forced(d, m, chain + [p.value])
    ensures step.Visit? ==> |chain| < 2 && Next(m, chain + [p.value], (step.target, handle))
    ensures step.End? ==> Closure(d, m, chain + [p.value]) && p.value.refs[0].handle == step.material
  {
    if handle !in byHandle {
      MissingIsForced(d, m, chain, (handle, owner));
      return Refused, None, None;
    }
    var found := byHandle[handle];
    FoundIsForced(d, m, chain, (handle, owner), found);
    if found.parent != owner {
      return Refused, None, None;
    }
    raw := CheckProxy(d, found, depth, owner, historyId, graphId);
    if raw.None? {
      return Refused, raw, None;
    }
    p := Some(found);
    ChainGrows(d, m, chain, found, owner);
    step := FollowReference(d, m, found, byHandle, depth, chain);
  }

  lemma ChainGrows(d: Drawing, m: Entity, chain: seq<Proxy>, p: Proxy, owner: u32)
    requires |chain| < 3 && Linked(d, m.history, m.handle, chain) && Next(m, chain, (p.handle, owner))
    requires FitsAt(d, p, |chain|, owner)
    ensures Linked(d, m.history, m.handle, chain + [p])
  {
  }

  /** The raw objects of a growing chain. */
  ghost predicate Appended(objects: seq<RawObject>, objects': seq<RawObject>, chain: seq<Proxy>) {
    && (forall i :: 0 <= i < |chain| ==> Emittable(chain[i]) && chain[i].classId.Some?)
    && objects' == objects + RawsOf(chain)
  }

  lemma AppendedNext(objects: seq<RawObject>, objects': seq<RawObject>, chain: seq<Proxy>, p: Proxy)
    requires Appended(objects, objects', chain) && Emittable(p) && p.classId.Some?
    ensures Appended(objects, objects' + [Raw(p, p.classId.value)], chain + [p])
  {
    assert RawsOf(chain + [p]) == RawsOf(chain) + [Raw(p, p.classId.value)];
  }

  /** Where the search stands: what it has found, what comes next, and what is settled. */
  ghost predicate Searching(d: Drawing, m: Entity, chain: seq<Proxy>, pending: seq<(u32, u32)>, visited: set<u32>) {
    && |chain| <= 3 && Linked(d, m.history, m.handle, chain) && Forced(d, m, chain)
    && visited == Elements(HandlesOf(chain))
    && (|chain| == 3 ==> pending == [] && Closure(d, m, chain))
    && (pending != [] ==> |pending| == 1 && Next(m, chain, pending[0]))
    && (pending == [] && |chain| < 3 ==> NoClosure(d, m))
  }

  lemma SearchVisits(d: Drawing, m: Entity, chain: seq<Proxy>, p: Proxy, target: u32, visited: set<u32>)
    requires visited == Elements(HandlesOf(chain)) && |chain| < 2
    requires Linked(d, m.history, m.handle, chain + [p]) && Forced(d, m, chain + [p])
    requires Next(m, chain + [p], (target, p.handle))
    ensures Searching(d, m, chain + [p], [(target, p.handle)], visited + {p.handle})
  {
    assert HandlesOf(chain + [p]) == HandlesOf(chain) + [p.handle];
  }

  lemma SearchEnds(d: Drawing, m: Entity, chain: seq<Proxy>, p: Proxy, visited: set<u32>)
    requires visited == Elements(HandlesOf(chain)) && |chain| == 2
    requires Closure(d, m, chain + [p]) && Forced(d, m, chain + [p])
    ensures Searching(d, m, chain + [p], [], visited + {p.handle})
  {
    assert HandlesOf(chain + [p]) == HandlesOf(chain) + [p.handle];
  }

  /** The material is noted once the chain is complete. */
  ghost predicate Noted(before: seq<u32>, now: seq<u32>, chain: seq<Proxy>) {
    now == if |chain| == 3 && |chain[2].refs| == 1 && chain[2].refs[0].handle <= U32_MAX
           then AddOnce(before, chain[2].refs[0].handle) else before
  }

  /** One turn of the worklist loop behind the checks of owner and repetition. */
  method SearchNext(d: Drawing, m: Entity, historyId: u16, graphId: u16, byHandle: map<u32, Proxy>,
                    handle: u32, owner: u32, visited: set<u32>, depth: nat, objects: seq<RawObject>,
                    materials: seq<u32>, ghost chain: seq<Proxy>, ghost start: seq<RawObject>, ghost first: seq<u32>)
    returns (ok: bool, pending: seq<(u32, u32)>, objects': seq<RawObject>, materials': seq<u32>,
             ghost chain': seq<Proxy>)
    requires FindClass(d.classes, HISTORY) == Number(historyId) && FindClass(d.classes, GRAPH) == Number(graphId)
    requires Index(byHandle, d.proxies, PROXY_HANDLE) && Keyed(d.proxies, PROXY_HANDLE)
    requires Searching(d, m, chain, [(handle, owner)], visited) && Appended(start, objects, chain)
    requires depth == |chain| && Noted(first, materials, chain)
    ensures ok ==> Searching(d, m, chain', pending, visited + {handle}) && Appended(start, objects', chain')
    ensures ok ==> |chain'| == |chain| + 1 && Noted(first, materials', chain')
    ensures !ok ==> NoClosure(d, m)
  {
    pending, objects', materials', chain' := [], objects, materials, chain;
    var step, raw;
    ghost var p;
    step, raw, p := VisitProxy(d, m, handle, owner, historyId, graphId, byHandle, depth, chain);
    if step.Refused? {
      return false, pending, objects', materials', chain';
    }
    AppendedNext(start, objects, chain, p.value);
    if step.Visit? {
      SearchVisits(d, m, chain, p.value, step.target, visited);
      pending := [(step.target, handle)];
    } else {
      SearchEnds(d, m, chain, p.value, visited);
      materials' := AddOnce(materials, step.material);
    }
    ok, objects', chain' := true, objects + [raw.value], chain + [p.value];
  }

  lemma SearchRepeats(d: Drawing, m: Entity, chain: seq<Proxy>, handle: u32, owner: u32, visited: set<u32>)
    requires Searching(d, m, chain, [(handle, owner)], visited) && Keyed(d.proxies, PROXY_HANDLE)
    requires handle in visited
    ensures NoClosure(d, m) && Searching(d, m, chain, [], visited)
  {
    RepeatedHandle(d, m, chain, (handle, owner));
  }

  /** One turn of the worklist loop: its one entry is the next object and the owner that it must have. */
  method SearchTurn(d: Drawing, m: Entity, historyId: u16, graphId: u16, byHandle: map<u32, Proxy>,
                    handle: u32, owner: u32, visited: set<u32>, expectedOwner: map<u32, u32>, depth: nat,
                    objects: seq<RawObject>, materials: seq<u32>,
                    ghost chain: seq<Proxy>, ghost start: seq<RawObject>, ghost first: seq<u32>)
    returns (ok: bool, pending: seq<(u32, u32)>, visited': set<u32>, expectedOwner': map<u32, u32>,
             objects': seq<RawObject>, materials': seq<u32>, ghost chain': seq<Proxy>)
    requires FindClass(d.classes, HISTORY) == Number(historyId) && FindClass(d.classes, GRAPH) == Number(graphId)
    requires Index(byHandle, d.proxies, PROXY_HANDLE) && Keyed(d.proxies, PROXY_HANDLE)
    requires Searching(d, m, chain, [(handle, owner)], visited) && Appended(start, objects, chain)
    requires depth == |chain| && Noted(first, materials, chain) && expectedOwner.Keys == visited
    ensures ok ==> Searching(d, m, chain', pending, visited') && Appended(start, objects', chain')
    ensures ok ==> Noted(first, materials', chain') && expectedOwner'.Keys == visited'
    ensures ok ==> |chain'| == |chain| + 1 || (chain' == chain && pending == [])
    ensures !ok ==> NoClosure(d, m)
  {
    pending, visited', expectedOwner' := [], visited, expectedOwner;
    objects', materials', chain' := objects, materials, chain;
    if depth >= 3 {
      assert false;
    }
    if handle in visited {
      SearchRepeats(d, m, chain, handle, owner, visited);
    }
    if handle in expectedOwner && expectedOwner[handle] != owner {
      return false, pending, visited', expectedOwner', objects', materials', chain';
    }
    expectedOwner' := expectedOwner[handle := owner];
    if handle in visited {
      ok := true;
      return;
    }
    visited' := visited + {handle};
    ok, pending, objects', materials', chain' :=
      SearchNext(d, m, historyId, graphId, byHandle, handle, owner, visited, depth, objects, materials, chain, start,
                 first);
  }

  lemma SearchBegins(d: Drawing, m: Entity, objects: seq<RawObject>)
    ensures Searching(d, m, [], [(m.history, m.handle)], {}) && Appended(objects, objects, [])
  {
    assert objects + [] == objects;
  }

  /** The worklist is empty: either the closure is found or there is none. */
  lemma SearchIsOver(d: Drawing, m: Entity, chain: seq<Proxy>, visited: set<u32>, before: seq<u32>, now: seq<u32>)
    requires Searching(d, m, chain, [], visited) && Noted(before, now, chain)
    ensures |chain| == 3 ==> Closure(d, m, chain) && now == AddOnce(before, chain[2].refs[0].handle)
    ensures |chain| != 3 ==> NoClosure(d, m)
  {
  }

  /** The worklist loop. */
  method WalkGraph(d: Drawing, m: Entity, historyId: u16, graphId: u16, byHandle: map<u32, Proxy>,
                   objects: seq<RawObject>, materials: seq<u32>)
    returns (ok: bool, objects': seq<RawObject>, materials': seq<u32>, ghost chain: seq<Proxy>)
    requires FindClass(d.classes, HISTORY) == Number(historyId) && FindClass(d.classes, GRAPH) == Number(graphId)
    requires Index(byHandle, d.proxies, PROXY_HANDLE) && Keyed(d.proxies, PROXY_HANDLE)
    ensures ok ==> Closure(d, m, chain) && Appended(objects, objects', chain)
    ensures ok ==> materials' == AddOnce(materials, chain[2].refs[0].handle)
    ensures !ok ==> NoClosure(d, m)
  {
    objects', materials', chain := objects, materials, [];
    SearchBegins(d, m, objects);
    var pending: seq<(u32, u32)> := [(m.history, m.handle)];
    var visited: set<u32> := {};
    var expectedOwner: map<u32, u32> := map[];
    while pending != []
      invariant Searching(d, m, chain, pending, visited) && Appended(objects, objects', chain)
      invariant Noted(materials, materials', chain) && expectedOwner.Keys == visited
      decreases 3 - |chain|, |pending|
    {
      var (handle, owner) := pending[|pending| - 1];
      assert pending == [(handle, owner)];
      ok, pending, visited, expectedOwner, objects', materials', chain :=
        SearchTurn(d, m, historyId, graphId, byHandle, handle, owner, visited, expectedOwner, |objects'| - |objects|,
                   objects', materials', chain, objects, materials);
      if !ok {
        return;
      }
    }
    SearchIsOver(d, m, chain, visited, materials, materials');
    ok := |objects'| - |objects| == 3;
  }

  /** What the drawing must be for any closure to be looked for. */
  ghost predicate GraphReady(d: Drawing) {
    && d.coverageComplete && Keyed(d.proxies, PROXY_HANDLE)
    && FindClass(d.classes, HISTORY).Number? && FindClass(d.classes, GRAPH).Number?
  }

  method CollectGraph(d: Drawing, m: Entity, objects: seq<RawObject>, materials: seq<u32>)
    returns (ok: bool, objects': seq<RawObject>, materials': seq<u32>, ghost chain: seq<Proxy>)
    ensures ok ==> Closure(d, m, chain) && GraphReady(d) && m.handle != 0 && m.history != 0
    ensures ok ==> Appended(objects, objects', chain)
    ensures ok ==> materials' == AddOnce(materials, chain[2].refs[0].handle)
    ensures !ok ==> m.history == 0 || m.handle == 0 || !GraphReady(d) || NoClosure(d, m)
  {
    objects', materials', chain := objects, materials, [];
    if m.history == 0 || m.handle == 0 || !d.coverageComplete {
      return false, objects', materials', chain;
    }
    var historyId := SourceClassId(d.classes, HISTORY);
    var graphId := SourceClassId(d.classes, GRAPH);
    if historyId.None? || graphId.None? {
      return false, objects', materials', chain;
    }
    var byHandle;
    ok, byHandle := IndexItems(d.proxies, PROXY_HANDLE);
    if !ok {
      return;
    }
    ok, objects', materials', chain := WalkGraph(d, m, historyId.value, graphId.value, byHandle, objects, materials);
  }

  // ---------------------------------------------------------------------------------------------
  // All closures

  /** The places of one closure tell it apart from any other place of any other modeler's closure. */
  lemma ClosuresAreDisjoint(d: Drawing, m: Entity, n: Entity, a: seq<Proxy>, b: seq<Proxy>, i: nat, j: nat)
    requires Closure(d, m, a) && Closure(d, n, b) && Keyed(d.proxies, PROXY_HANDLE) && m.handle != n.handle
    requires i < 3 && j < 3
    ensures a[i].handle != b[j].handle
    decreases i
  {
    if a[i].handle == b[j].handle {
      SameKeySameItem(d.proxies, PROXY_HANDLE, a[i], b[j]);
      assert i == j;
      if i > 0 {
        ClosuresAreDisjoint(d, m, n, a, b, i - 1, j - 1);
      }
    }
  }

  lemma ClosureIsDistinct(d: Drawing, m: Entity, a: seq<Proxy>)
    requires Closure(d, m, a) && Keyed(d.proxies, PROXY_HANDLE)
    ensures Distinct(HandlesOf(a)) && forall i :: 0 <= i < 3 ==> a[i] in d.proxies
  {
    forall i, j | 0 <= i < j < 3 ensures a[i].handle != a[j].handle {
      if a[i].handle == a[j].handle {
        SameKeySameItem(d.proxies, PROXY_HANDLE, a[i], a[j]);
      }
    }
  }

  /** What was emitted so far: distinct proxies of the drawing, each from the closure of one of the modelers. */
  ghost predicate Emitted(d: Drawing, owners: set<u32>, done: seq<Proxy>) {
    && (done != [] ==> Keyed(d.proxies, PROXY_HANDLE))
    && Distinct(HandlesOf(done))
    && (forall i :: 0 <= i < |done| ==> done[i] in d.proxies && FromClosure(d, owners, done[i]))
  }

  ghost predicate FromClosure(d: Drawing, owners: set<u32>, p: Proxy) {
    exists m: Entity, chain: seq<Proxy>, k: nat {:trigger InClosure(d, owners, p, m, chain, k)} ::
      InClosure(d, owners, p, m, chain, k)
  }

  ghost predicate InClosure(d: Drawing, owners: set<u32>, p: Proxy, m: Entity, chain: seq<Proxy>, k: nat) {
    m.handle in owners && Closure(d, m, chain) && k < 3 && chain[k] == p
  }

  lemma FromClosureGrows(d: Drawing, owners: set<u32>, more: set<u32>, p: Proxy)
    requires FromClosure(d, owners, p) && owners <= more
    ensures FromClosure(d, more, p)
  {
    var m, chain, k :| InClosure(d, owners, p, m, chain, k);
    assert InClosure(d, more, p, m, chain, k);
  }

  lemma EmittedApart(d: Drawing, owners: set<u32>, p: Proxy, m: Entity, chain: seq<Proxy>, j: nat)
    requires FromClosure(d, owners, p) && Closure(d, m, chain) && Keyed(d.proxies, PROXY_HANDLE) && m.handle !in owners
    requires j < 3
    ensures p.handle != chain[j].handle
  {
    var n, other, k :| InClosure(d, owners, p, n, other, k);
    ClosuresAreDisjoint(d, n, m, other, chain, k, j);
  }

  lemma EmittedGrows(d: Drawing, owners: set<u32>, done: seq<Proxy>, m: Entity, chain: seq<Proxy>)
    requires Emitted(d, owners, done) && Closure(d, m, chain) && Keyed(d.proxies, PROXY_HANDLE) && m.handle !in owners
    ensures Emitted(d, owners + {m.handle}, done + chain)
  {
    var all, more := done + chain, owners + {m.handle};
    ClosureIsDistinct(d, m, chain);
    forall i | 0 <= i < |all| ensures all[i] in d.proxies && FromClosure(d, more, all[i]) {
      if i < |done| {
        FromClosureGrows(d, owners, more, done[i]);
      } else {
        assert InClosure(d, more, all[i], m, chain, i - |done|);
      }
    }
    forall x | x in HandlesOf(chain) ensures x !in HandlesOf(done) {
      var j :| 0 <= j < 3 && HandlesOf(chain)[j] == x;
      forall i | 0 <= i < |done| ensures HandlesOf(done)[i] != x {
        EmittedApart(d, owners, done[i], m, chain, j);
      }
    }
    DistinctConcat(HandlesOf(done), HandlesOf(chain));
    assert HandlesOf(all) == HandlesOf(done) + HandlesOf(chain);
  }

  const CARRIES_STORAGE: Entity -> bool := (e: Entity) => e.carriesStorage

  /** The entities that carry DataStorage, block by block. */
  function Modelers(blocks: seq<seq<Entity>>): seq<Entity> {
    KeptOf(blocks, CARRIES_STORAGE)
  }

  predicate IsModeler(e: Entity) {
    e.carriesStorage ==> e.kind != OtherKind
  }

  ghost predicate OnlyModelers(blocks: seq<seq<Entity>>) {
    forall b, e :: b in blocks && e in b ==> IsModeler(e)
  }

  method LinkedInBlock(block: seq<Entity>) returns (ok: bool, linked: seq<Entity>)
    ensures ok <==> forall e :: e in block ==> IsModeler(e)
    ensures ok ==> linked == Kept(block, CARRIES_STORAGE)
  {
    linked := [];
    for j := 0 to |block|
      invariant linked == Kept(block[..j], CARRIES_STORAGE) && forall k :: 0 <= k < j ==> IsModeler(block[k])
    {
      assert block[..j + 1][..j] == block[..j];
      if block[j].carriesStorage {
        if block[j].kind == OtherKind {
          assert block[j] in block;
          return false, linked;
        }
        linked := linked + [block[j]];
      }
    }
    assert block[..|block|] == block;
    ok := true;
  }

  /** None of the entities with DataStorage may be anything but a solid or a region. */
  method LinkedModelers(blocks: seq<seq<Entity>>) returns (ok: bool, linked: seq<Entity>)
    ensures ok <==> OnlyModelers(blocks)
    ensures ok ==> linked == Modelers(blocks)
  {
    linked := [];
    for i := 0 to |blocks|
      invariant linked == Modelers(blocks[..i]) && OnlyModelers(blocks[..i])
    {
      assert blocks[..i + 1][..i] == blocks[..i];
      assert blocks[..i + 1] == blocks[..i] + [blocks[i]];
      var found;
      ok, found := LinkedInBlock(blocks[i]);
      if !ok {
        assert blocks[i] in blocks;
        return false, linked;
      }
      linked := linked + found;
    }
    assert blocks[..|blocks|] == blocks;
    ok := true;
  }

  const ENTITY_HANDLE: Entity -> u32 := (m: Entity) => m.handle

  const HAS_HISTORY: Entity -> bool := (e: Entity) => e.history != 0

  function WithHistory(linked: seq<Entity>): seq<Entity> {
    Kept(linked, HAS_HISTORY)
  }

  /** Each modeler has its own handle; only a region may lack a history, only a solid may have one. */
  ghost predicate ModelersFit(linked: seq<Entity>) {
    Keyed(linked, ENTITY_HANDLE) && forall k :: 0 <= k < |linked| ==> KindFits(linked[k])
  }

  predicate KindFits(m: Entity) {
    if m.history == 0 then m.kind == Region else m.kind == Solid
  }

  lemma UnfitStays(linked: seq<Entity>, i: nat)
    requires i < |linked| && ModelersFit(linked[..i])
    ensures ModelersFit(linked[..i + 1]) <==>
              linked[i].handle != 0 && linked[i].handle !in Keys(linked[..i], ENTITY_HANDLE) && KindFits(linked[i])
    ensures ModelersFit(linked) ==> ModelersFit(linked[..i + 1])
  {
    var keys := Keys(linked[..i], ENTITY_HANDLE);
    assert Keys(linked[..i + 1], ENTITY_HANDLE) == keys + [linked[i].handle] == Keys(linked, ENTITY_HANDLE)[..i + 1];
    DistinctNext(keys, linked[i].handle);
    PrefixDistinct(Keys(linked, ENTITY_HANDLE), i + 1);
    assert linked[..i + 1] == linked[..i] + [linked[i]];
  }

  method CheckModeler(ghost linked: seq<Entity>, ghost i: nat, m: Entity, handles: set<u32>)
    returns (ok: bool, handles': set<u32>)
    requires i < |linked| && linked[i] == m
    requires ModelersFit(linked[..i]) && handles == Elements(Keys(linked[..i], ENTITY_HANDLE))
    ensures ok ==> ModelersFit(linked[..i + 1]) && handles' == Elements(Keys(linked[..i + 1], ENTITY_HANDLE))
    ensures !ok ==> !ModelersFit(linked)
  {
    UnfitStays(linked, i);
    assert Keys(linked[..i + 1], ENTITY_HANDLE) == Keys(linked[..i], ENTITY_HANDLE) + [m.handle];
    ok := m.handle != 0 && m.handle !in handles && KindFits(m);
    handles' := handles + {m.handle};
  }

  /** The emitted proxies are all proxies of the drawing, each exactly once. */
  ghost predicate EmitsEveryProxyOnce(d: Drawing, done: seq<Proxy>) {
    && Distinct(HandlesOf(d.proxies)) && Distinct(HandlesOf(done))
    && forall p :: p in d.proxies <==> p in done
  }

  /** The final count forces a bijection: distinct emitted proxies, as many as there are. */
  lemma CountForcesBijection(d: Drawing, owners: set<u32>, done: seq<Proxy>)
    requires Emitted(d, owners, done) && |done| == |d.proxies|
    ensures EmitsEveryProxyOnce(d, done)
  {
    forall x | x in HandlesOf(done) ensures x in HandlesOf(d.proxies) {
      var p := MemberOfKey(done, PROXY_HANDLE, x);
      KeyOfMember(d.proxies, PROXY_HANDLE, p);
    }
    SameElements(HandlesOf(done), HandlesOf(d.proxies));
    forall p | p in d.proxies ensures p in done {
      KeyOfMember(d.proxies, PROXY_HANDLE, p);
      var q := MemberOfKey(done, PROXY_HANDLE, p.handle);
      SameKeySameItem(d.proxies, PROXY_HANDLE, p, q);
    }
  }

  /** A region needs nothing; a solid needs its closure. */
  ghost predicate Suits(d: Drawing, m: Entity) {
    KindFits(m) && (m.history != 0 ==> GraphReady(d) && exists c :: Closure(d, m, c))
  }

  /** One modeler: a region without history adds nothing, a solid must have a closure. */
  method CollectModeler(d: Drawing, m: Entity, objects: seq<RawObject>, materials: seq<u32>,
                        ghost owners: set<u32>, ghost done: seq<Proxy>, ghost start: seq<RawObject>)
    returns (ok: bool, objects': seq<RawObject>, materials': seq<u32>, ghost done': seq<Proxy>)
    requires Emitted(d, owners, done) && m.handle != 0 && m.handle !in owners && Appended(start, objects, done)
    ensures ok <==> Suits(d, m)
    ensures ok ==> Emitted(d, owners + {m.handle}, done') && Appended(start, objects', done')
    ensures ok ==> |done'| == |done| + (if m.history == 0 then 0 else 3)
    ensures ok && Distinct(materials) ==> Distinct(materials')
  {
    objects', materials', done' := objects, materials, done;
    if m.history == 0 {
      forall i | 0 <= i < |done| ensures FromClosure(d, owners + {m.handle}, done[i]) {
        FromClosureGrows(d, owners, owners + {m.handle}, done[i]);
      }
      return m.kind == Region, objects', materials', done';
    }
    if m.kind != Solid {
      return false, objects', materials', done';
    }
    ghost var chain;
    ok, objects', materials', chain := CollectGraph(d, m, objects, materials);
    if ok {
      EmittedGrows(d, owners, done, m, chain);
      AppendedConcat(start, objects, objects', done, chain);
      done' := done + chain;
    }
  }

  lemma AppendedConcat(a: seq<RawObject>, b: seq<RawObject>, c: seq<RawObject>, s: seq<Proxy>, t: seq<Proxy>)
    requires Appended(a, b, s) && Appended(b, c, t)
    ensures Appended(a, c, s + t)
  {
    assert RawsOf(s + t) == RawsOf(s) + RawsOf(t);
    ConcatAssociates(a, RawsOf(s), RawsOf(t));
  }

  ghost predicate AllSuit(d: Drawing, linked: seq<Entity>) {
    forall k :: 0 <= k < |linked| ==> Suits(d, linked[k])
  }

  lemma WithHistoryNext(linked: seq<Entity>, i: nat)
    requires i < |linked|
    ensures |WithHistory(linked[..i + 1])| == |WithHistory(linked[..i])| + (if linked[i].history == 0 then 0 else 1)
  {
    assert linked[..i + 1][..i] == linked[..i];
  }

  lemma KeyedNext(linked: seq<Entity>, i: nat)
    requires i < |linked| && Keyed(linked[..i], ENTITY_HANDLE)
    ensures Keyed(linked[..i + 1], ENTITY_HANDLE) <==>
              linked[i].handle != 0 && linked[i].handle !in Elements(Keys(linked[..i], ENTITY_HANDLE))
    ensures Keyed(linked, ENTITY_HANDLE) ==> Keyed(linked[..i + 1], ENTITY_HANDLE)
    ensures Elements(Keys(linked[..i + 1], ENTITY_HANDLE))
            == Elements(Keys(linked[..i], ENTITY_HANDLE)) + {linked[i].handle}
  {
    var keys := Keys(linked[..i], ENTITY_HANDLE);
    assert Keys(linked[..i + 1], ENTITY_HANDLE) == keys + [linked[i].handle] == Keys(linked, ENTITY_HANDLE)[..i + 1];
    DistinctNext(keys, linked[i].handle);
    PrefixDistinct(Keys(linked, ENTITY_HANDLE), i + 1);
  }

  /** What was gathered from some modelers: their closures, and nothing else. */
  ghost predicate HasCollected(d: Drawing, linked: seq<Entity>, owners: set<u32>, done: seq<Proxy>) {
    && Emitted(d, owners, done) && |done| == 3 * |WithHistory(linked)| && AllSuit(d, linked)
    && Keyed(linked, ENTITY_HANDLE) && owners == Elements(Keys(linked, ENTITY_HANDLE))
  }

  /** The next modeler; fails exactly if its handle is zero or taken, or it does not suit. */
  method CollectNext(d: Drawing, ghost linked: seq<Entity>, ghost i: nat, m: Entity, handles: set<u32>,
                     objects: seq<RawObject>, materials: seq<u32>,
                     ghost done: seq<Proxy>, ghost start: seq<RawObject>)
    returns (ok: bool, handles': set<u32>, objects': seq<RawObject>, materials': seq<u32>, ghost done': seq<Proxy>)
    requires i < |linked| && linked[i] == m
    requires HasCollected(d, linked[..i], handles, done) && Appended(start, objects, done)
    ensures ok ==> HasCollected(d, linked[..i + 1], handles', done') && Appended(start, objects', done')
    ensures ok && Distinct(materials) ==> Distinct(materials')
    ensures !ok ==> !(Keyed(linked, ENTITY_HANDLE) && AllSuit(d, linked))
  {
    handles', objects', materials', done' := handles, objects, materials, done;
    KeyedNext(linked, i);
    if m.handle == 0 || m.handle in handles {
      return false, handles', objects', materials', done';
    }
    ok, objects', materials', done' := CollectModeler(d, m, objects, materials, handles, done, start);
    if ok {
      handles' := handles + {m.handle};
      WithHistoryNext(linked, i);
      assert linked[..i + 1] == linked[..i] + [m];
    }
  }

  /** Fails exactly if two modelers share a handle, one has none, or one lacks its closure. */
  method CollectModelers(d: Drawing, linked: seq<Entity>, objects: seq<RawObject>, materials: seq<u32>)
    returns (ok: bool, objects': seq<RawObject>, materials': seq<u32>, ghost owners: set<u32>, ghost done: seq<Proxy>)
    ensures ok <==> Keyed(linked, ENTITY_HANDLE) && AllSuit(d, linked)
    ensures ok ==> HasCollected(d, linked, owners, done) && Appended(objects, objects', done)
    ensures ok && Distinct(materials) ==> Distinct(materials')
  {
    objects', materials', owners, done := objects, materials, {}, [];
    var handles: set<u32> := {};
    assert objects + [] == objects;
    for i := 0 to |linked|
      invariant HasCollected(d, linked[..i], handles, done) && Appended(objects, objects', done)
      invariant Distinct(materials) ==> Distinct(materials')
    {
      ok, handles, objects', materials', done :=
        CollectNext(d, linked, i, linked[i], handles, objects', materials', done, objects);
      if !ok {
        return;
      }
    }
    assert linked[..|linked|] == linked;
    ok, owners := true, handles;
  }

  /** A drawing with DataStorage can be collected if its modelers suit and their closures use up its proxies. */
  ghost predicate Collectable(d: Drawing) {
    && OnlyModelers(d.blocks)
    && var linked := Modelers(d.blocks);
    && Keyed(linked, ENTITY_HANDLE) && AllSuit(d, linked) && |d.proxies| == 3 * |WithHistory(linked)|
  }

  /** Success with DataStorage present means that every source proxy was emitted exactly once. */
  method CollectProxyObjects(d: Drawing, objects: seq<RawObject>, materials: seq<u32>)
    returns (ok: bool, objects': seq<RawObject>, materials': seq<u32>, ghost done: seq<Proxy>)
    ensures ok <==> (d.hasStorage ==> Collectable(d))
    ensures ok && !d.hasStorage ==> objects' == objects && materials' == materials
    ensures ok && d.hasStorage ==> EmitsEveryProxyOnce(d, done) && Appended(objects, objects', done)
    ensures ok && Distinct(materials) ==> Distinct(materials')
  {
    objects', materials', done := objects, materials, [];
    if !d.hasStorage {
      return true, objects', materials', done;
    }
    var linked;
    ok, linked := LinkedModelers(d.blocks);
    if !ok {
      return;
    }
    ghost var owners;
    ok, objects', materials', owners, done := CollectModelers(d, linked, objects, materials);
    if ok {
      ok := |objects'| - |objects| == |d.proxies|;
      if ok {
        CountForcesBijection(d, owners, done);
      }
    }
  }
}
