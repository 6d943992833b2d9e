/** Renumbering of proxy classes: group 91 of every emitted proxy becomes the ordinal of an output class. */
module ClassOrdinals {
  import opened Words
  import opened Lists
  import opened Handles
  import opened ProxyObjects
  import opened ProxyHistory

  const FIRST_ORDINAL: int := 500

  const SUPPORTED: seq<string> :=
    [HISTORY.recordName, GRAPH.recordName, CONE.recordName, BOX.recordName, EXTRUSION.recordName]

  datatype DxfClass = DxfClass(recName: string, instanceCount: nat, wasaProxy: bool)

  /** The class template of a record name. */
  type Lookup = string -> Option<DxfClass>

  ghost predicate ReturnsRequestedName(lookup: Lookup) {
    forall n :: lookup(n).Some? ==> lookup(n).value.recName == n
  }

  // ---------------------------------------------------------------------------------------------
  // The class identifier of an object

  /** The content of the only group 91, a number that is not negative. */
  function ClassIdOf(groups: seq<Group>): Option<nat> {
    var ids := Select(groups, 91);
    if |ids| == 1 && ids[0].Num? && ids[0].n >= 0 then Some(ids[0].n) else None
  }

  /** The groups with the first class identifier replaced. */
  function Replace(groups: seq<Group>, id: int): seq<Group> {
    if groups == [] then []
    else if groups[0].code == 91 then [Group(91, Num(id))] + groups[1..]
    else [groups[0]] + Replace(groups[1..], id)
  }

  /** Only group 91 changes. */
  lemma {:induction false} ReplaceChangesOne(groups: seq<Group>, id: int)
    requires |Select(groups, 91)| == 1
    ensures Select(Replace(groups, id), 91) == [Num(id)]
    ensures |Replace(groups, id)| == |groups|
    ensures forall i :: 0 <= i < |groups| && groups[i].code != 91 ==> Replace(groups, id)[i] == groups[i]
  {
    if groups[0].code == 91 {
      assert Select(groups[1..], 91) == [];
      assert Replace(groups, id)[1..] == groups[1..];
    } else {
      ReplaceChangesOne(groups[1..], id);
      assert Replace(groups, id)[1..] == Replace(groups[1..], id);
      assert [] + Select(groups[1..], 91) == Select(groups[1..], 91);
      assert [] + Select(Replace(groups[1..], id), 91) == Select(Replace(groups[1..], id), 91);
    }
  }

  lemma {:induction false} ReplaceTwice(groups: seq<Group>, a: int, b: int)
    ensures Replace(Replace(groups, a), b) == Replace(groups, b)
  {
    if groups == [] {
    } else {
      if groups[0].code == 91 {
        assert Replace(groups, a)[1..] == groups[1..];
      } else {
        ReplaceTwice(groups[1..], a, b);
        assert Replace(groups, a)[1..] == Replace(groups[1..], a);
      }
    }
  }

  lemma {:induction false} SelectHasIndex(groups: seq<Group>, code: int)
    ensures Select(groups, code) == [] <==> forall i :: 0 <= i < |groups| ==> groups[i].code != code
  {
    if groups == [] {
    } else {
      SelectHasIndex(groups[1..], code);
      assert forall i :: 0 <= i < |groups| - 1 ==> groups[1..][i] == groups[i + 1];
      assert forall i :: 0 < i < |groups| ==> groups[i] == groups[1..][i - 1];
    }
  }

  method ReadClassId(groups: seq<Group>) returns (id: Option<nat>)
    ensures id == ClassIdOf(groups)
  {
    var found: seq<Content> := [];
    for i := 0 to |groups|
      invariant found == Select(groups[..i], 91)
    {
      SelectConcat(groups[..i], [groups[i]], 91);
      assert groups[..i + 1] == groups[..i] + [groups[i]];
      assert [groups[i]][1..] == [];
      if groups[i].code == 91 {
        found := found + [groups[i].content];
      }
    }
    assert groups[..|groups|] == groups;
    return if |found| == 1 && found[0].Num? && found[0].n >= 0 then Some(found[0].n) else None;
  }

  lemma {:induction false} ReplaceAt(groups: seq<Group>, id: int, i: nat)
    requires i < |groups| && groups[i].code == 91 && forall k :: 0 <= k < i ==> groups[k].code != 91
    ensures Replace(groups, id) == groups[i := Group(91, Num(id))]
  {
    if i == 0 {
    } else {
      ReplaceAt(groups[1..], id, i - 1);
    }
  }

  /** Overwrites the first class identifier; none is refused. */
  method SetClassId(groups: seq<Group>, id: int) returns (ok: bool, out: seq<Group>)
    ensures ok <==> Select(groups, 91) != []
    ensures ok ==> out == Replace(groups, id)
  {
    SelectHasIndex(groups, 91);
    for i := 0 to |groups|
      invariant forall k :: 0 <= k < i ==> groups[k].code != 91
    {
      if groups[i].code == 91 {
        ReplaceAt(groups, id, i);
        return true, groups[i := Group(91, Num(id))];
      }
    }
    return false, groups;
  }

  // ---------------------------------------------------------------------------------------------
  // The source class of an object

  datatype Entry = NoEntry | OneEntry(e: ClassEntry) | ManyEntries

  /** The coverage entry with a class number, if it is the only one. */
  function EntryOf(entries: seq<ClassEntry>, id: int): Entry {
    if entries == [] then NoEntry
    else
      var before, e := EntryOf(entries[..|entries| - 1], id), entries[|entries| - 1];
      if e.classNumber != id then before else if before.NoEntry? then OneEntry(e) else ManyEntries
  }

  /** The record name of a supported source class. */
  function SourceName(entries: seq<ClassEntry>, id: int): Option<string> {
    match EntryOf(entries, id)
    case OneEntry(e) => if e.recordName in SUPPORTED then Some(e.recordName) else None
    case _ => None
  }

  method FindEntry(entries: seq<ClassEntry>, id: int) returns (name: Option<string>)
    ensures name == SourceName(entries, id)
  {
    var found: Option<ClassEntry> := None;
    for i := 0 to |entries|
      invariant EntryOf(entries[..i], id) == if found.None? then NoEntry else OneEntry(found.value)
    {
      assert entries[..i + 1][..i] == entries[..i];
      if entries[i].classNumber == id {
        if found.Some? {
          ManyStays(entries, id, i + 1);
          return None;
        }
        found := Some(entries[i]);
      }
    }
    assert entries[..|entries|] == entries;
    return if found.Some? && found.value.recordName in SUPPORTED then Some(found.value.recordName) else None;
  }

  lemma {:induction false} ManyStays(entries: seq<ClassEntry>, id: int, n: nat)
    requires n <= |entries| && EntryOf(entries[..n], id).ManyEntries?
    ensures EntryOf(entries, id).ManyEntries?
    decreases |entries|
  {
    if n < |entries| {
      assert entries[..|entries| - 1][..n] == entries[..n];
      ManyStays(entries[..|entries| - 1], id, n);
    } else {
      assert entries[..n] == entries;
    }
  }

  // ---------------------------------------------------------------------------------------------
  // First pass: names and counts

  /** The record name of an object's source class. */
  function NameOf(entries: seq<ClassEntry>, o: RawObject): Option<string> {
    match ClassIdOf(o.groups)
    case None => None
    case Some(id) => SourceName(entries, id)
  }

  /** How many objects have a source class of the name. */
  function CountOf(entries: seq<ClassEntry>, objects: seq<RawObject>, name: string): nat {
    if objects == [] then 0
    else CountOf(entries, objects[..|objects| - 1], name)
         + (if NameOf(entries, objects[|objects| - 1]) == Some(name) then 1 else 0)
  }

  function Blank(o: RawObject): RawObject {
    o.(groups := Replace(o.groups, 0))
  }

  ghost predicate Counted(counts: map<string, nat>, entries: seq<ClassEntry>, objects: seq<RawObject>) {
    forall n :: if n in counts then counts[n] == CountOf(entries, objects, n) && counts[n] > 0
                else CountOf(entries, objects, n) == 0
  }

  ghost predicate NamesKnown(names: map<nat, string>, entries: seq<ClassEntry>, objects: seq<RawObject>) {
    && (forall id :: id in names ==> SourceName(entries, id) == Some(names[id]))
    && (forall i :: 0 <= i < |objects| && ClassIdOf(objects[i].groups).Some? ==>
          ClassIdOf(objects[i].groups).value in names)
    && (forall id :: id in names ==> Uses(objects, id))
  }

  /** Some object carries the class identifier. */
  ghost predicate Uses(objects: seq<RawObject>, id: int) {
    exists k :: 0 <= k < |objects| && ClassIdOf(objects[k].groups) == Some(id)
  }

  /** Some object's source class has the name. */
  ghost predicate Named(entries: seq<ClassEntry>, objects: seq<RawObject>, n: string) {
    exists k :: 0 <= k < |objects| && NameOf(entries, objects[k]) == Some(n)
  }

  lemma NamedNext(entries: seq<ClassEntry>, objects: seq<RawObject>, o: RawObject, n: string)
    ensures Named(entries, objects + [o], n) <==> Named(entries, objects, n) || NameOf(entries, o) == Some(n)
  {
    var more := objects + [o];
    if Named(entries, objects, n) {
      var k :| 0 <= k < |objects| && NameOf(entries, objects[k]) == Some(n);
      assert more[k] == objects[k];
    }
    if NameOf(entries, o) == Some(n) {
      assert more[|objects|] == o;
    }
  }

  lemma {:induction false} CountedIffNamed(entries: seq<ClassEntry>, objects: seq<RawObject>, n: string)
    ensures CountOf(entries, objects, n) > 0 <==> Named(entries, objects, n)
  {
    if objects == [] {
    } else {
      var k := |objects| - 1;
      assert objects == objects[..k] + [objects[k]];
      CountedIffNamed(entries, objects[..k], n);
      NamedNext(entries, objects[..k], objects[k], n);
    }
  }

  ghost predicate AllNamed(entries: seq<ClassEntry>, objects: seq<RawObject>) {
    forall i :: 0 <= i < |objects| ==> NameOf(entries, objects[i]).Some?
  }

  lemma CountedNext(counts: map<string, nat>, entries: seq<ClassEntry>, objects: seq<RawObject>, o: RawObject)
    requires Counted(counts, entries, objects) && NameOf(entries, o).Some?
    ensures var n := NameOf(entries, o).value;
            Counted(counts[n := (if n in counts then counts[n] else 0) + 1], entries, objects + [o])
  {
    var name := NameOf(entries, o).value;
    assert (objects + [o])[..|objects|] == objects;
    forall n ensures CountOf(entries, objects + [o], n) == CountOf(entries, objects, n) + (if n == name then 1 else 0) {
    }
  }

  /** Reads the source class of one object and blanks its identifier. */
  method TakeClass(entries: seq<ClassEntry>, o: RawObject)
    returns (ok: bool, id: nat, name: string, blanked: RawObject)
    ensures ok <==> NameOf(entries, o).Some?
    ensures ok ==> ClassIdOf(o.groups) == Some(id) && SourceName(entries, id) == Some(name) && blanked == Blank(o)
  {
    blanked, id, name := o, 0, "";
    var found := ReadClassId(o.groups);
    if found.None? {
      return false, id, name, blanked;
    }
    id := found.value;
    var source := FindEntry(entries, id);
    if source.None? {
      return false, id, name, blanked;
    }
    name := source.value;
    var groups;
    ok, groups := SetClassId(o.groups, 0);
    blanked := o.(groups := groups);
  }

  lemma NamesKnownNext(names: map<nat, string>, entries: seq<ClassEntry>, objects: seq<RawObject>, o: RawObject,
                       id: nat, name: string)
    requires NamesKnown(names, entries, objects)
    requires ClassIdOf(o.groups) == Some(id) && SourceName(entries, id) == Some(name)
    ensures id in names ==> names[id] == name
    ensures NamesKnown(names[id := name], entries, objects + [o])
  {
    var more := objects + [o];
    forall i | 0 <= i < |more| && ClassIdOf(more[i].groups).Some?
      ensures ClassIdOf(more[i].groups).value in names[id := name] {
      if i < |objects| {
        assert more[i] == objects[i];
      }
    }
    forall x | x in names[id := name] ensures Uses(more, x) {
      if x == id {
        assert more[|objects|] == o;
      } else {
        var k :| 0 <= k < |objects| && ClassIdOf(objects[k].groups) == Some(x);
        assert more[k] == objects[k];
      }
    }
  }

  /** What the first pass knows after some objects. */
  ghost predicate Counting(entries: seq<ClassEntry>, objects: seq<RawObject>, blanked: seq<RawObject>,
                           names: map<nat, string>, counts: map<string, nat>) {
    && AllNamed(entries, objects) && Counted(counts, entries, objects) && NamesKnown(names, entries, objects)
    && |blanked| == |objects| && forall k :: 0 <= k < |objects| ==> blanked[k] == Blank(objects[k])
  }

  lemma CountingNext(entries: seq<ClassEntry>, objects: seq<RawObject>, blanked: seq<RawObject>,
                     names: map<nat, string>, counts: map<string, nat>, o: RawObject, id: nat, name: string)
    requires Counting(entries, objects, blanked, names, counts)
    requires ClassIdOf(o.groups) == Some(id) && SourceName(entries, id) == Some(name)
    ensures id in names ==> names[id] == name
    ensures Counting(entries, objects + [o], blanked + [Blank(o)], names[id := name],
                     counts[name := (if name in counts then counts[name] else 0) + 1])
  {
    NamesKnownNext(names, entries, objects, o, id, name);
    CountedNext(counts, entries, objects, o);
    var more := objects + [o];
    forall k | 0 <= k < |more| ensures NameOf(entries, more[k]).Some? && (blanked + [Blank(o)])[k] == Blank(more[k]) {
      if k < |objects| {
        assert more[k] == objects[k];
      }
    }
  }

  /** One identifier never has two names, so only an object without a source class is refused. */
  method CountClasses(entries: seq<ClassEntry>, objects: seq<RawObject>)
    returns (ok: bool, blanked: seq<RawObject>, names: map<nat, string>, counts: map<string, nat>)
    ensures ok <==> AllNamed(entries, objects)
    ensures ok ==> Counting(entries, objects, blanked, names, counts)
  {
    blanked, names, counts := [], map[], map[];
    for i := 0 to |objects|
      invariant Counting(entries, objects[..i], blanked, names, counts)
    {
      var found, id, name, blank := TakeClass(entries, objects[i]);
      if !found {
        return false, blanked, names, counts;
      }
      CountingNext(entries, objects[..i], blanked, names, counts, objects[i], id, name);
      if id in names && names[id] != name {
        assert false;
      }
      TakeNext(objects, i);
      names := names[id := name];
      counts := counts[name := (if name in counts then counts[name] else 0) + 1];
      blanked := blanked + [blank];
    }
    assert objects[..|objects|] == objects;
    ok := true;
  }

  // ---------------------------------------------------------------------------------------------
  // Second pass: the output classes

  /** Ordinals and classes name each other: an ordinal is the place of the class with its name and count. */
  ghost predicate Ordinals(ids: map<string, int>, classes: seq<DxfClass>, counts: map<string, nat>) {
    && (forall n :: n in ids ==> n in counts && Ordinal(n, ids[n], classes, counts[n]))
    && (forall k :: 0 <= k < |classes| ==> classes[k].recName in ids && ids[classes[k].recName] == FIRST_ORDINAL + k)
  }

  ghost predicate Ordinal(n: string, id: int, classes: seq<DxfClass>, count: nat) {
    && FIRST_ORDINAL <= id < FIRST_ORDINAL + |classes|
    && classes[id - FIRST_ORDINAL] == DxfClass(n, count, true)
  }

  lemma OrdinalsNext(ids: map<string, int>, classes: seq<DxfClass>, counts: map<string, nat>, n: string)
    requires Ordinals(ids, classes, counts) && n !in ids && n in counts
    ensures Ordinals(ids[n := FIRST_ORDINAL + |classes|], classes + [DxfClass(n, counts[n], true)], counts)
  {
    var more := classes + [DxfClass(n, counts[n], true)];
    var ids' := ids[n := FIRST_ORDINAL + |classes|];
    forall m | m in ids' ensures m in counts && Ordinal(m, ids'[m], more, counts[m]) {
      if m != n {
        assert Ordinal(m, ids[m], classes, counts[m]);
      }
    }
    forall k | 0 <= k < |more| ensures more[k].recName in ids' && ids'[more[k].recName] == FIRST_ORDINAL + k {
      if k < |classes| {
        assert more[k] == classes[k] && classes[k].recName in ids;
      }
    }
  }

  /** Adds the class of one name, if the name was counted. */
  method MakeClass(name: string, counts: map<string, nat>, lookup: Lookup, classes: seq<DxfClass>,
                   ids: map<string, int>)
    returns (ok: bool, classes': seq<DxfClass>, ids': map<string, int>)
    requires ReturnsRequestedName(lookup) && Ordinals(ids, classes, counts) && name !in ids
    ensures ok <==> (name in counts ==> lookup(name).Some?)
    ensures ok ==> Ordinals(ids', classes', counts) && ids'.Keys == ids.Keys + (if name in counts then {name} else {})
  {
    classes', ids' := classes, ids;
    if name in counts {
      var template := lookup(name);
      if template.None? {
        return false, classes', ids';
      }
      OrdinalsNext(ids, classes, counts, name);
      ids' := ids[name := FIRST_ORDINAL + |classes|];
      classes' := classes + [template.value.(instanceCount := counts[name], wasaProxy := true)];
    }
    ok := true;
  }

  method MakeClasses(supported: seq<string>, counts: map<string, nat>, lookup: Lookup)
    returns (ok: bool, classes: seq<DxfClass>, ids: map<string, int>)
    requires ReturnsRequestedName(lookup) && Distinct(supported)
    ensures ok <==> forall n :: n in supported && n in counts ==> lookup(n).Some?
    ensures ok ==> Ordinals(ids, classes, counts)
    ensures ok ==> forall n :: n in ids <==> n in supported && n in counts
  {
    classes, ids := [], map[];
    for i := 0 to |supported|
      invariant forall n :: n in supported[..i] && n in counts ==> lookup(n).Some?
      invariant Ordinals(ids, classes, counts)
      invariant forall n :: n in ids <==> n in supported[..i] && n in counts
    {
      assert supported[i] !in supported[..i];
      assert supported[..i + 1] == supported[..i] + [supported[i]];
      ok, classes, ids := MakeClass(supported[i], counts, lookup, classes, ids);
      if !ok {
        assert supported[i] in supported;
        return;
      }
    }
    assert supported[..|supported|] == supported;
    ok := true;
  }

  lemma SupportedNamesDiffer()
    ensures Distinct(SUPPORTED)
  {
    assert |HISTORY.recordName| == 18 && |GRAPH.recordName| == 21 && |CONE.recordName| == 15;
    assert |BOX.recordName| == 14 && |EXTRUSION.recordName| == 20;
  }

  // ---------------------------------------------------------------------------------------------
  // Third pass: the ordinals

  function ProxiesWith(proxies: seq<Proxy>, handle: u32): seq<Proxy> {
    if proxies == [] then []
    else ProxiesWith(proxies[..|proxies| - 1], handle)
         + (if proxies[|proxies| - 1].handle == handle then [proxies[|proxies| - 1]] else [])
  }

  method FindProxy(proxies: seq<Proxy>, handle: u32) returns (p: Option<Proxy>)
    ensures p == var found := ProxiesWith(proxies, handle); if |found| == 1 then Some(found[0]) else None
  {
    var found: seq<Proxy> := [];
    for i := 0 to |proxies|
      invariant found == ProxiesWith(proxies[..i], handle)
    {
      assert proxies[..i + 1][..i] == proxies[..i];
      if proxies[i].handle == handle {
        found := found + [proxies[i]];
      }
    }
    assert proxies[..|proxies|] == proxies;
    return if |found| == 1 then Some(found[0]) else None;
  }

  /** The only proxy with the object's handle has a class; the object's new ordinal is that of the class built
      for the record name of the proxy's source class; nothing else in the object changed. */
  ghost predicate Renumbered(entries: seq<ClassEntry>, proxies: seq<Proxy>, ids: map<string, int>,
                             o: RawObject, out: RawObject) {
    var found := ProxiesWith(proxies, o.handle);
    && |found| == 1 && found[0].classId.Some? && found[0].classId.value >= 0
    && var name := SourceName(entries, found[0].classId.value);
    && name.Some? && name.value in ids
    && out == o.(groups := Replace(o.groups, ids[name.value]))
  }

  /** An object can be renumbered if one proxy has its handle, and that proxy's class is some object's. */
  ghost predicate CanRenumber(proxies: seq<Proxy>, objects: seq<RawObject>, o: RawObject) {
    var found := ProxiesWith(proxies, o.handle);
    |found| == 1 && found[0].classId.Some? && found[0].classId.value >= 0 && Uses(objects, found[0].classId.value)
  }

  ghost predicate FirstCanRenumber(proxies: seq<Proxy>, objects: seq<RawObject>, n: nat)
    requires n <= |objects|
  {
    forall k :: 0 <= k < n ==> CanRenumber(proxies, objects, objects[k])
  }

  lemma FirstCanRenumberNext(proxies: seq<Proxy>, objects: seq<RawObject>, n: nat)
    requires n < |objects| && FirstCanRenumber(proxies, objects, n) && CanRenumber(proxies, objects, objects[n])
    ensures FirstCanRenumber(proxies, objects, n + 1)
  {
    forall k | 0 <= k < n + 1 ensures CanRenumber(proxies, objects, objects[k]) {
      if k == n {
        assert objects[k] == objects[n];
      }
    }
  }

  lemma UsedIsNamed(entries: seq<ClassEntry>, objects: seq<RawObject>, names: map<nat, string>, id: nat)
    requires NamesKnown(names, entries, objects)
    ensures id in names <==> Uses(objects, id)
    ensures id in names ==> Named(entries, objects, names[id])
  {
    if Uses(objects, id) {
      var k :| 0 <= k < |objects| && ClassIdOf(objects[k].groups) == Some(id);
      assert id in names && NameOf(entries, objects[k]) == Some(names[id]);
    }
  }

  ghost predicate IdsAreNames(ids: map<string, int>, entries: seq<ClassEntry>, objects: seq<RawObject>) {
    forall n :: n in ids <==> Named(entries, objects, n)
  }

  ghost predicate AllRenumbered(entries: seq<ClassEntry>, proxies: seq<Proxy>, ids: map<string, int>,
                                objects: seq<RawObject>, out: seq<RawObject>) {
    |out| == |objects| && forall i :: 0 <= i < |objects| ==> Renumbered(entries, proxies, ids, objects[i], out[i])
  }

  lemma AllRenumberedNext(entries: seq<ClassEntry>, proxies: seq<Proxy>, ids: map<string, int>,
                          objects: seq<RawObject>, out: seq<RawObject>, i: nat, o: RawObject)
    requires i < |objects| && AllRenumbered(entries, proxies, ids, objects[..i], out)
    requires Renumbered(entries, proxies, ids, objects[i], o)
    ensures AllRenumbered(entries, proxies, ids, objects[..i + 1], out + [o])
  {
    forall k | 0 <= k < i + 1 ensures Renumbered(entries, proxies, ids, objects[..i + 1][k], (out + [o])[k]) {
      if k < i {
        assert Renumbered(entries, proxies, ids, objects[..i][k], out[k]);
      }
    }
  }

  /** One object of the third pass. */
  method AssignOrdinal(ghost entries: seq<ClassEntry>, proxies: seq<Proxy>, ghost objects: seq<RawObject>,
                       ghost o: RawObject, blanked: RawObject, names: map<nat, string>, ids: map<string, int>)
    returns (ok: bool, out: RawObject)
    requires NamesKnown(names, entries, objects) && blanked == Blank(o) && ClassIdOf(o.groups).Some?
    requires IdsAreNames(ids, entries, objects)
    ensures ok <==> CanRenumber(proxies, objects, o)
    ensures ok ==> Renumbered(entries, proxies, ids, o, out)
  {
    out := blanked;
    var p := FindProxy(proxies, blanked.handle);
    if p.None? || p.value.classId.None? || p.value.classId.value < 0 {
      return false, out;
    }
    UsedIsNamed(entries, objects, names, p.value.classId.value);
    if p.value.classId.value !in names {
      return false, out;
    }
    var name := names[p.value.classId.value];
    if name !in ids {
      assert false;
    }
    ReplaceChangesOne(o.groups, 0);
    var found, groups := SetClassId(blanked.groups, ids[name]);
    if !found {
      assert false;
    }
    ReplaceTwice(o.groups, 0, ids[name]);
    ok, out := true, blanked.(groups := groups);
  }

  method AssignOrdinals(ghost entries: seq<ClassEntry>, proxies: seq<Proxy>, ghost objects: seq<RawObject>,
                        blanked: seq<RawObject>, names: map<nat, string>, ids: map<string, int>)
    returns (ok: bool, out: seq<RawObject>)
    requires NamesKnown(names, entries, objects) && |blanked| == |objects| && AllNamed(entries, objects)
    requires forall i :: 0 <= i < |objects| ==> blanked[i] == Blank(objects[i])
    requires IdsAreNames(ids, entries, objects)
    ensures ok <==> FirstCanRenumber(proxies, objects, |objects|)
    ensures ok ==> AllRenumbered(entries, proxies, ids, objects, out)
  {
    out := [];
    for i := 0 to |blanked|
      invariant AllRenumbered(entries, proxies, ids, objects[..i], out)
      invariant FirstCanRenumber(proxies, objects, i)
    {
      assert NameOf(entries, objects[i]).Some?;
      var renumbered;
      ok, renumbered := AssignOrdinal(entries, proxies, objects, objects[i], blanked[i], names, ids);
      if !ok {
        return;
      }
      FirstCanRenumberNext(proxies, objects, i);
      AllRenumberedNext(entries, proxies, ids, objects, out, i, renumbered);
      out := out + [renumbered];
    }
    assert objects[..|objects|] == objects;
    ok := true;
  }

  function ProxyClassCount(materials: nat, classes: seq<DxfClass>): int {
    if materials > 0 then |classes| - 1 else |classes|
  }

  /** The ordinals and the final classes: a proxy class counts the objects of its source class, and a material
      class comes last, so that no proxy ordinal moves. */
  ghost predicate Table(entries: seq<ClassEntry>, objects: seq<RawObject>, materials: nat,
                        ids: map<string, int>, classes: seq<DxfClass>) {
    && (materials > 0 ==> classes != [] && classes[|classes| - 1] == DxfClass("MATERIAL", materials, false))
    && var proxyClasses := ProxyClassCount(materials, classes);
    && (forall n :: n in ids ==>
          CountOf(entries, objects, n) > 0 && Ordinal(n, ids[n], classes[..proxyClasses], CountOf(entries, objects, n)))
    && (forall k :: 0 <= k < proxyClasses ==> classes[k].recName in ids && ids[classes[k].recName] == FIRST_ORDINAL + k)
  }

  lemma TableIsMade(entries: seq<ClassEntry>, objects: seq<RawObject>, counts: map<string, nat>,
                    ids: map<string, int>, classes: seq<DxfClass>)
    requires Ordinals(ids, classes, counts) && Counted(counts, entries, objects)
    ensures Table(entries, objects, 0, ids, classes)
  {
    assert classes[..|classes|] == classes;
    forall n | n in ids
      ensures CountOf(entries, objects, n) > 0 && Ordinal(n, ids[n], classes, CountOf(entries, objects, n)) {
      assert Ordinal(n, ids[n], classes, counts[n]);
    }
  }

  /** Appends the class of the materials. */
  method AddMaterialClass(ghost entries: seq<ClassEntry>, ghost objects: seq<RawObject>, ghost ids: map<string, int>,
                          materials: seq<u32>, lookup: Lookup, classes: seq<DxfClass>)
    returns (ok: bool, classes': seq<DxfClass>)
    requires ReturnsRequestedName(lookup) && Table(entries, objects, 0, ids, classes)
    ensures ok <==> (materials != [] ==> lookup("MATERIAL").Some?)
    ensures ok ==> Table(entries, objects, |materials|, ids, classes')
    ensures ok ==> classes <= classes'
  {
    classes' := classes;
    if materials != [] {
      var template := lookup("MATERIAL");
      if template.None? {
        return false, classes';
      }
      classes' := classes + [template.value.(instanceCount := |materials|, wasaProxy := false)];
      assert classes'[..|classes|] == classes == classes[..|classes|];
    }
    ok := true;
  }

  /** There is a template for every class that is used, and for materials if there are any. */
  ghost predicate HasTemplates(entries: seq<ClassEntry>, objects: seq<RawObject>, materials: nat, lookup: Lookup) {
    && (forall n :: Named(entries, objects, n) ==> lookup(n).Some?)
    && (materials > 0 ==> lookup("MATERIAL").Some?)
  }

  lemma NamedIsSupported(entries: seq<ClassEntry>, objects: seq<RawObject>, n: string)
    requires Named(entries, objects, n)
    ensures n in SUPPORTED
  {
  }

  lemma CountedAreNamed(entries: seq<ClassEntry>, objects: seq<RawObject>, counts: map<string, nat>)
    requires Counted(counts, entries, objects)
    ensures forall n :: n in SUPPORTED && n in counts <==> Named(entries, objects, n)
  {
    forall n ensures n in SUPPORTED && n in counts <==> Named(entries, objects, n) {
      CountedIffNamed(entries, objects, n);
      if Named(entries, objects, n) {
        NamedIsSupported(entries, objects, n);
      }
    }
  }

  /** The whole renumbering. */
  method RenumberClasses(entries: seq<ClassEntry>, proxies: seq<Proxy>, objects: seq<RawObject>,
                         materials: seq<u32>, lookup: Lookup)
    returns (ok: bool, out: seq<RawObject>, classes: seq<DxfClass>, ghost ids: map<string, int>)
    requires ReturnsRequestedName(lookup)
    ensures ok <==>
              && AllNamed(entries, objects) && HasTemplates(entries, objects, |materials|, lookup)
              && FirstCanRenumber(proxies, objects, |objects|)
    ensures ok ==> AllRenumbered(entries, proxies, ids, objects, out)
    ensures ok ==> Table(entries, objects, |materials|, ids, classes)
  {
    out, classes, ids := [], [], map[];
    var blanked, names, counts;
    ok, blanked, names, counts := CountClasses(entries, objects);
    if !ok {
      return;
    }
    SupportedNamesDiffer();
    CountedAreNamed(entries, objects, counts);
    var ordinals;
    ok, classes, ordinals := MakeClasses(SUPPORTED, counts, lookup);
    if !ok {
      return;
    }
    ids := ordinals;
    TableIsMade(entries, objects, counts, ids, classes);
    ok, classes := AddMaterialClass(entries, objects, ids, materials, lookup, classes);
    if ok {
      ok, out := AssignOrdinals(entries, proxies, objects, blanked, names, ordinals);
    }
  }

  // ---------------------------------------------------------------------------------------------
  // What the ordinals mean

  /** An emitted object carries the class identifier of the one proxy with its handle. */
  ghost predicate CarriesClassId(proxies: seq<Proxy>, o: RawObject) {
    var found := ProxiesWith(proxies, o.handle);
    |found| == 1 && found[0].classId.Some? && Select(o.groups, 91) == [Num(found[0].classId.value)]
  }

  /** How many objects point at an ordinal. */
  function PointingAt(objects: seq<RawObject>, ordinal: int): nat {
    if objects == [] then 0
    else PointingAt(objects[..|objects| - 1], ordinal)
         + (if Select(objects[|objects| - 1].groups, 91) == [Num(ordinal)] then 1 else 0)
  }

  ghost predicate InjectiveOrdinals(ids: map<string, int>) {
    forall m, n :: m in ids && n in ids && ids[m] == ids[n] ==> m == n
  }

  lemma TableIsInjective(entries: seq<ClassEntry>, objects: seq<RawObject>, materials: nat,
                         ids: map<string, int>, classes: seq<DxfClass>)
    requires Table(entries, objects, materials, ids, classes)
    ensures InjectiveOrdinals(ids)
  {
    var proxyClasses := ProxyClassCount(materials, classes);
    forall m, n | m in ids && n in ids && ids[m] == ids[n] ensures m == n {
      assert Ordinal(m, ids[m], classes[..proxyClasses], CountOf(entries, objects, m));
      assert Ordinal(n, ids[n], classes[..proxyClasses], CountOf(entries, objects, n));
    }
  }

  /** Every class's instance count is the number of objects that point at it. */
  lemma {:induction false} CountsMatchOrdinals(entries: seq<ClassEntry>, proxies: seq<Proxy>, objects: seq<RawObject>,
                                               out: seq<RawObject>, ids: map<string, int>, n: string)
    requires n in ids && InjectiveOrdinals(ids) && AllRenumbered(entries, proxies, ids, objects, out)
    requires forall i :: 0 <= i < |objects| ==> CarriesClassId(proxies, objects[i])
    ensures PointingAt(out, ids[n]) == CountOf(entries, objects, n)
    decreases |objects|
  {
    if objects == [] {
    } else {
      var k := |objects| - 1;
      CountsMatchOrdinals(entries, proxies, objects[..k], out[..k], ids, n);
      assert CarriesClassId(proxies, objects[k]) && Renumbered(entries, proxies, ids, objects[k], out[k]);
      var id := ProxiesWith(proxies, objects[k].handle)[0].classId.value;
      var name := SourceName(entries, id).value;
      assert NameOf(entries, objects[k]) == Some(name);
      ReplaceChangesOne(objects[k].groups, ids[name]);
      assert Select(out[k].groups, 91) == [Num(ids[name])];
    }
  }

  lemma {:induction false} DistinctProxyIsFound(proxies: seq<Proxy>, p: Proxy)
    requires Distinct(HandlesOf(proxies)) && p in proxies
    ensures ProxiesWith(proxies, p.handle) == [p]
    decreases |proxies|
  {
    var n := |proxies| - 1;
    var front := proxies[..n];
    assert HandlesOf(proxies) == HandlesOf(front) + [proxies[n].handle];
    DistinctPrefix(HandlesOf(front), [proxies[n].handle]);
    DistinctNext(HandlesOf(front), proxies[n].handle);
    if proxies[n] == p {
      NoProxyIsFound(front, p.handle);
    } else {
      var i :| 0 <= i < |proxies| && proxies[i] == p;
      assert front[i] == p && HandlesOf(front)[i] == p.handle;
      DistinctProxyIsFound(front, p);
    }
  }

  lemma {:induction false} NoProxyIsFound(proxies: seq<Proxy>, handle: u32)
    requires handle !in HandlesOf(proxies)
    ensures ProxiesWith(proxies, handle) == []
  {
    if proxies == [] {
    } else {
      var n := |proxies| - 1;
      assert HandlesOf(proxies) == HandlesOf(proxies[..n]) + [proxies[n].handle];
      NoProxyIsFound(proxies[..n], handle);
    }
  }

  /** What the closures emit carries the proxies' own class identifiers, so the counts below are exact. */
  lemma CollectedObjectsCarryClassIds(d: Drawing, done: seq<Proxy>, i: nat)
    requires EmitsEveryProxyOnce(d, done) && i < |done|
    requires forall k :: 0 <= k < |done| ==> Emittable(done[k]) && done[k].classId.Some?
    ensures CarriesClassId(d.proxies, RawsOf(done)[i])
  {
    DistinctProxyIsFound(d.proxies, done[i]);
    OneClassId(done[i], done[i].classId.value);
  }

  ghost predicate PointsAtItsClass(d: Drawing, p: Proxy, out: RawObject, ids: map<string, int>) {
    && out.handle == p.handle && p.classId.Some? && SourceName(d.classes, p.classId.value).Some?
    && var name := SourceName(d.classes, p.classId.value).value;
       name in ids && Select(out.groups, 91) == [Num(ids[name])]
  }

  lemma RenumberedPointsAtItsClass(d: Drawing, done: seq<Proxy>, i: nat, out: RawObject, ids: map<string, int>)
    requires EmitsEveryProxyOnce(d, done) && i < |done|
    requires forall k :: 0 <= k < |done| ==> Emittable(done[k])
    requires Renumbered(d.classes, d.proxies, ids, RawsOf(done)[i], out)
    ensures PointsAtItsClass(d, done[i], out, ids)
  {
    assert done[i] in d.proxies;
    DistinctProxyIsFound(d.proxies, done[i]);
    OneClassId(done[i], done[i].classId.value);
    ReplaceChangesOne(RawsOf(done)[i].groups, ids[SourceName(d.classes, done[i].classId.value).value]);
  }

  /** What an export with DataStorage writes: every proxy of the drawing once, pointing at the class built for
      its source class; every proxy class counts exactly the objects that point at it; materials come last. */
  ghost predicate Exported(d: Drawing, done: seq<Proxy>, out: seq<RawObject>, materials: nat,
                           ids: map<string, int>, classes: seq<DxfClass>) {
    && EmitsEveryProxyOnce(d, done) && |out| == |done| == |d.proxies|
    && (forall i :: 0 <= i < |out| ==> PointsAtItsClass(d, done[i], out[i], ids))
    && (materials > 0 ==> classes != [] && classes[|classes| - 1] == DxfClass("MATERIAL", materials, false))
    && (forall n :: n in ids ==> Ordinal(n, ids[n], classes, PointingAt(out, ids[n])))
    && ProxyClassesAreCounted(out, materials, ids, classes)
  }

  /** Every class in front of a material class is a proxy class, and counts the objects that point at its place. */
  ghost predicate ProxyClassesAreCounted(out: seq<RawObject>, materials: nat, ids: map<string, int>,
                                         classes: seq<DxfClass>) {
    forall k :: 0 <= k < ProxyClassCount(materials, classes) ==>
      && classes[k].recName in ids && ids[classes[k].recName] == FIRST_ORDINAL + k
      && classes[k].instanceCount == PointingAt(out, FIRST_ORDINAL + k) > 0
  }

  lemma RenumberedIsExported(d: Drawing, done: seq<Proxy>, out: seq<RawObject>, materials: nat,
                             ids: map<string, int>, classes: seq<DxfClass>)
    requires EmitsEveryProxyOnce(d, done)
    requires forall i :: 0 <= i < |done| ==> Emittable(done[i])
    requires AllRenumbered(d.classes, d.proxies, ids, RawsOf(done), out)
    requires Table(d.classes, RawsOf(done), materials, ids, classes)
    ensures Exported(d, done, out, materials, ids, classes)
  {
    var objects := RawsOf(done);
    EveryProxyOnceCounts(d, done);
    TableIsInjective(d.classes, objects, materials, ids, classes);
    forall i | 0 <= i < |out| ensures PointsAtItsClass(d, done[i], out[i], ids) {
      RenumberedPointsAtItsClass(d, done, i, out[i], ids);
    }
    forall i | 0 <= i < |objects| ensures CarriesClassId(d.proxies, objects[i]) {
      CollectedObjectsCarryClassIds(d, done, i);
    }
    var proxyClasses := ProxyClassCount(materials, classes);
    forall n | n in ids ensures Ordinal(n, ids[n], classes, PointingAt(out, ids[n])) {
      assert Ordinal(n, ids[n], classes[..proxyClasses], CountOf(d.classes, objects, n));
      CountsMatchOrdinals(d.classes, d.proxies, objects, out, ids, n);
    }
    forall k | 0 <= k < proxyClasses
      ensures classes[k].recName in ids && ids[classes[k].recName] == FIRST_ORDINAL + k
      ensures classes[k].instanceCount == PointingAt(out, FIRST_ORDINAL + k) > 0
    {
      var n := classes[k].recName;
      assert CountOf(d.classes, objects, n) > 0;
      CountsMatchOrdinals(d.classes, d.proxies, objects, out, ids, n);
    }
  }

  lemma EveryProxyOnceCounts(d: Drawing, done: seq<Proxy>)
    requires EmitsEveryProxyOnce(d, done)
    ensures |done| == |d.proxies|
  {
    DistinctCount(HandlesOf(done));
    DistinctCount(HandlesOf(d.proxies));
    forall x ensures x in HandlesOf(done) <==> x in HandlesOf(d.proxies) {
      if x in HandlesOf(done) {
        var p := MemberOfKey(done, PROXY_HANDLE, x);
        KeyOfMember(d.proxies, PROXY_HANDLE, p);
      }
      if x in HandlesOf(d.proxies) {
        var p := MemberOfKey(d.proxies, PROXY_HANDLE, x);
        KeyOfMember(done, PROXY_HANDLE, p);
      }
    }
    assert Elements(HandlesOf(done)) == Elements(HandlesOf(d.proxies));
  }

  /** The class number of every proxy belongs to one entry, of a supported class. */
  ghost predicate Nameable(d: Drawing) {
    forall p :: p in d.proxies ==> p.classId.Some? && SourceName(d.classes, p.classId.value).Some?
  }

  lemma {:induction false} NegativeNumbersNameNothing(entries: seq<ClassEntry>, id: int)
    requires id < 0
    ensures EntryOf(entries, id).NoEntry?
  {
    if entries == [] {
    } else {
      NegativeNumbersNameNothing(entries[..|entries| - 1], id);
    }
  }

  lemma CollectedAreNameable(d: Drawing, done: seq<Proxy>)
    requires EmitsEveryProxyOnce(d, done) && forall i :: 0 <= i < |done| ==> Emittable(done[i])
    ensures AllNamed(d.classes, RawsOf(done)) <==> Nameable(d)
  {
    forall i | 0 <= i < |done|
      ensures NameOf(d.classes, RawsOf(done)[i]) == SourceName(d.classes, done[i].classId.value) {
      OneClassId(done[i], done[i].classId.value);
      if done[i].classId.value < 0 {
        NegativeNumbersNameNothing(d.classes, done[i].classId.value);
      }
    }
    if AllNamed(d.classes, RawsOf(done)) {
      forall p | p in d.proxies ensures p.classId.Some? && SourceName(d.classes, p.classId.value).Some? {
        var i :| 0 <= i < |done| && done[i] == p;
        assert NameOf(d.classes, RawsOf(done)[i]).Some?;
      }
    }
  }

  /** Templates for the source classes of all proxies and for materials. */
  ghost predicate Templates(d: Drawing, lookup: Lookup) {
    && lookup("MATERIAL").Some?
    && forall p :: p in d.proxies && p.classId.Some? && SourceName(d.classes, p.classId.value).Some? ==>
         lookup(SourceName(d.classes, p.classId.value).value).Some?
  }

  /** Once every class number has its name, nothing that was collected is refused any more. */
  lemma CollectedCanBeRenumbered(d: Drawing, done: seq<Proxy>)
    requires EmitsEveryProxyOnce(d, done) && forall i :: 0 <= i < |done| ==> Emittable(done[i])
    requires AllNamed(d.classes, RawsOf(done))
    ensures FirstCanRenumber(d.proxies, RawsOf(done), |done|)
  {
    var objects := RawsOf(done);
    forall i | 0 <= i < |done| ensures CanRenumber(d.proxies, objects, objects[i]) {
      CollectedObjectsCarryClassIds(d, done, i);
      OneClassId(done[i], done[i].classId.value);
      DistinctProxyIsFound(d.proxies, done[i]);
      assert NameOf(d.classes, objects[i]).Some?;
      assert ClassIdOf(objects[i].groups) == Some(done[i].classId.value);
    }
  }

  lemma CollectedHasTemplates(d: Drawing, done: seq<Proxy>, materials: nat, lookup: Lookup)
    requires EmitsEveryProxyOnce(d, done) && forall i :: 0 <= i < |done| ==> Emittable(done[i])
    requires Templates(d, lookup)
    ensures HasTemplates(d.classes, RawsOf(done), materials, lookup)
  {
    var objects := RawsOf(done);
    forall n | Named(d.classes, objects, n) ensures lookup(n).Some? {
      var k :| 0 <= k < |objects| && NameOf(d.classes, objects[k]) == Some(n);
      OneClassId(done[k], done[k].classId.value);
      assert done[k] in d.proxies;
    }
  }

  /** From the materials that the closures name to those that are written, or nothing. */
  type MaterialChoice = seq<u32> -> Option<seq<u32>>

  /** Collection, the choice of materials and renumbering, as the export performs them for proxies; refused only
      for a stated reason. */
  method ExportProxies(d: Drawing, lookup: Lookup, choose: MaterialChoice)
    returns (ok: bool, out: seq<RawObject>, classes: seq<DxfClass>, named: seq<u32>, materials: seq<u32>,
             ghost done: seq<Proxy>, ghost ids: map<string, int>)
    requires ReturnsRequestedName(lookup) && d.hasStorage
    ensures ok ==> Collectable(d) && Nameable(d) && Exported(d, done, out, |materials|, ids, classes)
    ensures ok ==> choose(named) == Some(materials)
    ensures !ok ==> !(Collectable(d) && Nameable(d) && Templates(d, lookup)) || choose(named).None?
  {
    out, classes, named, materials, done, ids := [], [], [], [], [], map[];
    var objects;
    ok, objects, named, done := CollectProxyObjects(d, [], []);
    if !ok {
      return;
    }
    var chosen := choose(named);
    if chosen.None? {
      ok := false;
      return;
    }
    materials := chosen.value;
    assert objects == RawsOf(done);
    CollectedAreNameable(d, done);
    ok, out, classes, ids := RenumberClasses(d.classes, d.proxies, objects, materials, lookup);
    if ok {
      RenumberedIsExported(d, done, out, |materials|, ids, classes);
    } else if Nameable(d) && Templates(d, lookup) {
      CollectedCanBeRenumbered(d, done);
      CollectedHasTemplates(d, done, |materials|, lookup);
    }
  }
}
