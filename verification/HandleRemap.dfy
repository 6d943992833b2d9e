/** The handle plan of a DXF export: what is reserved, and the fresh handles that replace extension
    objects whose source handle is one of the writer's fixed literals. */
module HandleRemap {
  import opened Words
  import opened HandleAllocators
  import opened Lists

  const FIXED_HANDLES: set<u32> := {
    0x1, 0x2, 0x3, 0x5, 0x6, 0x7, 0x8, 0x9, 0xA, 0xC, 0xD, 0x10, 0x12, 0x14, 0x15, 0x16,
    0x1C, 0x1D, 0x1E, 0x1F, 0x20, 0x21}

  /** Every handle list the export looks at, in the order it looks at them. */
  datatype ExportHandles = ExportHandles(
    dictionaries: seq<u32>, xRecords: seq<u32>, rawProxies: seq<u32>, evaluationGraphs: seq<u32>,
    hasDataStorage: bool, historyObjects: seq<u32>, typedObjects: seq<u32>, typedGraphs: seq<u32>,
    materials: seq<u32>, extensionDictionaries: seq<u32>, extensionXRecords: seq<u32>)
  {
    /** The lists whose members must be pairwise distinct. */
    ghost function Claims(): seq<u32> {
      rawProxies
      + (if hasDataStorage then historyObjects + typedObjects + typedGraphs else evaluationGraphs)
    }

    /** What the export refuses before it mints anything: repeated claims, zero claims, the last handle. */
    ghost predicate Accepted() {
      && Distinct(Claims()) && 0 !in rawProxies && U32_MAX !in Claims()
      && U32_MAX !in dictionaries && U32_MAX !in xRecords
      && if hasDataStorage then 0 !in typedObjects && 0 !in typedGraphs && U32_MAX !in materials
         else 0 !in evaluationGraphs
    }

    /** Every handle the export reserves before it mints one. */
    ghost function Kept(): set<u32> {
      Listed(dictionaries, true) + Listed(xRecords, true) + Listed(rawProxies, false)
      + (if hasDataStorage then
           Listed(historyObjects, false) + Listed(typedObjects, false) + Listed(typedGraphs, false)
           + Listed(materials, false)
         else Listed(evaluationGraphs, false))
    }

    ghost function Replaced(): set<u32> {
      FixedAmong(extensionDictionaries, FIXED_HANDLES) + FixedAmong(extensionXRecords, FIXED_HANDLES)
    }
  }

  ghost function Listed(handles: seq<u32>, skipZero: bool): set<u32> {
    set h | h in handles && !(skipZero && h == 0)
  }

  ghost function FixedAmong(handles: seq<u32>, fixed: set<u32>): set<u32> {
    set h | h in handles && h in fixed
  }

  ghost predicate Injective(m: map<u32, u32>) {
    forall a, b :: a in m && b in m && m[a] == m[b] ==> a == b
  }

  /** No replacement is a canonical low handle or a handle that was spoken for before minting began. */
  ghost predicate Avoids(m: map<u32, u32>, taken: set<u32>) {
    forall a :: a in m ==> m[a] >= FIRST_USER_HANDLE && m[a] !in taken
  }

  function Rename(m: map<u32, u32>, h: u32): u32 {
    if h in m then m[h] else h
  }

  lemma FixedHandlesAreLow(h: u32)
    requires h in FIXED_HANDLES
    ensures h < FIRST_USER_HANDLE
  {
  }

  /** After the remap, distinct source and fixed handles stay distinct. */
  lemma RenameIsInjective(m: map<u32, u32>, taken: set<u32>, a: u32, b: u32)
    requires Injective(m) && Avoids(m, taken)
    requires a in taken + FIXED_HANDLES && b in taken + FIXED_HANDLES
    ensures Rename(m, a) == Rename(m, b) ==> a == b
  {
    if a !in taken {
      FixedHandlesAreLow(a);
    }
    if b !in taken {
      FixedHandlesAreLow(b);
    }
    if a in m && b !in m {
      assert m[a] != b;
    } else if b in m && a !in m {
      assert m[b] != a;
    }
  }

  method ReserveListed(alloc: HandleAllocator, handles: seq<u32>, skipZero: bool) returns (ok: bool)
    requires alloc.Valid()
    modifies alloc
    ensures alloc.Valid() && alloc.minted == old(alloc.minted)
    ensures ok <==> U32_MAX !in handles
    ensures old(alloc.reserved) <= alloc.reserved
    ensures ok ==> alloc.reserved == old(alloc.reserved) + Listed(handles, skipZero)
  {
    var i := 0;
    while i < |handles|
      invariant 0 <= i <= |handles|
      invariant alloc.Valid() && alloc.minted == old(alloc.minted)
      invariant U32_MAX !in handles[..i]
      invariant alloc.reserved == old(alloc.reserved) + Listed(handles[..i], skipZero)
    {
      if !(skipZero && handles[i] == 0) {
        ok := alloc.Reserve(handles[i]);
        if !ok {
          return false;
        }
      }
      TakeNext(handles, i);
      i := i + 1;
    }
    assert handles[..i] == handles;
    return true;
  }

  method ReserveDistinct(alloc: HandleAllocator, handles: seq<u32>, rejectZero: bool, seen: set<u32>)
    returns (ok: bool, seen': set<u32>)
    requires alloc.Valid()
    modifies alloc
    ensures alloc.Valid() && alloc.minted == old(alloc.minted)
    ensures ok <==> Distinct(handles) && U32_MAX !in handles && !(rejectZero && 0 in handles)
                    && forall h :: h in handles ==> h !in seen
    ensures old(alloc.reserved) <= alloc.reserved
    ensures ok ==> alloc.reserved == old(alloc.reserved) + Listed(handles, false)
    ensures ok ==> seen' == seen + Listed(handles, false)
  {
    seen' := seen;
    var i := 0;
    while i < |handles|
      invariant 0 <= i <= |handles|
      invariant alloc.Valid() && alloc.minted == old(alloc.minted)
      invariant Distinct(handles[..i]) && U32_MAX !in handles[..i] && !(rejectZero && 0 in handles[..i])
      invariant forall h :: h in handles[..i] ==> h !in seen
      invariant seen' == seen + Listed(handles[..i], false)
      invariant alloc.reserved == old(alloc.reserved) + Listed(handles[..i], false)
    {
      if (rejectZero && handles[i] == 0) || handles[i] in seen' {
        if handles[i] !in seen && !(rejectZero && handles[i] == 0) {
          assert handles[i] in handles[..i];
        }
        return false, seen';
      }
      seen' := seen' + {handles[i]};
      ok := alloc.Reserve(handles[i]);
      if !ok {
        return false, seen';
      }
      TakeNext(handles, i);
      i := i + 1;
    }
    assert handles[..i] == handles;
    ok := true;
  }

  /** allocHandle followed by reserveHandle on its result. */
  method MintReserved(alloc: HandleAllocator) returns (ok: bool, h: u32)
    requires alloc.Valid()
    modifies alloc
    ensures alloc.Valid() && old(alloc.reserved) <= alloc.reserved
    ensures ok <==> old(alloc.next) < U32_MAX
    ensures !ok ==> alloc.next == U32_MAX
    ensures ok ==> alloc.reserved == old(alloc.reserved) + {h}
    ensures ok ==> h >= FIRST_USER_HANDLE && h !in old(alloc.reserved + alloc.minted)
  {
    h := 0;
    var out := alloc.Next();
    if !out.Minted? || out.h == 0 {
      return false, h;
    }
    h := out.h;
    ok := alloc.Reserve(h);
  }

  /** One of the two minting loops: each listed fixed handle gets a fresh, then reserved, replacement. */
  method MintReplacements(alloc: HandleAllocator, handles: seq<u32>, fixed: set<u32>, remap: map<u32, u32>,
                          ghost taken: set<u32>)
    returns (ok: bool, remap': map<u32, u32>)
    requires alloc.Valid() && taken <= alloc.reserved
    requires Injective(remap) && Avoids(remap, taken) && remap.Values <= alloc.reserved
    modifies alloc
    ensures alloc.Valid() && taken <= alloc.reserved
    ensures ok ==> Injective(remap') && Avoids(remap', taken) && remap'.Values <= alloc.reserved
    ensures ok ==> remap'.Keys == remap.Keys + FixedAmong(handles, fixed)
    ensures ok ==> forall h :: h in remap ==> remap'[h] == remap[h]
    ensures !ok ==> alloc.next == U32_MAX
  {
    remap' := remap;
    var i := 0;
    while i < |handles|
      invariant 0 <= i <= |handles|
      invariant alloc.Valid() && taken <= alloc.reserved
      invariant Injective(remap') && Avoids(remap', taken) && remap'.Values <= alloc.reserved
      invariant remap'.Keys == remap.Keys + FixedAmong(handles[..i], fixed)
      invariant forall h :: h in remap ==> remap'[h] == remap[h]
    {
      if handles[i] in fixed {
        var replacement;
        ok, replacement := MintReserved(alloc);
        if !ok {
          return;
        }
        if handles[i] !in remap' {
          remap' := Extend(remap', taken, handles[i], replacement);
        }
      }
      TakeNext(handles, i);
      i := i + 1;
    }
    assert handles[..i] == handles;
    ok := true;
  }

  function Extend(m: map<u32, u32>, ghost taken: set<u32>, h: u32, replacement: u32): (m': map<u32, u32>)
    requires Injective(m) && Avoids(m, taken) && h !in m && replacement !in m.Values
    requires replacement >= FIRST_USER_HANDLE && replacement !in taken
    ensures Injective(m') && Avoids(m', taken)
    ensures m'.Keys == m.Keys + {h} && m'.Values <= m.Values + {replacement}
    ensures forall a :: a in m ==> m'[a] == m[a]
  {
    assert forall a :: a in m ==> m[a] in m.Values;
    m[h := replacement]
  }

  ghost predicate Apart(handles: seq<u32>, seen: set<u32>) {
    Distinct(handles) && U32_MAX !in handles && forall h :: h in handles ==> h !in seen
  }

  /** Claims that go one after the other. */
  lemma ClaimsSplit(front: seq<u32>, more: seq<u32>)
    ensures Distinct(front + more) && U32_MAX !in front + more
            <==> Distinct(front) && U32_MAX !in front && Apart(more, Listed(front, false))
  {
    if Distinct(front + more) {
      DistinctPrefix(front, more);
      DistinctSuffix(front, more);
    }
    if Distinct(front) && Apart(more, Listed(front, false)) {
      DistinctConcat(front, more);
    }
  }

  lemma ListedConcat(front: seq<u32>, more: seq<u32>)
    ensures Listed(front + more, false) == Listed(front, false) + Listed(more, false)
  {
  }

  ghost predicate StorageAccepted(e: ExportHandles) {
    && var all := e.rawProxies + e.historyObjects + e.typedObjects + e.typedGraphs;
    && Distinct(all) && U32_MAX !in all && 0 !in e.typedObjects && 0 !in e.typedGraphs && U32_MAX !in e.materials
  }

  method ReserveStorageObjects(alloc: HandleAllocator, e: ExportHandles, seen: set<u32>) returns (ok: bool)
    requires alloc.Valid() && seen == Listed(e.rawProxies, false)
    requires Distinct(e.rawProxies) && U32_MAX !in e.rawProxies
    modifies alloc
    ensures alloc.Valid() && alloc.minted == old(alloc.minted)
    ensures ok <==> StorageAccepted(e)
    ensures ok ==> alloc.reserved == old(alloc.reserved) + Listed(e.historyObjects, false)
                     + Listed(e.typedObjects, false) + Listed(e.typedGraphs, false) + Listed(e.materials, false)
  {
    ClaimsSplit(e.rawProxies, e.historyObjects);
    ClaimsSplit(e.rawProxies + e.historyObjects, e.typedObjects);
    ClaimsSplit(e.rawProxies + e.historyObjects + e.typedObjects, e.typedGraphs);
    ListedConcat(e.rawProxies, e.historyObjects);
    ListedConcat(e.rawProxies + e.historyObjects, e.typedObjects);
    var seen' := seen;
    ok, seen' := ReserveDistinct(alloc, e.historyObjects, false, seen');
    if !ok { return; }
    ok, seen' := ReserveDistinct(alloc, e.typedObjects, true, seen');
    if !ok { return; }
    ok, seen' := ReserveDistinct(alloc, e.typedGraphs, true, seen');
    if !ok { return; }
    ok := ReserveListed(alloc, e.materials, false);
  }

  /** All reservations, in the export's order. */
  method ReserveSources(alloc: HandleAllocator, e: ExportHandles) returns (ok: bool)
    requires alloc.Valid()
    modifies alloc
    ensures alloc.Valid()
    ensures ok <==> e.Accepted()
    ensures ok ==> alloc.reserved == old(alloc.reserved) + e.Kept()
  {
    ghost var rest :=
      if e.hasDataStorage then e.historyObjects + e.typedObjects + e.typedGraphs else e.evaluationGraphs;
    assert e.Claims() == e.rawProxies + rest;
    ClaimsSplit(e.rawProxies, rest);
    ok := ReserveListed(alloc, e.dictionaries, true);
    if !ok { return; }
    ok := ReserveListed(alloc, e.xRecords, true);
    if !ok { return; }
    var seen: set<u32>;
    ok, seen := ReserveDistinct(alloc, e.rawProxies, true, {});
    if !ok { return; }
    if e.hasDataStorage {
      assert e.Claims() == e.rawProxies + e.historyObjects + e.typedObjects + e.typedGraphs;
      ok := ReserveStorageObjects(alloc, e, seen);
    } else {
      ok, seen := ReserveDistinct(alloc, e.evaluationGraphs, true, seen);
    }
  }

  /** Reservation and minting, as the export performs them on its writer's allocator. */
  method PlanHandles(alloc: HandleAllocator, e: ExportHandles) returns (ok: bool, remap: map<u32, u32>)
    requires alloc.Valid()
    modifies alloc
    ensures alloc.Valid()
    ensures ok ==> remap.Keys == e.Replaced()
    ensures ok ==> Injective(remap) && Avoids(remap, old(alloc.reserved) + e.Kept())
    ensures ok ==> e.Accepted()
    ensures !ok ==> !e.Accepted() || alloc.next == U32_MAX
    ensures ok ==> old(alloc.reserved) + e.Kept() + remap.Values <= alloc.reserved
  {
    remap := map[];
    ok := ReserveSources(alloc, e);
    if !ok { return; }
    ghost var taken := old(alloc.reserved) + e.Kept();
    ok, remap := MintReplacements(alloc, e.extensionDictionaries, FIXED_HANDLES, remap, taken);
    if !ok { return; }
    ok, remap := MintReplacements(alloc, e.extensionXRecords, FIXED_HANDLES, remap, taken);
  }
}
