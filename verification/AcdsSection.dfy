/** The projection of DataStorage onto an ACDSDATA section: every linked modeler has its record, every record its
    modeler, and the section that is written says so. */
module AcdsSection {
  import opened Words
  import opened Lists
  import opened ProxyObjects
  import opened AcdsGroups
  import DataStorage
  import P = ProxyHistory

  const AC1027: int := 1027
  const STORAGE_NAME: string := "AcDb:AcDsPrototype_1b"

  /** An entity as far as the projection looks at it. */
  datatype Modeler = Modeler(
    handle: u32, kind: P.Kind, hasRecord: bool, hasBinary: bool, isEmpty: bool, hasModelerData: bool,
    acisPayload: seq<u8>, storageHandle: u64, storageKey: string, data: seq<u8>)

  datatype Storage = Storage(
    name: string, version: int, parseFailed: bool, structurallyValid: bool, replayAllowed: bool,
    payloadsRetained: bool, duplicateKeys: seq<string>, orphans: nat, records: seq<Record>)

  datatype Section = Section(name: string, version: int, groups: seq<Group>)

  /** "ACIS BinaryFile" */
  const SAB_SIGNATURE: seq<u8> :=
    [0x41, 0x43, 0x49, 0x53, 0x20, 0x42, 0x69, 0x6E, 0x61, 0x72, 0x79, 0x46, 0x69, 0x6C, 0x65]

  const PNG_SIGNATURE: seq<u8> := [0x89, 0x50, 0x4E, 0x47, 0x0D, 0x0A, 0x1A, 0x0A]

  // ---------------------------------------------------------------------------------------------
  // Linked modelers

  predicate Carries(m: Modeler) {
    m.hasRecord || m.hasBinary || m.data != []
  }

  const CARRIES: Modeler -> bool := (m: Modeler) => Carries(m)

  function Linked(blocks: seq<seq<Modeler>>): seq<Modeler> {
    KeptOf(blocks, CARRIES)
  }

  ghost function HandlesOf(ms: seq<Modeler>): (hs: seq<u32>)
    ensures |hs| == |ms|
  {
    seq(|ms|, i requires 0 <= i < |ms| => ms[i].handle)
  }

  /** Solids and regions with distinct handles. */
  ghost predicate LinkedFit(ms: seq<Modeler>) {
    && (forall k :: 0 <= k < |ms| ==> ms[k].kind != P.OtherKind)
    && 0 !in HandlesOf(ms) && Distinct(HandlesOf(ms))
  }

  lemma LinkedFitNext(ms: seq<Modeler>, m: Modeler)
    requires LinkedFit(ms)
    ensures HandlesOf(ms + [m]) == HandlesOf(ms) + [m.handle]
    ensures LinkedFit(ms + [m]) <==> m.kind != P.OtherKind && m.handle != 0 && m.handle !in HandlesOf(ms)
  {
    var more := ms + [m];
    assert HandlesOf(more) == HandlesOf(ms) + [m.handle];
    DistinctNext(HandlesOf(ms), m.handle);
    assert more[|ms|] == m && HandlesOf(more)[|ms|] == m.handle;
    assert forall k :: 0 <= k < |ms| ==> more[k] == ms[k];
  }

  lemma LinkedFitPrefix(a: seq<Modeler>, b: seq<Modeler>)
    requires LinkedFit(a + b)
    ensures LinkedFit(a)
  {
    assert HandlesOf(a + b) == HandlesOf(a) + HandlesOf(b);
    DistinctPrefix(HandlesOf(a), HandlesOf(b));
    forall k | 0 <= k < |a| ensures a[k].kind != P.OtherKind && HandlesOf(a)[k] != 0 {
      assert (a + b)[k] == a[k] && HandlesOf(a + b)[k] in HandlesOf(a + b);
    }
  }

  lemma MisfitStays(a: seq<Modeler>, b: seq<Modeler>)
    requires !LinkedFit(a) && a <= b
    ensures !LinkedFit(b)
  {
    assert b == a + b[|a|..];
    if LinkedFit(b) {
      LinkedFitPrefix(a, b[|a|..]);
    }
  }

  /** What does not fit after an entity does not fit after its block. */
  lemma RefusalStays(linked: seq<Modeler>, block: seq<Modeler>, j: nat)
    requires j < |block| && Carries(block[j]) && !LinkedFit(linked + Kept(block[..j], CARRIES) + [block[j]])
    ensures !LinkedFit(linked + Kept(block, CARRIES))
  {
    var now := Kept(block[..j], CARRIES) + [block[j]];
    assert block[..j + 1][..j] == block[..j];
    KeptPrefix(block, CARRIES, j + 1);
    assert linked + Kept(block[..j], CARRIES) + [block[j]] == linked + now <= linked + Kept(block, CARRIES);
    MisfitStays(linked + now, linked + Kept(block, CARRIES));
  }

  /** One block; a wrong kind or a repeated handle stops the inspection. */
  method InspectBlock(block: seq<Modeler>, linked: seq<Modeler>, handles: set<u32>)
    returns (ok: bool, linked': seq<Modeler>, handles': set<u32>)
    requires LinkedFit(linked) && handles == Elements(HandlesOf(linked))
    ensures ok <==> LinkedFit(linked + Kept(block, CARRIES))
    ensures ok ==> linked' == linked + Kept(block, CARRIES) && handles' == Elements(HandlesOf(linked'))
  {
    linked', handles' := linked, handles;
    assert linked + [] == linked;
    for j := 0 to |block|
      invariant linked' == linked + Kept(block[..j], CARRIES)
      invariant LinkedFit(linked') && handles' == Elements(HandlesOf(linked'))
    {
      var m := block[j];
      assert block[..j + 1][..j] == block[..j];
      ConcatAssociates(linked, Kept(block[..j], CARRIES), if Carries(m) then [m] else []);
      assert linked' + [] == linked';
      if Carries(m) {
        LinkedFitNext(linked', m);
        if m.kind == P.OtherKind || m.handle == 0 || m.handle in handles' {
          RefusalStays(linked, block, j);
          return false, linked', handles';
        }
        linked', handles' := linked' + [m], handles' + {m.handle};
      }
    }
    assert block[..|block|] == block;
    ok := true;
  }

  method InspectBlocks(blocks: seq<seq<Modeler>>) returns (ok: bool, linked: seq<Modeler>)
    ensures ok <==> LinkedFit(Linked(blocks))
    ensures ok ==> linked == Linked(blocks)
  {
    linked := [];
    var handles: set<u32> := {};
    for i := 0 to |blocks|
      invariant linked == Linked(blocks[..i]) && LinkedFit(linked) && handles == Elements(HandlesOf(linked))
    {
      assert blocks[..i + 1][..i] == blocks[..i];
      ghost var more := linked + Kept(blocks[i], CARRIES);
      ok, linked, handles := InspectBlock(blocks[i], linked, handles);
      if !ok {
        KeptOfPrefix(blocks, CARRIES, i + 1);
        assert Linked(blocks) == more + Linked(blocks)[|more|..];
        if LinkedFit(Linked(blocks)) {
          LinkedFitPrefix(more, Linked(blocks)[|more|..]);
        }
        return;
      }
    }
    assert blocks[..|blocks|] == blocks;
    ok := true;
  }

  // ---------------------------------------------------------------------------------------------
  // Modelers and records

  predicate ModelerFits(m: Modeler) {
    && m.hasBinary && m.hasRecord && !m.isEmpty && m.hasModelerData && m.acisPayload == []
    && m.storageHandle == m.handle && m.storageKey != ""
    && 0 < |m.data| <= DataStorage.PAYLOAD_BLOB_SECTION_CAP && SAB_SIGNATURE <= m.data
  }

  predicate RecordFits(r: Record) {
    && r.isHandleSafe && r.blob.None? && r.handle != 0 && r.handleKey != ""
    && 0 < |r.payload| <= DataStorage.PAYLOAD_BLOB_SECTION_CAP && r.dataByteLength == |r.payload|
  }

  predicate IsThumbnail(roles: Roles, r: Record) {
    r.schemaIndex == roles.thumbnail && r.payloadMarker.None? && PNG_SIGNATURE <= r.payload
  }

  predicate IsModelerRecord(roles: Roles, r: Record) {
    && r.schemaIndex == roles.modeler && r.payloadMarker.Some? && r.payloadMarker.value.length != 0
    && r.payloadMarker.value.offset <= |r.payload|
    && r.payloadMarker.value.length <= |r.payload| - r.payloadMarker.value.offset && r.handle <= U32_MAX
  }

  /** The modeler that owns a record: its handle, its key and its payload. */
  predicate Owns(m: Modeler, r: Record) {
    m.handle == r.handle && m.storageKey == r.handleKey && m.data == r.payload && SAB_SIGNATURE <= r.payload
  }

  datatype Role = Refused | Thumbnail | OwnedBy(handle: u32)

  ghost function RoleOf(roles: Roles, linked: seq<Modeler>, r: Record): Role {
    if !RecordFits(r) then Refused
    else if IsThumbnail(roles, r) then Thumbnail
    else if IsModelerRecord(roles, r) && exists k :: 0 <= k < |linked| && Owns(linked[k], r) then OwnedBy(r.handle)
    else Refused
  }

  ghost predicate Index(byHandle: map<u32, Modeler>, linked: seq<Modeler>) {
    && (forall h :: h in byHandle ==> byHandle[h] in linked && byHandle[h].handle == h)
    && (forall k :: 0 <= k < |linked| ==> linked[k].handle in byHandle && byHandle[linked[k].handle] == linked[k])
  }

  lemma FreshHandle(linked: seq<Modeler>, i: nat, byHandle: map<u32, Modeler>)
    requires i < |linked| && LinkedFit(linked) && Index(byHandle, linked[..i])
    ensures linked[i].handle !in byHandle
  {
    forall k | 0 <= k < i ensures linked[..i][k].handle != linked[i].handle {
      assert HandlesOf(linked)[k] != HandlesOf(linked)[i];
    }
  }

  lemma IndexNext(byHandle: map<u32, Modeler>, linked: seq<Modeler>, m: Modeler)
    requires Index(byHandle, linked) && m.handle !in byHandle
    ensures Index(byHandle[m.handle := m], linked + [m])
  {
  }

  /** Linked modelers have distinct handles already, so no handle is found twice here. */
  method IndexModelers(linked: seq<Modeler>) returns (ok: bool, byHandle: map<u32, Modeler>)
    requires LinkedFit(linked)
    ensures ok <==> forall k :: 0 <= k < |linked| ==> ModelerFits(linked[k])
    ensures ok ==> Index(byHandle, linked)
  {
    byHandle := map[];
    for i := 0 to |linked|
      invariant Index(byHandle, linked[..i]) && forall k :: 0 <= k < i ==> ModelerFits(linked[k])
    {
      if !ModelerFits(linked[i]) {
        return false, byHandle;
      }
      FreshHandle(linked, i, byHandle);
      if linked[i].handle in byHandle {
        assert false;
      }
      IndexNext(byHandle, linked[..i], linked[i]);
      assert linked[..i] + [linked[i]] == linked[..i + 1];
      byHandle := byHandle[linked[i].handle := linked[i]];
    }
    assert linked[..|linked|] == linked;
    ok := true;
  }

  method CheckRecord(roles: Roles, ghost linked: seq<Modeler>, byHandle: map<u32, Modeler>, r: Record)
    returns (role: Role)
    requires Index(byHandle, linked)
    ensures role == RoleOf(roles, linked, r)
  {
    if !RecordFits(r) {
      return Refused;
    }
    if IsThumbnail(roles, r) {
      return Thumbnail;
    }
    if !IsModelerRecord(roles, r) {
      return Refused;
    }
    if r.handle in byHandle && Owns(byHandle[r.handle], r) {
      role := OwnedBy(r.handle);
    } else {
      role := Refused;
    }
  }

  // ---------------------------------------------------------------------------------------------
  // All records

  ghost function Keys(records: seq<Record>): (keys: seq<string>)
    ensures |keys| == |records|
  {
    seq(|records|, i requires 0 <= i < |records| => records[i].handleKey)
  }

  /** The owners of the modeler records, in order. */
  ghost function Owners(roles: Roles, linked: seq<Modeler>, records: seq<Record>): seq<u32> {
    if records == [] then []
    else
      var role := RoleOf(roles, linked, records[|records| - 1]);
      Owners(roles, linked, records[..|records| - 1]) + (if role.OwnedBy? then [role.handle] else [])
  }

  ghost function Thumbnails(roles: Roles, linked: seq<Modeler>, records: seq<Record>): nat {
    if records == [] then 0
    else Thumbnails(roles, linked, records[..|records| - 1])
         + (if RoleOf(roles, linked, records[|records| - 1]).Thumbnail? then 1 else 0)
  }

  /** No key and no owner comes twice, and no record is refused. */
  ghost predicate RecordsFit(roles: Roles, linked: seq<Modeler>, records: seq<Record>) {
    && Distinct(Keys(records)) && Distinct(Owners(roles, linked, records))
    && forall k :: 0 <= k < |records| ==> RoleOf(roles, linked, records[k]) != Refused
  }

  lemma RecordsFitNext(roles: Roles, linked: seq<Modeler>, records: seq<Record>, r: Record)
    requires RecordsFit(roles, linked, records)
    ensures Keys(records + [r]) == Keys(records) + [r.handleKey]
    ensures (records + [r])[..|records|] == records
    ensures var role := RoleOf(roles, linked, r);
            RecordsFit(roles, linked, records + [r]) <==>
              && r.handleKey !in Keys(records) && role != Refused
              && (role.OwnedBy? ==> role.handle !in Owners(roles, linked, records))
  {
    var more := records + [r];
    assert more[..|records|] == records && more[|records|] == r;
    assert Keys(more) == Keys(records) + [r.handleKey];
    DistinctNext(Keys(records), r.handleKey);
    var owners := Owners(roles, linked, records);
    DistinctNext(owners, if RoleOf(roles, linked, r).OwnedBy? then RoleOf(roles, linked, r).handle else 0);
    assert owners + [] == owners;
    assert forall k :: 0 <= k < |records| ==> more[k] == records[k];
  }

  lemma {:induction false} OwnersPrefix(roles: Roles, linked: seq<Modeler>, records: seq<Record>, i: nat)
    requires i <= |records|
    ensures Owners(roles, linked, records[..i]) <= Owners(roles, linked, records)
    decreases |records|
  {
    var n := |records| - 1;
    if i <= n {
      assert records[..n][..i] == records[..i];
      OwnersPrefix(roles, linked, records[..n], i);
    } else {
      assert records[..i] == records;
    }
  }

  lemma RecordsFitPrefix(roles: Roles, linked: seq<Modeler>, records: seq<Record>, i: nat)
    requires i <= |records| && RecordsFit(roles, linked, records)
    ensures RecordsFit(roles, linked, records[..i])
  {
    OwnersPrefix(roles, linked, records, i);
    var some, all := Owners(roles, linked, records[..i]), Owners(roles, linked, records);
    assert all == some + all[|some|..];
    DistinctPrefix(some, all[|some|..]);
    assert Keys(records) == Keys(records[..i]) + Keys(records[i..]) by {
      assert records == records[..i] + records[i..];
    }
    DistinctPrefix(Keys(records[..i]), Keys(records[i..]));
  }

  /** The records seen so far fit; their keys, owners and thumbnails are counted. */
  ghost predicate Tallied(roles: Roles, linked: seq<Modeler>, seen: seq<Record>, keys: set<string>,
                          matched: set<u32>, thumbnails: nat) {
    && RecordsFit(roles, linked, seen) && keys == Elements(Keys(seen))
    && matched == Elements(Owners(roles, linked, seen)) && thumbnails == Thumbnails(roles, linked, seen)
  }

  predicate Stops(keys: set<string>, matched: set<u32>, r: Record, role: Role) {
    r.handleKey in keys || role.Refused? || (role.OwnedBy? && role.handle in matched)
  }

  lemma TalliedNext(roles: Roles, linked: seq<Modeler>, seen: seq<Record>, keys: set<string>, matched: set<u32>,
                    thumbnails: nat, r: Record)
    requires Tallied(roles, linked, seen, keys, matched, thumbnails)
    ensures var role := RoleOf(roles, linked, r);
            if Stops(keys, matched, r, role) then !RecordsFit(roles, linked, seen + [r])
            else Tallied(roles, linked, seen + [r], keys + {r.handleKey},
                         if role.OwnedBy? then matched + {role.handle} else matched,
                         if role.OwnedBy? then thumbnails else thumbnails + 1)
  {
    RecordsFitNext(roles, linked, seen, r);
  }

  /** Counts thumbnails and matched modelers; fails exactly if the records do not fit. */
  method CheckRecords(roles: Roles, ghost linked: seq<Modeler>, byHandle: map<u32, Modeler>, records: seq<Record>)
    returns (ok: bool, matched: set<u32>, thumbnails: nat)
    requires Index(byHandle, linked)
    ensures ok <==> RecordsFit(roles, linked, records)
    ensures ok ==> matched == Elements(Owners(roles, linked, records))
    ensures ok ==> thumbnails == Thumbnails(roles, linked, records)
  {
    var keys: set<string> := {};
    matched, thumbnails := {}, 0;
    for i := 0 to |records|
      invariant Tallied(roles, linked, records[..i], keys, matched, thumbnails)
    {
      var r := records[i];
      assert records[..i] + [r] == records[..i + 1];
      TalliedNext(roles, linked, records[..i], keys, matched, thumbnails, r);
      var role := CheckRecord(roles, linked, byHandle, r);
      if Stops(keys, matched, r, role) {
        if RecordsFit(roles, linked, records) {
          RecordsFitPrefix(roles, linked, records, i + 1);
        }
        return false, matched, thumbnails;
      }
      keys := keys + {r.handleKey};
      if role.Thumbnail? {
        thumbnails := thumbnails + 1;
      } else {
        matched := matched + {role.handle};
      }
    }
    assert records[..|records|] == records;
    ok := true;
  }

  // ---------------------------------------------------------------------------------------------
  // What is accepted

  /** What the storage must be for its records to be looked at. */
  ghost predicate Qualified(storage: Storage, outputVersion: int, sections: seq<Section>) {
    && outputVersion == AC1027 && (forall k :: 0 <= k < |sections| ==> !IsAcdsName(sections[k].name))
    && storage.name == STORAGE_NAME && storage.version == AC1027 && !storage.parseFailed
    && storage.structurallyValid && storage.replayAllowed && storage.payloadsRetained && storage.duplicateKeys == []
  }

  predicate IsAcdsName(name: string) {
    name == "ACDSDATA" || name == "acdsdata"
  }

  /** Fitting modelers and records, each modeler owning one, and no orphan but thumbnails. */
  ghost predicate Accepted(roles: Roles, linked: seq<Modeler>, storage: Storage) {
    && (forall k :: 0 <= k < |linked| ==> ModelerFits(linked[k]))
    && RecordsFit(roles, linked, storage.records)
    && (forall k :: 0 <= k < |linked| ==> linked[k].handle in Owners(roles, linked, storage.records))
    && storage.orphans == Thumbnails(roles, linked, storage.records)
  }

  /** An owner is a linked modeler that owns one of the records. */
  lemma {:induction false} OwnerOwnsRecord(roles: Roles, linked: seq<Modeler>, records: seq<Record>, h: u32)
    returns (m: nat, k: nat)
    requires h in Owners(roles, linked, records)
    ensures m < |linked| && k < |records| && linked[m].handle == h && Owns(linked[m], records[k])
    ensures RoleOf(roles, linked, records[k]) == OwnedBy(h)
  {
    var n := |records| - 1;
    if h in Owners(roles, linked, records[..n]) {
      m, k := OwnerOwnsRecord(roles, linked, records[..n], h);
    } else {
      k := n;
      m :| 0 <= m < |linked| && Owns(linked[m], records[k]);
    }
  }

  /** Every record of a fitting list is a thumbnail or has an owner. */
  lemma {:induction false} RecordsAreCounted(roles: Roles, linked: seq<Modeler>, records: seq<Record>)
    requires forall k :: 0 <= k < |records| ==> RoleOf(roles, linked, records[k]) != Refused
    ensures |records| == |Owners(roles, linked, records)| + Thumbnails(roles, linked, records)
  {
    if records == [] {
    } else {
      RecordsAreCounted(roles, linked, records[..|records| - 1]);
    }
  }

  lemma OwnersAreLinked(roles: Roles, linked: seq<Modeler>, records: seq<Record>)
    ensures forall h :: h in Owners(roles, linked, records) ==> h in HandlesOf(linked)
  {
    forall h | h in Owners(roles, linked, records) ensures h in HandlesOf(linked) {
      var m, k := OwnerOwnsRecord(roles, linked, records, h);
      assert HandlesOf(linked)[m] == h;
    }
  }

  /** The three counts at the end say just that every modeler owns a record and every orphan is a thumbnail. */
  lemma CountsDecide(roles: Roles, linked: seq<Modeler>, storage: Storage)
    requires LinkedFit(linked) && RecordsFit(roles, linked, storage.records)
    requires forall k :: 0 <= k < |linked| ==> ModelerFits(linked[k])
    ensures var owners := Owners(roles, linked, storage.records);
            var thumbnails := Thumbnails(roles, linked, storage.records);
            Accepted(roles, linked, storage) <==>
              && |owners| == |linked| && storage.orphans == thumbnails && |storage.records| == |linked| + thumbnails
  {
    var owners, handles := Owners(roles, linked, storage.records), HandlesOf(linked);
    OwnersAreLinked(roles, linked, storage.records);
    RecordsAreCounted(roles, linked, storage.records);
    if |owners| == |linked| {
      SameElements(owners, handles);
      assert forall k :: 0 <= k < |linked| ==> handles[k] == linked[k].handle;
    }
    if Accepted(roles, linked, storage) {
      DistinctCount(owners);
      DistinctCount(handles);
      forall h | h in handles ensures h in owners {
        var k :| 0 <= k < |handles| && handles[k] == h;
        assert linked[k].handle == h;
      }
      assert Elements(owners) == Elements(handles);
    }
  }

  /** The record at k is owned by the modeler at m: same handle, same key, same payload. */
  ghost predicate Matched(roles: Roles, linked: seq<Modeler>, records: seq<Record>, m: int, k: int) {
    && 0 <= m < |linked| && 0 <= k < |records|
    && !IsThumbnail(roles, records[k]) && Owns(linked[m], records[k])
  }

  lemma {:induction false} OwnersAreApart(roles: Roles, linked: seq<Modeler>, records: seq<Record>, j: nat, k: nat)
    requires j < k < |records| && Distinct(Owners(roles, linked, records))
    requires RoleOf(roles, linked, records[j]).OwnedBy? && RoleOf(roles, linked, records[k]).OwnedBy?
    ensures RoleOf(roles, linked, records[j]) != RoleOf(roles, linked, records[k])
    decreases |records|
  {
    var n := |records| - 1;
    var front := Owners(roles, linked, records[..n]);
    if k < n {
      OwnersPrefix(roles, linked, records, n);
      DistinctPrefix(front, Owners(roles, linked, records)[|front|..]);
      assert Owners(roles, linked, records) == front + Owners(roles, linked, records)[|front|..];
      OwnersAreApart(roles, linked, records[..n], j, k);
    } else {
      OwnerIsListed(roles, linked, records[..n], j);
      DistinctSuffix(front, [RoleOf(roles, linked, records[n]).handle]);
    }
  }

  lemma {:induction false} OwnerIsListed(roles: Roles, linked: seq<Modeler>, records: seq<Record>, j: nat)
    requires j < |records| && RoleOf(roles, linked, records[j]).OwnedBy?
    ensures RoleOf(roles, linked, records[j]).handle in Owners(roles, linked, records)
    decreases |records|
  {
    if j < |records| - 1 {
      OwnerIsListed(roles, linked, records[..|records| - 1], j);
    }
  }

  lemma ModelerHasRecord(roles: Roles, linked: seq<Modeler>, storage: Storage, m: nat) returns (k: nat)
    requires LinkedFit(linked) && Accepted(roles, linked, storage) && m < |linked|
    ensures Matched(roles, linked, storage.records, m, k)
  {
    var n;
    n, k := OwnerOwnsRecord(roles, linked, storage.records, linked[m].handle);
    assert HandlesOf(linked)[m] == HandlesOf(linked)[n];
  }

  lemma OneRecord(roles: Roles, linked: seq<Modeler>, storage: Storage, m: nat, j: nat, k: nat)
    requires Accepted(roles, linked, storage)
    requires Matched(roles, linked, storage.records, m, j) && Matched(roles, linked, storage.records, m, k)
    ensures j == k
  {
    if j != k {
      OwnersAreApart(roles, linked, storage.records, if j < k then j else k, if j < k then k else j);
    }
  }

  ghost predicate HasRecord(roles: Roles, linked: seq<Modeler>, records: seq<Record>, m: int) {
    exists k :: Matched(roles, linked, records, m, k)
  }

  ghost predicate HasOwner(roles: Roles, linked: seq<Modeler>, records: seq<Record>, k: int) {
    exists m :: Matched(roles, linked, records, m, k)
  }

  /** Modelers and modeler records correspond one to one. */
  ghost predicate OneToOne(roles: Roles, linked: seq<Modeler>, records: seq<Record>) {
    && (forall m :: 0 <= m < |linked| ==> HasRecord(roles, linked, records, m))
    && (forall k :: 0 <= k < |records| && !IsThumbnail(roles, records[k]) ==> HasOwner(roles, linked, records, k))
    && (forall m, j, k :: Matched(roles, linked, records, m, j) && Matched(roles, linked, records, m, k) ==> j == k)
    && (forall m, n, k :: Matched(roles, linked, records, m, k) && Matched(roles, linked, records, n, k) ==> m == n)
  }

  lemma AcceptedIsOneToOne(roles: Roles, linked: seq<Modeler>, storage: Storage)
    requires LinkedFit(linked) && Accepted(roles, linked, storage)
    ensures OneToOne(roles, linked, storage.records)
  {
    var records := storage.records;
    forall m | 0 <= m < |linked| ensures HasRecord(roles, linked, records, m) {
      var k := ModelerHasRecord(roles, linked, storage, m);
    }
    forall k | 0 <= k < |records| && !IsThumbnail(roles, records[k]) ensures HasOwner(roles, linked, records, k) {
      assert RoleOf(roles, linked, records[k]) != Refused;
      var m :| 0 <= m < |linked| && Owns(linked[m], records[k]);
      assert Matched(roles, linked, records, m, k);
    }
    forall m, j, k | Matched(roles, linked, records, m, j) && Matched(roles, linked, records, m, k) ensures j == k {
      OneRecord(roles, linked, storage, m, j, k);
    }
    forall m, n, k | Matched(roles, linked, records, m, k) && Matched(roles, linked, records, n, k) ensures m == n {
      assert HandlesOf(linked)[m] == HandlesOf(linked)[n];
    }
  }

  // ---------------------------------------------------------------------------------------------
  // The projection

  /** With no storage nothing may be linked; an idle storage needs no section; any other must be accepted. */
  ghost predicate Projectable(storages: seq<Storage>, roles: Option<Roles>, linked: seq<Modeler>, outputVersion: int,
                              sections: seq<Section>) {
    && LinkedFit(linked)
    && if storages == [] then linked == []
       else |storages| == 1
            && (Idle(storages[0], linked)
                || (Qualified(storages[0], outputVersion, sections) && roles.Some?
                    && Accepted(roles.value, linked, storages[0])))
  }

  predicate Idle(storage: Storage, linked: seq<Modeler>) {
    storage.records == [] && linked == []
  }

  method HasAcdsSection(sections: seq<Section>) returns (found: bool)
    ensures found <==> exists k :: 0 <= k < |sections| && IsAcdsName(sections[k].name)
  {
    for i := 0 to |sections|
      invariant forall k :: 0 <= k < i ==> !IsAcdsName(sections[k].name)
    {
      if IsAcdsName(sections[i].name) {
        return true;
      }
    }
    return false;
  }

  /** The checks of a qualified storage. */
  method CheckStorage(roles: Roles, linked: seq<Modeler>, storage: Storage) returns (ok: bool)
    requires LinkedFit(linked)
    ensures ok <==> Accepted(roles, linked, storage)
  {
    var byHandle, matched, thumbnails;
    ok, byHandle := IndexModelers(linked);
    if !ok {
      return;
    }
    ok, matched, thumbnails := CheckRecords(roles, linked, byHandle, storage.records);
    if ok {
      DistinctCount(Owners(roles, linked, storage.records));
      CountsDecide(roles, linked, storage);
      ok := |matched| == |linked| && storage.orphans == thumbnails && |storage.records| == |linked| + thumbnails;
    }
  }

  /** An accepted storage has no fewer records than there are modelers. */
  lemma EnoughRecords(roles: Roles, linked: seq<Modeler>, storage: Storage)
    requires LinkedFit(linked) && Accepted(roles, linked, storage)
    ensures |storage.records| >= |linked|
    ensures forall k :: 0 <= k < |storage.records| ==>
              |storage.records[k].payload| <= DataStorage.PAYLOAD_BLOB_SECTION_CAP
    ensures roles.thumbnail != roles.modeler ==> forall k :: 0 <= k < |storage.records| ==>
              (WrittenAsThumbnail(roles, storage.records[k]) <==> IsThumbnail(roles, storage.records[k]))
  {
    CountsDecide(roles, linked, storage);
    assert forall k :: 0 <= k < |storage.records| ==> RoleOf(roles, linked, storage.records[k]) != Refused;
  }

  /** The new section reads back as every record's key, role and payload, in order. */
  ghost predicate Projects(roles: Roles, storage: Storage, section: Section) {
    && section.name == "ACDSDATA" && section.version == AC1027
    && section.groups == SectionGroups(roles, storage.records)
    && DecodeSection(section.groups) == Some(seq(|storage.records|, i requires 0 <= i < |storage.records| =>
         Decoded(storage.records[i].handleKey, IsThumbnail(roles, storage.records[i]), storage.records[i].payload)))
  }

  lemma WrittenProjects(roles: Roles, linked: seq<Modeler>, storage: Storage)
    requires LinkedFit(linked) && Accepted(roles, linked, storage) && roles.thumbnail != roles.modeler
    ensures Projects(roles, storage, Section("ACDSDATA", AC1027, SectionGroups(roles, storage.records)))
  {
    EnoughRecords(roles, linked, storage);
    SectionDecodes(roles, storage.records);
    var meaning := seq(|storage.records|, i requires 0 <= i < |storage.records| =>
      Decoded(storage.records[i].handleKey, IsThumbnail(roles, storage.records[i]), storage.records[i].payload));
    assert meaning == Meaning(roles, storage.records);
  }

  /** Appends the section; the matcher's roles are never the same schema. */
  method AppendAcdsData(blocks: seq<seq<Modeler>>, storages: seq<Storage>, roles: Option<Roles>, outputVersion: int,
                        sections: seq<Section>)
    returns (ok: bool, sections': seq<Section>)
    requires roles.Some? ==> roles.value.thumbnail != roles.value.modeler
    ensures ok <==> Projectable(storages, roles, Linked(blocks), outputVersion, sections)
    ensures !ok || storages == [] || Idle(storages[0], Linked(blocks)) ==> sections' == sections
    ensures ok && storages != [] && !Idle(storages[0], Linked(blocks)) ==>
              && OneToOne(roles.value, Linked(blocks), storages[0].records)
              && |sections'| == |sections| + 1 && sections <= sections'
              && Projects(roles.value, storages[0], sections'[|sections|])
  {
    sections' := sections;
    var existing := HasAcdsSection(sections);
    var linked;
    ok, linked := InspectBlocks(blocks);
    if !ok {
      return;
    }
    if storages == [] {
      return linked == [], sections';
    }
    if |storages| != 1 {
      return false, sections';
    }
    var storage := storages[0];
    if Idle(storage, linked) {
      return;
    }
    ok := AcceptStorage(linked, storage, roles, outputVersion, sections, existing);
    if ok {
      AcceptedIsOneToOne(roles.value, linked, storage);
      EnoughRecords(roles.value, linked, storage);
      WrittenProjects(roles.value, linked, storage);
      var groups;
      ok, groups := WriteSection(roles.value, storage.records);
      sections' := sections + [Section("ACDSDATA", AC1027, groups)];
    }
  }

  method AcceptStorage(linked: seq<Modeler>, storage: Storage, roles: Option<Roles>, outputVersion: int,
                       ghost sections: seq<Section>, existing: bool)
    returns (ok: bool)
    requires LinkedFit(linked)
    requires existing <==> exists k :: 0 <= k < |sections| && IsAcdsName(sections[k].name)
    ensures ok <==> Qualified(storage, outputVersion, sections) && roles.Some? && Accepted(roles.value, linked, storage)
  {
    if existing || outputVersion != AC1027 || storage.name != STORAGE_NAME || storage.version != AC1027
      || storage.parseFailed || !storage.structurallyValid || !storage.replayAllowed || !storage.payloadsRetained
      || roles.None? || storage.duplicateKeys != [] {
      return false;
    }
    if |storage.records| < |linked| {
      if Accepted(roles.value, linked, storage) {
        EnoughRecords(roles.value, linked, storage);
      }
      return false;
    }
    ok := CheckStorage(roles.value, linked, storage);
  }
}
