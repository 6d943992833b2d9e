/** The schema-data segments: property names, opaque property headers and the referenced schemas. */
module DataStorageSchemaData {
  import opened Words
  import opened Formats
  import opened DataStorage
  import opened DataStorageSchemas
  import opened DataStorageSchemaReader
  import opened DataStorageSchemaIndex

  // ---------------------------------------------------------------------------------------------
  // The table of property names

  /** The text up to the first NUL, which must exist. */
  function TakeName(b: seq<u8>): Taken<string> {
    var text := UpTo(b, 0);
    if |text| < |b| then Took(ToText(text), b[|text| + 1..]) else Short
  }

  ghost function NameParser(): Parser<string> {
    (b: seq<u8>) => TakeName(b)
  }

  /** As many elements as there are, at most count. */
  ghost function TakeUpTo<T(!new)>(take: Parser<T>, b: seq<u8>, count: nat): (xs: seq<T>)
    ensures |xs| <= count
    decreases count
  {
    if count == 0 then []
    else
      match take(b)
      case Short => []
      case Took(x, rest) => [x] + TakeUpTo(take, rest, count - 1)
  }

  /** What a table yields, and whether it was complete. */
  datatype Names = Names(names: seq<string>, sound: bool)

  ghost function NamesAt(r: ByteReader, at: u64, end: u64): Names
    requires at <= end <= |r.data|
  {
    if at == end then Names([], true)
    else if at + 4 > end then Names([], false)
    else
      var declared := r.U32(at);
      var count := CapCount(declared, end - (at + 4), 1);
      var names := TakeUpTo(NameParser(), Rest(r, at + 4, end), count);
      Names(names, |names| == declared)
  }

  lemma NulStopsAt(b: seq<u8>, n: nat)
    requires n < |b| && 0 !in b[..n] && b[n] == 0
    ensures UpTo(b, 0) == b[..n]
  {
    assert UpTo(b, 0) == b[..|UpTo(b, 0)|];
  }

  /** The NUL at n ends the name; the rest lies behind it. */
  lemma NameEndsAt(r: ByteReader, offset: u64, limit: u64, n: nat)
    requires offset <= limit <= |r.data| && n < limit - offset
    requires var b := Rest(r, offset, limit); 0 !in b[..n] && b[n] == 0
    ensures TakeName(Rest(r, offset, limit))
            == Took(ToText(Rest(r, offset, limit)[..n]), Rest(r, offset + n + 1, limit))
  {
    NulStopsAt(Rest(r, offset, limit), n);
    RestSplits(r, offset, limit, n + 1);
  }

  lemma NameIsOpen(b: seq<u8>)
    requires 0 !in b
    ensures TakeName(b).Short?
  {
  }

  method AsciiZ(r: ByteReader, offset: u64, limit: u64) returns (name: Option<string>)
    requires offset <= limit <= |r.data|
    ensures match TakeName(Rest(r, offset, limit))
            case Short => name.None?
            case Took(text, rest) =>
              && name == Some(text) && offset as int + |text| + 1 <= limit
              && rest == Rest(r, offset + |text| + 1, limit)
  {
    var value := "";
    ghost var b := Rest(r, offset, limit);
    var i: u64 := offset;
    while i < limit
      invariant offset <= i <= limit && 0 !in b[..i - offset] && value == ToText(b[..i - offset])
    {
      var ch := r.data[i];
      if ch == 0 {
        NameEndsAt(r, offset, limit, i - offset);
        return Some(value);
      }
      TakeNext(b, i - offset);
      value := value + [ch as char];
      i := i + 1;
    }
    assert b[..i - offset] == b;
    NameIsOpen(b);
    return None;
  }

  method ReadSchemaNames(r: ByteReader, at: u64, end: u64, section: Section) returns (names: seq<string>)
    requires at <= end <= |r.data| && section.Valid()
    modifies section`structurallyValid, section`replayAllowed
    ensures section.Valid() && names == NamesAt(r, at, end).names
    ensures section.structurallyValid == (old(section.structurallyValid) && NamesAt(r, at, end).sound)
  {
    names := [];
    if at == end {
      return;
    }
    if !IsRangeWithin(at, 4, end) || !r.Has(at, 4) {
      section.PushStructuralDiag();
      return;
    }
    var declared := r.U32(at);
    var count := CapCount(declared, end - (at + 4), 1);
    if count < declared {
      section.PushStructuralDiag();
    }
    names := ReadNames(r, at + 4, end, count, NameParser());
    if |names| < count {
      section.PushStructuralDiag();
    }
  }

  ghost predicate ParsesNames(take: Parser<string>) {
    forall b {:trigger TakeName(b)} :: take(b) == TakeName(b)
  }

  method ReadNames(r: ByteReader, base: u64, end: u64, count: u32, ghost take: Parser<string>)
    returns (names: seq<string>)
    requires base <= end <= |r.data| && ParsesNames(take)
    ensures names == TakeUpTo(take, Rest(r, base, end), count)
  {
    names := [];
    var cursor: u64 := base;
    var i: u32 := 0;
    while i < count
      invariant i <= count && cursor <= end
      invariant TakeUpTo(take, Rest(r, base, end), count) == names + TakeUpTo(take, Rest(r, cursor, end), count - i)
    {
      var name;
      name, cursor := ReadName(r, cursor, end, take);
      if name.None? {
        return;
      }
      ConcatAssociates(names, [name.value], TakeUpTo(take, Rest(r, cursor, end), count - i - 1));
      names := names + [name.value];
      i := i + 1;
    }
  }

  /** The name at the cursor, and the cursor behind its NUL: never behind the end. */
  method ReadName(r: ByteReader, cursor: u64, end: u64, ghost take: Parser<string>)
    returns (name: Option<string>, next: u64)
    requires cursor <= end <= |r.data| && ParsesNames(take)
    ensures next <= end
    ensures take(Rest(r, cursor, end)) == if name.Some? then Took(name.value, Rest(r, next, end)) else Short
  {
    next := cursor;
    name := AsciiZ(r, cursor, end);
    if name.Some? {
      var behind := CheckedAdd(cursor, |name.value| + 1);
      if behind.None? || behind.value > end {
        assert false;
      } else {
        next := behind.value;
      }
    }
  }

  // ---------------------------------------------------------------------------------------------
  // Opaque property headers in front of the first schema

  datatype Unknowns = Unknowns(properties: seq<UnknownProperty>, sound: bool)

  function HeaderAt(r: ByteReader, at: u64, index: u32, segmentIndex: u32, localOffset: u32): UnknownProperty
    requires r.Has(at, 8)
  {
    UnknownProperty(index, segmentIndex, localOffset, r.U32(at), r.U32(at + 4))
  }

  /** The headers that the second table names in this segment. */
  ghost function Referenced(r: ByteReader, start: u64, end: u64, segmentIndex: u32, refs: seq<SchemaReference>)
    : Unknowns
    requires start <= end <= |r.data|
  {
    if refs == [] then Unknowns([], true)
    else
      var last, before := refs[|refs| - 1], Referenced(r, start, end, segmentIndex, refs[..|refs| - 1]);
      if last.segmentIndex != segmentIndex then before
      else if start as int + last.localOffset as int + 8 > end
              || (exists p :: p in before.properties && p.localOffset == last.localOffset)
      then Unknowns(before.properties, false)
      else Unknowns(before.properties + [HeaderAt(r, start + last.localOffset, last.index, segmentIndex,
                                                  last.localOffset)], before.sound)
  }

  ghost predicate InBoundsAndDistinct(ps: seq<UnknownProperty>, start: u64, end: u64, segmentIndex: u32) {
    && (forall i :: 0 <= i < |ps| ==> ps[i].segmentIndex == segmentIndex && start + ps[i].localOffset + 8 <= end)
    && (forall i, j :: 0 <= i < j < |ps| ==> ps[i].localOffset != ps[j].localOffset)
  }

  /** Each published header lies in the area in front of the first schema, and no two share an offset. */
  lemma {:induction false} ReferencedAreInBoundsAndDistinct(r: ByteReader, start: u64, end: u64, segmentIndex: u32,
                                                            refs: seq<SchemaReference>)
    requires start <= end <= |r.data|
    ensures InBoundsAndDistinct(Referenced(r, start, end, segmentIndex, refs).properties, start, end, segmentIndex)
  {
    if refs == [] {
    } else {
      ReferencedAreInBoundsAndDistinct(r, start, end, segmentIndex, refs[..|refs| - 1]);
      var before := Referenced(r, start, end, segmentIndex, refs[..|refs| - 1]).properties;
      var ps := Referenced(r, start, end, segmentIndex, refs).properties;
      assert ps == before || (|ps| == |before| + 1 && ps[..|before|] == before);
      forall i | 0 <= i < |before| ensures ps[i] == before[i] && before[i] in before {
      }
    }
  }

  /** Without such names: the contiguous headers up to the first one that is all zero. */
  ghost function Leading(r: ByteReader, start: u64, count: u32, segmentIndex: u32, i: u32): seq<UnknownProperty>
    requires count <= HARD_MAX_ENTRIES && start + count * 8 <= |r.data| && i <= count
    decreases count - i
  {
    if i == count then []
    else
      var p := HeaderAt(r, start + i * 8, i, segmentIndex, i * 8);
      if p.dataSize == 0 && p.flags == 0 then []
      else [p] + Leading(r, start, count, segmentIndex, i + 1)
  }

  ghost predicate UsesReferences(refs: seq<SchemaReference>, segmentIndex: u32) {
    exists i :: 0 <= i < |refs| && refs[i].segmentIndex == segmentIndex
  }

  /** The leading headers of a range without references. */
  ghost function LeadingIn(r: ByteReader, start: u64, end: u64, segmentIndex: u32): Unknowns
    requires start <= end <= |r.data|
  {
    var bytes := end - start;
    Unknowns(Leading(r, start, Min(bytes / 8, HARD_MAX_ENTRIES), segmentIndex, 0),
             bytes % 8 == 0 && bytes / 8 <= HARD_MAX_ENTRIES)
  }

  ghost function UnknownsOf(r: ByteReader, b: Bounds, firstSchema: u64, segmentIndex: u32, refs: seq<SchemaReference>)
    : Unknowns
    requires b.start <= b.systemEnd <= |r.data|
  {
    if firstSchema != U64_MAX && firstSchema > b.systemEnd - b.start then Unknowns([], false)
    else
      var end := if firstSchema == U64_MAX then b.systemEnd else b.start + firstSchema;
      if UsesReferences(refs, segmentIndex) then Referenced(r, b.start, end, segmentIndex, refs)
      else LeadingIn(r, b.start, end, segmentIndex)
  }

  method ReadReferencedUnknowns(r: ByteReader, start: u64, end: u64, segmentIndex: u32, refs: seq<SchemaReference>,
                                section: Section)
    returns (used: bool, properties: seq<UnknownProperty>)
    requires start <= end <= |r.data| && section.Valid()
    modifies section`structurallyValid, section`replayAllowed
    ensures section.Valid() && used == UsesReferences(refs, segmentIndex)
    ensures properties == Referenced(r, start, end, segmentIndex, refs).properties
    ensures section.structurallyValid ==
            (old(section.structurallyValid) && Referenced(r, start, end, segmentIndex, refs).sound)
  {
    used, properties := false, [];
    var seen: set<u32> := {};
    for i := 0 to |refs|
      invariant section.Valid() && used == UsesReferences(refs[..i], segmentIndex)
      invariant properties == Referenced(r, start, end, segmentIndex, refs[..i]).properties
      invariant forall o :: o in seen <==> exists p :: p in properties && p.localOffset == o
      invariant section.structurallyValid ==
                (old(section.structurallyValid) && Referenced(r, start, end, segmentIndex, refs[..i]).sound)
    {
      assert refs[..i + 1][..i] == refs[..i];
      var reference := refs[i];
      if reference.segmentIndex == segmentIndex {
        used := true;
        assert refs[..i + 1][i].segmentIndex == segmentIndex;
        var offset := CheckedAdd(start, reference.localOffset);
        if offset.None? || !IsRangeWithin(offset.value, 8, end) || !r.Has(offset.value, 8) {
          section.PushStructuralDiag();
        } else if reference.localOffset in seen {
          section.PushStructuralDiag();
        } else {
          seen := seen + {reference.localOffset};
          properties := properties + [HeaderAt(r, offset.value, reference.index, segmentIndex, reference.localOffset)];
        }
      }
    }
    assert refs[..|refs|] == refs;
  }

  method ReadLeadingUnknowns(r: ByteReader, start: u64, count: u32, segmentIndex: u32)
    returns (properties: seq<UnknownProperty>)
    requires count <= HARD_MAX_ENTRIES && start + count * 8 <= |r.data|
    ensures properties == Leading(r, start, count, segmentIndex, 0)
  {
    properties := [];
    ghost var all := Leading(r, start, count, segmentIndex, 0);
    var i: u32 := 0;
    while i < count
      invariant i <= count && all == properties + Leading(r, start, count, segmentIndex, i)
    {
      var property := HeaderAt(r, start + i * 8, i, segmentIndex, i * 8);
      if property.dataSize == 0 && property.flags == 0 {
        return;
      }
      ConcatAssociates(properties, [property], Leading(r, start, count, segmentIndex, i + 1));
      properties := properties + [property];
      i := i + 1;
    }
  }

  /** A range that no reference names: whole headers only, at most as many as the ceiling. */
  method ReadUnreferenced(r: ByteReader, start: u64, end: u64, segmentIndex: u32, section: Section)
    returns (properties: seq<UnknownProperty>)
    requires start <= end <= |r.data| && section.Valid()
    modifies section`structurallyValid, section`replayAllowed
    ensures section.Valid() && properties == LeadingIn(r, start, end, segmentIndex).properties
    ensures section.structurallyValid ==
            (old(section.structurallyValid) && LeadingIn(r, start, end, segmentIndex).sound)
  {
    var bytes := end - start;
    if bytes % 8 != 0 || bytes / 8 > HARD_MAX_ENTRIES {
      section.PushStructuralDiag();
    }
    properties := ReadLeadingUnknowns(r, start, Min(bytes / 8, HARD_MAX_ENTRIES), segmentIndex);
  }

  method ReadUnknownProperties(r: ByteReader, b: Bounds, firstSchema: u64, segmentIndex: u32, section: Section)
    requires b.start <= b.systemEnd <= |r.data| && section.Valid()
    modifies section`schemaUnknownProperties, section`structurallyValid, section`replayAllowed
    ensures section.Valid()
    ensures var u := UnknownsOf(r, b, firstSchema, segmentIndex, section.schemaPropertyEntries);
            && section.schemaUnknownProperties == old(section.schemaUnknownProperties) + u.properties
            && section.structurallyValid == (old(section.structurallyValid) && u.sound)
  {
    if firstSchema != U64_MAX && firstSchema > b.systemEnd - Min(b.start, b.systemEnd) {
      section.PushStructuralDiag();
      return;
    }
    var end := if firstSchema == U64_MAX then b.systemEnd else Min(b.systemEnd, b.start + firstSchema);
    var used, properties :=
      ReadReferencedUnknowns(r, b.start, end, segmentIndex, section.schemaPropertyEntries, section);
    if !used {
      UnusedReferences(r, b.start, end, segmentIndex, section.schemaPropertyEntries);
      properties := ReadUnreferenced(r, b.start, end, segmentIndex, section);
    }
    section.schemaUnknownProperties := section.schemaUnknownProperties + properties;
  }

  lemma {:induction false} UnusedReferences(r: ByteReader, start: u64, end: u64, segmentIndex: u32,
                                            refs: seq<SchemaReference>)
    requires start <= end <= |r.data| && !UsesReferences(refs, segmentIndex)
    ensures Referenced(r, start, end, segmentIndex, refs) == Unknowns([], true)
  {
    if refs == [] {
    } else {
      var n := |refs| - 1;
      forall i | 0 <= i < n ensures refs[..n][i].segmentIndex != segmentIndex {
        assert refs[i].segmentIndex != segmentIndex;
      }
      UnusedReferences(r, start, end, segmentIndex, refs[..n]);
    }
  }

  // ---------------------------------------------------------------------------------------------
  // The schemas of one segment

  predicate SameSchema(a: SchemaReference, b: SchemaReference) {
    a.index == b.index && a.localOffset == b.localOffset
  }

  /** This segment's references, the first for each index and offset. */
  ghost function FirstReferences(refs: seq<SchemaReference>, segmentIndex: u32): seq<SchemaReference> {
    if refs == [] then []
    else KeepFirst(FirstReferences(refs[..|refs| - 1], segmentIndex), refs[|refs| - 1], segmentIndex)
  }

  ghost function KeepFirst(kept: seq<SchemaReference>, e: SchemaReference, segmentIndex: u32): seq<SchemaReference> {
    if e.segmentIndex != segmentIndex || exists x :: x in kept && SameSchema(x, e) then kept else kept + [e]
  }

  ghost function FirstOffset(refs: seq<SchemaReference>, segmentIndex: u32): u64 {
    if refs == [] then U64_MAX
    else
      var last, before := refs[|refs| - 1], FirstOffset(refs[..|refs| - 1], segmentIndex);
      if last.segmentIndex == segmentIndex then Min(before, last.localOffset) else before
  }

  function SchemaKey(e: SchemaReference): u64 {
    e.index * 0x1_0000_0000 + e.localOffset
  }

  lemma SchemaKeyInjective(a: SchemaReference, b: SchemaReference)
    ensures SchemaKey(a) == SchemaKey(b) <==> SameSchema(a, b)
  {
  }

  function Listed<T>(x: Option<T>): seq<T> {
    if x.Some? then [x.value] else []
  }

  type Reading = SchemaReference -> Option<SchemaRecord>

  type Check = SchemaReference -> bool

  ghost function ReadingOf(r: ByteReader, start: u64, end: u64, names: seq<string>): Reading
    requires start <= end <= |r.data|
  {
    (e: SchemaReference) => SchemaAt(r, start, end, names, e)
  }

  ghost function CheckOf(r: ByteReader, start: u64, end: u64, names: seq<string>): Check
    requires start <= end <= |r.data|
  {
    (e: SchemaReference) => SchemaSound(r, start, end, names, e)
  }

  /** The schemas that the references name, each read by itself. */
  ghost function SchemasAt(read: Reading, refs: seq<SchemaReference>): seq<SchemaRecord> {
    if refs == [] then [] else SchemasAt(read, refs[..|refs| - 1]) + Listed(read(refs[|refs| - 1]))
  }

  /** Exactly the schemas that the references name are published. */
  lemma {:induction false} SchemasComeFromReferences(read: Reading, refs: seq<SchemaReference>, schema: SchemaRecord)
    ensures schema in SchemasAt(read, refs) <==> exists e :: e in refs && read(e) == Some(schema)
  {
    if refs == [] {
    } else {
      var n := |refs| - 1;
      SchemasComeFromReferences(read, refs[..n], schema);
      assert forall e :: e in refs <==> e in refs[..n] || e == refs[n];
    }
  }

  ghost predicate AllSound(check: Check, refs: seq<SchemaReference>) {
    forall e :: e in refs ==> check(e)
  }

  /** What one segment, or a list of them, adds to the section. */
  datatype Part = Part(names: seq<string>, unknowns: seq<UnknownProperty>, schemas: seq<SchemaRecord>, sound: bool) {
    ghost function Then(p: Part): Part {
      Part(names + p.names, unknowns + p.unknowns, schemas + p.schemas, sound && p.sound)
    }
  }

  ghost function SegmentPart(r: ByteReader, s: Segment, segmentIndex: u32, refs: seq<SchemaReference>,
                             propertyRefs: seq<SchemaReference>): Part
  {
    match SystemBounds(r, s)
    case None => Part([], [], [], false)
    case Some(b) =>
      var names := NamesAt(r, if s.systemDataAlignmentOffset == 0 then b.end else b.systemEnd, b.end);
      var unknowns := UnknownsOf(r, b, FirstOffset(refs, segmentIndex), segmentIndex, propertyRefs);
      var kept := FirstReferences(refs, segmentIndex);
      Part(names.names, unknowns.properties, SchemasAt(ReadingOf(r, b.start, b.systemEnd, names.names), kept),
           names.sound && unknowns.sound && AllSound(CheckOf(r, b.start, b.systemEnd, names.names), kept))
  }

  ghost predicate Reads(read: Reading, check: Check, r: ByteReader, start: u64, end: u64, names: seq<string>)
    requires start <= end <= |r.data|
  {
    && (forall e {:trigger SchemaAt(r, start, end, names, e)} :: read(e) == SchemaAt(r, start, end, names, e))
    && (forall e {:trigger SchemaSound(r, start, end, names, e)} :: check(e) == SchemaSound(r, start, end, names, e))
  }

  method ReadListed(r: ByteReader, start: u64, end: u64, names: seq<string>, e: SchemaReference, section: Section,
                    ghost read: Reading, ghost check: Check)
    requires start <= end <= |r.data| && section.Valid()
    requires Reads(read, check, r, start, end, names)
    modifies section`schemas, section`structurallyValid, section`replayAllowed
    ensures section.Valid() && section.schemas == old(section.schemas) + Listed(read(e))
    ensures section.structurallyValid == (old(section.structurallyValid) && check(e))
  {
    var schema := ReadSchema(r, start, end, names, e, section);
    section.schemas := section.schemas + Listed(schema);
  }

  method ReadSchemas(r: ByteReader, start: u64, end: u64, names: seq<string>, segmentIndex: u32, section: Section,
                     ghost read: Reading, ghost check: Check)
    requires start <= end <= |r.data| && section.Valid()
    requires Reads(read, check, r, start, end, names)
    modifies section`schemas, section`structurallyValid, section`replayAllowed
    ensures section.Valid()
    ensures var kept := FirstReferences(section.schemaIndexEntries, segmentIndex);
            && section.schemas == old(section.schemas) + SchemasAt(read, kept)
            && section.structurallyValid == (old(section.structurallyValid) && AllSound(check, kept))
  {
    var refs := section.schemaIndexEntries;
    var seen: set<u64> := {};
    for i := 0 to |refs|
      invariant section.Valid() && Tracks(seen, FirstReferences(refs[..i], segmentIndex))
      invariant section.schemas == old(section.schemas) + SchemasAt(read, FirstReferences(refs[..i], segmentIndex))
      invariant section.structurallyValid ==
                (old(section.structurallyValid) && AllSound(check, FirstReferences(refs[..i], segmentIndex)))
    {
      assert refs[..i + 1][..i] == refs[..i];
      seen := ReadIfFirst(r, start, end, names, segmentIndex, refs[i], seen, section, read, check,
                          FirstReferences(refs[..i], segmentIndex), old(section.schemas));
    }
    assert refs[..|refs|] == refs;
  }

  method ReadIfFirst(r: ByteReader, start: u64, end: u64, names: seq<string>, segmentIndex: u32, e: SchemaReference,
                     seen: set<u64>, section: Section, ghost read: Reading, ghost check: Check,
                     ghost kept: seq<SchemaReference>, ghost before: seq<SchemaRecord>)
    returns (seen': set<u64>)
    requires start <= end <= |r.data| && section.Valid() && Tracks(seen, kept)
    requires Reads(read, check, r, start, end, names)
    requires section.schemas == before + SchemasAt(read, kept)
    modifies section`schemas, section`structurallyValid, section`replayAllowed
    ensures section.Valid() && Tracks(seen', KeepFirst(kept, e, segmentIndex))
    ensures section.schemas == before + SchemasAt(read, KeepFirst(kept, e, segmentIndex))
    ensures old(section.structurallyValid) && AllSound(check, KeepFirst(kept, e, segmentIndex)) ==>
              section.structurallyValid
    ensures AllSound(check, kept) && section.structurallyValid ==>
              old(section.structurallyValid) && AllSound(check, KeepFirst(kept, e, segmentIndex))
    ensures section.structurallyValid ==> old(section.structurallyValid)
  {
    KeySeen(seen, kept, e);
    seen' := seen;
    if e.segmentIndex == segmentIndex && SchemaKey(e) !in seen {
      TracksNext(seen, kept, e);
      seen' := seen + {SchemaKey(e)};
      SchemasAtNext(read, check, kept, e);
      ReadListed(r, start, end, names, e, section, read, check);
    }
  }

  lemma TracksNext(seen: set<u64>, kept: seq<SchemaReference>, e: SchemaReference)
    requires Tracks(seen, kept)
    ensures Tracks(seen + {SchemaKey(e)}, kept + [e])
  {
    forall k ensures k in seen + {SchemaKey(e)} <==> exists x :: x in kept + [e] && SchemaKey(x) == k {
      if k in seen {
        var x :| x in kept && SchemaKey(x) == k;
        assert x in kept + [e];
      } else if k == SchemaKey(e) {
        assert e in kept + [e];
      }
    }
  }

  ghost predicate Tracks(seen: set<u64>, kept: seq<SchemaReference>) {
    forall k :: k in seen <==> exists e :: e in kept && SchemaKey(e) == k
  }

  lemma KeySeen(seen: set<u64>, kept: seq<SchemaReference>, e: SchemaReference)
    requires Tracks(seen, kept)
    ensures SchemaKey(e) in seen <==> exists x :: x in kept && SameSchema(x, e)
  {
    forall x ensures SchemaKey(x) == SchemaKey(e) <==> SameSchema(x, e) {
      SchemaKeyInjective(x, e);
    }
  }

  lemma SchemasAtNext(read: Reading, check: Check, refs: seq<SchemaReference>, e: SchemaReference)
    ensures SchemasAt(read, refs + [e]) == SchemasAt(read, refs) + Listed(read(e))
    ensures AllSound(check, refs + [e]) == (AllSound(check, refs) && check(e))
  {
    assert (refs + [e])[..|refs|] == refs;
    assert forall x :: x in refs + [e] <==> x in refs || x == e;
  }

  method LowestOffset(refs: seq<SchemaReference>, segmentIndex: u32) returns (first: u64)
    ensures first == FirstOffset(refs, segmentIndex)
  {
    first := U64_MAX;
    for i := 0 to |refs|
      invariant first == FirstOffset(refs[..i], segmentIndex)
    {
      assert refs[..i + 1][..i] == refs[..i];
      if refs[i].segmentIndex == segmentIndex {
        first := Min(first, refs[i].localOffset);
      }
    }
    assert refs[..|refs|] == refs;
  }

  method ReadSegment(r: ByteReader, segmentIndex: u32, section: Section)
    requires section.Valid() && segmentIndex < |section.segments|
    modifies section`schemas, section`schemaPropertyNames, section`schemaUnknownProperties,
             section`structurallyValid, section`replayAllowed
    ensures section.Valid()
    ensures Added(old(View(section)), View(section),
                  SegmentPart(r, section.segments[segmentIndex], segmentIndex, section.schemaIndexEntries,
                              section.schemaPropertyEntries))
  {
    var s := section.segments[segmentIndex];
    var bounds := SystemBounds(r, s);
    if bounds.None? {
      section.PushStructuralDiag();
      return;
    }
    var b := bounds.value;
    var names := ReadSchemaNames(r, if s.systemDataAlignmentOffset == 0 then b.end else b.systemEnd, b.end, section);
    section.schemaPropertyNames := section.schemaPropertyNames + names;
    var first := LowestOffset(section.schemaIndexEntries, segmentIndex);
    ReadUnknownProperties(r, b, first, segmentIndex, section);
    ReadSchemas(r, b.start, b.systemEnd, names, segmentIndex, section,
                ReadingOf(r, b.start, b.systemEnd, names), CheckOf(r, b.start, b.systemEnd, names));
  }

  // ---------------------------------------------------------------------------------------------
  // All schema-data segments

  /** The part of the section that this component fills. */
  ghost function View(section: Section): Part
    reads section
  {
    Part(section.schemaPropertyNames, section.schemaUnknownProperties, section.schemas, section.structurallyValid)
  }

  ghost predicate Added(before: Part, after: Part, part: Part) {
    after == before.Then(part)
  }

  predicate NamesSchemaData(e: SchemaReference, segments: seq<Segment>) {
    e.segmentIndex < |segments| && segments[e.segmentIndex].kind == SchemaData
  }

  /** The referenced schema-data segments, in order of first reference. */
  ghost function SchemaSegments(refs: seq<SchemaReference>, segments: seq<Segment>): (indexes: seq<u32>)
    ensures forall k :: 0 <= k < |indexes| ==>
              indexes[k] < |segments| && segments[indexes[k]].kind == SchemaData
  {
    if refs == [] then []
    else
      var last, before := refs[|refs| - 1], SchemaSegments(refs[..|refs| - 1], segments);
      if NamesSchemaData(last, segments) && last.segmentIndex !in before then before + [last.segmentIndex] else before
  }

  ghost predicate AllNameSchemaData(refs: seq<SchemaReference>, segments: seq<Segment>) {
    forall e :: e in refs ==> NamesSchemaData(e, segments)
  }

  const NOTHING: Part := Part([], [], [], true)

  type Fill = u32 -> Part

  ghost function FillOf(r: ByteReader, segments: seq<Segment>, refs: seq<SchemaReference>,
                        propertyRefs: seq<SchemaReference>): Fill
  {
    (i: u32) => if i < |segments| then SegmentPart(r, segments[i], i, refs, propertyRefs) else NOTHING
  }

  ghost function Parts(fill: Fill, indexes: seq<u32>): Part {
    if indexes == [] then NOTHING
    else Parts(fill, indexes[..|indexes| - 1]).Then(fill(indexes[|indexes| - 1]))
  }

  /** All that the schema-data reader adds: the parts of the referenced segments, one after the other. */
  ghost function SchemaDataOf(fill: Fill, refs: seq<SchemaReference>, segments: seq<Segment>): Part {
    Part([], [], [], AllNameSchemaData(refs, segments)).Then(Parts(fill, SchemaSegments(refs, segments)))
  }

  method ListSegments(section: Section) returns (indexes: seq<u32>)
    requires section.Valid()
    modifies section`structurallyValid, section`replayAllowed
    ensures section.Valid() && indexes == SchemaSegments(section.schemaIndexEntries, section.segments)
    ensures section.structurallyValid ==
            (old(section.structurallyValid) && AllNameSchemaData(section.schemaIndexEntries, section.segments))
  {
    var refs, segments := section.schemaIndexEntries, section.segments;
    indexes := [];
    for i := 0 to |refs|
      invariant section.Valid() && indexes == SchemaSegments(refs[..i], segments)
      invariant section.structurallyValid ==
                (old(section.structurallyValid) && AllNameSchemaData(refs[..i], segments))
    {
      assert refs[..i + 1][..i] == refs[..i];
      assert forall e :: e in refs[..i + 1] <==> e in refs[..i] || e == refs[i];
      if refs[i].segmentIndex >= |segments| || segments[refs[i].segmentIndex].kind != SchemaData {
        section.PushStructuralDiag();
      } else if refs[i].segmentIndex !in indexes {
        indexes := indexes + [refs[i].segmentIndex];
      }
    }
    assert refs[..|refs|] == refs;
  }

  lemma ThenAssociates(a: Part, b: Part, c: Part)
    ensures a.Then(b).Then(c) == a.Then(b.Then(c))
  {
    ConcatAssociates(a.names, b.names, c.names);
    ConcatAssociates(a.unknowns, b.unknowns, c.unknowns);
    ConcatAssociates(a.schemas, b.schemas, c.schemas);
  }

  /** The fill gives every segment's part. */
  ghost predicate Fills(fill: Fill, r: ByteReader, segments: seq<Segment>, refs: seq<SchemaReference>,
                        propertyRefs: seq<SchemaReference>)
  {
    forall i: u32 {:trigger SegmentPart(r, segments[i], i, refs, propertyRefs)} :: i < |segments| ==>
      fill(i) == SegmentPart(r, segments[i], i, refs, propertyRefs)
  }

  lemma FillOfFills(r: ByteReader, segments: seq<Segment>, refs: seq<SchemaReference>,
                    propertyRefs: seq<SchemaReference>)
    ensures Fills(FillOf(r, segments, refs, propertyRefs), r, segments, refs, propertyRefs)
  {
  }

  method ReadSchemaData(r: ByteReader, section: Section, ghost fill: Fill)
    requires section.Valid()
    requires Fills(fill, r, section.segments, section.schemaIndexEntries, section.schemaPropertyEntries)
    modifies section`schemas, section`schemaPropertyNames, section`schemaUnknownProperties,
             section`structurallyValid, section`replayAllowed
    ensures section.Valid()
    ensures Added(old(View(section)), View(section), SchemaDataOf(fill, section.schemaIndexEntries, section.segments))
  {
    ghost var listing := Part([], [], [], AllNameSchemaData(section.schemaIndexEntries, section.segments));
    var indexes := ListSegments(section);
    assert View(section) == old(View(section)).Then(listing);
    ReadSegments(r, indexes, section, fill);
    ThenAssociates(old(View(section)), listing, Parts(fill, indexes));
  }

  method ReadSegments(r: ByteReader, indexes: seq<u32>, section: Section, ghost fill: Fill)
    requires section.Valid()
    requires forall k :: 0 <= k < |indexes| ==> indexes[k] < |section.segments|
    requires Fills(fill, r, section.segments, section.schemaIndexEntries, section.schemaPropertyEntries)
    modifies section`schemas, section`schemaPropertyNames, section`schemaUnknownProperties,
             section`structurallyValid, section`replayAllowed
    ensures section.Valid() && Added(old(View(section)), View(section), Parts(fill, indexes))
  {
    ghost var before := View(section);
    assert before.Then(NOTHING) == before;
    for i := 0 to |indexes|
      invariant section.Valid() && View(section) == before.Then(Parts(fill, indexes[..i]))
    {
      assert indexes[..i + 1][..i] == indexes[..i];
      ReadFilled(r, indexes[i], section, fill);
      ThenAssociates(before, Parts(fill, indexes[..i]), fill(indexes[i]));
    }
    assert indexes[..|indexes|] == indexes;
  }

  method ReadFilled(r: ByteReader, segmentIndex: u32, section: Section, ghost fill: Fill)
    requires section.Valid() && segmentIndex < |section.segments|
    requires Fills(fill, r, section.segments, section.schemaIndexEntries, section.schemaPropertyEntries)
    modifies section`schemas, section`schemaPropertyNames, section`schemaUnknownProperties,
             section`structurallyValid, section`replayAllowed
    ensures section.Valid() && Added(old(View(section)), View(section), fill(segmentIndex))
  {
    ReadSegment(r, segmentIndex, section);
  }
}
