/** Proxy objects as raw DXF objects: what is refused, and the groups of the rest. */
module ProxyObjects {
  import opened Words
  import opened Text
  import opened HexChunks

  const MAX_BINARY_PAYLOAD: nat := 64 * 1024 * 1024

  datatype Reference = Reference(code: int, handle: u64)

  datatype Proxy = Proxy(
    handle: u32, parent: u32, reactors: seq<u32>, xDict: u32,
    carrierId: Option<i32>, classId: Option<i32>, subclass: string, drawingFormat: Option<u32>, fromDxf: bool,
    graphicsSize: Option<u64>, graphics: seq<u8>, objectBits: Option<u32>, objectData: seq<u8>,
    unknownSize: Option<u64>, unknown: seq<u8>, refs: seq<Reference>)

  datatype Content = Num(n: int) | Str(s: string)

  datatype Group = Group(code: int, content: Content)

  datatype RawObject = RawObject(name: string, handle: u32, parent: u32, groups: seq<Group>)

  function ExpectedBytes(bits: nat): nat {
    bits / 8 + (if bits % 8 != 0 then 1 else 0)
  }

  /** A declared size is the data's and not beyond the limit; without one there is no data. */
  predicate SizeAgrees(size: Option<u64>, data: seq<u8>) {
    if size.Some? then size.value == |data| && size.value <= MAX_BINARY_PAYLOAD else data == []
  }

  /** The bits of the last byte behind the declared bit size are zero. */
  predicate PaddingIsZero(bits: nat, data: seq<u8>) {
    bits % 8 != 0 ==> data != [] && data[|data| - 1] % UnusedRange(bits % 8) == 0
  }

  function UnusedRange(used: nat): nat
    requires 0 < used < 8
    ensures UnusedRange(used) > 0
  {
    match used
    case 1 => 128
    case 2 => 64
    case 3 => 32
    case 4 => 16
    case 5 => 8
    case 6 => 4
    case _ => 2
  }

  predicate IsReferenceCode(code: int) {
    code == 330 || code == 340 || code == 350 || code == 360
  }

  /** Exactly the proxies that can be written again. */
  predicate Emittable(p: Proxy) {
    && p.handle != 0 && p.parent != 0
    && p.carrierId.Some? && p.classId.Some? && p.drawingFormat.Some? && p.objectBits.Some?
    && p.objectBits.value <= MAX_BINARY_PAYLOAD * 8 && ExpectedBytes(p.objectBits.value) == |p.objectData|
    && SizeAgrees(p.graphicsSize, p.graphics) && SizeAgrees(p.unknownSize, p.unknown)
    && PaddingIsZero(p.objectBits.value, p.objectData)
    && (forall i :: 0 <= i < |p.reactors| ==> p.reactors[i] != 0)
    && p.drawingFormat.value <= 0x7FFF_FFFF
    && forall i :: 0 <= i < |p.refs| ==> IsReferenceCode(p.refs[i].code) && p.refs[i].handle != 0
  }

  // ---------------------------------------------------------------------------------------------
  // Selecting groups by code

  function Select(groups: seq<Group>, code: int): seq<Content> {
    if groups == [] then []
    else (if groups[0].code == code then [groups[0].content] else []) + Select(groups[1..], code)
  }

  lemma {:induction false} SelectConcat(a: seq<Group>, b: seq<Group>, code: int)
    ensures Select(a + b, code) == Select(a, code) + Select(b, code)
  {
    if a == [] {
      assert a + b == b;
    } else {
      assert (a + b)[1..] == a[1..] + b;
      SelectConcat(a[1..], b, code);
      ConcatAssociates(if a[0].code == code then [a[0].content] else [], Select(a[1..], code), Select(b, code));
    }
  }

  lemma {:induction false} SelectNone(groups: seq<Group>, code: int)
    requires forall i :: 0 <= i < |groups| ==> groups[i].code != code
    ensures Select(groups, code) == []
  {
    if groups == [] {
    } else {
      SelectNone(groups[1..], code);
    }
  }

  /** The bytes in the binary chunks. */
  function Binary(contents: seq<Content>): seq<u8> {
    if contents == [] then [] else Piece(contents[0]) + Binary(contents[1..])
  }

  function Piece(content: Content): seq<u8> {
    if content.Str? then BytesOf(content.s) else []
  }

  lemma {:induction false} BinaryConcat(a: seq<Content>, b: seq<Content>)
    ensures Binary(a + b) == Binary(a) + Binary(b)
  {
    if a == [] {
      assert a + b == b;
    } else {
      assert (a + b)[1..] == a[1..] + b;
      BinaryConcat(a[1..], b);
      ConcatAssociates(Piece(a[0]), Binary(a[1..]), Binary(b));
    }
  }

  function ChunkGroups(code: int, chunks: seq<string>): seq<Group> {
    seq(|chunks|, i requires 0 <= i < |chunks| => Group(code, Str(chunks[i])))
  }

  lemma {:induction false} ChunkGroupsDecode(code: int, chunks: seq<string>)
    ensures Binary(Select(ChunkGroups(code, chunks), code)) == Joined(chunks)
  {
    var groups := ChunkGroups(code, chunks);
    if chunks == [] {
    } else {
      assert groups[1..] == ChunkGroups(code, chunks[1..]);
      ChunkGroupsDecode(code, chunks[1..]);
      var contents := Select(groups, code);
      assert contents[1..] == Select(groups[1..], code);
    }
  }

  // ---------------------------------------------------------------------------------------------
  // The groups of a proxy

  function Handles(code: int, handles: seq<u32>): seq<Group> {
    seq(|handles|, i requires 0 <= i < |handles| => Group(code, Str(Hex(handles[i]))))
  }

  /** The groups in front of the class identifier. */
  function Head(p: Proxy): seq<Group>
    requires Emittable(p)
  {
    [Group(5, Str(Hex(p.handle))), Group(330, Str(Hex(p.parent)))]
    + (if p.reactors == [] then []
       else [Group(102, Str("{ACAD_REACTORS"))] + Handles(330, p.reactors) + [Group(102, Str("}"))])
    + (if p.xDict == 0 then []
       else [Group(102, Str("{ACAD_XDICTIONARY")), Group(360, Str(Hex(p.xDict))), Group(102, Str("}"))])
    + [Group(100, Str("AcDbProxyObject")), Group(90, Num(p.carrierId.value))]
  }

  function Sized(code: int, size: Option<u64>, data: seq<u8>): seq<Group> {
    if size.Some? then [Group(code, Num(size.value))] + ChunkGroups(310, Chunks(data)) else []
  }

  /** Drawing format, origin and object data. */
  function Middle(p: Proxy): seq<Group>
    requires Emittable(p)
  {
    [Group(95, Num(p.drawingFormat.value)), Group(70, Num(if p.fromDxf then 1 else 0)),
     Group(161, Num(p.objectBits.value))]
    + ChunkGroups(310, Chunks(p.objectData))
  }

  function References(refs: seq<Reference>): seq<Group> {
    seq(|refs|, i requires 0 <= i < |refs| => Group(refs[i].code, Str(Hex(refs[i].handle))))
  }

  function Body(p: Proxy): seq<Group>
    requires Emittable(p)
  {
    Sized(92, p.graphicsSize, p.graphics) + Middle(p) + Sized(162, p.unknownSize, p.unknown)
    + References(p.refs) + [Group(94, Num(0))]
  }

  function Raw(p: Proxy, outputClassId: i32): RawObject
    requires Emittable(p)
  {
    RawObject("ACAD_PROXY_OBJECT", p.handle, p.parent, Head(p) + [Group(91, Num(outputClassId))] + Body(p))
  }

  ghost predicate Without(groups: seq<Group>, code: int) {
    forall i :: 0 <= i < |groups| ==> groups[i].code != code
  }

  lemma HeadHasNoClassId(p: Proxy)
    requires Emittable(p)
    ensures Without(Head(p), 91)
  {
  }

  lemma BodyHasNoClassId(p: Proxy)
    requires Emittable(p)
    ensures Without(Body(p), 91)
  {
  }

  lemma OnlyBetween(a: seq<Group>, g: Group, b: seq<Group>)
    requires Without(a, g.code) && Without(b, g.code)
    ensures Select(a + [g] + b, g.code) == [g.content]
    ensures forall i :: 0 <= i < |a + [g] + b| ==> ((a + [g] + b)[i].code == g.code <==> i == |a|)
  {
    SelectNone(a, g.code);
    SelectNone(b, g.code);
    SelectConcat(a, [g], g.code);
    SelectConcat(a + [g], b, g.code);
    forall i | 0 <= i < |a + [g] + b| ensures (a + [g] + b)[i].code == g.code <==> i == |a| {
      if i > |a| {
        assert (a + [g] + b)[i] == b[i - |a| - 1];
      }
    }
  }

  /** There is exactly one class-identifier group, and it is the one behind the head. */
  lemma OneClassId(p: Proxy, id: i32)
    requires Emittable(p)
    ensures Select(Raw(p, id).groups, 91) == [Num(id)]
    ensures forall i :: 0 <= i < |Raw(p, id).groups| ==> (Raw(p, id).groups[i].code == 91 <==> i == |Head(p)|)
  {
    HeadHasNoClassId(p);
    BodyHasNoClassId(p);
    OnlyBetween(Head(p), Group(91, Num(id)), Body(p));
  }

  lemma SizedDecodes(code: int, size: Option<u64>, data: seq<u8>)
    requires code != 310 && SizeAgrees(size, data)
    ensures Binary(Select(Sized(code, size, data), 310)) == data
  {
    if size.Some? {
      SelectConcat([Group(code, Num(size.value))], ChunkGroups(310, Chunks(data)), 310);
      SelectNone([Group(code, Num(size.value))], 310);
      ChunkGroupsDecode(310, Chunks(data));
      ChunksDecode(data);
      assert [] + Select(ChunkGroups(310, Chunks(data)), 310) == Select(ChunkGroups(310, Chunks(data)), 310);
    }
  }

  lemma MiddleDecodes(p: Proxy)
    requires Emittable(p)
    ensures Binary(Select(Middle(p), 310)) == p.objectData
  {
    var front := [Group(95, Num(p.drawingFormat.value)), Group(70, Num(if p.fromDxf then 1 else 0)),
                  Group(161, Num(p.objectBits.value))];
    SelectConcat(front, ChunkGroups(310, Chunks(p.objectData)), 310);
    SelectNone(front, 310);
    ChunkGroupsDecode(310, Chunks(p.objectData));
    ChunksDecode(p.objectData);
    var selected := Select(ChunkGroups(310, Chunks(p.objectData)), 310);
    assert [] + selected == selected;
  }

  /** Decoding the binary groups gives back the graphics, the object data and the unknown data, in that order. */
  lemma BinaryDataDecodes(p: Proxy, id: i32)
    requires Emittable(p)
    ensures Binary(Select(Raw(p, id).groups, 310)) == p.graphics + p.objectData + p.unknown
  {
    var graphics, middle := Sized(92, p.graphicsSize, p.graphics), Middle(p);
    var unknown := Sized(162, p.unknownSize, p.unknown);
    var refs, last, front := References(p.refs), [Group(94, Num(0))], Head(p) + [Group(91, Num(id))];
    SelectNone(front, 310);
    SelectNone(refs, 310);
    SelectNone(last, 310);
    SelectConcat(front, Body(p), 310);
    SelectConcat(graphics + middle + unknown + refs, last, 310);
    SelectConcat(graphics + middle + unknown, refs, 310);
    SelectConcat(graphics + middle, unknown, 310);
    SelectConcat(graphics, middle, 310);
    SizedDecodes(92, p.graphicsSize, p.graphics);
    MiddleDecodes(p);
    SizedDecodes(162, p.unknownSize, p.unknown);
    BinaryConcat(Select(graphics, 310) + Select(middle, 310), Select(unknown, 310));
    BinaryConcat(Select(graphics, 310), Select(middle, 310));
    var all := Select(graphics, 310) + Select(middle, 310) + Select(unknown, 310);
    assert [] + (all + [] + []) == all;
  }

  // ---------------------------------------------------------------------------------------------
  // The builder

  method AppendSized(groups: seq<Group>, code: int, size: Option<u64>, data: seq<u8>) returns (out: seq<Group>)
    ensures out == groups + Sized(code, size, data)
  {
    if size.None? {
      return groups;
    }
    var chunks := MakeChunks(data);
    return groups + ([Group(code, Num(size.value))] + ChunkGroups(310, chunks));
  }

  method AppendReactors(groups: seq<Group>, reactors: seq<u32>) returns (ok: bool, out: seq<Group>)
    ensures ok <==> forall i :: 0 <= i < |reactors| ==> reactors[i] != 0
    ensures ok ==> out == groups + Handles(330, reactors)
  {
    out := groups;
    for i := 0 to |reactors|
      invariant forall k :: 0 <= k < i ==> reactors[k] != 0
      invariant out == groups + Handles(330, reactors)[..i]
    {
      if reactors[i] == 0 {
        return false, out;
      }
      out := out + [Group(330, Str(Hex(reactors[i])))];
    }
    ok := true;
  }

  method AppendReferences(groups: seq<Group>, refs: seq<Reference>) returns (ok: bool, out: seq<Group>)
    ensures ok <==> forall i :: 0 <= i < |refs| ==> IsReferenceCode(refs[i].code) && refs[i].handle != 0
    ensures ok ==> out == groups + References(refs)
  {
    out := groups;
    for i := 0 to |refs|
      invariant forall k :: 0 <= k < i ==> IsReferenceCode(refs[k].code) && refs[k].handle != 0
      invariant out == groups + References(refs)[..i]
    {
      if !IsReferenceCode(refs[i].code) || refs[i].handle == 0 {
        return false, out;
      }
      out := out + [Group(refs[i].code, Str(Hex(refs[i].handle)))];
    }
    ok := true;
  }

  /** The checks before anything is written. */
  predicate Checked(p: Proxy) {
    && p.handle != 0 && p.parent != 0
    && p.carrierId.Some? && p.classId.Some? && p.drawingFormat.Some? && p.objectBits.Some?
    && p.objectBits.value <= MAX_BINARY_PAYLOAD * 8 && ExpectedBytes(p.objectBits.value) == |p.objectData|
    && SizeAgrees(p.graphicsSize, p.graphics) && SizeAgrees(p.unknownSize, p.unknown)
    && PaddingIsZero(p.objectBits.value, p.objectData)
  }

  method MakeHead(p: Proxy) returns (ok: bool, groups: seq<Group>)
    requires Checked(p)
    ensures ok <==> forall i :: 0 <= i < |p.reactors| ==> p.reactors[i] != 0
    ensures ok && Emittable(p) ==> groups == Head(p)
  {
    groups := [Group(5, Str(Hex(p.handle))), Group(330, Str(Hex(p.parent)))];
    ok := true;
    if p.reactors != [] {
      groups := groups + [Group(102, Str("{ACAD_REACTORS"))];
      ok, groups := AppendReactors(groups, p.reactors);
      if !ok {
        return;
      }
      groups := groups + [Group(102, Str("}"))];
    }
    if p.xDict != 0 {
      groups := groups + [Group(102, Str("{ACAD_XDICTIONARY")), Group(360, Str(Hex(p.xDict))), Group(102, Str("}"))];
    }
    groups := groups + [Group(100, Str("AcDbProxyObject")), Group(90, Num(p.carrierId.value))];
  }

  method MakeRawProxyObject(p: Proxy, outputClassId: i32) returns (raw: Option<RawObject>)
    ensures raw == if Emittable(p) then Some(Raw(p, outputClassId)) else None
  {
    if !Checked(p) {
      return None;
    }
    var ok, groups := MakeHead(p);
    if !ok {
      return None;
    }
    groups := groups + [Group(91, Num(outputClassId))];
    groups := AppendSized(groups, 92, p.graphicsSize, p.graphics);
    if p.drawingFormat.value > 0x7FFF_FFFF {
      return None;
    }
    var chunks := MakeChunks(p.objectData);
    groups := groups + ([Group(95, Num(p.drawingFormat.value)), Group(70, Num(if p.fromDxf then 1 else 0)),
                         Group(161, Num(p.objectBits.value))] + ChunkGroups(310, chunks));
    groups := AppendSized(groups, 162, p.unknownSize, p.unknown);
    ok, groups := AppendReferences(groups, p.refs);
    if !ok {
      return None;
    }
    groups := groups + [Group(94, Num(0))];
    GroupsAreRaw(p, outputClassId);
    return Some(RawObject("ACAD_PROXY_OBJECT", p.handle, p.parent, groups));
  }

  lemma GroupsAreRaw(p: Proxy, id: i32)
    requires Emittable(p)
    ensures Raw(p, id).groups
            == Head(p) + [Group(91, Num(id))] + Sized(92, p.graphicsSize, p.graphics) + Middle(p)
               + Sized(162, p.unknownSize, p.unknown) + References(p.refs) + [Group(94, Num(0))]
  {
  }
}
