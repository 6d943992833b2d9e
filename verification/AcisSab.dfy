/** SAB streams: a header, then records of tagged items with nested subtypes. */
module AcisSab {
  import opened Words
  import opened Formats
  import opened AcisItems
  import Signature = AcisSignature

  // ---------------------------------------------------------------------------------------------
  // Records as state machines over items

  datatype Token = Token(tag: u8, payload: Payload)

  datatype Record = Record(kind: seq<u8>, tokens: seq<Token>)

  /** A record under construction: its tokens, the pending parts of a type name, the record's type once it
      is known, and how many subtypes are open. */
  datatype Building = Building(tokens: seq<Token>, parts: seq<seq<u8>>, kind: seq<u8>, level: nat)

  datatype Progress = More(state: Building) | Done(record: Record) | Bad

  const EMPTY: Building := Building([], [], [], 0)

  predicate IsEndMarker(kind: seq<u8>) {
    || kind == Signature.Bytes("End-of-ACIS-data")
    || kind == Signature.Bytes("End-of-ASM-data")
    || kind == Signature.Bytes("End-of-ACIS-History-data")
  }

  /** The parts of a type name, joined by hyphens. */
  function Join(parts: seq<seq<u8>>): seq<u8> {
    if parts == [] then []
    else if |parts| == 1 then parts[0]
    else Join(parts[..|parts| - 1]) + Signature.Bytes("-") + parts[|parts| - 1]
  }

  /** The effect of one item. */
  function Step(s: Building, item: Item): Progress
    requires WellFormed(item)
  {
    if item.tag == RECORD_END then
      if s.kind == [] || s.parts != [] || s.level != 0 then Bad else Done(Record(s.kind, s.tokens))
    else if item.tag == ENTITY_TYPE_EX then More(s.(parts := s.parts + [item.payload.s]))
    else if item.tag == ENTITY_TYPE then
      var name := Join(s.parts + [item.payload.s]);
      More(Building(s.tokens + [Token(item.tag, Text(name))], [], if s.kind == [] then name else s.kind, s.level))
    else if item.tag == SUBTYPE_START then
      More(s.(level := s.level + 1, tokens := s.tokens + [Token(item.tag, Level(s.level + 1))]))
    else if item.tag == SUBTYPE_END then
      if s.level == 0 then Bad
      else More(s.(level := s.level - 1, tokens := s.tokens + [Token(item.tag, Level(s.level))]))
    else if item.tag == BOOL_TRUE || item.tag == BOOL_FALSE then
      More(s.(tokens := s.tokens + [Token(item.tag, Flag(item.tag == BOOL_TRUE))]))
    else More(s.(tokens := s.tokens + [Token(item.tag, item.payload)]))
  }

  /** A record may also end with the stream, if it is an end marker with nothing pending. */
  predicate MayEndHere(s: Building) {
    IsEndMarker(s.kind) && s.parts == [] && s.level == 0
  }

  function TakeRecord(b: seq<u8>, s: Building): (t: Taken<Record>)
    ensures t.Took? ==> |t.rest| <= |b|
    ensures t.Took? && b != [] ==> |t.rest| < |b|
    decreases |b|
  {
    if b == [] then if MayEndHere(s) then Took(Record(s.kind, s.tokens), []) else Short
    else
      match TakeItem(b)
      case Short => Short
      case Took(item, rest) =>
        PutOfTakeItem(b);
        match Step(s, item)
        case Bad => Short
        case Done(record) => Took(record, rest)
        case More(s') => TakeRecord(rest, s')
  }

  // ---------------------------------------------------------------------------------------------
  // What the building state knows about its tokens

  /** How many subtypes are open behind these tokens, if each subtype token carries the depth it opens or closes. */
  ghost function Depth(tokens: seq<Token>): Option<nat> {
    if tokens == [] then Some(0)
    else
      var last, before := tokens[|tokens| - 1], Depth(tokens[..|tokens| - 1]);
      if before.None? then None
      else if last.tag == SUBTYPE_START then
        if last.payload == Level(before.value + 1) then Some(before.value + 1) else None
      else if last.tag == SUBTYPE_END then
        if before.value > 0 && last.payload == Level(before.value) then Some(before.value - 1) else None
      else before
  }

  /** The first type name that is not empty. */
  ghost function FirstName(tokens: seq<Token>): seq<u8> {
    if tokens == [] then []
    else
      var last, before := tokens[|tokens| - 1], FirstName(tokens[..|tokens| - 1]);
      if before == [] && last.tag == ENTITY_TYPE && last.payload.Text? then last.payload.s else before
  }

  ghost predicate Knows(s: Building) {
    Depth(s.tokens) == Some(s.level) && FirstName(s.tokens) == s.kind
  }

  lemma StepKeeps(s: Building, item: Item, after: Building)
    requires WellFormed(item) && Step(s, item) == More(after) && Knows(s)
    ensures Knows(after)
  {
    if after.tokens != s.tokens {
      assert after.tokens[..|after.tokens| - 1] == s.tokens;
    }
  }

  /** A record's brackets are balanced and its type is its first non-empty type name. */
  ghost predicate RecordSound(record: Record) {
    record.kind != [] && Depth(record.tokens) == Some(0) && FirstName(record.tokens) == record.kind
  }

  lemma {:induction false} TakenRecordIsSound(b: seq<u8>, s: Building)
    requires Knows(s) && TakeRecord(b, s).Took?
    ensures RecordSound(TakeRecord(b, s).value)
    decreases |b|
  {
    if b == [] {
    } else {
      PutOfTakeItem(b);
      var t := TakeItem(b);
      match Step(s, t.value) {
        case More(s') =>
          StepKeeps(s, t.value, s');
          TakenRecordIsSound(t.rest, s');
        case Done(_) =>
        case Bad =>
      }
    }
  }

  // ---------------------------------------------------------------------------------------------
  // Records as written

  /** A written record: its items, and whether a record-end tag closes it. */
  datatype Wire = Wire(items: seq<Item>, closed: bool)

  const END: Item := Item(RECORD_END, Nothing)

  function PutItems(items: seq<Item>, rest: seq<u8>): seq<u8> {
    if items == [] then rest else PutItem(items[0], PutItems(items[1..], rest))
  }

  function PutRecord(w: Wire, rest: seq<u8>): seq<u8> {
    PutItems(w.items, if w.closed then PutItem(END, rest) else rest)
  }

  /** The state behind the items, if none of them is refused or ends the record. */
  ghost function Fold(s: Building, items: seq<Item>): Option<Building>
    decreases |items|
  {
    if items == [] then Some(s)
    else if !WellFormed(items[0]) then None
    else
      match Step(s, items[0])
      case More(s') => Fold(s', items[1..])
      case _ => None
  }

  /** A complete record: a type name, no pending part, no open subtype; unclosed only if it is an end marker. */
  ghost predicate Complete(s: Building, closed: bool) {
    s.kind != [] && s.parts == [] && s.level == 0 && (!closed ==> IsEndMarker(s.kind))
  }

  ghost predicate WireWellFormed(w: Wire) {
    Fold(EMPTY, w.items).Some? && Complete(Fold(EMPTY, w.items).value, w.closed)
  }

  ghost function Meaning(w: Wire): Record
    requires WireWellFormed(w)
  {
    Record(Fold(EMPTY, w.items).value.kind, Fold(EMPTY, w.items).value.tokens)
  }

  lemma {:induction false} TakeOfPutRecord(s: Building, w: Wire, rest: seq<u8>)
    requires Fold(s, w.items).Some? && Complete(Fold(s, w.items).value, w.closed)
    requires w.closed || rest == []
    ensures var last := Fold(s, w.items).value;
            TakeRecord(PutRecord(w, rest), s) == Took(Record(last.kind, last.tokens), rest)
    decreases |w.items|
  {
    if w.items == [] {
      if w.closed {
        TakeOfPutItem(END, rest);
      }
    } else {
      var tail := Wire(w.items[1..], w.closed);
      TakeOfPutItem(w.items[0], PutRecord(tail, rest));
      TakeOfPutRecord(Step(s, w.items[0]).state, tail, rest);
    }
  }

  /** The items that were read, as a written record. */
  lemma {:induction false} PutOfTakeRecord(b: seq<u8>, s: Building) returns (w: Wire)
    requires TakeRecord(b, s).Took?
    ensures Fold(s, w.items).Some? && Complete(Fold(s, w.items).value, w.closed)
    ensures var last := Fold(s, w.items).value; TakeRecord(b, s).value == Record(last.kind, last.tokens)
    ensures PutRecord(w, TakeRecord(b, s).rest) == b && (w.closed || TakeRecord(b, s).rest == [])
    decreases |b|
  {
    if b == [] {
      MarkersAreNotEmpty();
      w := Wire([], false);
    } else {
      PutOfTakeItem(b);
      var t := TakeItem(b);
      match Step(s, t.value) {
        case Done(_) =>
          assert t.value == END;
          w := Wire([], true);
        case More(s') =>
          var tail := PutOfTakeRecord(t.rest, s');
          w := Wire([t.value] + tail.items, tail.closed);
          assert w.items[1..] == tail.items;
        case Bad => assert false;
      }
    }
  }

  lemma MarkersAreNotEmpty()
    ensures !IsEndMarker([])
  {
    assert |Signature.Bytes("End-of-ACIS-data")| > 0 && |Signature.Bytes("End-of-ASM-data")| > 0;
    assert |Signature.Bytes("End-of-ACIS-History-data")| > 0;
  }

  // ---------------------------------------------------------------------------------------------
  // The record list: up to the first end marker, behind which everything is ignored

  function TakeRecords(b: seq<u8>): (t: Taken<seq<Record>>)
    decreases |b|
  {
    if b == [] then Took([], [])
    else
      match TakeRecord(b, EMPTY)
      case Short => Short
      case Took(record, rest) =>
        if IsEndMarker(record.kind) then Took([record], rest)
        else Prepend([record], TakeRecords(rest))
  }

  function PutRecords(ws: seq<Wire>, rest: seq<u8>): seq<u8> {
    if ws == [] then rest else PutRecord(ws[0], PutRecords(ws[1..], rest))
  }

  ghost function Meanings(ws: seq<Wire>): (records: seq<Record>)
    requires forall i :: 0 <= i < |ws| ==> WireWellFormed(ws[i])
    ensures |records| == |ws|
    ensures forall i :: 0 <= i < |ws| ==> records[i] == Meaning(ws[i])
  {
    if ws == [] then [] else [Meaning(ws[0])] + Meanings(ws[1..])
  }

  /** Only the last record may be an end marker, and only that one may be unclosed; bytes may follow
      it if it is closed. */
  ghost predicate ListWellFormed(ws: seq<Wire>, trailing: seq<u8>) {
    && (forall i :: 0 <= i < |ws| ==> WireWellFormed(ws[i]))
    && (forall i :: 0 <= i < |ws| - 1 ==> ws[i].closed && !IsEndMarker(Meaning(ws[i]).kind))
    && (trailing != [] ==> ws != [] && ws[|ws| - 1].closed && IsEndMarker(Meaning(ws[|ws| - 1]).kind))
  }

  lemma ListTail(ws: seq<Wire>, trailing: seq<u8>)
    requires ListWellFormed(ws, trailing) && |ws| > 1
    ensures ListWellFormed(ws[1..], trailing)
  {
  }

  lemma {:induction false} TakeOfPutRecords(ws: seq<Wire>, trailing: seq<u8>)
    requires ListWellFormed(ws, trailing)
    ensures TakeRecords(PutRecords(ws, trailing)) == Took(Meanings(ws), trailing)
    decreases |ws|
  {
    if ws == [] {
      assert Meanings(ws) == [];
    } else {
      var rest := PutRecords(ws[1..], trailing);
      TakeOfPutRecord(EMPTY, ws[0], rest);
      RecordIsNotEmpty(ws[0], rest);
      if |ws| == 1 {
        assert ws[1..] == [] && Meanings(ws) == [Meaning(ws[0])];
        assert TakeRecords([]) == Took([], []);
      } else {
        ListTail(ws, trailing);
        TakeOfPutRecords(ws[1..], trailing);
      }
    }
  }

  lemma RecordIsNotEmpty(w: Wire, rest: seq<u8>)
    requires WireWellFormed(w)
    ensures PutRecord(w, rest) != []
  {
  }

  lemma ListExtends(w: Wire, tail: seq<Wire>, trailing: seq<u8>)
    requires WireWellFormed(w) && w.closed && !IsEndMarker(Meaning(w).kind) && ListWellFormed(tail, trailing)
    ensures ListWellFormed([w] + tail, trailing)
    ensures PutRecords([w] + tail, trailing) == PutRecord(w, PutRecords(tail, trailing))
    ensures Meanings([w] + tail) == [Meaning(w)] + Meanings(tail)
  {
    var ws := [w] + tail;
    assert ws[1..] == tail;
    forall i | 0 <= i < |ws| - 1 ensures ws[i].closed && !IsEndMarker(Meaning(ws[i]).kind) {
      if i > 0 {
        assert ws[i] == tail[i - 1];
      }
    }
  }

  lemma {:induction false} PutOfTakeRecords(b: seq<u8>) returns (ws: seq<Wire>)
    requires TakeRecords(b).Took?
    ensures ListWellFormed(ws, TakeRecords(b).rest)
    ensures PutRecords(ws, TakeRecords(b).rest) == b && TakeRecords(b).value == Meanings(ws)
    decreases |b|
  {
    if b == [] {
      ws := [];
    } else {
      var t := TakeRecord(b, EMPTY);
      var w := PutOfTakeRecord(b, EMPTY);
      if IsEndMarker(t.value.kind) {
        ws := [w];
        assert ws[1..] == [] && Meanings(ws) == [Meaning(w)];
      } else {
        assert w.closed;
        var tail := PutOfTakeRecords(t.rest);
        ListExtends(w, tail, TakeRecords(t.rest).rest);
        ws := [w] + tail;
      }
    }
  }

  // ---------------------------------------------------------------------------------------------
  // The header

  datatype Header = Header(
    signature: string, version: i32, numRecords: i32, numEntities: i32, flags: i32,
    productId: seq<u8>, acisVersion: seq<u8>, creationDate: seq<u8>,
    unitsInMm: Float, resTol: Float, norTol: Float)

  datatype Sab = Sab(header: Header, records: seq<Record>)

  function TakeSignature(b: seq<u8>): Taken<string> {
    if Signature.Bytes(Signature.SIGNATURES[0]) <= b then Took(Signature.SIGNATURES[0], b[15..])
    else if Signature.Bytes(Signature.SIGNATURES[1]) <= b then Took(Signature.SIGNATURES[1], b[15..])
    else Short
  }

  /** The payload of an item that must carry the given tag. */
  function TakeTagged(b: seq<u8>, tag: u8): Taken<Payload> {
    match TakeItem(b)
    case Short => Short
    case Took(item, rest) => if item.tag == tag then Took(item.payload, rest) else Short
  }

  /** Tagged payloads, one for each tag of a list. */
  function TakeAll(b: seq<u8>, tags: seq<u8>): Taken<seq<Payload>> {
    if tags == [] then Took([], b)
    else
      match TakeTagged(b, tags[0])
      case Short => Short
      case Took(p, rest) => Prepend([p], TakeAll(rest, tags[1..]))
  }

  function PutAll(ps: seq<Payload>, tags: seq<u8>, rest: seq<u8>): seq<u8>
    requires |ps| == |tags|
  {
    if ps == [] then rest else PutItem(Item(tags[0], ps[0]), PutAll(ps[1..], tags[1..], rest))
  }

  ghost predicate AllFit(ps: seq<Payload>, tags: seq<u8>) {
    |ps| == |tags| && forall i :: 0 <= i < |ps| ==> Fits(ps[i], ShapeOf(tags[i]))
  }

  lemma {:induction false} TakeOfPutAll(ps: seq<Payload>, tags: seq<u8>, rest: seq<u8>)
    requires AllFit(ps, tags)
    ensures TakeAll(PutAll(ps, tags, rest), tags) == Took(ps, rest)
    decreases |ps|
  {
    if ps == [] {
    } else {
      TakeOfPutItem(Item(tags[0], ps[0]), PutAll(ps[1..], tags[1..], rest));
      TakeOfPutAll(ps[1..], tags[1..], rest);
      assert [ps[0]] + ps[1..] == ps;
    }
  }

  lemma {:induction false} PutOfTakeAll(b: seq<u8>, tags: seq<u8>)
    requires TakeAll(b, tags).Took?
    ensures AllFit(TakeAll(b, tags).value, tags)
    ensures PutAll(TakeAll(b, tags).value, tags, TakeAll(b, tags).rest) == b
    decreases |tags|
  {
    if tags == [] {
    } else {
      PutOfTakeItem(b);
      var rest := TakeTagged(b, tags[0]).rest;
      PutOfTakeAll(rest, tags[1..]);
      assert TakeAll(b, tags).value[1..] == TakeAll(rest, tags[1..]).value;
    }
  }

  const HEADER_TAGS: seq<u8> := [STR, STR, STR, DOUBLE, DOUBLE, DOUBLE]

  function MakeHeader(signature: string, ns: seq<i32>, ps: seq<Payload>): Header
    requires |ns| == 4 && AllFit(ps, HEADER_TAGS)
  {
    Header(signature, ns[0], ns[1], ns[2], ns[3], ps[0].s, ps[1].s, ps[2].s, ps[3].x, ps[4].x, ps[5].x)
  }

  function NumbersOf(h: Header): seq<i32> {
    [h.version, h.numRecords, h.numEntities, h.flags]
  }

  function PayloadsOf(h: Header): seq<Payload> {
    [Text(h.productId), Text(h.acisVersion), Text(h.creationDate), Real(h.unitsInMm), Real(h.resTol), Real(h.norTol)]
  }

  predicate HeaderWellFormed(h: Header) {
    h.signature in Signature.SIGNATURES && |h.productId| < 0x100 && |h.acisVersion| < 0x100 && |h.creationDate| < 0x100
  }

  function NumberParser(): Parser<i32> {
    (b: seq<u8>) => TakeI32(b)
  }

  function NumberWriter(): Writer<i32> {
    (v: i32, rest: seq<u8>) => Put(FromI32(v), 4, rest)
  }

  lemma NumbersInverse()
    ensures Inverse(NumberParser(), NumberWriter(), (v: i32) => true)
  {
    LimitValues();
    forall v: i32, rest ensures TakeI32(Put(FromI32(v), 4, rest)) == Took(v, rest) {
      TakeOfPut(FromI32(v), 4, rest);
    }
    forall b | TakeI32(b).Took? ensures Put(FromI32(TakeI32(b).value), 4, TakeI32(b).rest) == b {
      PutOfTake(b, 4);
    }
  }

  function TakeFields(b: seq<u8>, signature: string): Taken<Header> {
    match TakeMany(NumberParser(), b, 4)
    case Short => Short
    case Took(ns, rest) =>
      match TakeAll(rest, HEADER_TAGS)
      case Short => Short
      case Took(ps, rest') =>
        NumbersInverse();
        PutOfTakeMany(NumberParser(), NumberWriter(), (v: i32) => true, b, 4);
        PutOfTakeAll(rest, HEADER_TAGS);
        Took(MakeHeader(signature, ns, ps), rest')
  }

  function TakeHeader(b: seq<u8>): Taken<Header> {
    match TakeSignature(b)
    case Short => Short
    case Took(signature, rest) => TakeFields(rest, signature)
  }

  function PutFields(h: Header, rest: seq<u8>): seq<u8> {
    PutMany(NumberWriter(), NumbersOf(h), PutAll(PayloadsOf(h), HEADER_TAGS, rest))
  }

  function PutHeader(h: Header, rest: seq<u8>): seq<u8> {
    Signature.Bytes(h.signature) + PutFields(h, rest)
  }

  lemma SignaturesDiffer()
    ensures |Signature.Bytes(Signature.SIGNATURES[0])| == 15 && |Signature.Bytes(Signature.SIGNATURES[1])| == 15
    ensures Signature.Bytes(Signature.SIGNATURES[0])[1] != Signature.Bytes(Signature.SIGNATURES[1])[1]
  {
  }

  lemma TakeOfPutFields(h: Header, rest: seq<u8>)
    requires HeaderWellFormed(h)
    ensures TakeFields(PutFields(h, rest), h.signature) == Took(h, rest)
  {
    var ps := PayloadsOf(h);
    assert AllFit(ps, HEADER_TAGS);
    TakeOfPutAll(ps, HEADER_TAGS, rest);
    NumbersInverse();
    TakeOfPutMany(NumberParser(), NumberWriter(), (v: i32) => true, NumbersOf(h), PutAll(ps, HEADER_TAGS, rest));
  }

  lemma PutOfTakeFields(b: seq<u8>, signature: string)
    requires TakeFields(b, signature).Took? && signature in Signature.SIGNATURES
    ensures HeaderWellFormed(TakeFields(b, signature).value)
    ensures TakeFields(b, signature).value.signature == signature
    ensures PutFields(TakeFields(b, signature).value, TakeFields(b, signature).rest) == b
  {
    var ns := TakeMany(NumberParser(), b, 4);
    NumbersInverse();
    PutOfTakeMany(NumberParser(), NumberWriter(), (v: i32) => true, b, 4);
    PutOfTakeAll(ns.rest, HEADER_TAGS);
    var ps := TakeAll(ns.rest, HEADER_TAGS).value;
    HeaderKeepsFields(signature, ns.value, ps);
  }

  lemma HeaderKeepsFields(signature: string, ns: seq<i32>, ps: seq<Payload>)
    requires |ns| == 4 && AllFit(ps, HEADER_TAGS)
    ensures NumbersOf(MakeHeader(signature, ns, ps)) == ns && PayloadsOf(MakeHeader(signature, ns, ps)) == ps
    ensures signature in Signature.SIGNATURES ==> HeaderWellFormed(MakeHeader(signature, ns, ps))
  {
    forall i | 0 <= i < 6 ensures PayloadsOf(MakeHeader(signature, ns, ps))[i] == ps[i] {
      assert Fits(ps[i], ShapeOf(HEADER_TAGS[i]));
    }
  }

  lemma TakeOfPutHeader(h: Header, rest: seq<u8>)
    requires HeaderWellFormed(h)
    ensures TakeHeader(PutHeader(h, rest)) == Took(h, rest)
  {
    SignaturesDiffer();
    TakeOfPutFields(h, rest);
    var b := PutHeader(h, rest);
    assert b[15..] == PutFields(h, rest);
    if h.signature == Signature.SIGNATURES[1] {
      assert b[1] == Signature.Bytes(h.signature)[1];
    }
  }

  lemma PutOfTakeHeader(b: seq<u8>)
    requires TakeHeader(b).Took?
    ensures HeaderWellFormed(TakeHeader(b).value) && PutHeader(TakeHeader(b).value, TakeHeader(b).rest) == b
  {
    SignaturesDiffer();
    var t := TakeSignature(b);
    PutOfTakeFields(t.rest, t.value);
    assert b == b[..15] + b[15..];
  }

  // ---------------------------------------------------------------------------------------------
  // The stream

  function Decode(b: seq<u8>): Option<Sab> {
    match TakeHeader(b)
    case Short => None
    case Took(header, rest) =>
      match TakeRecords(rest)
      case Short => None
      case Took(records, _) =>
        if header.numRecords >= 0 && |records| != header.numRecords then None else Some(Sab(header, records))
  }

  function Encode(h: Header, ws: seq<Wire>, trailing: seq<u8>): seq<u8> {
    PutHeader(h, PutRecords(ws, trailing))
  }

  ghost predicate StreamWellFormed(h: Header, ws: seq<Wire>, trailing: seq<u8>) {
    HeaderWellFormed(h) && ListWellFormed(ws, trailing) && (h.numRecords >= 0 ==> |ws| == h.numRecords)
  }

  /** Decoding an encoded stream gives its header and the meaning of its records. */
  lemma StreamRoundTrip(h: Header, ws: seq<Wire>, trailing: seq<u8>)
    requires StreamWellFormed(h, ws, trailing)
    ensures Decode(Encode(h, ws, trailing)) == Some(Sab(h, Meanings(ws)))
  {
    TakeOfPutHeader(h, PutRecords(ws, trailing));
    TakeOfPutRecords(ws, trailing);
  }

  /** Every accepted byte string is the encoding of a well-formed stream with that meaning. */
  lemma AcceptedStreamIsEncoded(b: seq<u8>) returns (ws: seq<Wire>, trailing: seq<u8>)
    requires Decode(b).Some?
    ensures StreamWellFormed(Decode(b).value.header, ws, trailing)
    ensures b == Encode(Decode(b).value.header, ws, trailing)
    ensures Decode(b).value.records == Meanings(ws)
  {
    PutOfTakeHeader(b);
    var rest := TakeHeader(b).rest;
    ws := PutOfTakeRecords(rest);
    trailing := TakeRecords(rest).rest;
  }

  /** In an accepted stream every record has a type and balanced subtypes, an end marker comes last if at all,
      and a non-negative declared count is the number of records. */
  lemma AcceptedStreamIsSound(b: seq<u8>)
    requires Decode(b).Some?
    ensures var sab := Decode(b).value;
            && (forall i :: 0 <= i < |sab.records| ==> RecordSound(sab.records[i]))
            && (forall i :: 0 <= i < |sab.records| - 1 ==> !IsEndMarker(sab.records[i].kind))
            && (sab.header.numRecords >= 0 ==> |sab.records| == sab.header.numRecords)
  {
    RecordsAreSound(TakeHeader(b).rest);
  }

  lemma {:induction false} RecordsAreSound(b: seq<u8>)
    requires TakeRecords(b).Took?
    ensures var records := TakeRecords(b).value;
            && (forall i :: 0 <= i < |records| ==> RecordSound(records[i]))
            && (forall i :: 0 <= i < |records| - 1 ==> !IsEndMarker(records[i].kind))
    decreases |b|
  {
    if b == [] {
    } else {
      var t := TakeRecord(b, EMPTY);
      assert Knows(EMPTY);
      TakenRecordIsSound(b, EMPTY);
      if !IsEndMarker(t.value.kind) {
        RecordsAreSound(t.rest);
      }
    }
  }

  // ---------------------------------------------------------------------------------------------
  // The parser

  method ReadRecord(r: SabByteReader) returns (record: Option<Record>)
    requires r.Valid()
    modifies r
    ensures r.Valid()
    ensures TakeRecord(old(r.Rest()), EMPTY) == if record.Some? then Took(record.value, r.Rest()) else Short
  {
    var s := EMPTY;
    while true
      invariant r.Valid() && TakeRecord(old(r.Rest()), EMPTY) == TakeRecord(r.Rest(), s)
      decreases |r.Rest()|
    {
      if !r.HasData() {
        return if MayEndHere(s) then Some(Record(s.kind, s.tokens)) else None;
      }
      ghost var rest := r.Rest();
      var item := r.ReadItem();
      if item.None? {
        return None;
      }
      PutOfTakeItem(rest);
      match Step(s, item.value) {
        case Bad => return None;
        case Done(done) => return Some(done);
        case More(s') => s := s';
      }
    }
  }

  method ReadTagged(r: SabByteReader, tag: u8) returns (p: Option<Payload>)
    requires r.Valid()
    modifies r
    ensures r.Valid()
    ensures TakeTagged(old(r.Rest()), tag) == if p.Some? then Took(p.value, r.Rest()) else Short
  {
    var item := r.ReadItem();
    return if item.None? || item.value.tag != tag then None else Some(item.value.payload);
  }

  ghost predicate TakesNumbers(take: Parser<i32>) {
    forall b {:trigger TakeI32(b)} :: take(b) == TakeI32(b)
  }

  lemma TakeNone<T(!new)>(take: Parser<T>, b: seq<u8>, n: nat, xs: seq<T>)
    requires n == 0
    ensures Prepend(xs, TakeMany(take, b, n)) == Took(xs, b)
  {
  }

  method ReadNumbers(r: SabByteReader, ghost take: Parser<i32>, ghost n: nat) returns (ns: Option<seq<i32>>)
    requires r.Valid() && TakesNumbers(take) && n == 4
    modifies r
    ensures r.Valid()
    ensures TakeMany(take, old(r.Rest()), n) == if ns.Some? then Took(ns.value, r.Rest()) else Short
  {
    PrependNext(take, r.Rest(), n, []);
    var version := r.ReadInt();
    if version.None? {
      return None;
    }
    PrependNext(take, r.Rest(), n - 1, [] + [version.value]);
    var numRecords := r.ReadInt();
    if numRecords.None? {
      return None;
    }
    PrependNext(take, r.Rest(), n - 2, [] + [version.value] + [numRecords.value]);
    var numEntities := r.ReadInt();
    if numEntities.None? {
      return None;
    }
    PrependNext(take, r.Rest(), n - 3, [] + [version.value] + [numRecords.value] + [numEntities.value]);
    var flags := r.ReadInt();
    if flags.None? {
      return None;
    }
    var all := [] + [version.value] + [numRecords.value] + [numEntities.value] + [flags.value];
    TakeNone(take, r.Rest(), n - 4, all);
    return Some(all);
  }

  lemma PrependTagged(b: seq<u8>, tags: seq<u8>, ps: seq<Payload>)
    requires tags != []
    ensures var t := TakeTagged(b, tags[0]);
            if t.Short? then Prepend(ps, TakeAll(b, tags)).Short?
            else Prepend(ps, TakeAll(b, tags)) == Prepend(ps + [t.value], TakeAll(t.rest, tags[1..]))
  {
    var t := TakeTagged(b, tags[0]);
    if t.Took? && TakeAll(t.rest, tags[1..]).Took? {
      ConcatAssociates(ps, [t.value], TakeAll(t.rest, tags[1..]).value);
    }
  }

  /** Three strings, each behind its tag. */
  method ReadStrings(r: SabByteReader, ghost tags: seq<u8>) returns (ps: Option<seq<Payload>>)
    requires r.Valid() && |tags| >= 3 && tags[0] == STR && tags[1] == STR && tags[2] == STR
    modifies r
    ensures r.Valid()
    ensures TakeAll(old(r.Rest()), tags)
            == if ps.Some? then Prepend(ps.value, TakeAll(r.Rest(), tags[1..][1..][1..])) else Short
  {
    PrependTagged(r.Rest(), tags, []);
    var productId := ReadTagged(r, STR);
    if productId.None? {
      return None;
    }
    PrependTagged(r.Rest(), tags[1..], [] + [productId.value]);
    var acisVersion := ReadTagged(r, STR);
    if acisVersion.None? {
      return None;
    }
    PrependTagged(r.Rest(), tags[1..][1..], [] + [productId.value] + [acisVersion.value]);
    var creationDate := ReadTagged(r, STR);
    if creationDate.None? {
      return None;
    }
    return Some([] + [productId.value] + [acisVersion.value] + [creationDate.value]);
  }

  /** Three doubles, each behind its tag. */
  method ReadDoubles(r: SabByteReader, ps: seq<Payload>, ghost tags: seq<u8>) returns (all: Option<seq<Payload>>)
    requires r.Valid() && |tags| == 3 && tags[0] == DOUBLE && tags[1] == DOUBLE && tags[2] == DOUBLE
    modifies r
    ensures r.Valid()
    ensures Prepend(ps, TakeAll(old(r.Rest()), tags)) == if all.Some? then Took(all.value, r.Rest()) else Short
  {
    PrependTagged(r.Rest(), tags, ps);
    var unitsInMm := ReadTagged(r, DOUBLE);
    if unitsInMm.None? {
      return None;
    }
    PrependTagged(r.Rest(), tags[1..], ps + [unitsInMm.value]);
    var resTol := ReadTagged(r, DOUBLE);
    if resTol.None? {
      return None;
    }
    PrependTagged(r.Rest(), tags[1..][1..], ps + [unitsInMm.value] + [resTol.value]);
    var norTol := ReadTagged(r, DOUBLE);
    if norTol.None? {
      return None;
    }
    assert tags[1..][1..][1..] == [];
    return Some(ps + [unitsInMm.value] + [resTol.value] + [norTol.value]);
  }

  method ReadTags(r: SabByteReader) returns (ps: Option<seq<Payload>>)
    requires r.Valid()
    modifies r
    ensures r.Valid()
    ensures TakeAll(old(r.Rest()), HEADER_TAGS) == if ps.Some? then Took(ps.value, r.Rest()) else Short
  {
    var strings := ReadStrings(r, HEADER_TAGS);
    if strings.None? {
      return None;
    }
    ps := ReadDoubles(r, strings.value, HEADER_TAGS[1..][1..][1..]);
  }

  method ReadFields(r: SabByteReader, signature: string) returns (h: Option<Header>)
    requires r.Valid()
    modifies r
    ensures r.Valid()
    ensures TakeFields(old(r.Rest()), signature) == if h.Some? then Took(h.value, r.Rest()) else Short
  {
    var ns := ReadNumbers(r, NumberParser(), 4);
    if ns.None? {
      return None;
    }
    ghost var behind := r.Rest();
    var ps := ReadTags(r);
    if ps.None? {
      return None;
    }
    NumbersInverse();
    PutOfTakeMany(NumberParser(), NumberWriter(), (v: i32) => true, old(r.Rest()), 4);
    PutOfTakeAll(behind, HEADER_TAGS);
    return Some(MakeHeader(signature, ns.value, ps.value));
  }

  method ReadHeader(r: SabByteReader) returns (h: Option<Header>)
    requires r.Valid() && r.index == 0
    modifies r
    ensures r.Valid()
    ensures TakeHeader(r.data) == if h.Some? then Took(h.value, r.Rest()) else Short
  {
    SignaturesDiffer();
    var i := 0;
    while i < |Signature.SIGNATURES|
      invariant 0 <= i <= |Signature.SIGNATURES| && r.Valid() && r.index == 0
      invariant forall j :: 0 <= j < i ==> !(Signature.Bytes(Signature.SIGNATURES[j]) <= r.data)
    {
      if Signature.Bytes(Signature.SIGNATURES[i]) <= r.data {
        r.index := 15;
        h := ReadFields(r, Signature.SIGNATURES[i]);
        return;
      }
      i := i + 1;
    }
    return None;
  }

  method ReadRecords(r: SabByteReader) returns (records: Option<seq<Record>>)
    requires r.Valid()
    modifies r
    ensures r.Valid()
    ensures match TakeRecords(old(r.Rest()))
            case Short => records.None?
            case Took(value, _) => records == Some(value)
  {
    var found: seq<Record> := [];
    while r.HasData()
      invariant r.Valid() && TakeRecords(old(r.Rest())) == Prepend(found, TakeRecords(r.Rest()))
      decreases |r.Rest()|
    {
      ghost var rest := r.Rest();
      var record := ReadRecord(r);
      if record.None? {
        return None;
      }
      PrependRecord(rest, found);
      found := found + [record.value];
      if IsEndMarker(record.value.kind) {
        return Some(found);
      }
    }
    return Some(found);
  }

  lemma PrependRecord(b: seq<u8>, found: seq<Record>)
    requires b != [] && TakeRecord(b, EMPTY).Took?
    ensures var t := TakeRecord(b, EMPTY);
            Prepend(found, TakeRecords(b))
            == if IsEndMarker(t.value.kind) then Took(found + [t.value], t.rest)
               else Prepend(found + [t.value], TakeRecords(t.rest))
  {
    var t := TakeRecord(b, EMPTY);
    if !IsEndMarker(t.value.kind) && TakeRecords(t.rest).Took? {
      ConcatAssociates(found, [t.value], TakeRecords(t.rest).value);
    }
  }

  /** Decodes a SAB stream; a missing buffer or any malformed read refuses it. */
  method ParseSab(data: Option<Buffer>) returns (sab: Option<Sab>)
    ensures sab == if data.None? then None else Decode(data.value)
  {
    if data.None? {
      return None;
    }
    var r := new SabByteReader(data.value);
    var h := ReadHeader(r);
    if h.None? {
      return None;
    }
    var records := ReadRecords(r);
    if records.None? {
      return None;
    }
    if h.value.numRecords >= 0 && |records.value| != h.value.numRecords {
      return None;
    }
    return Some(Sab(h.value, records.value));
  }
}
