/** The tagged items of a SAB stream: their byte format and the index-driven reader. */
module AcisItems {
  import opened Words
  import opened Formats

  const INT: u8 := 0x04
  const DOUBLE: u8 := 0x06
  const STR: u8 := 0x07
  const BOOL_TRUE: u8 := 0x0a
  const BOOL_FALSE: u8 := 0x0b
  const NODE_REF: u8 := 0x0c
  const ENTITY_TYPE: u8 := 0x0d
  const ENTITY_TYPE_EX: u8 := 0x0e
  const SUBTYPE_START: u8 := 0x0f
  const SUBTYPE_END: u8 := 0x10
  const RECORD_END: u8 := 0x11
  const LITERAL_STR: u8 := 0x12
  const LOCATION_VEC: u8 := 0x13
  const DIRECTION_VEC: u8 := 0x14
  const ENUM: u8 := 0x15
  const UNKNOWN_17: u8 := 0x17

  /** A double, as its eight bytes. */
  type Float = b: seq<u8> | |b| == 8 witness [0, 0, 0, 0, 0, 0, 0, 0]

  datatype Payload =
    | Nothing | Flag(on: bool) | Number(v: i32) | Level(depth: nat) | Real(x: Float) | Text(s: seq<u8>)
    | Vector(x: Float, y: Float, z: Float)

  /** How the bytes behind a tag are laid out. */
  datatype Shape = Bare | Word | Eight | ShortText | LongText | Triple | Unreadable

  function ShapeOf(tag: u8): Shape {
    if tag == INT || tag == NODE_REF || tag == ENUM then Word
    else if tag == DOUBLE || tag == UNKNOWN_17 then Eight
    else if tag == STR || tag == ENTITY_TYPE || tag == ENTITY_TYPE_EX then ShortText
    else if tag == LITERAL_STR then LongText
    else if tag == LOCATION_VEC || tag == DIRECTION_VEC then Triple
    else if tag == BOOL_TRUE || tag == BOOL_FALSE || tag == SUBTYPE_START || tag == SUBTYPE_END
            || tag == RECORD_END then Bare
    else Unreadable
  }

  datatype Item = Item(tag: u8, payload: Payload)

  predicate Fits(p: Payload, shape: Shape) {
    match shape
    case Bare => p.Nothing?
    case Word => p.Number?
    case Eight => p.Real?
    case ShortText => p.Text? && |p.s| < 0x100
    case LongText => p.Text? && |p.s| < 0x8000_0000
    case Triple => p.Vector?
    case Unreadable => false
  }

  predicate WellFormed(item: Item) {
    Fits(item.payload, ShapeOf(item.tag))
  }

  function FromI32(v: i32): (x: u32)
    ensures ToI32(x) == v
  {
    if v < 0 then v + 0x1_0000_0000 else v
  }

  function PutPayload(p: Payload, shape: Shape, rest: seq<u8>): seq<u8> {
    match p
    case Number(v) => Put(FromI32(v), 4, rest)
    case Real(x) => x + rest
    case Text(s) => Put(|s|, if shape.ShortText? then 1 else 4, s + rest)
    case Vector(x, y, z) => x + (y + (z + rest))
    case _ => rest
  }

  function PutItem(item: Item, rest: seq<u8>): seq<u8> {
    [item.tag] + PutPayload(item.payload, ShapeOf(item.tag), rest)
  }

  function TakeI32(b: seq<u8>): Taken<i32> {
    match TakeWord(b, 4)
    case Short => Short
    case Took(x, rest) =>
      LimitValues();
      LeBound(b[..4]);
      Took(ToI32(x), rest)
  }

  function TakeFloat(b: seq<u8>): Taken<Float> {
    if 8 <= |b| then Took(b[..8], b[8..]) else Short
  }

  function TakeVector(b: seq<u8>): Taken<Payload> {
    match TakeFloat(b)
    case Short => Short
    case Took(x, rest) =>
      match TakeFloat(rest)
      case Short => Short
      case Took(y, rest') =>
        match TakeFloat(rest')
        case Short => Short
        case Took(z, rest'') => Took(Vector(x, y, z), rest'')
  }

  function TakeText(b: seq<u8>, n: nat): Taken<Payload> {
    match Take(b, n)
    case Short => Short
    case Took(s, rest) => Took(Text(s), rest)
  }

  function TakePayload(b: seq<u8>, shape: Shape): Taken<Payload> {
    match shape
    case Bare => Took(Nothing, b)
    case Word =>
      (match TakeI32(b)
       case Short => Short
       case Took(v, rest) => Took(Number(v), rest))
    case Eight =>
      (match TakeFloat(b)
       case Short => Short
       case Took(x, rest) => Took(Real(x), rest))
    case ShortText =>
      (match TakeWord(b, 1)
       case Short => Short
       case Took(n, rest) => TakeText(rest, n))
    case LongText =>
      (match TakeI32(b)
       case Short => Short
       case Took(n, rest) => if n < 0 then Short else TakeText(rest, n))
    case Triple => TakeVector(b)
    case Unreadable => Short
  }

  function TakeItem(b: seq<u8>): (t: Taken<Item>)
    ensures t.Took? ==> |t.rest| < |b|
  {
    if b == [] then Short
    else
      match TakePayload(b[1..], ShapeOf(b[0]))
      case Short => Short
      case Took(p, rest) => Took(Item(b[0], p), rest)
  }

  lemma TakeOfPutPayload(p: Payload, shape: Shape, rest: seq<u8>)
    requires Fits(p, shape)
    ensures TakePayload(PutPayload(p, shape, rest), shape) == Took(p, rest)
  {
    LimitValues();
    match shape
    case Word => TakeOfPut(FromI32(p.v), 4, rest);
    case Eight => assert (p.x + rest)[..8] == p.x && (p.x + rest)[8..] == rest;
    case ShortText =>
      assert Limit(1) == 0x100;
      TakeOfPut(|p.s|, 1, p.s + rest);
      assert (p.s + rest)[..|p.s|] == p.s && (p.s + rest)[|p.s|..] == rest;
    case LongText =>
      TakeOfPut(|p.s|, 4, p.s + rest);
      assert (p.s + rest)[..|p.s|] == p.s && (p.s + rest)[|p.s|..] == rest;
    case Triple =>
      var b'' := p.z + rest;
      var b' := p.y + b'';
      var b := p.x + b';
      assert b[..8] == p.x && b[8..] == b' && b'[..8] == p.y && b'[8..] == b'' && b''[..8] == p.z && b''[8..] == rest;
    case _ =>
  }

  /** The payload read from b fits its shape and was written as the bytes of b. */
  ghost predicate Reencodes(b: seq<u8>, shape: Shape) {
    var t := TakePayload(b, shape);
    t.Took? ==> Fits(t.value, shape) && PutPayload(t.value, shape, t.rest) == b
  }

  lemma TextSplits(b: seq<u8>, n: nat)
    requires n <= |b|
    ensures b == b[..n] + b[n..]
  {
  }

  lemma ShortTextReencodes(b: seq<u8>)
    ensures Reencodes(b, ShortText)
  {
    if TakePayload(b, ShortText).Took? {
      assert Limit(1) == 0x100;
      PutOfTake(b, 1);
      TextSplits(b[1..], TakeWord(b, 1).value);
    }
  }

  lemma LongTextReencodes(b: seq<u8>)
    ensures Reencodes(b, LongText)
  {
    if TakePayload(b, LongText).Took? {
      LimitValues();
      PutOfTake(b, 4);
      TextSplits(b[4..], TakeWord(b, 4).value);
    }
  }

  lemma TripleReencodes(b: seq<u8>)
    ensures Reencodes(b, Triple)
  {
    if TakePayload(b, Triple).Took? {
      TextSplits(b, 8);
      TextSplits(b[8..], 8);
      TextSplits(b[8..][8..], 8);
    }
  }

  lemma WordReencodes(b: seq<u8>)
    ensures Reencodes(b, Word) && Reencodes(b, Eight)
  {
    LimitValues();
    if |b| >= 4 {
      PutOfTake(b, 4);
    }
    if |b| >= 8 {
      TextSplits(b, 8);
    }
  }

  lemma PutOfTakePayload(b: seq<u8>, shape: Shape)
    requires TakePayload(b, shape).Took?
    ensures Fits(TakePayload(b, shape).value, shape)
    ensures PutPayload(TakePayload(b, shape).value, shape, TakePayload(b, shape).rest) == b
  {
    match shape
    case Word => WordReencodes(b);
    case Eight => WordReencodes(b);
    case ShortText => ShortTextReencodes(b);
    case LongText => LongTextReencodes(b);
    case Triple => TripleReencodes(b);
    case _ =>
  }

  /** Reading a written item gives the item back. */
  lemma TakeOfPutItem(item: Item, rest: seq<u8>)
    requires WellFormed(item)
    ensures TakeItem(PutItem(item, rest)) == Took(item, rest)
  {
    TakeOfPutPayload(item.payload, ShapeOf(item.tag), rest);
    assert PutItem(item, rest)[1..] == PutPayload(item.payload, ShapeOf(item.tag), rest);
  }

  /** Every item read is well formed, and writing it gives the bytes that were consumed. */
  lemma PutOfTakeItem(b: seq<u8>)
    requires TakeItem(b).Took?
    ensures WellFormed(TakeItem(b).value) && PutItem(TakeItem(b).value, TakeItem(b).rest) == b
  {
    PutOfTakePayload(b[1..], ShapeOf(b[0]));
    assert b == [b[0]] + b[1..];
  }

  /** The byte reader: a buffer and the index of the next byte. A refused read is an exception, after
      which the reader is not used again. */
  class SabByteReader {
    const data: Buffer
    var index: u64

    ghost predicate Valid()
      reads this
    {
      index <= |data|
    }

    function Rest(): seq<u8>
      requires Valid()
      reads this
    {
      data[index..]
    }

    constructor (data: Buffer)
      ensures Valid() && Rest() == data && this.data == data && index == 0
    {
      this.data := data;
      index := 0;
    }

    predicate HasData()
      requires Valid()
      reads this
      ensures HasData() <==> Rest() != []
    {
      index < |data|
    }

    method ReadStr(n: u64) returns (s: Option<seq<u8>>)
      requires Valid()
      modifies this
      ensures Valid()
      ensures Take(old(Rest()), n) == if s.Some? then Took(s.value, Rest()) else Short
    {
      if index > |data| || n > |data| - index {
        return None;
      }
      s := Some(data[index..index + n]);
      assert old(Rest())[..n] == s.value && old(Rest())[n..] == data[index + n..];
      index := index + n;
    }

    method ReadByte() returns (x: Option<u8>)
      requires Valid()
      modifies this
      ensures Valid()
      ensures x.None? <==> old(Rest()) == []
      ensures x.Some? ==> x.value == old(Rest())[0] && Rest() == old(Rest())[1..]
    {
      var s := ReadStr(1);
      if s.None? {
        return None;
      }
      return Some(s.value[0]);
    }

    method ReadInt() returns (v: Option<i32>)
      requires Valid()
      modifies this
      ensures Valid()
      ensures TakeI32(old(Rest())) == if v.Some? then Took(v.value, Rest()) else Short
    {
      var s := ReadStr(4);
      if s.None? {
        return None;
      }
      return Some(ToI32(Le32(s.value)));
    }

    method ReadFloat() returns (x: Option<Float>)
      requires Valid()
      modifies this
      ensures Valid()
      ensures TakeFloat(old(Rest())) == if x.Some? then Took(x.value, Rest()) else Short
    {
      x := ReadStr(8);
    }

    method ReadVec() returns (v: Option<Payload>)
      requires Valid()
      modifies this
      ensures Valid()
      ensures TakeVector(old(Rest())) == if v.Some? then Took(v.value, Rest()) else Short
    {
      var x := ReadFloat();
      if x.None? {
        return None;
      }
      var y := ReadFloat();
      if y.None? {
        return None;
      }
      var z := ReadFloat();
      if z.None? {
        return None;
      }
      return Some(Vector(x.value, y.value, z.value));
    }

    method ReadText(long: bool) returns (p: Option<Payload>)
      requires Valid()
      modifies this
      ensures Valid()
      ensures TakePayload(old(Rest()), if long then LongText else ShortText)
              == if p.Some? then Took(p.value, Rest()) else Short
    {
      var n: u64;
      if long {
        var length := ReadInt();
        if length.None? || length.value < 0 {
          return None;
        }
        n := length.value;
      } else {
        var length := ReadByte();
        if length.None? {
          return None;
        }
        n := length.value;
        assert Le(old(Rest())[..1]) == n;
      }
      var s := ReadStr(n);
      if s.None? {
        return None;
      }
      return Some(Text(s.value));
    }

    method ReadPayload(tag: u8) returns (p: Option<Payload>)
      requires Valid()
      modifies this
      ensures Valid()
      ensures TakePayload(old(Rest()), ShapeOf(tag)) == if p.Some? then Took(p.value, Rest()) else Short
    {
      match ShapeOf(tag)
      case Bare => return Some(Nothing);
      case Word =>
        var v := ReadInt();
        return if v.None? then None else Some(Number(v.value));
      case Eight =>
        var x := ReadFloat();
        return if x.None? then None else Some(Real(x.value));
      case ShortText => p := ReadText(false);
      case LongText => p := ReadText(true);
      case Triple => p := ReadVec();
      case Unreadable => return None;
    }

    /** A tag and what it announces. */
    method ReadItem() returns (item: Option<Item>)
      requires Valid()
      modifies this
      ensures Valid()
      ensures TakeItem(old(Rest())) == if item.Some? then Took(item.value, Rest()) else Short
    {
      var tag := ReadByte();
      if tag.None? {
        return None;
      }
      var p := ReadPayload(tag.value);
      return if p.None? then None else Some(Item(tag.value, p.value));
    }
  }
}
