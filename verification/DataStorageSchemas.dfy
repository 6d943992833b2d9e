/** Schema records: the byte format, its writer and its parser as functions, inverse to each other. */
module DataStorageSchemas {
  import opened Words
  import opened Formats
  import opened DataStorage

  const TYPE_SIZES: seq<u32> := [0, 0, 2, 1, 2, 4, 8, 1, 2, 4, 8, 4, 8, 0, 0, 0]
  const CUSTOM_TYPE: u32 := 0xe

  predicate FlagsValid(flags: u32) {
    flags == 0 || flags == 1 || flags == 2 || flags == 8
  }

  function NameFor(names: seq<string>, nameIndex: u32): string {
    if nameIndex < |names| then names[nameIndex] else ""
  }

  predicate NameIndexSound(names: seq<string>, nameIndex: u32) {
    nameIndex < |names| || nameIndex == SCHEMA_PROPERTY_NO_NAME
  }

  /** The part of a property between its flags and its values. */
  datatype Layout = Layout(kind: u32, customTypeSize: u32, unknown1: u32, unknown2: u32)

  predicate LayoutWellFormed(flags: u32, l: Layout) {
    && FlagsValid(flags)
    && (if flags == 2 then l.kind == 0 else l.kind < SCHEMA_PROPERTY_TYPE_COUNT)
    && (flags == 2 || l.kind != CUSTOM_TYPE ==> l.customTypeSize == 0)
    && (flags != 1 ==> l.unknown1 == 0) && (flags != 8 ==> l.unknown2 == 0)
  }

  function TypeSize(flags: u32, l: Layout): u32 {
    if flags == 2 || l.kind >= SCHEMA_PROPERTY_TYPE_COUNT then 0
    else if l.kind == CUSTOM_TYPE then l.customTypeSize
    else TYPE_SIZES[l.kind]
  }

  function PutLayout(flags: u32, l: Layout, rest: seq<u8>): seq<u8> {
    var tail := if flags == 1 then Put(l.unknown1, 4, rest)
                else if flags == 8 then Put(l.unknown2, 4, rest) else rest;
    if flags == 2 then tail
    else Put(l.kind, 4, if l.kind == CUSTOM_TYPE then Put(l.customTypeSize, 4, tail) else tail)
  }

  function TakeUnknowns(flags: u32, b: seq<u8>, kind: u32, custom: u32): Taken<Layout> {
    if flags == 1 || flags == 8 then
      match TakeWord(b, 4)
      case Short => Short
      case Took(x, rest) =>
        LimitValues();
        LeBound(b[..4]);
        Took(if flags == 1 then Layout(kind, custom, x, 0) else Layout(kind, custom, 0, x), rest)
    else Took(Layout(kind, custom, 0, 0), b)
  }

  function TakeLayout(flags: u32, b: seq<u8>): Taken<Layout> {
    if flags == 2 then TakeUnknowns(flags, b, 0, 0)
    else
      match TakeWord(b, 4)
      case Short => Short
      case Took(kind, rest) =>
        if kind >= SCHEMA_PROPERTY_TYPE_COUNT then Short
        else if kind != CUSTOM_TYPE then TakeUnknowns(flags, rest, kind, 0)
        else
          match TakeWord(rest, 4)
          case Short => Short
          case Took(custom, rest') =>
            LimitValues();
            LeBound(rest[..4]);
            TakeUnknowns(flags, rest', kind, custom)
  }

  lemma TakeOfPutLayout(flags: u32, l: Layout, rest: seq<u8>)
    requires LayoutWellFormed(flags, l)
    ensures TakeLayout(flags, PutLayout(flags, l, rest)) == Took(l, rest)
  {
    LimitValues();
    TakeOfPut(l.unknown1, 4, rest);
    TakeOfPut(l.unknown2, 4, rest);
    var tail := if flags == 1 then Put(l.unknown1, 4, rest)
                else if flags == 8 then Put(l.unknown2, 4, rest) else rest;
    assert TakeUnknowns(flags, tail, l.kind, l.customTypeSize) == Took(l, rest);
    TakeOfPut(l.customTypeSize, 4, tail);
    TakeOfPut(l.kind, 4, if l.kind == CUSTOM_TYPE then Put(l.customTypeSize, 4, tail) else tail);
  }

  lemma PutOfTakeUnknowns(flags: u32, b: seq<u8>, kind: u32, custom: u32)
    requires TakeUnknowns(flags, b, kind, custom).Took?
    ensures var t := TakeUnknowns(flags, b, kind, custom);
            && t.value.kind == kind && t.value.customTypeSize == custom
            && b == (if flags == 1 then Put(t.value.unknown1, 4, t.rest)
                     else if flags == 8 then Put(t.value.unknown2, 4, t.rest) else t.rest)
  {
    if flags == 1 || flags == 8 {
      PutOfTake(b, 4);
    }
  }

  lemma PutOfTakeLayout(flags: u32, b: seq<u8>)
    requires FlagsValid(flags) && TakeLayout(flags, b).Took?
    ensures LayoutWellFormed(flags, TakeLayout(flags, b).value)
    ensures PutLayout(flags, TakeLayout(flags, b).value, TakeLayout(flags, b).rest) == b
  {
    if flags == 2 {
      PutOfTakeUnknowns(flags, b, 0, 0);
    } else {
      PutOfTake(b, 4);
      var kind := TakeWord(b, 4).value;
      if kind != CUSTOM_TYPE {
        PutOfTakeUnknowns(flags, b[4..], kind, 0);
      } else {
        PutOfTake(b[4..], 4);
        LimitValues();
        PutOfTakeUnknowns(flags, b[4..][4..], kind, TakeWord(b[4..], 4).value);
      }
    }
  }

  // ---------------------------------------------------------------------------------------------
  // The three kinds of element: a value of known size, a 64-bit index, a property.

  function ValueParser(size: nat): Parser<seq<u8>> {
    (b: seq<u8>) => Take(b, size)
  }

  function ValueWriter(): Writer<seq<u8>> {
    (v: seq<u8>, rest: seq<u8>) => v + rest
  }

  ghost function SizeIs(size: nat): seq<u8> -> bool {
    (v: seq<u8>) => |v| == size
  }

  lemma ValuesInverse(size: nat)
    ensures Inverse(ValueParser(size), ValueWriter(), SizeIs(size))
  {
    forall v: seq<u8>, rest | |v| == size ensures Take(v + rest, size) == Took(v, rest) {
      assert (v + rest)[..size] == v && (v + rest)[size..] == rest;
    }
  }

  function TakeU64(b: seq<u8>): Taken<u64> {
    if 8 <= |b| then
      LimitValues();
      LeBound(b[..8]);
      Took(Le(b[..8]), b[8..])
    else Short
  }

  function IndexParser(): Parser<u64> {
    (b: seq<u8>) => TakeU64(b)
  }

  function IndexWriter(): Writer<u64> {
    (x: u64, rest: seq<u8>) => Put(x, 8, rest)
  }

  lemma IndexesInverse()
    ensures Inverse(IndexParser(), IndexWriter(), (x: u64) => true)
  {
    LimitValues();
    forall x: u64, rest ensures TakeU64(Put(x, 8, rest)) == Took(x, rest) {
      TakeOfPut(x, 8, rest);
    }
    forall b | TakeU64(b).Took? ensures Put(TakeU64(b).value, 8, TakeU64(b).rest) == b {
      PutOfTake(b, 8);
    }
  }

  function LayoutOf(p: Property): Layout {
    Layout(p.kind, p.customTypeSize, p.unknown1, p.unknown2)
  }

  ghost predicate PropertyWellFormed(p: Property, names: seq<string>) {
    && LayoutWellFormed(p.flags, LayoutOf(p)) && p.typeSize == TypeSize(p.flags, LayoutOf(p))
    && p.valueCount == |p.values| && (forall v :: v in p.values ==> |v| == p.typeSize)
    && p.name == NameFor(names, p.nameIndex)
  }

  function PutProperty(p: Property, rest: seq<u8>): seq<u8> {
    Put(p.flags, 4, Put(p.nameIndex, 4,
      PutLayout(p.flags, LayoutOf(p), Put(p.valueCount, 2, PutMany(ValueWriter(), p.values, rest)))))
  }

  function MakeProperty(flags: u32, nameIndex: u32, l: Layout, values: seq<seq<u8>>, names: seq<string>): Property
    requires |values| < 0x1_0000
  {
    Property(flags, nameIndex, l.kind, l.customTypeSize, TypeSize(flags, l), l.unknown1, l.unknown2,
             |values|, NameFor(names, nameIndex), values)
  }

  /** The value count and the values behind a layout. */
  function TakeValueList(b: seq<u8>, size: nat): Taken<seq<seq<u8>>> {
    match TakeWord(b, 2)
    case Short => Short
    case Took(count, rest) => TakeMany(ValueParser(size), rest, count)
  }

  function TakeProperty(b: seq<u8>, names: seq<string>): Taken<Property> {
    match TakeWord(b, 4)
    case Short => Short
    case Took(flags, rest) =>
      match TakeWord(rest, 4)
      case Short => Short
      case Took(nameIndex, rest') =>
        LimitValues();
        LeBound(b[..4]);
        LeBound(rest[..4]);
        if !FlagsValid(flags) then Short
        else
          match TakeLayout(flags, rest')
          case Short => Short
          case Took(l, rest'') =>
            match TakeValueList(rest'', TypeSize(flags, l))
            case Short => Short
            case Took(values, end) =>
              ValueCountBound(rest'', TypeSize(flags, l));
              Took(MakeProperty(flags, nameIndex, l, values, names), end)
  }

  lemma ValueCountBound(b: seq<u8>, size: nat)
    requires TakeValueList(b, size).Took?
    ensures |TakeValueList(b, size).value| < 0x1_0000
    ensures var t := TakeValueList(b, size);
            && (forall v :: v in t.value ==> |v| == size)
            && Put(|t.value|, 2, PutMany(ValueWriter(), t.value, t.rest)) == b
  {
    LimitValues();
    PutOfTake(b, 2);
    ValuesInverse(size);
    PutOfTakeMany(ValueParser(size), ValueWriter(), SizeIs(size), b[2..], TakeWord(b, 2).value);
  }

  lemma TakeOfPutValueList(values: seq<seq<u8>>, size: nat, rest: seq<u8>)
    requires |values| < 0x1_0000 && forall v :: v in values ==> |v| == size
    ensures TakeValueList(Put(|values|, 2, PutMany(ValueWriter(), values, rest)), size) == Took(values, rest)
  {
    LimitValues();
    ValuesInverse(size);
    TakeOfPutMany(ValueParser(size), ValueWriter(), SizeIs(size), values, rest);
    TakeOfPut(|values|, 2, PutMany(ValueWriter(), values, rest));
  }

  lemma TakeOfPutProperty(p: Property, names: seq<string>, rest: seq<u8>)
    requires PropertyWellFormed(p, names)
    ensures TakeProperty(PutProperty(p, rest), names) == Took(p, rest)
  {
    LimitValues();
    TakeOfPutValueList(p.values, p.typeSize, rest);
    var valueList := Put(p.valueCount, 2, PutMany(ValueWriter(), p.values, rest));
    TakeOfPutLayout(p.flags, LayoutOf(p), valueList);
    var body := PutLayout(p.flags, LayoutOf(p), valueList);
    TakeOfPut(p.nameIndex, 4, body);
    TakeOfPut(p.flags, 4, Put(p.nameIndex, 4, body));
  }

  lemma PutOfTakeProperty(b: seq<u8>, names: seq<string>)
    requires TakeProperty(b, names).Took?
    ensures PropertyWellFormed(TakeProperty(b, names).value, names)
    ensures PutProperty(TakeProperty(b, names).value, TakeProperty(b, names).rest) == b
  {
    PutOfTake(b, 4);
    PutOfTake(b[4..], 4);
    var flags, body := TakeWord(b, 4).value, b[4..][4..];
    PutOfTakeLayout(flags, body);
    var t := TakeLayout(flags, body);
    ValueCountBound(t.rest, TypeSize(flags, t.value));
  }

  function PropertyParser(names: seq<string>): Parser<Property> {
    (b: seq<u8>) => TakeProperty(b, names)
  }

  function PropertyWriter(): Writer<Property> {
    (p: Property, rest: seq<u8>) => PutProperty(p, rest)
  }

  ghost function IsWellFormed(names: seq<string>): Property -> bool {
    (p: Property) => PropertyWellFormed(p, names)
  }

  lemma PropertiesInverse(names: seq<string>)
    ensures Inverse(PropertyParser(names), PropertyWriter(), IsWellFormed(names))
  {
    forall p, rest | PropertyWellFormed(p, names) ensures TakeProperty(PutProperty(p, rest), names) == Took(p, rest) {
      TakeOfPutProperty(p, names, rest);
    }
    forall b | TakeProperty(b, names).Took?
      ensures PropertyWellFormed(TakeProperty(b, names).value, names)
      ensures PutProperty(TakeProperty(b, names).value, TakeProperty(b, names).rest) == b
    {
      PutOfTakeProperty(b, names);
    }
  }

  /** A schema body: its index values and its properties. */
  datatype Body = Body(indexes: seq<u64>, properties: seq<Property>) {
    predicate IsEmpty() {
      indexes == [] && properties == []
    }
  }

  ghost predicate BodyWellFormed(s: Body, names: seq<string>) {
    |s.indexes| < 0x1_0000 && |s.properties| < 0x1_0000
    && forall p :: p in s.properties ==> PropertyWellFormed(p, names)
  }

  function PutProperties(ps: seq<Property>, rest: seq<u8>): seq<u8> {
    Put(|ps|, 2, PutMany(PropertyWriter(), ps, rest))
  }

  function TakeProperties(b: seq<u8>, names: seq<string>): Taken<seq<Property>> {
    match TakeWord(b, 2)
    case Short => Short
    case Took(count, rest) => TakeMany(PropertyParser(names), rest, count)
  }

  function PutBody(s: Body, rest: seq<u8>): seq<u8> {
    Put(|s.indexes|, 2, PutMany(IndexWriter(), s.indexes, PutProperties(s.properties, rest)))
  }

  function TakeBody(b: seq<u8>, names: seq<string>): Taken<Body> {
    match TakeWord(b, 2)
    case Short => Short
    case Took(count, rest) =>
      match TakeMany(IndexParser(), rest, count)
      case Short => Short
      case Took(indexes, rest') =>
        match TakeProperties(rest', names)
        case Short => Short
        case Took(properties, end) => Took(Body(indexes, properties), end)
  }

  lemma PropertyListRoundTrip(ps: seq<Property>, names: seq<string>, rest: seq<u8>)
    requires |ps| < 0x1_0000 && forall p :: p in ps ==> PropertyWellFormed(p, names)
    ensures TakeProperties(PutProperties(ps, rest), names) == Took(ps, rest)
  {
    LimitValues();
    PropertiesInverse(names);
    TakeOfPutMany(PropertyParser(names), PropertyWriter(), IsWellFormed(names), ps, rest);
    TakeOfPut(|ps|, 2, PutMany(PropertyWriter(), ps, rest));
  }

  lemma PropertyListReencodes(b: seq<u8>, names: seq<string>)
    requires TakeProperties(b, names).Took?
    ensures var t := TakeProperties(b, names);
            && |t.value| < 0x1_0000 && (forall p :: p in t.value ==> PropertyWellFormed(p, names))
            && PutProperties(t.value, t.rest) == b
  {
    LimitValues();
    PutOfTake(b, 2);
    PropertiesInverse(names);
    PutOfTakeMany(PropertyParser(names), PropertyWriter(), IsWellFormed(names), b[2..], TakeWord(b, 2).value);
  }

  /** Parsing an encoded schema gives the schema back and stops exactly behind it. */
  lemma SchemaRoundTrip(s: Body, names: seq<string>, rest: seq<u8>)
    requires BodyWellFormed(s, names)
    ensures TakeBody(PutBody(s, rest), names) == Took(s, rest)
  {
    LimitValues();
    PropertyListRoundTrip(s.properties, names, rest);
    var properties := PutProperties(s.properties, rest);
    IndexesInverse();
    TakeOfPutMany(IndexParser(), IndexWriter(), (x: u64) => true, s.indexes, properties);
    TakeOfPut(|s.indexes|, 2, PutMany(IndexWriter(), s.indexes, properties));
  }

  /** Whatever is parsed is well formed, and encoding it gives back the very bytes that were consumed. */
  lemma SchemaReencodes(b: seq<u8>, names: seq<string>)
    requires TakeBody(b, names).Took?
    ensures BodyWellFormed(TakeBody(b, names).value, names)
    ensures PutBody(TakeBody(b, names).value, TakeBody(b, names).rest) == b
  {
    LimitValues();
    PutOfTake(b, 2);
    var rest := b[2..];
    IndexesInverse();
    PutOfTakeMany(IndexParser(), IndexWriter(), (x: u64) => true, rest, TakeWord(b, 2).value);
    PropertyListReencodes(TakeMany(IndexParser(), rest, TakeWord(b, 2).value).rest, names);
  }
}
