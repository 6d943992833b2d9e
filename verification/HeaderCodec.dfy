/** The DWG HEADER variables as typed tokens on up to three streams: what one step of the encoder writes,
    what one step of the parser reads, and runs of both over schedules, for any set of variables. */
module HeaderCodec {
  import opened Words
  import opened HeaderTimes

  datatype Stream = Data | Handles | Strings

  /** How a variable is written. */
  datatype Kind =
    | Bit | Short | RawChar | Long | LongLong | Double | Time | Color | Point3 | Point2 | Cp8Text | UcsText | PlotStyle

  /** One value of the bit-level codec, taken as lossless. */
  datatype Token =
    | BitToken(bit: nat) | ShortToken(short: u16) | CharToken(byte: u8) | LongToken(long: i32)
    | LongLongToken(longLong: u64) | DoubleToken(double: real) | Point3Token(x: real, y: real, z: real)
    | Point2Token(x: real, y: real) | TextToken(text: string) | HandleToken(code: nat, ref: u32)

  datatype Event = Event(stream: Stream, token: Token)

  /** A stored header variable. */
  datatype Value = Int(i: i32) | Real(r: real) | Coord(x: real, y: real, z: real) | Text(s: string)

  datatype Control =
    | BlockControl | LayerControl | StyleControl | LinetypeControl | ViewControl | UcsControl | VportControl
    | AppidControl | DimstyleControl | ViewportEntityControl

  /** Variables are stored under their bare name or under the name with a dollar sign. */
  datatype Key<V> = Bare(v: V) | Dollar(v: V)

  datatype Header<V(==)> = Header(vars: map<Key<V>, Value>, controls: map<Control, u32>, handSeed: u32)

  /** What depends on the version: how each variable is written, its default, the colour form and the
      sharing of one stream by data and handles. */
  datatype Format<!V> = Format(
    kind: V -> Kind, defaultInt: V -> i32, defaultReal: V -> real, wideColors: bool, aliased: bool)

  // ---------------------------------------------------------------------------------------------
  // Lookup

  /** The bare name first, then the dollar name. */
  function FindVar<V(!new)>(h: Header<V>, v: V): Option<Value> {
    if Bare(v) in h.vars then Some(h.vars[Bare(v)])
    else if Dollar(v) in h.vars then Some(h.vars[Dollar(v)])
    else None
  }

  function IntOf<V(!new)>(f: Format<V>, h: Header<V>, v: V): i32 {
    match FindVar(h, v)
    case Some(Int(i)) => i
    case _ => f.defaultInt(v)
  }

  function RealOf<V(!new)>(f: Format<V>, h: Header<V>, v: V): real {
    match FindVar(h, v)
    case Some(Real(r)) => r
    case _ => f.defaultReal(v)
  }

  function CoordOf<V(!new)>(h: Header<V>, v: V): (c: Value)
    ensures c.Coord?
  {
    match FindVar(h, v)
    case Some(Coord(x, y, z)) => Coord(x, y, z)
    case _ => Coord(0.0, 0.0, 0.0)
  }

  function TextOf<V(!new)>(h: Header<V>, v: V): (t: string)
    ensures UpTo(t, '\0') == t
  {
    match FindVar(h, v)
    case Some(Text(s)) => UpTo(s, '\0')
    case _ => ""
  }

  function RefOf<V>(h: Header<V>, c: Control): u32 {
    if c in h.controls then h.controls[c] else 0
  }

  /** Each stored value has the type its variable is written as, and each date a day that fits a long. */
  ghost predicate WellTyped<V(!new)>(f: Format<V>, h: Header<V>) {
    forall k :: k in h.vars ==> FitsKind(f.kind(k.v), h.vars[k])
  }

  ghost predicate FitsKind(kind: Kind, value: Value) {
    match kind
    case Double => value.Real?
    case Time => value.Real? && -0x8000_0000 <= Split(value.r).0 < 0x8000_0000
    case Point3 => value.Coord?
    case Point2 => value.Coord?
    case Cp8Text => value.Text?
    case UcsText => value.Text?
    case _ => value.Int?
  }

  // ---------------------------------------------------------------------------------------------
  // Writing one variable

  /** Days outside the range of a long are not defined; any value stands for them. */
  function DayToken(day: int): Token {
    LongToken(if -0x8000_0000 <= day < 0x8000_0000 then day else -0x8000_0000)
  }

  function StreamOf(kind: Kind): Stream {
    if kind == UcsText then Strings else Data
  }

  /** The type byte of a wide colour above its palette index. */
  function ColorWord(index: u16): u32 {
    (if index == 0 then 0xC1 else if index >= 256 then 0xC0 else 0xC3) * 0x100_0000 + index % 0x100
  }

  function ColorEvents(index: u16, wide: bool): seq<Event> {
    if wide then [Event(Data, ShortToken(index)), Event(Data, LongToken(ToI32(ColorWord(index)))),
                  Event(Data, CharToken(0))]
    else [Event(Data, ShortToken(index))]
  }

  /** The single token of a variable that has one. */
  function TokenOf<V(!new)>(kind: Kind, f: Format<V>, h: Header<V>, v: V): Token {
    match kind
    case Bit => BitToken(IntOf(f, h, v) % 2)
    case RawChar => CharToken(IntOf(f, h, v) % 0x100)
    case Long => LongToken(IntOf(f, h, v))
    case Double => DoubleToken(RealOf(f, h, v))
    case Point3 => var c := CoordOf(h, v); Point3Token(c.x, c.y, c.z)
    case Point2 => var c := CoordOf(h, v); Point2Token(c.x, c.y)
    case Cp8Text => TextToken(TextOf(h, v))
    case UcsText => TextToken(TextOf(h, v))
    case _ => ShortToken(IntOf(f, h, v) % 0x1_0000)
  }

  function EmitVar<V(!new)>(kind: Kind, f: Format<V>, h: Header<V>, v: V): seq<Event> {
    match kind
    case Time =>
      var (day, msec) := Split(RealOf(f, h, v));
      [Event(Data, DayToken(day)), Event(Data, LongToken(msec))]
    case Color => ColorEvents(IntOf(f, h, v) % 0x1_0000, f.wideColors)
    case PlotStyle =>
      [Event(Data, TokenOf(kind, f, h, v))]
      + (if IntOf(f, h, v) % 0x1_0000 == 3 then [Event(Handles, HandleToken(0, 0))] else [])
    case _ => [Event(StreamOf(kind), TokenOf(kind, f, h, v))]
  }

  /** One step of the encoder. */
  datatype PutSlot<V> =
    | Put(kind: Kind, v: V) | PutConstant(stream: Stream, token: Token) | PutReference(ref: u32)
    | PutControl(c: Control) | PutHandSeed

  /** A pointer to object zero has code zero. */
  function Pointer(ref: u32): Token {
    HandleToken(if ref == 0 then 0 else 4, ref)
  }

  function Emit<V(!new)>(slot: PutSlot<V>, f: Format<V>, h: Header<V>): seq<Event> {
    match slot
    case Put(kind, v) => EmitVar(kind, f, h, v)
    case PutConstant(stream, token) => [Event(stream, token)]
    case PutReference(ref) => [Event(Handles, Pointer(ref))]
    case PutControl(c) => [Event(Handles, Pointer(RefOf(h, c)))]
    case PutHandSeed => [Event(Data, HandleToken(4, h.handSeed))]
  }

  function EmitAll<V(!new)>(slots: seq<PutSlot<V>>, f: Format<V>, h: Header<V>): seq<Event> {
    if slots == [] then [] else Emit(slots[0], f, h) + EmitAll(slots[1..], f, h)
  }

  // ---------------------------------------------------------------------------------------------
  // Streams

  datatype Streams = Streams(data: seq<Token>, handles: seq<Token>, strings: seq<Token>)

  const NO_TOKENS: Streams := Streams([], [], [])

  function Route(stream: Stream, aliased: bool): Stream {
    if aliased && stream == Handles then Data else stream
  }

  /** What is still unread on a stream. */
  function Unread(s: Streams, stream: Stream): seq<Token> {
    match stream
    case Data => s.data
    case Handles => s.handles
    case Strings => s.strings
  }

  function WithUnread(s: Streams, stream: Stream, tokens: seq<Token>): Streams {
    match stream
    case Data => s.(data := tokens)
    case Handles => s.(handles := tokens)
    case Strings => s.(strings := tokens)
  }

  function Push(s: Streams, e: Event, aliased: bool): Streams {
    var stream := Route(e.stream, aliased);
    WithUnread(s, stream, [e.token] + Unread(s, stream))
  }

  function Append(s: Streams, e: Event, aliased: bool): Streams {
    var stream := Route(e.stream, aliased);
    WithUnread(s, stream, Unread(s, stream) + [e.token])
  }

  datatype Popped = Ended | Popped(token: Token, rest: Streams)

  function Pop(s: Streams, stream: Stream, aliased: bool): Popped {
    var tokens := Unread(s, Route(stream, aliased));
    if tokens == [] then Ended else Popped(tokens[0], WithUnread(s, Route(stream, aliased), tokens[1..]))
  }

  lemma PopOfPush(s: Streams, e: Event, aliased: bool)
    ensures Pop(Push(s, e, aliased), e.stream, aliased) == Popped(e.token, s)
  {
    var tokens := Unread(s, Route(e.stream, aliased));
    assert ([e.token] + tokens)[1..] == tokens;
  }

  /** The streams that hold the events in front of s. */
  function Prefix(es: seq<Event>, s: Streams, aliased: bool): Streams {
    if es == [] then s else Push(Prefix(es[1..], s, aliased), es[0], aliased)
  }

  lemma {:induction false} PrefixConcat(a: seq<Event>, b: seq<Event>, s: Streams, aliased: bool)
    ensures Prefix(a + b, s, aliased) == Prefix(a, Prefix(b, s, aliased), aliased)
  {
    if a == [] {
      assert a + b == b;
    } else {
      assert (a + b)[1..] == a[1..] + b;
      PrefixConcat(a[1..], b, s, aliased);
    }
  }

  lemma AppendOfPush(s: Streams, d: Event, e: Event, aliased: bool)
    ensures Append(Push(s, d, aliased), e, aliased) == Push(Append(s, e, aliased), d, aliased)
  {
    var tokens := Unread(s, Route(d.stream, aliased));
    assert ([d.token] + tokens) + [e.token] == [d.token] + (tokens + [e.token]);
  }

  /** Appending events one by one gives the same streams. */
  lemma {:induction false} PrefixAppend(es: seq<Event>, e: Event, aliased: bool)
    ensures Prefix(es + [e], NO_TOKENS, aliased) == Append(Prefix(es, NO_TOKENS, aliased), e, aliased)
  {
    if es != [] {
      assert (es + [e])[1..] == es[1..] + [e];
      PrefixAppend(es[1..], e, aliased);
      AppendOfPush(Prefix(es[1..], NO_TOKENS, aliased), es[0], e, aliased);
    } else {
      assert es + [e] == [e];
    }
  }

  ghost predicate SameStreams(a: seq<Event>, b: seq<Event>) {
    |a| == |b| && forall i :: 0 <= i < |a| ==> a[i].stream == b[i].stream
  }

  /** Events on the same streams give the same contents only if they are the same. */
  lemma {:induction false} PrefixInjective(a: seq<Event>, b: seq<Event>, aliased: bool)
    requires SameStreams(a, b) && Prefix(a, NO_TOKENS, aliased) == Prefix(b, NO_TOKENS, aliased)
    ensures a == b
  {
    if a == [] {
    } else {
      PopOfPush(Prefix(a[1..], NO_TOKENS, aliased), a[0], aliased);
      PopOfPush(Prefix(b[1..], NO_TOKENS, aliased), b[0], aliased);
      PrefixInjective(a[1..], b[1..], aliased);
      assert a == [a[0]] + a[1..] && b == [b[0]] + b[1..];
    }
  }

  // ---------------------------------------------------------------------------------------------
  // Reading one variable

  /** A 16-bit word as a signed one. */
  function ToI16(x: u16): i32 {
    if x < 0x8000 then x else x - 0x1_0000
  }

  function ToU32(x: i32): u32 {
    if x < 0 then x + 0x1_0000_0000 else x
  }

  /** The value of a token that a variable of the kind is read from; none for a token of another type. */
  function ValueOf(kind: Kind, token: Token): Option<Value> {
    match (kind, token)
    case (Bit, BitToken(b)) => if b < 2 then Some(Int(b)) else None
    case (Short, ShortToken(n)) => Some(Int(n))
    case (PlotStyle, ShortToken(n)) => Some(Int(n))
    case (RawChar, CharToken(n)) => Some(Int(n))
    case (Long, LongToken(n)) => Some(Int(n))
    case (Double, DoubleToken(r)) => Some(Real(r))
    case (Point3, Point3Token(x, y, z)) => Some(Coord(x, y, z))
    case (Point2, Point2Token(x, y)) => Some(Coord(x, y, 0.0))
    case (Cp8Text, TextToken(s)) => Some(Text(s))
    case (UcsText, TextToken(s)) => Some(Text(s))
    case _ => None
  }

  datatype Got<+T> = Failed | Got(value: T, rest: Streams)

  function ReadOne(kind: Kind, stream: Stream, s: Streams, aliased: bool): Got<Value> {
    match Pop(s, stream, aliased)
    case Ended => Failed
    case Popped(token, rest) =>
      match ValueOf(kind, token)
      case None => Failed
      case Some(value) => Got(value, rest)
  }

  function ReadTime(s: Streams, aliased: bool): Got<Value> {
    match ReadOne(Long, Data, s, aliased)
    case Failed => Failed
    case Got(day, rest) =>
      match ReadOne(Long, Data, rest, aliased)
      case Failed => Failed
      case Got(msec, rest') => if day.Int? && msec.Int? then Got(Real(Join(day.i, msec.i)), rest') else Failed
  }

  /** What a wide colour word means: its type byte decides. */
  function ColorIndex(word: u32): i32 {
    var kind := word / 0x100_0000;
    if kind == 0xC1 then 0 else if kind == 0xC3 then word % 0x100 else 256
  }

  function SkipText(s: Streams, present: bool, aliased: bool): Got<Value> {
    if present then ReadOne(Cp8Text, Data, s, aliased) else Got(Text(""), s)
  }

  function ReadWideColor(s: Streams, aliased: bool): Got<Value> {
    match ReadOne(Short, Data, s, aliased)
    case Failed => Failed
    case Got(_, rest) =>
      match ReadOne(Long, Data, rest, aliased)
      case Failed => Failed
      case Got(word, rest') =>
        match ReadOne(RawChar, Data, rest', aliased)
        case Failed => Failed
        case Got(flags, rest'') =>
          if !word.Int? || !flags.Int? then Failed
          else
            match SkipText(rest'', flags.i % 2 == 1, aliased)
            case Failed => Failed
            case Got(_, last) =>
              match SkipText(last, flags.i / 2 % 2 == 1, aliased)
              case Failed => Failed
              case Got(_, last') => Got(Int(ColorIndex(ToU32(word.i))), last')
  }

  function ReadColor(wide: bool, s: Streams, aliased: bool): Got<Value> {
    if wide then ReadWideColor(s, aliased)
    else
      match ReadOne(Short, Data, s, aliased)
      case Failed => Failed
      case Got(index, rest) => if index.Int? && 0 <= index.i < 0x1_0000 then Got(Int(ToI16(index.i)), rest) else Failed
  }

  function ReadPlotStyle(s: Streams, aliased: bool): Got<Value> {
    match ReadOne(PlotStyle, Data, s, aliased)
    case Failed => Failed
    case Got(value, rest) =>
      if value == Int(3) then
        match Pop(rest, Handles, aliased)
        case Popped(HandleToken(_, _), rest') => Got(value, rest')
        case _ => Failed
      else Got(value, rest)
  }

  function ReadVar<V>(kind: Kind, f: Format<V>, s: Streams): Got<Value> {
    match kind
    case Time => ReadTime(s, f.aliased)
    case Color => ReadColor(f.wideColors, s, f.aliased)
    case PlotStyle => ReadPlotStyle(s, f.aliased)
    case _ => ReadOne(kind, StreamOf(kind), s, f.aliased)
  }

  /** One step of the parser. */
  datatype GetSlot<V> =
    | Get(kind: Kind, v: V) | Skip(kind: Kind) | SkipReference | GetControl(c: Control) | GetHandSeed

  function ReadReference(s: Streams, stream: Stream, aliased: bool): Got<u32> {
    match Pop(s, stream, aliased)
    case Popped(HandleToken(_, ref), rest) => Got(ref, rest)
    case _ => Failed
  }

  /** Whether a token can be skipped as one of the kind. */
  predicate IsOfKind(kind: Kind, token: Token) {
    ValueOf(kind, token).Some? || (kind == LongLong && token.LongLongToken?)
  }

  function Read<V(!new, ==)>(slot: GetSlot<V>, f: Format<V>, s: Streams, h: Header<V>): Got<Header<V>> {
    match slot
    case Get(kind, v) =>
      (match ReadVar(kind, f, s)
       case Failed => Failed
       case Got(value, rest) => Got(h.(vars := h.vars[Bare(v) := value]), rest))
    case Skip(kind) =>
      (match Pop(s, StreamOf(kind), f.aliased)
       case Ended => Failed
       case Popped(token, rest) => if IsOfKind(kind, token) then Got(h, rest) else Failed)
    case SkipReference =>
      (match ReadReference(s, Handles, f.aliased)
       case Failed => Failed
       case Got(_, rest) => Got(h, rest))
    case GetControl(c) =>
      (match ReadReference(s, Handles, f.aliased)
       case Failed => Failed
       case Got(ref, rest) => Got(h.(controls := h.controls[c := ref]), rest))
    case GetHandSeed =>
      (match ReadReference(s, Data, f.aliased)
       case Failed => Failed
       case Got(ref, rest) => Got(h.(handSeed := ref), rest))
  }

  function ReadAll<V(!new, ==)>(slots: seq<GetSlot<V>>, f: Format<V>, s: Streams, h: Header<V>): Got<Header<V>>
    decreases |slots|
  {
    if slots == [] then Got(h, s)
    else
      match Read(slots[0], f, s, h)
      case Failed => Failed
      case Got(h', rest) => ReadAll(slots[1..], f, rest, h')
  }

  // ---------------------------------------------------------------------------------------------
  // What comes back

  /** The value that a written variable is read back as. */
  function Reread<V(!new)>(kind: Kind, f: Format<V>, h: Header<V>, v: V): Value {
    match kind
    case Bit => Int(IntOf(f, h, v) % 2)
    case RawChar => Int(IntOf(f, h, v) % 0x100)
    case Long => Int(IntOf(f, h, v))
    case Double => Real(RealOf(f, h, v))
    case Time => var (day, msec) := Split(RealOf(f, h, v)); Real(Join(DayToken(day).long, msec))
    case Color =>
      var index := IntOf(f, h, v) % 0x1_0000;
      Int(if !f.wideColors then ToI16(index) else if index > 256 then 256 else index)
    case Point3 => CoordOf(h, v)
    case Point2 => var c := CoordOf(h, v); Coord(c.x, c.y, 0.0)
    case Cp8Text => Text(TextOf(h, v))
    case UcsText => Text(TextOf(h, v))
    case _ => Int(IntOf(f, h, v) % 0x1_0000)
  }

  /** The parser's step reads what the encoder's step writes, into the same variable. */
  ghost predicate Matches<V(!new)>(p: PutSlot<V>, g: GetSlot<V>, f: Format<V>) {
    match (p, g)
    case (Put(kind, v), Get(kind', v')) => kind == kind' && v == v' && kind == f.kind(v) && kind != LongLong
    case (PutConstant(stream, token), Skip(kind)) => IsOfKind(kind, token) && stream == StreamOf(kind)
    case (PutReference(_), SkipReference) => true
    case (PutControl(c), GetControl(c')) => c == c'
    case (PutHandSeed, GetHandSeed) => true
    case _ => false
  }

  ghost predicate Aligned<V(!new)>(ps: seq<PutSlot<V>>, gs: seq<GetSlot<V>>, f: Format<V>) {
    |ps| == |gs| && forall i :: 0 <= i < |ps| ==> Matches(ps[i], gs[i], f)
  }

  /** The header after a step that read the encoder's output for h. */
  function Stored<V(!new, ==)>(g: GetSlot<V>, f: Format<V>, h: Header<V>, into: Header<V>): Header<V> {
    match g
    case Get(kind, v) => into.(vars := into.vars[Bare(v) := Reread(kind, f, h, v)])
    case GetControl(c) => into.(controls := into.controls[c := RefOf(h, c)])
    case GetHandSeed => into.(handSeed := h.handSeed)
    case _ => into
  }

  function StoredAll<V(!new, ==)>(gs: seq<GetSlot<V>>, f: Format<V>, h: Header<V>, into: Header<V>): Header<V>
    decreases |gs|
  {
    if gs == [] then into else StoredAll(gs[1..], f, h, Stored(gs[0], f, h, into))
  }

  lemma ReadOneOfPush(kind: Kind, e: Event, s: Streams, aliased: bool)
    ensures ReadOne(kind, e.stream, Push(s, e, aliased), aliased)
            == match ValueOf(kind, e.token) case None => Failed case Some(value) => Got(value, s)
  {
    PopOfPush(s, e, aliased);
  }

  lemma PrefixOfOne(e: Event, s: Streams, aliased: bool)
    ensures Prefix([e], s, aliased) == Push(s, e, aliased)
  {
    assert [e][1..] == [];
  }

  lemma TimeReadsBack<V(!new)>(f: Format<V>, h: Header<V>, v: V, s: Streams)
    ensures ReadTime(Prefix(EmitVar(Time, f, h, v), s, f.aliased), f.aliased) == Got(Reread(Time, f, h, v), s)
  {
    var (day, msec) := Split(RealOf(f, h, v));
    var es := EmitVar(Time, f, h, v);
    assert es[1..] == [es[1]];
    PrefixOfOne(es[1], s, f.aliased);
    ReadOneOfPush(Long, es[0], Push(s, es[1], f.aliased), f.aliased);
    ReadOneOfPush(Long, es[1], s, f.aliased);
  }

  lemma ColorWordReadsBack(index: u16)
    ensures ColorIndex(ToU32(ToI32(ColorWord(index)))) == if index > 256 then 256 else index
  {
  }

  lemma WideColorReadsBack(index: u16, word: Event, flags: Event, s: Streams, aliased: bool)
    requires word == Event(Data, LongToken(ToI32(ColorWord(index)))) && flags == Event(Data, CharToken(0))
    ensures var start := Event(Data, ShortToken(index));
            ReadWideColor(Push(Push(Push(s, flags, aliased), word, aliased), start, aliased), aliased)
            == Got(Int(if index > 256 then 256 else index), s)
  {
    var start, s1 := Event(Data, ShortToken(index)), Push(s, flags, aliased);
    ReadOneOfPush(Short, start, Push(s1, word, aliased), aliased);
    ReadOneOfPush(Long, word, s1, aliased);
    ReadOneOfPush(RawChar, flags, s, aliased);
    ColorWordReadsBack(index);
  }

  lemma PrefixOfThree(a: Event, b: Event, c: Event, s: Streams, aliased: bool)
    ensures Prefix([a, b, c], s, aliased) == Push(Push(Push(s, c, aliased), b, aliased), a, aliased)
  {
    assert [a, b, c][1..] == [b, c] && [b, c][1..] == [c];
    PrefixOfOne(c, s, aliased);
  }

  lemma ColorReadsBack<V(!new)>(f: Format<V>, h: Header<V>, v: V, s: Streams)
    ensures ReadColor(f.wideColors, Prefix(EmitVar(Color, f, h, v), s, f.aliased), f.aliased)
            == Got(Reread(Color, f, h, v), s)
  {
    var es := EmitVar(Color, f, h, v);
    var index := IntOf(f, h, v) % 0x1_0000;
    if f.wideColors {
      PrefixOfThree(es[0], es[1], es[2], s, f.aliased);
      WideColorReadsBack(index, es[1], es[2], s, f.aliased);
    } else {
      PrefixOfOne(es[0], s, f.aliased);
      ReadOneOfPush(Short, es[0], s, f.aliased);
    }
  }

  lemma PlotStyleReadsBack<V(!new)>(f: Format<V>, h: Header<V>, v: V, s: Streams)
    ensures ReadPlotStyle(Prefix(EmitVar(PlotStyle, f, h, v), s, f.aliased), f.aliased)
            == Got(Reread(PlotStyle, f, h, v), s)
  {
    var es := EmitVar(PlotStyle, f, h, v);
    if IntOf(f, h, v) % 0x1_0000 == 3 {
      assert es[1..] == [es[1]];
      PrefixOfOne(es[1], s, f.aliased);
      ReadOneOfPush(PlotStyle, es[0], Push(s, es[1], f.aliased), f.aliased);
      PopOfPush(s, es[1], f.aliased);
    } else {
      assert es == [es[0]];
      PrefixOfOne(es[0], s, f.aliased);
      ReadOneOfPush(PlotStyle, es[0], s, f.aliased);
    }
  }

  lemma VarReadsBack<V(!new)>(kind: Kind, f: Format<V>, h: Header<V>, v: V, s: Streams)
    requires kind != LongLong
    ensures ReadVar(kind, f, Prefix(EmitVar(kind, f, h, v), s, f.aliased)) == Got(Reread(kind, f, h, v), s)
  {
    match kind
    case Time => TimeReadsBack(f, h, v, s);
    case Color => ColorReadsBack(f, h, v, s);
    case PlotStyle => PlotStyleReadsBack(f, h, v, s);
    case _ =>
      var e := Event(StreamOf(kind), TokenOf(kind, f, h, v));
      PrefixOfOne(e, s, f.aliased);
      ReadOneOfPush(kind, e, s, f.aliased);
  }

  /** One step of each: the parser consumes exactly what the encoder wrote. */
  lemma SlotReadsBack<V(!new)>(p: PutSlot<V>, g: GetSlot<V>, f: Format<V>, h: Header<V>, s: Streams, into: Header<V>)
    requires Matches(p, g, f)
    ensures Read(g, f, Prefix(Emit(p, f, h), s, f.aliased), into) == Got(Stored(g, f, h, into), s)
  {
    match p
    case Put(kind, v) => VarReadsBack(kind, f, h, v, s);
    case _ =>
      var e := Emit(p, f, h)[0];
      assert Emit(p, f, h) == [e];
      PrefixOfOne(e, s, f.aliased);
      PopOfPush(s, e, f.aliased);
  }

  /** Aligned schedules: the parser consumes exactly the encoder's tokens, on shared or separate streams. */
  lemma {:induction false} ScheduleReadsBack<V(!new)>(ps: seq<PutSlot<V>>, gs: seq<GetSlot<V>>, f: Format<V>,
                                                      h: Header<V>, s: Streams, into: Header<V>)
    requires Aligned(ps, gs, f)
    ensures ReadAll(gs, f, Prefix(EmitAll(ps, f, h), s, f.aliased), into) == Got(StoredAll(gs, f, h, into), s)
    decreases |ps|
  {
    if ps == [] {
    } else {
      var rest := EmitAll(ps[1..], f, h);
      PrefixConcat(Emit(ps[0], f, h), rest, s, f.aliased);
      SlotReadsBack(ps[0], gs[0], f, h, Prefix(rest, s, f.aliased), into);
      ScheduleReadsBack(ps[1..], gs[1..], f, h, s, Stored(gs[0], f, h, into));
    }
  }

  // ---------------------------------------------------------------------------------------------
  // Encoding again

  /** The header that comes back holds the variable as it is read back. */
  ghost predicate Holds<V(!new)>(back: Header<V>, f: Format<V>, h: Header<V>, v: V) {
    Bare(v) in back.vars && back.vars[Bare(v)] == Reread(f.kind(v), f, h, v)
  }

  ghost predicate Conforms<V(!new)>(gs: seq<GetSlot<V>>, f: Format<V>) {
    forall i :: 0 <= i < |gs| && gs[i].Get? ==> gs[i].kind == f.kind(gs[i].v)
  }

  lemma {:induction false} StoredAllHolds<V(!new)>(gs: seq<GetSlot<V>>, f: Format<V>, h: Header<V>,
                                                   into: Header<V>, v: V)
    requires Conforms(gs, f)
    requires Holds(into, f, h, v) || exists i :: 0 <= i < |gs| && gs[i].Get? && gs[i].v == v
    ensures Holds(StoredAll(gs, f, h, into), f, h, v)
    decreases |gs|
  {
    if gs == [] {
    } else {
      var next := Stored(gs[0], f, h, into);
      if !Holds(into, f, h, v) {
        var i :| 0 <= i < |gs| && gs[i].Get? && gs[i].v == v;
        if i > 0 {
          assert gs[1..][i - 1] == gs[i];
        }
      }
      StoredAllHolds(gs[1..], f, h, next, v);
    }
  }

  lemma {:induction false} StoredAllControls<V(!new)>(gs: seq<GetSlot<V>>, f: Format<V>, h: Header<V>,
                                                      into: Header<V>, c: Control)
    requires RefOf(into, c) == RefOf(h, c) || exists i :: 0 <= i < |gs| && gs[i] == GetControl(c)
    ensures RefOf(StoredAll(gs, f, h, into), c) == RefOf(h, c)
    decreases |gs|
  {
    if gs == [] {
    } else {
      var next := Stored(gs[0], f, h, into);
      if RefOf(into, c) != RefOf(h, c) {
        var i :| 0 <= i < |gs| && gs[i] == GetControl(c);
        if i > 0 {
          assert gs[1..][i - 1] == gs[i];
        }
      }
      StoredAllControls(gs[1..], f, h, next, c);
    }
  }

  lemma {:induction false} StoredAllHandSeed<V(!new)>(gs: seq<GetSlot<V>>, f: Format<V>, h: Header<V>, into: Header<V>)
    requires into.handSeed == h.handSeed || GetHandSeed in gs
    ensures StoredAll(gs, f, h, into).handSeed == h.handSeed
    decreases |gs|
  {
    if gs == [] {
    } else {
      StoredAllHandSeed(gs[1..], f, h, Stored(gs[0], f, h, into));
    }
  }

  /** Whether a step writes the same again from the header that was read back: all but colours above 256
      in the wide form, which come back as 256. */
  predicate Stable<V(!new)>(p: PutSlot<V>, f: Format<V>, h: Header<V>) {
    p.Put? && p.kind == Color && f.wideColors ==> IntOf(f, h, p.v) % 0x1_0000 <= 256
  }

  ghost predicate DefaultsFit<V(!new)>(f: Format<V>) {
    forall v :: f.kind(v) == Time ==> Split(f.defaultReal(v)).0 == 0
  }

  lemma TimeIsStable<V(!new)>(f: Format<V>, h: Header<V>, back: Header<V>, v: V)
    requires WellTyped(f, h) && DefaultsFit(f) && f.kind(v) == Time && Holds(back, f, h, v)
    ensures EmitVar(Time, f, back, v) == EmitVar(Time, f, h, v)
  {
    var (day, msec) := Split(RealOf(f, h, v));
    assert FitsKind(Time, Real(RealOf(f, h, v)));
    SplitOfJoin(day, msec);
  }

  lemma ColorIsStable<V(!new)>(f: Format<V>, h: Header<V>, back: Header<V>, v: V)
    requires f.kind(v) == Color && Holds(back, f, h, v)
    ensures SameStreams(EmitVar(Color, f, back, v), EmitVar(Color, f, h, v))
    ensures EmitVar(Color, f, back, v) == EmitVar(Color, f, h, v)
            <==> (f.wideColors ==> IntOf(f, h, v) % 0x1_0000 <= 256)
  {
    var index := IntOf(f, h, v) % 0x1_0000;
    if f.wideColors && index > 256 {
      assert EmitVar(Color, f, back, v)[0] != EmitVar(Color, f, h, v)[0];
    }
  }

  /** What the header that came back must hold for a step to be repeated. */
  ghost predicate Restores<V(!new)>(p: PutSlot<V>, f: Format<V>, h: Header<V>, back: Header<V>) {
    match p
    case Put(kind, v) => kind == f.kind(v) && kind != LongLong && Holds(back, f, h, v)
    case PutControl(c) => RefOf(back, c) == RefOf(h, c)
    case PutHandSeed => back.handSeed == h.handSeed
    case _ => true
  }

  lemma SlotIsStable<V(!new)>(p: PutSlot<V>, f: Format<V>, h: Header<V>, back: Header<V>)
    requires WellTyped(f, h) && DefaultsFit(f) && Restores(p, f, h, back)
    ensures SameStreams(Emit(p, f, back), Emit(p, f, h))
    ensures Emit(p, f, back) == Emit(p, f, h) <==> Stable(p, f, h)
  {
    if p.Put? {
      match p.kind
      case Time => TimeIsStable(f, h, back, p.v);
      case Color => ColorIsStable(f, h, back, p.v);
      case Cp8Text => assert TextOf(back, p.v) == TextOf(h, p.v);
      case UcsText => assert TextOf(back, p.v) == TextOf(h, p.v);
      case _ =>
    }
  }

  lemma ConcatEquals<T>(a: seq<T>, b: seq<T>, c: seq<T>, d: seq<T>)
    requires |a| == |c|
    ensures a + b == c + d <==> a == c && b == d
  {
    if a + b == c + d {
      assert a == (a + b)[..|a|] && c == (c + d)[..|c|];
      assert b == (a + b)[|a|..] && d == (c + d)[|c|..];
    }
  }

  lemma {:induction false} EmitAllIsStable<V(!new)>(ps: seq<PutSlot<V>>, f: Format<V>, h: Header<V>, back: Header<V>)
    requires WellTyped(f, h) && DefaultsFit(f)
    requires forall i :: 0 <= i < |ps| ==> Restores(ps[i], f, h, back)
    ensures SameStreams(EmitAll(ps, f, back), EmitAll(ps, f, h))
    ensures EmitAll(ps, f, back) == EmitAll(ps, f, h) <==> forall i :: 0 <= i < |ps| ==> Stable(ps[i], f, h)
  {
    if ps == [] {
    } else {
      SlotIsStable(ps[0], f, h, back);
      EmitAllIsStable(ps[1..], f, h, back);
      ConcatEquals(Emit(ps[0], f, back), EmitAll(ps[1..], f, back), Emit(ps[0], f, h), EmitAll(ps[1..], f, h));
      assert (forall i :: 0 <= i < |ps| ==> Stable(ps[i], f, h))
             <==> Stable(ps[0], f, h) && forall i :: 0 <= i < |ps[1..]| ==> Stable(ps[1..][i], f, h) by {
        assert forall i :: 0 <= i < |ps[1..]| ==> ps[1..][i] == ps[i + 1];
        assert forall i :: 0 < i < |ps| ==> ps[i] == ps[1..][i - 1];
      }
    }
  }

  lemma StoredAllRestores<V(!new)>(ps: seq<PutSlot<V>>, gs: seq<GetSlot<V>>, f: Format<V>, h: Header<V>,
                                   into: Header<V>, i: nat)
    requires Aligned(ps, gs, f) && i < |ps|
    ensures Restores(ps[i], f, h, StoredAll(gs, f, h, into))
  {
    assert forall k :: 0 <= k < |gs| ==> Matches(ps[k], gs[k], f);
    assert Matches(ps[i], gs[i], f);
    match ps[i]
    case Put(_, v) => StoredAllHolds(gs, f, h, into, v);
    case PutControl(c) => StoredAllControls(gs, f, h, into, c);
    case PutHandSeed => StoredAllHandSeed(gs, f, h, into);
    case _ =>
  }

  /** Encoding what was parsed from an encoded header writes the same streams again if and only if no colour
      above 256 was written in the wide form. */
  lemma ScheduleReencodes<V(!new)>(ps: seq<PutSlot<V>>, gs: seq<GetSlot<V>>, f: Format<V>,
                                                      h: Header<V>, into: Header<V>)
    requires Aligned(ps, gs, f) && WellTyped(f, h) && DefaultsFit(f)
    ensures var back := StoredAll(gs, f, h, into);
            Prefix(EmitAll(ps, f, back), NO_TOKENS, f.aliased) == Prefix(EmitAll(ps, f, h), NO_TOKENS, f.aliased)
            <==> forall i :: 0 <= i < |ps| ==> Stable(ps[i], f, h)
  {
    var back := StoredAll(gs, f, h, into);
    forall i | 0 <= i < |ps| ensures Restores(ps[i], f, h, back) {
      StoredAllRestores(ps, gs, f, h, into, i);
    }
    EmitAllIsStable(ps, f, h, back);
    if Prefix(EmitAll(ps, f, back), NO_TOKENS, f.aliased) == Prefix(EmitAll(ps, f, h), NO_TOKENS, f.aliased) {
      PrefixInjective(EmitAll(ps, f, back), EmitAll(ps, f, h), f.aliased);
    }
  }

  /** A date that comes back has moved by at most half a millisecond. */
  lemma TimesComeBackClose<V(!new)>(f: Format<V>, h: Header<V>, back: Header<V>, v: V)
    requires WellTyped(f, h) && DefaultsFit(f) && f.kind(v) == Time && Holds(back, f, h, v)
    ensures var moved := (RealOf(f, back, v) - RealOf(f, h, v)) * MSEC_PER_DAY as real; -0.5 <= moved <= 0.5
  {
    assert FitsKind(Time, Real(RealOf(f, h, v)));
    JoinOfSplit(RealOf(f, h, v));
  }
}
