/** How many tokens a schedule needs: a parser that is given fewer than the encoder writes cannot succeed. */
module HeaderWeights {
  import opened Words
  import opened HeaderCodec

  // ---------------------------------------------------------------------------------------------
  // The weight of streams: all tokens but handles, of which a step may read more or fewer

  function TokenWeight(token: Token): nat {
    if token.HandleToken? then 0 else 1
  }

  function Weight(tokens: seq<Token>): nat {
    if tokens == [] then 0 else TokenWeight(tokens[0]) + Weight(tokens[1..])
  }

  function StreamsWeight(s: Streams): nat {
    Weight(s.data) + Weight(s.handles) + Weight(s.strings)
  }

  function EventsWeight(es: seq<Event>): nat {
    if es == [] then 0 else TokenWeight(es[0].token) + EventsWeight(es[1..])
  }

  lemma PushWeighs(s: Streams, e: Event, aliased: bool)
    ensures StreamsWeight(Push(s, e, aliased)) == TokenWeight(e.token) + StreamsWeight(s)
  {
    var tokens := Unread(s, Route(e.stream, aliased));
    assert ([e.token] + tokens)[1..] == tokens;
  }

  lemma {:induction false} PrefixWeighs(es: seq<Event>, s: Streams, aliased: bool)
    ensures StreamsWeight(Prefix(es, s, aliased)) == EventsWeight(es) + StreamsWeight(s)
  {
    if es == [] {
    } else {
      PrefixWeighs(es[1..], s, aliased);
      PushWeighs(Prefix(es[1..], s, aliased), es[0], aliased);
    }
  }

  lemma {:induction false} EventsConcatWeighs(a: seq<Event>, b: seq<Event>)
    ensures EventsWeight(a + b) == EventsWeight(a) + EventsWeight(b)
  {
    if a == [] {
      assert a + b == b;
    } else {
      assert (a + b)[1..] == a[1..] + b;
      EventsConcatWeighs(a[1..], b);
    }
  }

  /** Leaving out tokens in front never adds weight, and takes some if the first one has any. */
  lemma {:induction false} DropWeighs(tokens: seq<Token>, n: nat)
    requires n <= |tokens|
    ensures Weight(tokens[n..]) <= Weight(tokens)
    ensures n > 0 && TokenWeight(tokens[0]) == 1 ==> Weight(tokens[n..]) < Weight(tokens)
  {
    if n == 0 {
      assert tokens[n..] == tokens;
    } else {
      DropWeighs(tokens[1..], n - 1);
      assert tokens[1..][n - 1..] == tokens[n..];
    }
  }

  // ---------------------------------------------------------------------------------------------
  // What one step writes, and what it needs

  /** The tokens other than handles that a step of the parser reads at least. */
  function SlotWeight<V(!new)>(g: GetSlot<V>, f: Format<V>): nat {
    match g
    case Get(kind, _) => if kind == Time then 2 else if kind == Color && f.wideColors then 3 else 1
    case Skip(_) => 1
    case _ => 0
  }

  function SlotsWeight<V(!new)>(gs: seq<GetSlot<V>>, f: Format<V>): nat {
    if gs == [] then 0 else SlotWeight(gs[0], f) + SlotsWeight(gs[1..], f)
  }

  lemma {:induction false} SlotsConcatWeigh<V(!new)>(a: seq<GetSlot<V>>, b: seq<GetSlot<V>>, f: Format<V>)
    ensures SlotsWeight(a + b, f) == SlotsWeight(a, f) + SlotsWeight(b, f)
  {
    if a == [] {
      assert a + b == b;
    } else {
      assert (a + b)[1..] == a[1..] + b;
      SlotsConcatWeigh(a[1..], b, f);
    }
  }

  lemma OneEventWeighs(e: Event)
    ensures EventsWeight([e]) == TokenWeight(e.token)
  {
    assert [e][1..] == [];
  }

  lemma TwoEventsWeigh(a: Event, b: Event)
    ensures EventsWeight([a, b]) == TokenWeight(a.token) + TokenWeight(b.token)
  {
    assert [a, b][1..] == [b];
    OneEventWeighs(b);
  }

  lemma EmitVarWeighs<V(!new)>(kind: Kind, f: Format<V>, h: Header<V>, v: V)
    requires kind != LongLong
    ensures EventsWeight(EmitVar(kind, f, h, v)) == SlotWeight(Get(kind, v), f)
  {
    var es := EmitVar(kind, f, h, v);
    match kind
    case Time => TwoEventsWeigh(es[0], es[1]);
    case Color =>
      if f.wideColors {
        assert es[1..] == [es[1], es[2]];
        TwoEventsWeigh(es[1], es[2]);
      } else {
        OneEventWeighs(es[0]);
      }
    case PlotStyle =>
      if |es| == 2 {
        TwoEventsWeigh(es[0], es[1]);
      } else {
        assert es == [es[0]];
        OneEventWeighs(es[0]);
      }
    case LongLong =>
    case _ => OneEventWeighs(es[0]);
  }

  lemma EmitWeighs<V(!new)>(p: PutSlot<V>, g: GetSlot<V>, f: Format<V>, h: Header<V>)
    requires Matches(p, g, f)
    ensures EventsWeight(Emit(p, f, h)) == SlotWeight(g, f)
  {
    match p
    case Put(kind, v) => EmitVarWeighs(kind, f, h, v);
    case _ =>
      var es := Emit(p, f, h);
      assert es == [es[0]];
      OneEventWeighs(es[0]);
  }

  /** The encoder writes just the weight that the parser's schedule needs. */
  lemma {:induction false} EmitAllWeighs<V(!new)>(ps: seq<PutSlot<V>>, gs: seq<GetSlot<V>>, f: Format<V>, h: Header<V>)
    requires Aligned(ps, gs, f)
    ensures EventsWeight(EmitAll(ps, f, h)) == SlotsWeight(gs, f)
    decreases |ps|
  {
    if ps == [] {
    } else {
      EmitWeighs(ps[0], gs[0], f, h);
      EmitAllWeighs(ps[1..], gs[1..], f, h);
      EventsConcatWeighs(Emit(ps[0], f, h), EmitAll(ps[1..], f, h));
    }
  }

  // ---------------------------------------------------------------------------------------------
  // What reading takes

  lemma PopWeighs(s: Streams, stream: Stream, aliased: bool)
    ensures match Pop(s, stream, aliased)
            case Ended => true
            case Popped(token, rest) => StreamsWeight(s) == StreamsWeight(rest) + TokenWeight(token)
  {
  }

  /** A successful read leaves at least the given weight less. */
  ghost predicate Takes<T>(got: Got<T>, s: Streams, weight: nat) {
    got.Got? ==> StreamsWeight(got.rest) + weight <= StreamsWeight(s)
  }

  lemma ReadOneTakes(kind: Kind, stream: Stream, s: Streams, aliased: bool)
    ensures Takes(ReadOne(kind, stream, s, aliased), s, 1)
  {
    PopWeighs(s, stream, aliased);
  }

  lemma ReadTimeTakes(s: Streams, aliased: bool)
    ensures Takes(ReadTime(s, aliased), s, 2)
  {
    ReadOneTakes(Long, Data, s, aliased);
    match ReadOne(Long, Data, s, aliased)
    case Failed =>
    case Got(_, rest) => ReadOneTakes(Long, Data, rest, aliased);
  }

  lemma SkipTextTakes(s: Streams, present: bool, aliased: bool)
    ensures Takes(SkipText(s, present, aliased), s, 0)
  {
    ReadOneTakes(Cp8Text, Data, s, aliased);
  }

  lemma ReadColorTakes(wide: bool, s: Streams, aliased: bool)
    ensures Takes(ReadColor(wide, s, aliased), s, if wide then 3 else 1)
  {
    ReadOneTakes(Short, Data, s, aliased);
    if wide && ReadOne(Short, Data, s, aliased).Got? {
      var s1 := ReadOne(Short, Data, s, aliased).rest;
      ReadOneTakes(Long, Data, s1, aliased);
      if ReadOne(Long, Data, s1, aliased).Got? {
        var s2 := ReadOne(Long, Data, s1, aliased).rest;
        ReadOneTakes(RawChar, Data, s2, aliased);
        if ReadOne(RawChar, Data, s2, aliased).Got? {
          BookTextsTake(ReadOne(RawChar, Data, s2, aliased), aliased);
        }
      }
    }
  }

  lemma BookTextsTake(flags: Got<Value>, aliased: bool)
    requires flags.Got? && flags.value.Int?
    ensures var first := SkipText(flags.rest, flags.value.i % 2 == 1, aliased);
            && Takes(first, flags.rest, 0)
            && (first.Got? ==> Takes(SkipText(first.rest, flags.value.i / 2 % 2 == 1, aliased), first.rest, 0))
  {
    var first := SkipText(flags.rest, flags.value.i % 2 == 1, aliased);
    SkipTextTakes(flags.rest, flags.value.i % 2 == 1, aliased);
    if first.Got? {
      SkipTextTakes(first.rest, flags.value.i / 2 % 2 == 1, aliased);
    }
  }

  lemma ReadPlotStyleTakes(s: Streams, aliased: bool)
    ensures Takes(ReadPlotStyle(s, aliased), s, 1)
  {
    ReadOneTakes(PlotStyle, Data, s, aliased);
    match ReadOne(PlotStyle, Data, s, aliased)
    case Failed =>
    case Got(_, rest) => PopWeighs(rest, Handles, aliased);
  }

  lemma ReadVarTakes<V(!new)>(kind: Kind, v: V, f: Format<V>, s: Streams)
    ensures Takes(ReadVar(kind, f, s), s, SlotWeight(Get(kind, v), f))
  {
    match kind
    case Time => ReadTimeTakes(s, f.aliased);
    case Color => ReadColorTakes(f.wideColors, s, f.aliased);
    case PlotStyle => ReadPlotStyleTakes(s, f.aliased);
    case _ => ReadOneTakes(kind, StreamOf(kind), s, f.aliased);
  }

  lemma ReadTakes<V(!new)>(g: GetSlot<V>, f: Format<V>, s: Streams, h: Header<V>)
    ensures Takes(Read(g, f, s, h), s, SlotWeight(g, f))
  {
    match g
    case Get(kind, v) => ReadVarTakes(kind, v, f, s);
    case Skip(kind) => PopWeighs(s, StreamOf(kind), f.aliased);
    case SkipReference => PopWeighs(s, Handles, f.aliased);
    case GetControl(_) => PopWeighs(s, Handles, f.aliased);
    case GetHandSeed => PopWeighs(s, Data, f.aliased);
  }

  lemma {:induction false} ReadAllTakes<V(!new)>(gs: seq<GetSlot<V>>, f: Format<V>, s: Streams, h: Header<V>)
    ensures Takes(ReadAll(gs, f, s, h), s, SlotsWeight(gs, f))
    decreases |gs|
  {
    if gs == [] {
    } else {
      ReadTakes(gs[0], f, s, h);
      match Read(gs[0], f, s, h) {
        case Failed =>
        case Got(h', rest) => ReadAllTakes(gs[1..], f, rest, h');
      }
    }
  }

  /** Streams that weigh less than the schedule needs are refused, whatever is on them. */
  lemma TooLittleIsRefused<V(!new)>(gs: seq<GetSlot<V>>, f: Format<V>, s: Streams, h: Header<V>)
    requires StreamsWeight(s) < SlotsWeight(gs, f)
    ensures ReadAll(gs, f, s, h).Failed?
  {
    ReadAllTakes(gs, f, s, h);
  }

  // ---------------------------------------------------------------------------------------------
  // Shared streams that are entered too late

  /** The streams without the first tokens of the shared one. */
  function Leave(s: Streams, n: nat): Streams {
    s.(data := s.data[if n < |s.data| then n else |s.data|..])
  }

  lemma LeavingNothing(s: Streams)
    ensures Leave(s, 0) == s
  {
  }

  lemma LeaveWeighs(s: Streams, n: nat)
    ensures StreamsWeight(Leave(s, n)) <= StreamsWeight(s)
    ensures n > 0 && s.data != [] && TokenWeight(s.data[0]) == 1 ==> StreamsWeight(Leave(s, n)) < StreamsWeight(s)
  {
    DropWeighs(s.data, if n < |s.data| then n else |s.data|);
  }

  /** A step that writes a constant other than a handle on the data stream. */
  predicate StartsData<V(!new)>(p: PutSlot<V>) {
    p.PutConstant? && p.stream == Data && !p.token.HandleToken?
  }

  lemma FirstTokenIsData<V(!new)>(ps: seq<PutSlot<V>>, f: Format<V>, h: Header<V>)
    requires ps != [] && StartsData(ps[0])
    ensures var data := Prefix(EmitAll(ps, f, h), NO_TOKENS, f.aliased).data; data != [] && TokenWeight(data[0]) == 1
  {
    var es := EmitAll(ps, f, h);
    assert es == [Event(Data, ps[0].token)] + EmitAll(ps[1..], f, h);
    assert es[0] == Event(Data, ps[0].token);
  }

  /** A parser that enters behind the first token is refused. */
  lemma EnteringLateIsRefused<V(!new)>(ps: seq<PutSlot<V>>, gs: seq<GetSlot<V>>, f: Format<V>, h: Header<V>, n: nat,
                                       into: Header<V>)
    requires Aligned(ps, gs, f) && ps != [] && StartsData(ps[0]) && n > 0
    ensures ReadAll(gs, f, Leave(Prefix(EmitAll(ps, f, h), NO_TOKENS, f.aliased), n), into).Failed?
  {
    var s := Prefix(EmitAll(ps, f, h), NO_TOKENS, f.aliased);
    EmitAllWeighs(ps, gs, f, h);
    PrefixWeighs(EmitAll(ps, f, h), NO_TOKENS, f.aliased);
    FirstTokenIsData(ps, f, h);
    LeaveWeighs(s, n);
    TooLittleIsRefused(gs, f, Leave(s, n), into);
  }

  /** So is one that needs more than the encoder wrote. */
  lemma NeedingMoreIsRefused<V(!new)>(ps: seq<PutSlot<V>>, gs: seq<GetSlot<V>>, more: seq<GetSlot<V>>, f: Format<V>,
                                      h: Header<V>, n: nat, into: Header<V>)
    requires Aligned(ps, gs, f) && SlotsWeight(more, f) > 0
    ensures var s := Prefix(EmitAll(ps, f, h), NO_TOKENS, f.aliased);
            ReadAll(gs + more, f, s, into).Failed? && ReadAll(gs + more, f, Leave(s, n), into).Failed?
  {
    var s := Prefix(EmitAll(ps, f, h), NO_TOKENS, f.aliased);
    EmitAllWeighs(ps, gs, f, h);
    PrefixWeighs(EmitAll(ps, f, h), NO_TOKENS, f.aliased);
    SlotsConcatWeigh(gs, more, f);
    LeaveWeighs(s, n);
    TooLittleIsRefused(gs + more, f, s, into);
    TooLittleIsRefused(gs + more, f, Leave(s, n), into);
  }
}
