/** The HEADER section as a whole: the encoder and the parser over their full schedules, and their round trips. */
module HeaderSection {
  import opened Words
  import opened HeaderCodec
  import opened HeaderSchedules
  import opened HeaderTimes
  import opened HeaderWeights

  type DwgVars = Header<Var>

  const EMPTY: DwgVars := Header(map[], map[], 0)

  // ---------------------------------------------------------------------------------------------
  // The schedules

  function PutParts(version: int): seq<seq<PutSlot<Var>>> {
    PutPreamble(version) + PutModes(version) + PutCounts(version) + PutScales(version) + PutDates(version)
  }

  function PutViewParts(version: int): seq<seq<PutSlot<Var>>> {
    PutPaperView(version) + PutModelView(version) + PutDimensionSizes(version) + PutDimensionFormats(version)
    + PutDimensionStyles(version)
  }

  function PutTableParts(version: int): seq<seq<PutSlot<Var>>> {
    PutTableControls(version) + PutDictionaries(version) + PutIdentity(version) + PutEnvironment(version)
    + PutEffects(version)
  }

  function GetParts(version: int): seq<seq<GetSlot<Var>>> {
    GetPreamble(version) + GetModes(version) + GetCounts(version) + GetScales(version) + GetDates(version)
  }

  function GetViewParts(version: int): seq<seq<GetSlot<Var>>> {
    GetPaperView(version) + GetModelView(version) + GetDimensionSizes(version) + GetDimensionFormats(version)
    + GetDimensionStyles(version)
  }

  function GetTableParts(version: int): seq<seq<GetSlot<Var>>> {
    GetTableControls(version) + GetDictionaries(version) + GetIdentity(version) + GetEnvironment(version)
    + GetEffects(version)
  }

  function Flatten<T>(parts: seq<seq<T>>): seq<T> {
    if parts == [] then [] else parts[0] + Flatten(parts[1..])
  }

  function PutBody(version: int): seq<PutSlot<Var>> {
    Flatten(PutParts(version) + PutViewParts(version) + PutTableParts(version))
  }

  function GetBody(version: int): seq<GetSlot<Var>> {
    Flatten(GetParts(version) + GetViewParts(version) + GetTableParts(version))
  }

  /** The string stream is filled only if the caller gives one. */
  function EncodeSchedule(version: int, hasStrings: bool): seq<PutSlot<Var>> {
    PutBody(version) + When(hasStrings, Flatten(PutTexts(version)))
  }

  function ParseSchedule(version: int): seq<GetSlot<Var>> {
    GetBody(version) + Flatten(GetTexts(version))
  }

  lemma AlignedConcat(a: seq<PutSlot<Var>>, b: seq<PutSlot<Var>>, c: seq<GetSlot<Var>>, d: seq<GetSlot<Var>>,
                      f: Format<Var>)
    requires Aligned(a, c, f) && Aligned(b, d, f)
    ensures Aligned(a + b, c + d, f)
  {
  }

  lemma PartsAlignedConcat(a: seq<seq<PutSlot<Var>>>, b: seq<seq<PutSlot<Var>>>, c: seq<seq<GetSlot<Var>>>,
                           d: seq<seq<GetSlot<Var>>>, f: Format<Var>)
    requires PartsAligned(a, c, f) && PartsAligned(b, d, f)
    ensures PartsAligned(a + b, c + d, f)
  {
  }

  lemma {:induction false} FlattenAligned(pp: seq<seq<PutSlot<Var>>>, gg: seq<seq<GetSlot<Var>>>, f: Format<Var>)
    requires PartsAligned(pp, gg, f)
    ensures Aligned(Flatten(pp), Flatten(gg), f)
    decreases |pp|
  {
    if pp == [] {
    } else {
      FlattenAligned(pp[1..], gg[1..], f);
      AlignedConcat(pp[0], Flatten(pp[1..]), gg[0], Flatten(gg[1..]), f);
    }
  }

  lemma FiveAligned(a: seq<seq<PutSlot<Var>>>, b: seq<seq<PutSlot<Var>>>, c: seq<seq<PutSlot<Var>>>,
                    d: seq<seq<PutSlot<Var>>>, e: seq<seq<PutSlot<Var>>>,
                    a': seq<seq<GetSlot<Var>>>, b': seq<seq<GetSlot<Var>>>, c': seq<seq<GetSlot<Var>>>,
                    d': seq<seq<GetSlot<Var>>>, e': seq<seq<GetSlot<Var>>>, f: Format<Var>)
    requires PartsAligned(a, a', f) && PartsAligned(b, b', f) && PartsAligned(c, c', f)
    requires PartsAligned(d, d', f) && PartsAligned(e, e', f)
    ensures PartsAligned(a + b + c + d + e, a' + b' + c' + d' + e', f)
  {
    PartsAlignedConcat(a, b, a', b', f);
    PartsAlignedConcat(a + b, c, a' + b', c', f);
    PartsAlignedConcat(a + b + c, d, a' + b' + c', d', f);
    PartsAlignedConcat(a + b + c + d, e, a' + b' + c' + d', e', f);
  }

  lemma PartsAlign(version: int, f: Format<Var>)
    requires version in VERSIONS && Uses(f, version) && NumbersAlign(f) && OthersAlign(f, version)
    ensures PartsAligned(PutParts(version), GetParts(version), f)
  {
    PreambleAlign(version, f);
    ModesAlign(version, f);
    CountsAlign(version, f);
    ScalesAlign(version, f);
    DatesAlign(version, f);
    FiveAligned(PutPreamble(version), PutModes(version), PutCounts(version), PutScales(version), PutDates(version),
                GetPreamble(version), GetModes(version), GetCounts(version), GetScales(version), GetDates(version), f);
  }

  lemma ViewPartsAlign(version: int, f: Format<Var>)
    requires version in VERSIONS && Uses(f, version) && NumbersAlign(f) && OthersAlign(f, version)
    ensures PartsAligned(PutViewParts(version), GetViewParts(version), f)
  {
    PaperViewAlign(version, f);
    ModelViewAlign(version, f);
    DimensionSizesAlign(version, f);
    DimensionFormatsAlign(version, f);
    DimensionStylesAlign(version, f);
    FiveAligned(PutPaperView(version), PutModelView(version), PutDimensionSizes(version),
                PutDimensionFormats(version), PutDimensionStyles(version),
                GetPaperView(version), GetModelView(version), GetDimensionSizes(version),
                GetDimensionFormats(version), GetDimensionStyles(version), f);
  }

  lemma TablePartsAlign(version: int, f: Format<Var>)
    requires version in VERSIONS && Uses(f, version) && NumbersAlign(f) && OthersAlign(f, version)
    ensures PartsAligned(PutTableParts(version), GetTableParts(version), f)
  {
    TableControlsAlign(version, f);
    DictionariesAlign(version, f);
    IdentityAlign(version, f);
    EnvironmentAlign(version, f);
    EffectsAlign(version, f);
    FiveAligned(PutTableControls(version), PutDictionaries(version), PutIdentity(version), PutEnvironment(version),
                PutEffects(version),
                GetTableControls(version), GetDictionaries(version), GetIdentity(version), GetEnvironment(version),
                GetEffects(version), f);
  }

  /** For each of the six versions the two schedules agree step by step. */
  lemma SchedulesAlign(version: int, aliased: bool)
    requires version in VERSIONS
    ensures var f := FormatOf(version, aliased);
            && Aligned(PutBody(version), GetBody(version), f)
            && Aligned(Flatten(PutTexts(version)), Flatten(GetTexts(version)), f)
            && Aligned(EncodeSchedule(version, true), ParseSchedule(version), f)
  {
    var f := FormatOf(version, aliased);
    NumberRunsAlign(f, version);
    OtherRunsAlign(f, version);
    PartsAlign(version, f);
    ViewPartsAlign(version, f);
    TablePartsAlign(version, f);
    TextsAlign(version, f);
    PartsAlignedConcat(PutParts(version), PutViewParts(version), GetParts(version), GetViewParts(version), f);
    PartsAlignedConcat(PutParts(version) + PutViewParts(version), PutTableParts(version),
                       GetParts(version) + GetViewParts(version), GetTableParts(version), f);
    FlattenAligned(PutParts(version) + PutViewParts(version) + PutTableParts(version),
                   GetParts(version) + GetViewParts(version) + GetTableParts(version), f);
    FlattenAligned(PutTexts(version), GetTexts(version), f);
    AlignedConcat(PutBody(version), Flatten(PutTexts(version)), GetBody(version), Flatten(GetTexts(version)), f);
  }

  // ---------------------------------------------------------------------------------------------
  // Round trips

  /** The streams of an encoded header. */
  function Encoded(version: int, aliased: bool, hasStrings: bool, h: DwgVars): Streams {
    Prefix(EmitAll(EncodeSchedule(version, hasStrings), FormatOf(version, aliased), h), NO_TOKENS, aliased)
  }

  /** From R2007 on the parser moves its handle buffer to the position that the size preamble names. On a buffer of
      its own that is where the handles start; if data and handles share one buffer, the data cursor moves with it,
      and `seek` is how many tokens it then leaves out. */
  predicate Seeks(version: int, aliased: bool) {
    aliased && version > AC1018
  }

  function Sought(version: int, aliased: bool, seek: nat, s: Streams): Streams {
    if Seeks(version, aliased) then Leave(s, seek) else s
  }

  /** What is parsed into a header object. */
  function Parsed(version: int, aliased: bool, seek: nat, s: Streams, into: DwgVars): Got<DwgVars> {
    ReadAll(ParseSchedule(version), FormatOf(version, aliased), Sought(version, aliased, seek, s), into)
  }

  /** The header that comes back. */
  function Back(version: int, aliased: bool, h: DwgVars, into: DwgVars): DwgVars {
    StoredAll(ParseSchedule(version), FormatOf(version, aliased), h, into)
  }

  /** Every version starts with a constant on the data stream. */
  lemma PreambleStarts(version: int)
    requires version in VERSIONS
    ensures var k := if version > AC1024 then 0 else 1;
            && |PutPreamble(version)| == 5
            && (k == 1 ==> PutPreamble(version)[0] == [])
            && PutPreamble(version)[k] != [] && StartsData(PutPreamble(version)[k][0])
  {
  }

  lemma {:induction false} FlattenStarts<T>(parts: seq<seq<T>>, k: nat)
    requires k < |parts| && parts[k] != [] && forall i :: 0 <= i < k ==> parts[i] == []
    ensures Flatten(parts) != [] && Flatten(parts)[0] == parts[k][0]
  {
    if k == 0 {
    } else {
      FlattenStarts(parts[1..], k - 1);
    }
  }

  lemma ScheduleStarts(version: int)
    requires version in VERSIONS
    ensures EncodeSchedule(version, true) != [] && StartsData(EncodeSchedule(version, true)[0])
  {
    PreambleStarts(version);
    PreambleLeads(version, PutPreamble(version),
                  PutModes(version) + PutCounts(version) + PutScales(version) + PutDates(version));
  }

  /** The schedule starts like its preamble. */
  lemma PreambleLeads(version: int, preamble: seq<seq<PutSlot<Var>>>, others: seq<seq<PutSlot<Var>>>)
    requires preamble == PutPreamble(version) && |preamble| == 5
    requires others == PutModes(version) + PutCounts(version) + PutScales(version) + PutDates(version)
    requires var k := if version > AC1024 then 0 else 1; preamble[k] != [] && (k == 1 ==> preamble[0] == [])
    ensures PutBody(version) != []
    ensures PutBody(version)[0] == preamble[if version > AC1024 then 0 else 1][0]
  {
    var k := if version > AC1024 then 0 else 1;
    var parts := PutParts(version) + PutViewParts(version) + PutTableParts(version);
    assert PutParts(version) == preamble + others;
    assert parts[0] == preamble[0] && parts[1] == preamble[1];
    FlattenStarts(parts, k);
  }

  /** The parser consumes every token the encoder wrote, the plot-style handle included, and nothing is left, unless
      a shared buffer makes it seek past any of them; then it fails. */
  lemma HeaderRoundTrip(version: int, aliased: bool, seek: nat, h: DwgVars, into: DwgVars)
    requires version in VERSIONS
    ensures Parsed(version, aliased, seek, Encoded(version, aliased, true, h), into)
            == if Seeks(version, aliased) && seek > 0 then Failed
               else Got(Back(version, aliased, h, into), NO_TOKENS)
  {
    var ps, gs, f := EncodeSchedule(version, true), ParseSchedule(version), FormatOf(version, aliased);
    SchedulesAlign(version, aliased);
    if Seeks(version, aliased) && seek > 0 {
      ScheduleStarts(version);
      EnteringLateIsRefused(ps, gs, f, h, seek, into);
    } else {
      LeavingNothing(Encoded(version, aliased, true, h));
      ScheduleReadsBack(ps, gs, f, h, NO_TOKENS, into);
    }
  }

  /** The header that a successful parse of an encoded header yields. */
  ghost predicate ComesBack(version: int, aliased: bool, seek: nat, h: DwgVars, into: DwgVars, back: DwgVars) {
    Parsed(version, aliased, seek, Encoded(version, aliased, true, h), into) == Got(back, NO_TOKENS)
  }

  lemma TimeDefaultsFit(version: int, aliased: bool)
    ensures DefaultsFit(FormatOf(version, aliased))
  {
    assert Split(0.0).0 == 0;
  }

  /** Every wide colour that this version writes is at most 256. */
  ghost predicate ColorsKept(version: int, aliased: bool, h: DwgVars) {
    version >= AC1018 ==> ColorsSmall(EncodeSchedule(version, true), FormatOf(version, aliased), h)
  }

  ghost predicate ColorsSmall(ps: seq<PutSlot<Var>>, f: Format<Var>, h: DwgVars) {
    forall c: ColorName :: Put(Color, Colour(c)) in ps ==> IntOf(f, h, Colour(c)) % 0x1_0000 <= 256
  }

  lemma StableIffColorsSmall(ps: seq<PutSlot<Var>>, gs: seq<GetSlot<Var>>, f: Format<Var>, version: int, h: DwgVars)
    requires Aligned(ps, gs, f) && Uses(f, version)
    ensures (forall i :: 0 <= i < |ps| ==> Stable(ps[i], f, h)) <==> (f.wideColors ==> ColorsSmall(ps, f, h))
  {
    if forall i :: 0 <= i < |ps| ==> Stable(ps[i], f, h) {
      forall c: ColorName | Put(Color, Colour(c)) in ps && f.wideColors
        ensures IntOf(f, h, Colour(c)) % 0x1_0000 <= 256
      {
        var i :| 0 <= i < |ps| && ps[i] == Put(Color, Colour(c));
        assert Stable(ps[i], f, h);
      }
    }
    if f.wideColors ==> ColorsSmall(ps, f, h) {
      forall i | 0 <= i < |ps| ensures Stable(ps[i], f, h) {
        assert Matches(ps[i], gs[i], f);
        if ps[i].Put? && ps[i].kind == Color {
          assert f.kind(ps[i].v) == KindOf(ps[i].v, version);
          assert ps[i] == Put(Color, Colour(ps[i].v.color));
        }
      }
    }
  }

  lemma BackIsUnique(version: int, aliased: bool, seek: nat, h: DwgVars, into: DwgVars, back: DwgVars)
    requires version in VERSIONS && ComesBack(version, aliased, seek, h, into, back)
    ensures back == Back(version, aliased, h, into)
  {
    HeaderRoundTrip(version, aliased, seek, h, into);
  }

  lemma BackReencodes(version: int, aliased: bool, h: DwgVars, into: DwgVars)
    requires version in VERSIONS && WellTyped(FormatOf(version, aliased), h)
    ensures Encoded(version, aliased, true, Back(version, aliased, h, into)) == Encoded(version, aliased, true, h)
            <==> ColorsKept(version, aliased, h)
  {
    SchedulesAlign(version, aliased);
    TimeDefaultsFit(version, aliased);
    ScheduleReencodes(EncodeSchedule(version, true), ParseSchedule(version), FormatOf(version, aliased), h, into);
    StableIffColorsSmall(EncodeSchedule(version, true), ParseSchedule(version), FormatOf(version, aliased), version, h);
  }

  /** Encoding what was parsed writes the same streams again if and only if every wide colour is at most 256. */
  lemma HeaderReencodes(version: int, aliased: bool, seek: nat, h: DwgVars, into: DwgVars, back: DwgVars)
    requires version in VERSIONS && WellTyped(FormatOf(version, aliased), h)
    requires ComesBack(version, aliased, seek, h, into, back)
    ensures Encoded(version, aliased, true, back) == Encoded(version, aliased, true, h)
            <==> ColorsKept(version, aliased, h)
  {
    BackIsUnique(version, aliased, seek, h, into, back);
    BackReencodes(version, aliased, h, into);
  }

  lemma {:induction false} FlattenHas<T>(parts: seq<seq<T>>, k: nat, x: T)
    requires k < |parts| && x in parts[k]
    ensures x in Flatten(parts)
  {
    if k == 0 {
    } else {
      FlattenHas(parts[1..], k - 1, x);
    }
  }

  lemma CurrentColorIsWritten(version: int)
    ensures Put(Color, Colour(CECOLOR)) in PutBody(version)
  {
    var before := PutPreamble(version) + PutModes(version) + PutCounts(version) + PutScales(version);
    assert PutColors([CECOLOR])[0] == Put(Color, Colour(CECOLOR));
    assert PutDates(version)[3] == PutColors([CECOLOR]);
    assert PutParts(version)[|before| + 3] == PutColors([CECOLOR]);
    FlattenHas(PutParts(version) + PutViewParts(version) + PutTableParts(version), |before| + 3,
               Put(Color, Colour(CECOLOR)));
  }

  const COLOR_300: DwgVars := Header(map[Bare(Colour(CECOLOR)) := Int(300)], map[], 0)

  lemma Color300IsNotKept(f: Format<Var>, ps: seq<PutSlot<Var>>)
    requires Put(Color, Colour(CECOLOR)) in ps
    ensures !ColorsSmall(ps, f, COLOR_300)
  {
    assert IntOf(f, COLOR_300, Colour(CECOLOR)) == 300;
  }

  lemma Color300IsLost(version: int, aliased: bool)
    requires version in VERSIONS && version >= AC1018
    ensures WellTyped(FormatOf(version, aliased), COLOR_300) && !ColorsKept(version, aliased, COLOR_300)
  {
    CurrentColorIsWritten(version);
    Color300IsNotKept(FormatOf(version, aliased), EncodeSchedule(version, true));
  }

  /** Colour 300 is lost: it is written with the by-layer type and comes back as 256. */
  lemma ReencodingCanDiffer(version: int, aliased: bool, seek: nat, into: DwgVars, back: DwgVars)
    requires version in VERSIONS && version >= AC1018
    requires ComesBack(version, aliased, seek, COLOR_300, into, back)
    ensures WellTyped(FormatOf(version, aliased), COLOR_300)
    ensures Encoded(version, aliased, true, back) != Encoded(version, aliased, true, COLOR_300)
  {
    Color300IsLost(version, aliased);
    HeaderReencodes(version, aliased, seek, COLOR_300, into, back);
  }

  lemma BackHoldsVariable(version: int, aliased: bool, h: DwgVars, into: DwgVars, kind: Kind, v: Var)
    requires version in VERSIONS && Get(kind, v) in ParseSchedule(version)
    ensures kind == FormatOf(version, aliased).kind(v)
    ensures Holds(Back(version, aliased, h, into), FormatOf(version, aliased), h, v)
  {
    SchedulesAlign(version, aliased);
    var gs, ps, f := ParseSchedule(version), EncodeSchedule(version, true), FormatOf(version, aliased);
    forall i | 0 <= i < |gs| && gs[i].Get? ensures gs[i].kind == f.kind(gs[i].v) {
      assert Matches(ps[i], gs[i], f);
    }
    StoredAllHolds(gs, f, h, into, v);
  }

  /** Every variable that the parser stores comes back as its kind is read. */
  lemma VariableComesBack(version: int, aliased: bool, seek: nat, h: DwgVars, into: DwgVars, back: DwgVars,
                          kind: Kind, v: Var)
    requires version in VERSIONS && Get(kind, v) in ParseSchedule(version)
    requires ComesBack(version, aliased, seek, h, into, back)
    ensures Bare(v) in back.vars && back.vars[Bare(v)] == Reread(kind, FormatOf(version, aliased), h, v)
  {
    BackIsUnique(version, aliased, seek, h, into, back);
    BackHoldsVariable(version, aliased, h, into, kind, v);
  }

  /** Dates come back within half a millisecond. */
  lemma DateComesBackClose(version: int, aliased: bool, seek: nat, h: DwgVars, into: DwgVars, back: DwgVars,
                           n: TimeName)
    requires version in VERSIONS && Get(Time, Date(n)) in ParseSchedule(version)
    requires WellTyped(FormatOf(version, aliased), h) && ComesBack(version, aliased, seek, h, into, back)
    ensures var f := FormatOf(version, aliased);
            var moved := (RealOf(f, back, Date(n)) - RealOf(f, h, Date(n))) * MSEC_PER_DAY as real;
            -0.5 <= moved <= 0.5
  {
    BackIsUnique(version, aliased, seek, h, into, back);
    BackHoldsVariable(version, aliased, h, into, Time, Date(n));
    TimeDefaultsFit(version, aliased);
    TimesComeBackClose(FormatOf(version, aliased), h, back, Date(n));
  }

  lemma LineWeightIsRead(version: int)
    ensures Get(Short, Count(DIMLWD)) in GetBody(version)
  {
    var before := GetPaperView(version) + GetModelView(version) + GetDimensionSizes(version)
                  + GetDimensionFormats(version);
    assert GetShorts([DIMLWD, DIMLWE])[0] == Get(Short, Count(DIMLWD));
    assert GetDimensionStyles(version)[2] == GetShorts([DIMLWD, DIMLWE]);
    assert GetViewParts(version)[|before| + 2] == GetShorts([DIMLWD, DIMLWE]);
    var k := |GetParts(version)| + |before| + 2;
    assert (GetParts(version) + GetViewParts(version))[k] == GetShorts([DIMLWD, DIMLWE]);
    FlattenHas(GetParts(version) + GetViewParts(version) + GetTableParts(version), k, Get(Short, Count(DIMLWD)));
  }

  lemma DefaultLineWeight(version: int, aliased: bool)
    ensures Reread(Short, FormatOf(version, aliased), EMPTY, Count(DIMLWD)) == Int(65534)
  {
    assert FormatOf(version, aliased).defaultInt(Count(DIMLWD)) == -2;
  }

  lemma LineWeightIsParsed(version: int)
    ensures Get(Short, Count(DIMLWD)) in ParseSchedule(version)
  {
    LineWeightIsRead(version);
  }

  /** Bit shorts come back unsigned: the default dimension line weight of -2 returns as 65534. */
  lemma LineWeightComesBackUnsigned(version: int, aliased: bool, seek: nat, into: DwgVars, back: DwgVars)
    requires version in VERSIONS && ComesBack(version, aliased, seek, EMPTY, into, back)
    ensures Bare(Count(DIMLWD)) in back.vars && back.vars[Bare(Count(DIMLWD))] == Int(65534)
  {
    LineWeightIsParsed(version);
    VariableComesBack(version, aliased, seek, EMPTY, into, back, Short, Count(DIMLWD));
    DefaultLineWeight(version, aliased);
  }

  lemma {:induction false} FlattenEmpty<T>(parts: seq<seq<T>>)
    requires forall k :: 0 <= k < |parts| ==> parts[k] == []
    ensures Flatten(parts) == []
  {
    if parts == [] {
    } else {
      FlattenEmpty(parts[1..]);
    }
  }

  lemma TextsWeigh(version: int, f: Format<Var>)
    requires version > AC1018
    ensures SlotsWeight(Flatten(GetTexts(version)), f) > 0
  {
    assert GetTexts(version)[0][0] == Skip(UcsText);
    assert Flatten(GetTexts(version))[0] == Skip(UcsText);
  }

  lemma TextsAreInline(version: int)
    requires version <= AC1018
    ensures Flatten(PutTexts(version)) == [] && Flatten(GetTexts(version)) == []
  {
    FlattenEmpty(PutTexts(version));
    FlattenEmpty(GetTexts(version));
  }

  lemma TextsMakeNoDifference(version: int)
    requires version <= AC1018
    ensures EncodeSchedule(version, false) == EncodeSchedule(version, true)
  {
    TextsAreInline(version);
    assert EncodeSchedule(version, true) == PutBody(version) == EncodeSchedule(version, false);
  }

  lemma BodyIsTooLittle(version: int, aliased: bool, seek: nat, h: DwgVars, into: DwgVars)
    requires version in VERSIONS && version > AC1018
    ensures Parsed(version, aliased, seek, Encoded(version, aliased, false, h), into).Failed?
  {
    assert EncodeSchedule(version, false) == PutBody(version);
    SchedulesAlign(version, aliased);
    TextsWeigh(version, FormatOf(version, aliased));
    NeedingMoreIsRefused(PutBody(version), GetBody(version), Flatten(GetTexts(version)), FormatOf(version, aliased), h,
                         seek, into);
  }

  /** The string stream matters from R2007 on, and then it is needed: without it the parser refuses. */
  lemma StringStreamIsNeeded(version: int, aliased: bool, seek: nat, h: DwgVars, into: DwgVars)
    requires version in VERSIONS
    ensures Parsed(version, aliased, seek, Encoded(version, aliased, false, h), into).Got? <==> version <= AC1018
    ensures version <= AC1018 ==> Encoded(version, aliased, false, h) == Encoded(version, aliased, true, h)
  {
    if version > AC1018 {
      BodyIsTooLittle(version, aliased, seek, h, into);
    } else {
      TextsMakeNoDifference(version);
      HeaderRoundTrip(version, aliased, seek, h, into);
    }
  }

  // ---------------------------------------------------------------------------------------------
  // The encoder and the parser

  lemma {:induction false} EmitAllNext(ps: seq<PutSlot<Var>>, f: Format<Var>, h: DwgVars, i: nat)
    requires i < |ps|
    ensures EmitAll(ps[..i + 1], f, h) == EmitAll(ps[..i], f, h) + Emit(ps[i], f, h)
    decreases i
  {
    if i == 0 {
      assert ps[..1] == [ps[0]] && ps[..1][1..] == [];
    } else {
      EmitAllNext(ps[1..], f, h, i - 1);
      assert ps[..i + 1][1..] == ps[1..][..i] && ps[..i][1..] == ps[1..][..i - 1];
    }
  }

  /** The caller's buffers: data, handles and strings; handles share the data buffer if it is the same one. */
  class TokenWriter {
    const aliased: bool
    var data: seq<Token>
    var handles: seq<Token>
    var strings: seq<Token>

    constructor (aliased: bool)
      ensures Contents() == NO_TOKENS && this.aliased == aliased
    {
      this.aliased := aliased;
      data, handles, strings := [], [], [];
    }

    function Contents(): Streams
      reads this
    {
      Streams(data, handles, strings)
    }

    method Put(e: Event)
      modifies this
      ensures Contents() == Append(old(Contents()), e, aliased)
    {
      match Route(e.stream, aliased)
      case Data => data := data + [e.token];
      case Handles => handles := handles + [e.token];
      case Strings => strings := strings + [e.token];
    }

    /** Puts the events in turn. */
    method PutEvents(es: seq<Event>, ghost before: seq<Event>)
      requires Contents() == Prefix(before, NO_TOKENS, aliased)
      modifies this
      ensures Contents() == Prefix(before + es, NO_TOKENS, aliased)
    {
      assert before + [] == before;
      for i := 0 to |es|
        invariant Contents() == Prefix(before + es[..i], NO_TOKENS, aliased)
      {
        PrefixAppend(before + es[..i], es[i], aliased);
        assert before + es[..i] + [es[i]] == before + es[..i + 1];
        Put(es[i]);
      }
      assert es[..|es|] == es;
    }

    /** The steps of a schedule, one after the other. */
    method PutSlots(ps: seq<PutSlot<Var>>, f: Format<Var>, h: DwgVars)
      requires Contents() == NO_TOKENS
      modifies this
      ensures Contents() == Prefix(EmitAll(ps, f, h), NO_TOKENS, aliased)
    {
      for i := 0 to |ps|
        invariant Contents() == Prefix(EmitAll(ps[..i], f, h), NO_TOKENS, aliased)
      {
        PutEvents(Emit(ps[i], f, h), EmitAll(ps[..i], f, h));
        EmitAllNext(ps, f, h, i);
      }
      assert ps[..|ps|] == ps;
    }
  }

  /** Refuses every version but the six; otherwise appends the whole schedule to the buffers. */
  method EncodeDwg(version: int, h: DwgVars, w: TokenWriter, hasStrings: bool) returns (ok: bool)
    requires w.Contents() == NO_TOKENS
    modifies w
    ensures ok <==> version in VERSIONS
    ensures w.Contents() == if ok then Encoded(version, w.aliased, hasStrings, h) else NO_TOKENS
  {
    if version !in VERSIONS {
      return false;
    }
    w.PutSlots(EncodeSchedule(version, hasStrings), FormatOf(version, w.aliased), h);
    return true;
  }

  /** The header object: its variables, table controls and handle seed. */
  class DwgHeader {
    var vars: map<Key<Var>, Value>
    var controls: map<Control, u32>
    var handSeed: u32

    constructor ()
      ensures View() == EMPTY
    {
      vars, controls, handSeed := map[], map[], 0;
    }

    function View(): DwgVars
      reads this
    {
      Header(vars, controls, handSeed)
    }

    /** One step: reads a slot and stores what it holds. */
    method Step(slot: GetSlot<Var>, f: Format<Var>, s: Streams) returns (rest: Option<Streams>)
      modifies this
      ensures Read(slot, f, s, old(View())) == if rest.Some? then Got(View(), rest.value) else Failed
    {
      match slot {
        case Get(kind, v) =>
          var got := ReadVar(kind, f, s);
          if got.Failed? {
            return None;
          }
          vars := vars[Bare(v) := got.value];
          return Some(got.rest);
        case Skip(kind) =>
          var popped := Pop(s, StreamOf(kind), f.aliased);
          return if popped.Ended? || !IsOfKind(kind, popped.token) then None else Some(popped.rest);
        case SkipReference =>
          var got := ReadReference(s, Handles, f.aliased);
          return if got.Failed? then None else Some(got.rest);
        case GetControl(c) =>
          var got := ReadReference(s, Handles, f.aliased);
          if got.Failed? {
            return None;
          }
          controls := controls[c := got.value];
          return Some(got.rest);
        case GetHandSeed =>
          var got := ReadReference(s, Data, f.aliased);
          if got.Failed? {
            return None;
          }
          handSeed := got.value;
          return Some(got.rest);
      }
    }

    /** The steps of a schedule, one after the other. */
    method ReadSlots(gs: seq<GetSlot<Var>>, f: Format<Var>, s: Streams) returns (rest: Option<Streams>)
      modifies this
      ensures ReadAll(gs, f, s, old(View())) == if rest.Some? then Got(View(), rest.value) else Failed
    {
      var unread := s;
      var i := 0;
      while i < |gs|
        invariant 0 <= i <= |gs|
        invariant ReadAll(gs[i..], f, unread, View()) == ReadAll(gs, f, s, old(View()))
      {
        assert gs[i..][1..] == gs[i + 1..];
        rest := Step(gs[i], f, unread);
        if rest.None? {
          return;
        }
        unread := rest.value;
        i := i + 1;
      }
      return Some(unread);
    }

    /** Variables are cleared first, and cleared again if anything cannot be read. */
    method ParseDwg(version: int, aliased: bool, seek: nat, s: Streams) returns (ok: bool)
      modifies this
      ensures var parsed := Parsed(version, aliased, seek, s, old(View()).(vars := map[]));
              && (ok <==> parsed.Got?) && (ok ==> View() == parsed.value)
      ensures !ok ==> vars == map[]
    {
      vars := map[];
      var start := Sought(version, aliased, seek, s);
      var rest := ReadSlots(ParseSchedule(version), FormatOf(version, aliased), start);
      ok := rest.Some?;
      if !ok {
        vars := map[];
      }
    }
  }
}
