/** The HEADER schedules: for every version what the encoder puts and what the parser gets, block by block,
    each written from its own routine, and their alignment. */
module HeaderSchedules {
  import opened Words
  import opened HeaderCodec
  import opened HeaderTimes

  const AC1015: int := 1015
  const AC1018: int := 1018
  const AC1021: int := 1021
  const AC1024: int := 1024
  const AC1027: int := 1027
  const AC1032: int := 1032

  const VERSIONS: set<int> := {AC1015, AC1018, AC1021, AC1024, AC1027, AC1032}

  // The header variables by name, grouped by how they are written. DWFPREC3D stands for the name that
  // begins with a digit.

  datatype BitName =
    | DIMASO | DIMSHO | PLINEGEN | ORTHOMODE | REGENMODE | FILLMODE | QTEXTMODE | PSLTSCALE | LIMCHECK | USRTIMER
    | SKPOLY | ANGDIR | SPLFRAME | MIRRTEXT | WORLDVIEW | TILEMODE | PLIMCHECK | VISRETAIN | DISPSILH | PELLIPSE
    | DIMTOL | DIMLIM | DIMTIH | DIMTOH | DIMSE1 | DIMSE2 | DIMALT | DIMTOFL | DIMSAH | DIMTIX | DIMSOXD | DIMSD1
    | DIMSD2 | DIMUPT | DIMFXLON | DIMTXTDIRECTION | CAMERADISPLAY

  datatype ShortName =
    | PROXIGRAPHICS | TREEDEPTH | LUNITS | LUPREC | AUNITS | AUPREC | ATTMODE | PDMODE | USERI1 | USERI2 | USERI3
    | USERI4 | USERI5 | SPLINESEGS | SURFU | SURFV | SURFTYPE | SURFTAB1 | SURFTAB2 | SPLINETYPE | SHADEDGE
    | SHADEDIF | UNITMODE | MAXACTVP | ISOLINES | CMLJUST | TEXTQLTY | PUCSORTHOVIEW | UCSORTHOVIEW | DIMTFILL
    | DIMTAD | DIMZIN | DIMAZIN | DIMARCSYM | DIMALTD | DIMADEC | DIMDEC | DIMTDEC | DIMALTU | DIMALTTD | DIMAUNIT
    | DIMFRAC | DIMLUNIT | DIMDSEP | DIMTMOVE | DIMJUST | DIMTOLJ | DIMTZIN | DIMALTZ | DIMALTTZ | DIMATFIT | DIMLWD
    | DIMLWE | TSTACKALIGN | TSTACKSIZE | INSUNITS | OBSCUREDCOLOR | INTERSECTIONCOLOR | LOFTPARAM

  datatype CharName =
    | SORTENTS | INDEXCTL | HIDETEXT | XCLIPFRAME | DIMASSOC | HALOGAP | OBSCUREDLTYPE | INTERSECTIONDISPLAY
    | SOLIDHIST | SHOWHIST | LOFTNORMALS | LIGHTGLYPHDISPLAY | TILEMODELIGHTSYNCH | DWFFRAME | DGNFRAME | CSHADOW

  datatype DoubleName =
    | LTSCALE | TEXTSIZE | TRACEWID | SKETCHINC | FILLETRAD | THICKNESS | ANGBASE | PDSIZE | PLINEWID | USERR1
    | USERR2 | USERR3 | USERR4 | USERR5 | CHAMFERA | CHAMFERB | CHAMFERC | CHAMFERD | FACETRES | CMLSCALE
    | CELTSCALE | PSVPSCALE | PELEVATION | ELEVATION | DIMSCALE | DIMASZ | DIMEXO | DIMDLI | DIMEXE | DIMRND
    | DIMDLE | DIMTP | DIMTM | DIMFXL | DIMJOGANG | DIMTXT | DIMCEN | DIMTSZ | DIMALTF | DIMLFAC | DIMTVP | DIMTFAC
    | DIMGAP | DIMALTRND | DIMALTMZF | DIMMZF | STEPSPERSEC | STEPSIZE | DWFPREC3D | LENSLENGTH | CAMERAHEIGHT
    | PSOLWIDTH | PSOLHEIGHT | LOFTANG1 | LOFTANG2 | LOFTMAG1 | LOFTMAG2 | LATITUDE | LONGITUDE | NORTHDIRECTION

  datatype TimeName =
    | TDCREATE | TDUPDATE | TDINDWG | TDUSRTIMER

  datatype ColorName =
    | CECOLOR | DIMTFILLCLR | DIMCLRD | DIMCLRE | DIMCLRT | INTERFERECOLOR

  datatype PointName =
    | PINSBASE | PEXTMIN | PEXTMAX | PUCSORG | PUCSXDIR | PUCSYDIR | PUCSORGTOP | PUCSORGBOTTOM | PUCSORGLEFT
    | PUCSORGRIGHT | PUCSORGFRONT | PUCSORGBACK | INSBASE | EXTMIN | EXTMAX | UCSORG | UCSXDIR | UCSYDIR | UCSORGTOP
    | UCSORGBOTTOM | UCSORGLEFT | UCSORGRIGHT | UCSORGFRONT | UCSORGBACK

  datatype LimitName =
    | PLIMMIN | PLIMMAX | LIMMIN | LIMMAX

  datatype TextName =
    | MENU | DIMPOST | DIMAPOST | HYPERLINKBASE | STYLESHEET | FINGERPRINTGUID | VERSIONGUID | PROJECTNAME
    | DIMALTMZS | DIMMZS

  datatype Var =
    | Flag(bit: BitName) | Count(short: ShortName) | Byte(byte: CharName) | Number(double: DoubleName)
    | Date(time: TimeName) | Colour(color: ColorName) | Place(point: PointName) | Limit(limit: LimitName)
    | Label(text: TextName) | PlotStyleType | TimeZone

  function KindOf(v: Var, version: int): Kind {
    match v
    case Flag(_) => Bit
    case Count(_) => Short
    case Byte(_) => RawChar
    case Number(_) => Double
    case Date(_) => Time
    case Colour(_) => Color
    case Place(_) => Point3
    case Limit(_) => Point2
    case Label(_) => if version > AC1018 then UcsText else Cp8Text
    case PlotStyleType => PlotStyle
    case TimeZone => Long
  }

  // What is written for a missing number.

  function DefaultShort(n: ShortName): i32 {
    match n
    case PROXIGRAPHICS | ATTMODE | DIMTOLJ | TSTACKALIGN => 1
    case TREEDEPTH => 3020
    case LUNITS | DIMALTD | DIMALTU | DIMALTTD | DIMLUNIT => 2
    case LUPREC | ISOLINES | DIMDEC | DIMTDEC => 4
    case SPLINESEGS => 8
    case SURFU | SURFV | SURFTYPE | SURFTAB1 | SURFTAB2 | SPLINETYPE => 6
    case SHADEDGE | DIMATFIT => 3
    case SHADEDIF | TSTACKSIZE => 70
    case MAXACTVP => 64
    case TEXTQLTY => 50
    case DIMDSEP => 46
    case DIMLWD | DIMLWE => -2
    case LOFTPARAM => 7
    case _ => 0
  }

  function DefaultChar(n: CharName): i32 {
    match n
    case SOLIDHIST | SHOWHIST | LOFTNORMALS | LIGHTGLYPHDISPLAY | TILEMODELIGHTSYNCH => 1
    case _ => 0
  }

  function DefaultColor(n: ColorName): i32 {
    match n
    case CECOLOR => 256
    case INTERFERECOLOR => 1
    case _ => 0
  }

  function DefaultDouble(n: DoubleName): real {
    match n
    case LTSCALE | TRACEWID | SKETCHINC | CMLSCALE | CELTSCALE | PSVPSCALE | DIMSCALE | DIMFXL | DIMLFAC | DIMTFAC
      | DIMALTMZF | DIMMZF => 1.0
    case TEXTSIZE => 2.5
    case FACETRES => 0.5
    case DIMASZ | DIMEXE | DIMTXT => 0.18
    case DIMEXO => 0.0625
    case DIMDLI => 0.38
    case DIMCEN | DIMGAP => 0.09
    case DIMALTF => 25.4
    case STEPSPERSEC | DWFPREC3D => 2.0
    case STEPSIZE => 6.0
    case LENSLENGTH => 50.0
    case PSOLWIDTH => 5.0
    case PSOLHEIGHT => 80.0
    case LOFTANG1 | LOFTANG2 => 1.5707963
    case LATITUDE => 37.7950
    case LONGITUDE => -122.394
    case _ => 0.0
  }

  function DefaultInt(v: Var): i32 {
    match v
    case Count(n) => DefaultShort(n)
    case Byte(n) => DefaultChar(n)
    case Colour(n) => DefaultColor(n)
    case TimeZone => -8000
    case _ => 0
  }

  function DefaultReal(v: Var): real {
    if v.Number? then DefaultDouble(v.double) else 0.0
  }

  function FormatOf(version: int, aliased: bool): Format<Var> {
    Format((v: Var) => KindOf(v, version), (v: Var) => DefaultInt(v), (v: Var) => DefaultReal(v),
           version >= AC1018, aliased)
  }

  // ---------------------------------------------------------------------------------------------
  // Runs of equal steps

  function When<T>(condition: bool, s: seq<T>): seq<T> {
    if condition then s else []
  }

  function PutBits(ns: seq<BitName>): seq<PutSlot<Var>> {
    seq(|ns|, i requires 0 <= i < |ns| => Put(Bit, Flag(ns[i])))
  }

  function GetBits(ns: seq<BitName>): seq<GetSlot<Var>> {
    seq(|ns|, i requires 0 <= i < |ns| => Get(Bit, Flag(ns[i])))
  }

  function PutShorts(ns: seq<ShortName>): seq<PutSlot<Var>> {
    seq(|ns|, i requires 0 <= i < |ns| => Put(Short, Count(ns[i])))
  }

  function GetShorts(ns: seq<ShortName>): seq<GetSlot<Var>> {
    seq(|ns|, i requires 0 <= i < |ns| => Get(Short, Count(ns[i])))
  }

  function PutChars(ns: seq<CharName>): seq<PutSlot<Var>> {
    seq(|ns|, i requires 0 <= i < |ns| => Put(RawChar, Byte(ns[i])))
  }

  function GetChars(ns: seq<CharName>): seq<GetSlot<Var>> {
    seq(|ns|, i requires 0 <= i < |ns| => Get(RawChar, Byte(ns[i])))
  }

  function PutDoubles(ns: seq<DoubleName>): seq<PutSlot<Var>> {
    seq(|ns|, i requires 0 <= i < |ns| => Put(Double, Number(ns[i])))
  }

  function GetDoubles(ns: seq<DoubleName>): seq<GetSlot<Var>> {
    seq(|ns|, i requires 0 <= i < |ns| => Get(Double, Number(ns[i])))
  }

  function PutTimes(ns: seq<TimeName>): seq<PutSlot<Var>> {
    seq(|ns|, i requires 0 <= i < |ns| => Put(Time, Date(ns[i])))
  }

  function GetTimes(ns: seq<TimeName>): seq<GetSlot<Var>> {
    seq(|ns|, i requires 0 <= i < |ns| => Get(Time, Date(ns[i])))
  }

  function PutColors(ns: seq<ColorName>): seq<PutSlot<Var>> {
    seq(|ns|, i requires 0 <= i < |ns| => Put(Color, Colour(ns[i])))
  }

  function GetColors(ns: seq<ColorName>): seq<GetSlot<Var>> {
    seq(|ns|, i requires 0 <= i < |ns| => Get(Color, Colour(ns[i])))
  }

  function PutPoints(ns: seq<PointName>): seq<PutSlot<Var>> {
    seq(|ns|, i requires 0 <= i < |ns| => Put(Point3, Place(ns[i])))
  }

  function GetPoints(ns: seq<PointName>): seq<GetSlot<Var>> {
    seq(|ns|, i requires 0 <= i < |ns| => Get(Point3, Place(ns[i])))
  }

  function PutLimits(ns: seq<LimitName>): seq<PutSlot<Var>> {
    seq(|ns|, i requires 0 <= i < |ns| => Put(Point2, Limit(ns[i])))
  }

  function GetLimits(ns: seq<LimitName>): seq<GetSlot<Var>> {
    seq(|ns|, i requires 0 <= i < |ns| => Get(Point2, Limit(ns[i])))
  }

  function PutInlineTexts(ns: seq<TextName>): seq<PutSlot<Var>> {
    seq(|ns|, i requires 0 <= i < |ns| => Put(Cp8Text, Label(ns[i])))
  }

  function GetInlineTexts(ns: seq<TextName>): seq<GetSlot<Var>> {
    seq(|ns|, i requires 0 <= i < |ns| => Get(Cp8Text, Label(ns[i])))
  }

  function PutStreamTexts(ns: seq<TextName>): seq<PutSlot<Var>> {
    seq(|ns|, i requires 0 <= i < |ns| => Put(UcsText, Label(ns[i])))
  }

  function GetStreamTexts(ns: seq<TextName>): seq<GetSlot<Var>> {
    seq(|ns|, i requires 0 <= i < |ns| => Get(UcsText, Label(ns[i])))
  }

  function PutReferences(refs: seq<u32>): seq<PutSlot<Var>> {
    seq(|refs|, i requires 0 <= i < |refs| => PutReference(refs[i]))
  }

  function SkipReferences(n: nat): seq<GetSlot<Var>> {
    seq(n, i requires 0 <= i < n => SkipReference)
  }

  function PutControls(cs: seq<Control>): seq<PutSlot<Var>> {
    seq(|cs|, i requires 0 <= i < |cs| => PutControl(cs[i]))
  }

  function GetControls(cs: seq<Control>): seq<GetSlot<Var>> {
    seq(|cs|, i requires 0 <= i < |cs| => GetControl(cs[i]))
  }

  // ---------------------------------------------------------------------------------------------
  // The blocks

  function PutPreamble(version: int): seq<seq<PutSlot<Var>>> {
    [
      When(version > AC1024, [PutConstant(Data, LongLongToken(0))]),
      [PutConstant(Data, DoubleToken(0.0)), PutConstant(Data, DoubleToken(0.0)), PutConstant(Data, DoubleToken(0.0)),
        PutConstant(Data, DoubleToken(0.0))],
      When(version < AC1021, [PutConstant(Data, TextToken("")), PutConstant(Data, TextToken("")),
        PutConstant(Data, TextToken("")), PutConstant(Data, TextToken(""))]),
      [PutConstant(Data, LongToken(24)), PutConstant(Data, LongToken(0))],
      When(version < AC1018, PutReferences([0]))
    ]
  }

  function GetPreamble(version: int): seq<seq<GetSlot<Var>>> {
    [
      When(version > AC1024, [Skip(LongLong)]),
      [Skip(Double), Skip(Double), Skip(Double), Skip(Double)],
      When(version < AC1021, [Skip(Cp8Text), Skip(Cp8Text), Skip(Cp8Text), Skip(Cp8Text)]),
      [Skip(Long), Skip(Long)],
      When(version < AC1018, SkipReferences(1))
    ]
  }

  function PutModes(version: int): seq<seq<PutSlot<Var>>> {
    [
      PutBits([DIMASO, DIMSHO, PLINEGEN, ORTHOMODE, REGENMODE, FILLMODE, QTEXTMODE, PSLTSCALE, LIMCHECK]),
      When(version > AC1015, [PutConstant(Data, BitToken(0))]),
      PutBits([USRTIMER, SKPOLY, ANGDIR, SPLFRAME, MIRRTEXT, WORLDVIEW, TILEMODE, PLIMCHECK, VISRETAIN, DISPSILH,
        PELLIPSE])
    ]
  }

  function GetModes(version: int): seq<seq<GetSlot<Var>>> {
    [
      GetBits([DIMASO, DIMSHO, PLINEGEN, ORTHOMODE, REGENMODE, FILLMODE, QTEXTMODE, PSLTSCALE, LIMCHECK]),
      When(version > AC1015, [Skip(Bit)]),
      GetBits([USRTIMER, SKPOLY, ANGDIR, SPLFRAME, MIRRTEXT, WORLDVIEW, TILEMODE, PLIMCHECK, VISRETAIN, DISPSILH,
        PELLIPSE])
    ]
  }

  function PutCounts(version: int): seq<seq<PutSlot<Var>>> {
    [
      PutShorts([PROXIGRAPHICS, TREEDEPTH, LUNITS, LUPREC, AUNITS, AUPREC, ATTMODE, PDMODE]),
      When(version > AC1015, [PutConstant(Data, LongToken(0)), PutConstant(Data, LongToken(0)),
        PutConstant(Data, LongToken(0))]),
      PutShorts([USERI1, USERI2, USERI3, USERI4, USERI5, SPLINESEGS, SURFU, SURFV, SURFTYPE, SURFTAB1, SURFTAB2,
        SPLINETYPE, SHADEDGE, SHADEDIF, UNITMODE, MAXACTVP, ISOLINES, CMLJUST, TEXTQLTY])
    ]
  }

  function GetCounts(version: int): seq<seq<GetSlot<Var>>> {
    [
      GetShorts([PROXIGRAPHICS, TREEDEPTH, LUNITS, LUPREC, AUNITS, AUPREC, ATTMODE, PDMODE]),
      When(version > AC1015, [Skip(Long), Skip(Long), Skip(Long)]),
      GetShorts([USERI1, USERI2, USERI3, USERI4, USERI5, SPLINESEGS, SURFU, SURFV, SURFTYPE, SURFTAB1, SURFTAB2,
        SPLINETYPE, SHADEDGE, SHADEDIF, UNITMODE, MAXACTVP, ISOLINES, CMLJUST, TEXTQLTY])
    ]
  }

  function PutScales(version: int): seq<seq<PutSlot<Var>>> {
    [
      PutDoubles([LTSCALE, TEXTSIZE, TRACEWID, SKETCHINC, FILLETRAD, THICKNESS, ANGBASE, PDSIZE, PLINEWID, USERR1,
        USERR2, USERR3, USERR4, USERR5, CHAMFERA, CHAMFERB, CHAMFERC, CHAMFERD, FACETRES, CMLSCALE, CELTSCALE]),
      When(version < AC1021, PutInlineTexts([MENU]))
    ]
  }

  function GetScales(version: int): seq<seq<GetSlot<Var>>> {
    [
      GetDoubles([LTSCALE, TEXTSIZE, TRACEWID, SKETCHINC, FILLETRAD, THICKNESS, ANGBASE, PDSIZE, PLINEWID, USERR1,
        USERR2, USERR3, USERR4, USERR5, CHAMFERA, CHAMFERB, CHAMFERC, CHAMFERD, FACETRES, CMLSCALE, CELTSCALE]),
      When(version < AC1021, GetInlineTexts([MENU]))
    ]
  }

  function PutDates(version: int): seq<seq<PutSlot<Var>>> {
    [
      PutTimes([TDCREATE, TDUPDATE]),
      When(version > AC1015, [PutConstant(Data, LongToken(0)), PutConstant(Data, LongToken(0)),
        PutConstant(Data, LongToken(0))]),
      PutTimes([TDINDWG, TDUSRTIMER]),
      PutColors([CECOLOR]),
      [PutHandSeed],
      PutReferences([0, 0, 0]),
      When(version > AC1018, PutReferences([0])),
      PutReferences([0, 0])
    ]
  }

  function GetDates(version: int): seq<seq<GetSlot<Var>>> {
    [
      GetTimes([TDCREATE, TDUPDATE]),
      When(version > AC1015, [Skip(Long), Skip(Long), Skip(Long)]),
      GetTimes([TDINDWG, TDUSRTIMER]),
      GetColors([CECOLOR]),
      [GetHandSeed],
      SkipReferences(3),
      When(version > AC1018, SkipReferences(1)),
      SkipReferences(2)
    ]
  }

  function PutPaperView(version: int): seq<seq<PutSlot<Var>>> {
    [
      PutDoubles([PSVPSCALE]),
      PutPoints([PINSBASE, PEXTMIN, PEXTMAX]),
      PutLimits([PLIMMIN, PLIMMAX]),
      PutDoubles([PELEVATION]),
      PutPoints([PUCSORG, PUCSXDIR, PUCSYDIR]),
      PutReferences([0, 0]),
      PutShorts([PUCSORTHOVIEW]),
      PutReferences([0]),
      PutPoints([PUCSORGTOP, PUCSORGBOTTOM, PUCSORGLEFT, PUCSORGRIGHT, PUCSORGFRONT, PUCSORGBACK])
    ]
  }

  function GetPaperView(version: int): seq<seq<GetSlot<Var>>> {
    [
      GetDoubles([PSVPSCALE]),
      GetPoints([PINSBASE, PEXTMIN, PEXTMAX]),
      GetLimits([PLIMMIN, PLIMMAX]),
      GetDoubles([PELEVATION]),
      GetPoints([PUCSORG, PUCSXDIR, PUCSYDIR]),
      SkipReferences(2),
      GetShorts([PUCSORTHOVIEW]),
      SkipReferences(1),
      GetPoints([PUCSORGTOP, PUCSORGBOTTOM, PUCSORGLEFT, PUCSORGRIGHT, PUCSORGFRONT, PUCSORGBACK])
    ]
  }

  function PutModelView(version: int): seq<seq<PutSlot<Var>>> {
    [
      PutPoints([INSBASE, EXTMIN, EXTMAX]),
      PutLimits([LIMMIN, LIMMAX]),
      PutDoubles([ELEVATION]),
      PutPoints([UCSORG, UCSXDIR, UCSYDIR]),
      PutReferences([0, 0]),
      PutShorts([UCSORTHOVIEW]),
      PutReferences([0]),
      PutPoints([UCSORGTOP, UCSORGBOTTOM, UCSORGLEFT, UCSORGRIGHT, UCSORGFRONT, UCSORGBACK]),
      When(version < AC1021, PutInlineTexts([DIMPOST, DIMAPOST]))
    ]
  }

  function GetModelView(version: int): seq<seq<GetSlot<Var>>> {
    [
      GetPoints([INSBASE, EXTMIN, EXTMAX]),
      GetLimits([LIMMIN, LIMMAX]),
      GetDoubles([ELEVATION]),
      GetPoints([UCSORG, UCSXDIR, UCSYDIR]),
      SkipReferences(2),
      GetShorts([UCSORTHOVIEW]),
      SkipReferences(1),
      GetPoints([UCSORGTOP, UCSORGBOTTOM, UCSORGLEFT, UCSORGRIGHT, UCSORGFRONT, UCSORGBACK]),
      When(version < AC1021, GetInlineTexts([DIMPOST, DIMAPOST]))
    ]
  }

  function PutDimensionSizes(version: int): seq<seq<PutSlot<Var>>> {
    [
      PutDoubles([DIMSCALE, DIMASZ, DIMEXO, DIMDLI, DIMEXE, DIMRND, DIMDLE, DIMTP, DIMTM]),
      When(version > AC1018, PutDoubles([DIMFXL, DIMJOGANG])),
      When(version > AC1018, PutShorts([DIMTFILL])),
      When(version > AC1018, PutColors([DIMTFILLCLR])),
      PutBits([DIMTOL, DIMLIM, DIMTIH, DIMTOH, DIMSE1, DIMSE2]),
      PutShorts([DIMTAD, DIMZIN, DIMAZIN]),
      When(version > AC1018, PutShorts([DIMARCSYM])),
      PutDoubles([DIMTXT, DIMCEN, DIMTSZ, DIMALTF, DIMLFAC, DIMTVP, DIMTFAC, DIMGAP])
    ]
  }

  function GetDimensionSizes(version: int): seq<seq<GetSlot<Var>>> {
    [
      GetDoubles([DIMSCALE, DIMASZ, DIMEXO, DIMDLI, DIMEXE, DIMRND, DIMDLE, DIMTP, DIMTM]),
      When(version > AC1018, GetDoubles([DIMFXL, DIMJOGANG])),
      When(version > AC1018, GetShorts([DIMTFILL])),
      When(version > AC1018, GetColors([DIMTFILLCLR])),
      GetBits([DIMTOL, DIMLIM, DIMTIH, DIMTOH, DIMSE1, DIMSE2]),
      GetShorts([DIMTAD, DIMZIN, DIMAZIN]),
      When(version > AC1018, GetShorts([DIMARCSYM])),
      GetDoubles([DIMTXT, DIMCEN, DIMTSZ, DIMALTF, DIMLFAC, DIMTVP, DIMTFAC, DIMGAP])
    ]
  }

  function PutDimensionFormats(version: int): seq<seq<PutSlot<Var>>> {
    [
      PutDoubles([DIMALTRND]),
      PutBits([DIMALT]),
      PutShorts([DIMALTD]),
      PutBits([DIMTOFL, DIMSAH, DIMTIX, DIMSOXD]),
      PutColors([DIMCLRD, DIMCLRE, DIMCLRT]),
      PutShorts([DIMADEC, DIMDEC, DIMTDEC, DIMALTU, DIMALTTD, DIMAUNIT, DIMFRAC, DIMLUNIT, DIMDSEP, DIMTMOVE,
        DIMJUST]),
      PutBits([DIMSD1, DIMSD2]),
      PutShorts([DIMTOLJ, DIMTZIN, DIMALTZ, DIMALTTZ]),
      PutBits([DIMUPT]),
      PutShorts([DIMATFIT]),
      When(version > AC1018, PutBits([DIMFXLON])),
      When(version > AC1021, PutBits([DIMTXTDIRECTION])),
      When(version > AC1021, PutDoubles([DIMALTMZF, DIMMZF]))
    ]
  }

  function GetDimensionFormats(version: int): seq<seq<GetSlot<Var>>> {
    [
      GetDoubles([DIMALTRND]),
      GetBits([DIMALT]),
      GetShorts([DIMALTD]),
      GetBits([DIMTOFL, DIMSAH, DIMTIX, DIMSOXD]),
      GetColors([DIMCLRD, DIMCLRE, DIMCLRT]),
      GetShorts([DIMADEC, DIMDEC, DIMTDEC, DIMALTU, DIMALTTD, DIMAUNIT, DIMFRAC, DIMLUNIT, DIMDSEP, DIMTMOVE,
        DIMJUST]),
      GetBits([DIMSD1, DIMSD2]),
      GetShorts([DIMTOLJ, DIMTZIN, DIMALTZ, DIMALTTZ]),
      GetBits([DIMUPT]),
      GetShorts([DIMATFIT]),
      When(version > AC1018, GetBits([DIMFXLON])),
      When(version > AC1021, GetBits([DIMTXTDIRECTION])),
      When(version > AC1021, GetDoubles([DIMALTMZF, DIMMZF]))
    ]
  }

  function PutDimensionStyles(version: int): seq<seq<PutSlot<Var>>> {
    [
      PutReferences([0, 0, 0, 0, 0]),
      When(version > AC1018, PutReferences([0, 0, 0])),
      PutShorts([DIMLWD, DIMLWE])
    ]
  }

  function GetDimensionStyles(version: int): seq<seq<GetSlot<Var>>> {
    [
      SkipReferences(5),
      When(version > AC1018, SkipReferences(3)),
      GetShorts([DIMLWD, DIMLWE])
    ]
  }

  function PutTableControls(version: int): seq<seq<PutSlot<Var>>> {
    [
      PutControls([BlockControl, LayerControl, StyleControl, LinetypeControl, ViewControl, UcsControl, VportControl,
        AppidControl, DimstyleControl]),
      When(version < AC1018, PutControls([ViewportEntityControl])),
      PutReferences([0, 0, 0])
    ]
  }

  function GetTableControls(version: int): seq<seq<GetSlot<Var>>> {
    [
      GetControls([BlockControl, LayerControl, StyleControl, LinetypeControl, ViewControl, UcsControl, VportControl,
        AppidControl, DimstyleControl]),
      When(version < AC1018, GetControls([ViewportEntityControl])),
      SkipReferences(3)
    ]
  }

  function PutDictionaries(version: int): seq<seq<PutSlot<Var>>> {
    [
      PutShorts([TSTACKALIGN, TSTACKSIZE]),
      When(version < AC1021, PutInlineTexts([HYPERLINKBASE, STYLESHEET])),
      PutReferences([0, 0, 0]),
      When(version > AC1015, PutReferences([0, 0])),
      When(version > AC1018, PutReferences([0])),
      When(version > AC1024, PutReferences([0]))
    ]
  }

  function GetDictionaries(version: int): seq<seq<GetSlot<Var>>> {
    [
      GetShorts([TSTACKALIGN, TSTACKSIZE]),
      When(version < AC1021, GetInlineTexts([HYPERLINKBASE, STYLESHEET])),
      SkipReferences(3),
      When(version > AC1015, SkipReferences(2)),
      When(version > AC1018, SkipReferences(1)),
      When(version > AC1024, SkipReferences(1))
    ]
  }

  function PutIdentity(version: int): seq<seq<PutSlot<Var>>> {
    [
      [PutConstant(Data, LongToken(0))],
      PutShorts([INSUNITS]),
      [Put(PlotStyle, PlotStyleType)],
      When(version < AC1021, PutInlineTexts([FINGERPRINTGUID, VERSIONGUID])),
      When(version > AC1015, PutChars([SORTENTS, INDEXCTL, HIDETEXT, XCLIPFRAME, DIMASSOC, HALOGAP])),
      When(version > AC1015, PutShorts([OBSCUREDCOLOR, INTERSECTIONCOLOR])),
      When(version > AC1015, PutChars([OBSCUREDLTYPE, INTERSECTIONDISPLAY])),
      When(version > AC1015 && version < AC1021, PutInlineTexts([PROJECTNAME]))
    ]
  }

  function GetIdentity(version: int): seq<seq<GetSlot<Var>>> {
    [
      [Skip(Long)],
      GetShorts([INSUNITS]),
      [Get(PlotStyle, PlotStyleType)],
      When(version < AC1021, GetInlineTexts([FINGERPRINTGUID, VERSIONGUID])),
      When(version > AC1015, GetChars([SORTENTS, INDEXCTL, HIDETEXT, XCLIPFRAME, DIMASSOC, HALOGAP])),
      When(version > AC1015, GetShorts([OBSCUREDCOLOR, INTERSECTIONCOLOR])),
      When(version > AC1015, GetChars([OBSCUREDLTYPE, INTERSECTIONDISPLAY])),
      When(version > AC1015 && version < AC1021, GetInlineTexts([PROJECTNAME]))
    ]
  }

  function PutEnvironment(version: int): seq<seq<PutSlot<Var>>> {
    [
      PutReferences([0x18, 0x17, 0x10, 0x0F, 0x11]),
      When(version > AC1018, PutBits([CAMERADISPLAY])),
      When(version > AC1018, [PutConstant(Data, LongToken(0)), PutConstant(Data, LongToken(0)),
        PutConstant(Data, DoubleToken(0.0))]),
      When(version > AC1018, PutDoubles([STEPSPERSEC, STEPSIZE, DWFPREC3D, LENSLENGTH, CAMERAHEIGHT])),
      When(version > AC1018, PutChars([SOLIDHIST, SHOWHIST])),
      When(version > AC1018, PutDoubles([PSOLWIDTH, PSOLHEIGHT, LOFTANG1, LOFTANG2, LOFTMAG1, LOFTMAG2])),
      When(version > AC1018, PutShorts([LOFTPARAM])),
      When(version > AC1018, PutChars([LOFTNORMALS]))
    ]
  }

  function GetEnvironment(version: int): seq<seq<GetSlot<Var>>> {
    [
      SkipReferences(5),
      When(version > AC1018, GetBits([CAMERADISPLAY])),
      When(version > AC1018, [Skip(Long), Skip(Long), Skip(Double)]),
      When(version > AC1018, GetDoubles([STEPSPERSEC, STEPSIZE, DWFPREC3D, LENSLENGTH, CAMERAHEIGHT])),
      When(version > AC1018, GetChars([SOLIDHIST, SHOWHIST])),
      When(version > AC1018, GetDoubles([PSOLWIDTH, PSOLHEIGHT, LOFTANG1, LOFTANG2, LOFTMAG1, LOFTMAG2])),
      When(version > AC1018, GetShorts([LOFTPARAM])),
      When(version > AC1018, GetChars([LOFTNORMALS]))
    ]
  }

  function PutEffects(version: int): seq<seq<PutSlot<Var>>> {
    [
      When(version > AC1018, PutDoubles([LATITUDE, LONGITUDE, NORTHDIRECTION])),
      When(version > AC1018, [Put(Long, TimeZone)]),
      When(version > AC1018, PutChars([LIGHTGLYPHDISPLAY, TILEMODELIGHTSYNCH, DWFFRAME, DGNFRAME])),
      When(version > AC1018, [PutConstant(Data, BitToken(0))]),
      When(version > AC1018, PutColors([INTERFERECOLOR])),
      When(version > AC1018, PutReferences([0, 0, 0])),
      When(version > AC1018, PutChars([CSHADOW])),
      When(version > AC1018, [PutConstant(Data, DoubleToken(0.0))]),
      [PutConstant(Data, ShortToken(0)), PutConstant(Data, ShortToken(0)), PutConstant(Data, ShortToken(0)),
        PutConstant(Data, ShortToken(0))]
    ]
  }

  function GetEffects(version: int): seq<seq<GetSlot<Var>>> {
    [
      When(version > AC1018, GetDoubles([LATITUDE, LONGITUDE, NORTHDIRECTION])),
      When(version > AC1018, [Get(Long, TimeZone)]),
      When(version > AC1018, GetChars([LIGHTGLYPHDISPLAY, TILEMODELIGHTSYNCH, DWFFRAME, DGNFRAME])),
      When(version > AC1018, [Skip(Bit)]),
      When(version > AC1018, GetColors([INTERFERECOLOR])),
      When(version > AC1018, SkipReferences(3)),
      When(version > AC1018, GetChars([CSHADOW])),
      When(version > AC1018, [Skip(Double)]),
      [Skip(Short), Skip(Short), Skip(Short), Skip(Short)]
    ]
  }

  function PutTexts(version: int): seq<seq<PutSlot<Var>>> {
    [
      When(version > AC1018, [PutConstant(Strings, TextToken("")), PutConstant(Strings, TextToken("")),
        PutConstant(Strings, TextToken("")), PutConstant(Strings, TextToken(""))]),
      When(version > AC1018, PutStreamTexts([MENU, DIMPOST, DIMAPOST])),
      When(version > AC1021, PutStreamTexts([DIMALTMZS, DIMMZS])),
      When(version > AC1018, PutStreamTexts([HYPERLINKBASE, STYLESHEET, FINGERPRINTGUID, VERSIONGUID, PROJECTNAME]))
    ]
  }

  function GetTexts(version: int): seq<seq<GetSlot<Var>>> {
    [
      When(version > AC1018, [Skip(UcsText), Skip(UcsText), Skip(UcsText), Skip(UcsText)]),
      When(version > AC1018, GetStreamTexts([MENU, DIMPOST, DIMAPOST])),
      When(version > AC1021, GetStreamTexts([DIMALTMZS, DIMMZS])),
      When(version > AC1018, GetStreamTexts([HYPERLINKBASE, STYLESHEET, FINGERPRINTGUID, VERSIONGUID, PROJECTNAME]))
    ]
  }

  // ---------------------------------------------------------------------------------------------
  // Alignment, block by block

  ghost predicate PartsAligned(pp: seq<seq<PutSlot<Var>>>, gg: seq<seq<GetSlot<Var>>>, f: Format<Var>) {
    |pp| == |gg| && forall k :: 0 <= k < |pp| ==> Aligned(pp[k], gg[k], f)
  }

  /** The format writes each variable as the table says. */
  ghost predicate Uses(f: Format<Var>, version: int) {
    forall v {:trigger f.kind(v)} :: f.kind(v) == KindOf(v, version)
  }

  // Runs over the same names are aligned.

  ghost predicate NumbersAlign(f: Format<Var>) {
    && (forall ns :: Aligned(PutBits(ns), GetBits(ns), f))
    && (forall ns :: Aligned(PutShorts(ns), GetShorts(ns), f))
    && (forall ns :: Aligned(PutChars(ns), GetChars(ns), f))
    && (forall ns :: Aligned(PutDoubles(ns), GetDoubles(ns), f))
    && (forall ns :: Aligned(PutTimes(ns), GetTimes(ns), f))
  }

  ghost predicate OthersAlign(f: Format<Var>, version: int) {
    && (forall ns :: Aligned(PutColors(ns), GetColors(ns), f))
    && (forall ns :: Aligned(PutPoints(ns), GetPoints(ns), f))
    && (forall ns :: Aligned(PutLimits(ns), GetLimits(ns), f))
    && (forall ns :: version <= AC1018 ==> Aligned(PutInlineTexts(ns), GetInlineTexts(ns), f))
    && (forall ns :: version > AC1018 ==> Aligned(PutStreamTexts(ns), GetStreamTexts(ns), f))
    && (forall refs, n :: |refs| == n ==> Aligned(PutReferences(refs), SkipReferences(n), f))
    && (forall cs :: Aligned(PutControls(cs), GetControls(cs), f))
  }

  lemma NumberRunsAlign(f: Format<Var>, version: int)
    requires Uses(f, version)
    ensures NumbersAlign(f)
  {
  }

  lemma OtherRunsAlign(f: Format<Var>, version: int)
    requires Uses(f, version)
    ensures OthersAlign(f, version)
  {
  }

  lemma PreambleAlign(version: int, f: Format<Var>)
    requires Uses(f, version) && version in VERSIONS && NumbersAlign(f) && OthersAlign(f, version)
    ensures PartsAligned(PutPreamble(version), GetPreamble(version), f)
  {
  }

  lemma ModesAlign(version: int, f: Format<Var>)
    requires Uses(f, version) && version in VERSIONS && NumbersAlign(f) && OthersAlign(f, version)
    ensures PartsAligned(PutModes(version), GetModes(version), f)
  {
  }

  lemma CountsAlign(version: int, f: Format<Var>)
    requires Uses(f, version) && version in VERSIONS && NumbersAlign(f) && OthersAlign(f, version)
    ensures PartsAligned(PutCounts(version), GetCounts(version), f)
  {
  }

  lemma ScalesAlign(version: int, f: Format<Var>)
    requires Uses(f, version) && version in VERSIONS && NumbersAlign(f) && OthersAlign(f, version)
    ensures PartsAligned(PutScales(version), GetScales(version), f)
  {
  }

  lemma DatesAlign(version: int, f: Format<Var>)
    requires Uses(f, version) && version in VERSIONS && NumbersAlign(f) && OthersAlign(f, version)
    ensures PartsAligned(PutDates(version), GetDates(version), f)
  {
  }

  lemma PaperViewAlign(version: int, f: Format<Var>)
    requires Uses(f, version) && version in VERSIONS && NumbersAlign(f) && OthersAlign(f, version)
    ensures PartsAligned(PutPaperView(version), GetPaperView(version), f)
  {
  }

  lemma ModelViewAlign(version: int, f: Format<Var>)
    requires Uses(f, version) && version in VERSIONS && NumbersAlign(f) && OthersAlign(f, version)
    ensures PartsAligned(PutModelView(version), GetModelView(version), f)
  {
  }

  lemma DimensionSizesAlign(version: int, f: Format<Var>)
    requires Uses(f, version) && version in VERSIONS && NumbersAlign(f) && OthersAlign(f, version)
    ensures PartsAligned(PutDimensionSizes(version), GetDimensionSizes(version), f)
  {
  }

  lemma DimensionFormatsAlign(version: int, f: Format<Var>)
    requires Uses(f, version) && version in VERSIONS && NumbersAlign(f) && OthersAlign(f, version)
    ensures PartsAligned(PutDimensionFormats(version), GetDimensionFormats(version), f)
  {
  }

  lemma DimensionStylesAlign(version: int, f: Format<Var>)
    requires Uses(f, version) && version in VERSIONS && NumbersAlign(f) && OthersAlign(f, version)
    ensures PartsAligned(PutDimensionStyles(version), GetDimensionStyles(version), f)
  {
  }

  lemma TableControlsAlign(version: int, f: Format<Var>)
    requires Uses(f, version) && version in VERSIONS && NumbersAlign(f) && OthersAlign(f, version)
    ensures PartsAligned(PutTableControls(version), GetTableControls(version), f)
  {
  }

  lemma DictionariesAlign(version: int, f: Format<Var>)
    requires Uses(f, version) && version in VERSIONS && NumbersAlign(f) && OthersAlign(f, version)
    ensures PartsAligned(PutDictionaries(version), GetDictionaries(version), f)
  {
  }

  lemma IdentityAlign(version: int, f: Format<Var>)
    requires Uses(f, version) && version in VERSIONS && NumbersAlign(f) && OthersAlign(f, version)
    ensures PartsAligned(PutIdentity(version), GetIdentity(version), f)
  {
    assert f.kind(PlotStyleType) == PlotStyle;
  }

  lemma EnvironmentAlign(version: int, f: Format<Var>)
    requires Uses(f, version) && version in VERSIONS && NumbersAlign(f) && OthersAlign(f, version)
    ensures PartsAligned(PutEnvironment(version), GetEnvironment(version), f)
  {
  }

  lemma EffectsAlign(version: int, f: Format<Var>)
    requires Uses(f, version) && version in VERSIONS && NumbersAlign(f) && OthersAlign(f, version)
    ensures PartsAligned(PutEffects(version), GetEffects(version), f)
  {
    assert f.kind(TimeZone) == Long;
  }

  lemma TextsAlign(version: int, f: Format<Var>)
    requires Uses(f, version) && version in VERSIONS && NumbersAlign(f) && OthersAlign(f, version)
    ensures PartsAligned(PutTexts(version), GetTexts(version), f)
  {
  }
}
