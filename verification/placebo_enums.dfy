/** The closed enumerations the tone-mapping options draw from. Each integer
    enumeration has its code, the list of its members in declaration order
    (Python's iteration order), and the lookup by code (`PlaceboColorSpace(n)`),
    which raises `ValueError` for a code outside the enumeration and is
    modelled with `None`. */
module PlaceboEnums {
  import opened Wrappers
  import opened AssocList

  /** `PlaceboColorSpace`: the colour space of a clip. */
  datatype ColorSpace = SDR | HDR10 | HLG | DOVI {

    /** The IntEnum value; it is the member's position in declaration order. */
    function Code(): (n: nat)
      ensures n < |AllColorSpaces| && AllColorSpaces[n] == this
    {
      match this
      case SDR => 0
      case HDR10 => 1
      case HLG => 2
      case DOVI => 3
    }
  }

  const AllColorSpaces: seq<ColorSpace> := [SDR, HDR10, HLG, DOVI]

  /** `PlaceboColorSpace(n)`: defined exactly on the codes 0..3, and the
      inverse of `Code`. */
  function ColorSpaceOf(n: int): (r: Option<ColorSpace>)
    ensures r.Some? <==> 0 <= n < 4
    ensures forall c: ColorSpace :: c.Code() == n <==> r == Some(c)
  {
    if 0 <= n < |AllColorSpaces| then Some(AllColorSpaces[n]) else None
  }

  /** `PlaceboTonemapFunction`: the luma tone-mapping curve, by number. */
  datatype TonemapFunction =
    | Auto | Clip | ST2094_40 | ST2094_10 | BT2390 | BT2446a
    | Spline | Reinhard | Mobius | Hable | Gamma | Linear
  {
    /** The IntEnum value; it is the member's position in declaration order. */
    function Code(): (n: nat)
      ensures n < |AllTonemapFunctions| && AllTonemapFunctions[n] == this
    {
      match this
      case Auto => 0
      case Clip => 1
      case ST2094_40 => 2
      case ST2094_10 => 3
      case BT2390 => 4
      case BT2446a => 5
      case Spline => 6
      case Reinhard => 7
      case Mobius => 8
      case Hable => 9
      case Gamma => 10
      case Linear => 11
    }

    /** The Python member name. */
    function MemberName(): string
    {
      match this
      case Auto => "Auto"
      case Clip => "Clip"
      case ST2094_40 => "ST2094_40"
      case ST2094_10 => "ST2094_10"
      case BT2390 => "BT2390"
      case BT2446a => "BT2446a"
      case Spline => "Spline"
      case Reinhard => "Reinhard"
      case Mobius => "Mobius"
      case Hable => "Hable"
      case Gamma => "Gamma"
      case Linear => "Linear"
    }
  }

  const AllTonemapFunctions: seq<TonemapFunction> :=
    [Auto, Clip, ST2094_40, ST2094_10, BT2390, BT2446a,
     Spline, Reinhard, Mobius, Hable, Gamma, Linear]

  /** `PlaceboTonemapFunction(n)`: defined exactly on the codes 0..11, and the
      inverse of `Code`. */
  function TonemapFunctionOf(n: int): (r: Option<TonemapFunction>)
    ensures r.Some? <==> 0 <= n < 12
    ensures forall f: TonemapFunction :: f.Code() == n <==> r == Some(f)
  {
    if 0 <= n < |AllTonemapFunctions| then Some(AllTonemapFunctions[n]) else None
  }

  /** `PlaceboTonemapFunctionName`: the same curves, by the string name the
      filter also accepts. */
  datatype TonemapFunctionName =
    | AutoName | ClipName | ST2094_40Name | ST2094_10Name | BT2390Name | BT2446aName
    | SplineName | ReinhardName | MobiusName | HableName | GammaName | LinearName
  {
    /** The member's position in declaration order (Python's iteration order). */
    function Ordinal(): (n: nat)
      ensures n < |AllTonemapFunctionNames| && AllTonemapFunctionNames[n] == this
    {
      match this
      case AutoName => 0
      case ClipName => 1
      case ST2094_40Name => 2
      case ST2094_10Name => 3
      case BT2390Name => 4
      case BT2446aName => 5
      case SplineName => 6
      case ReinhardName => 7
      case MobiusName => 8
      case HableName => 9
      case GammaName => 10
      case LinearName => 11
    }

    /** The enum's string value. */
    function Str(): string
    {
      match this
      case AutoName => "auto"
      case ClipName => "clip"
      case ST2094_40Name => "st2094-40"
      case ST2094_10Name => "st2094-10"
      case BT2390Name => "bt2390"
      case BT2446aName => "bt2446a"
      case SplineName => "spline"
      case ReinhardName => "reinhard"
      case MobiusName => "mobius"
      case HableName => "hable"
      case GammaName => "gamma"
      case LinearName => "linear"
    }

    /** The Python member name. */
    function MemberName(): string
    {
      match this
      case AutoName => "Auto"
      case ClipName => "Clip"
      case ST2094_40Name => "ST2094_40"
      case ST2094_10Name => "ST2094_10"
      case BT2390Name => "BT2390"
      case BT2446aName => "BT2446a"
      case SplineName => "Spline"
      case ReinhardName => "Reinhard"
      case MobiusName => "Mobius"
      case HableName => "Hable"
      case GammaName => "Gamma"
      case LinearName => "Linear"
    }
  }

  const AllTonemapFunctionNames: seq<TonemapFunctionName> :=
    [AutoName, ClipName, ST2094_40Name, ST2094_10Name, BT2390Name, BT2446aName,
     SplineName, ReinhardName, MobiusName, HableName, GammaName, LinearName]

  /** `PlaceboTonemapFunctionName(s)`: defined exactly on the twelve names, and
      the inverse of `Str`. */
  function TonemapFunctionNameOf(s: string): (r: Option<TonemapFunctionName>)
    ensures forall t: TonemapFunctionName :: t.Str() == s <==> r == Some(t)
  {
    if s == "auto" then Some(AutoName)
    else if s == "clip" then Some(ClipName)
    else if s == "st2094-40" then Some(ST2094_40Name)
    else if s == "st2094-10" then Some(ST2094_10Name)
    else if s == "bt2390" then Some(BT2390Name)
    else if s == "bt2446a" then Some(BT2446aName)
    else if s == "spline" then Some(SplineName)
    else if s == "reinhard" then Some(ReinhardName)
    else if s == "mobius" then Some(MobiusName)
    else if s == "hable" then Some(HableName)
    else if s == "gamma" then Some(GammaName)
    else if s == "linear" then Some(LinearName)
    else None
  }

  /** Distinct members have distinct string values. */
  lemma StrInjective(a: TonemapFunctionName, b: TonemapFunctionName)
    requires a.Str() == b.Str()
    ensures a == b
  {
    var r := TonemapFunctionNameOf(a.Str());
  }

  /** The string values of the string enumeration, in declaration order. */
  const TonemapFunctionNameStrs: seq<string> :=
    seq(12, i requires 0 <= i < 12 => AllTonemapFunctionNames[i].Str())

  /** The string enumeration mirrors the integer one: the same twelve members
      under the same member names in the same order, every member of either
      enumeration is listed, and no two string values coincide. */
  lemma TonemapNamesMirrorFunctions()
    ensures |AllTonemapFunctionNames| == |AllTonemapFunctions| == 12
    ensures forall i :: 0 <= i < 12 ==>
      AllTonemapFunctionNames[i].MemberName() == AllTonemapFunctions[i].MemberName()
    ensures forall t: TonemapFunctionName :: t in AllTonemapFunctionNames
    ensures forall f: TonemapFunction :: f in AllTonemapFunctions
    ensures Distinct(TonemapFunctionNameStrs)
  {
    TonemapNameStrsDistinct();
    forall t: TonemapFunctionName
      ensures t in AllTonemapFunctionNames
    {
      assert AllTonemapFunctionNames[t.Ordinal()] == t;
    }
    forall f: TonemapFunction
      ensures f in AllTonemapFunctions
    {
      assert AllTonemapFunctions[f.Code()] == f;
    }
  }

  /** The twelve string values, in declaration order, differ pairwise. */
  lemma TonemapNameStrsDistinct()
    ensures Distinct(TonemapFunctionNameStrs)
  {
    var strs := TonemapFunctionNameStrs;
    forall i, j | 0 <= i < j < 12
      ensures strs[i] != strs[j]
    {
      assert AllTonemapFunctionNames[i].Ordinal() == i && AllTonemapFunctionNames[j].Ordinal() == j;
      if strs[i] == strs[j] {
        StrInjective(AllTonemapFunctionNames[i], AllTonemapFunctionNames[j]);
      }
    }
  }

  /** `PlaceboGamutMapping`: how out-of-gamut colours are handled. */
  datatype GamutMapping =
    | ClipGamut | Perceptual | Softclip | Relative | Saturation
    | Absolute | Desaturate | Darken | Highlight | LinearGamut
  {
    /** The IntEnum value; it is the member's position in declaration order. */
    function Code(): (n: nat)
      ensures n < |AllGamutMappings| && AllGamutMappings[n] == this
    {
      match this
      case ClipGamut => 0
      case Perceptual => 1
      case Softclip => 2
      case Relative => 3
      case Saturation => 4
      case Absolute => 5
      case Desaturate => 6
      case Darken => 7
      case Highlight => 8
      case LinearGamut => 9
    }
  }

  const AllGamutMappings: seq<GamutMapping> :=
    [ClipGamut, Perceptual, Softclip, Relative, Saturation,
     Absolute, Desaturate, Darken, Highlight, LinearGamut]

  /** `PlaceboGamutMapping(n)`: defined exactly on the codes 0..9, and the
      inverse of `Code`. */
  function GamutMappingOf(n: int): (r: Option<GamutMapping>)
    ensures r.Some? <==> 0 <= n < 10
    ensures forall g: GamutMapping :: g.Code() == n <==> r == Some(g)
  {
    if 0 <= n < |AllGamutMappings| then Some(AllGamutMappings[n]) else None
  }

  /** `PlaceboHdrMetadataType`: which HDR metadata the filter trusts. */
  datatype HdrMetadataType = AnyMetadata | PlNone | HDR10Metadata | HDR10Plus | CIE_Y {

    /** The IntEnum value; it is the member's position in declaration order. */
    function Code(): (n: nat)
      ensures n < |AllHdrMetadataTypes| && AllHdrMetadataTypes[n] == this
    {
      match this
      case AnyMetadata => 0
      case PlNone => 1
      case HDR10Metadata => 2
      case HDR10Plus => 3
      case CIE_Y => 4
    }
  }

  const AllHdrMetadataTypes: seq<HdrMetadataType> :=
    [AnyMetadata, PlNone, HDR10Metadata, HDR10Plus, CIE_Y]

  /** `PlaceboHdrMetadataType(n)`: defined exactly on the codes 0..4, and the
      inverse of `Code`. */
  function HdrMetadataTypeOf(n: int): (r: Option<HdrMetadataType>)
    ensures r.Some? <==> 0 <= n < 5
    ensures forall m: HdrMetadataType :: m.Code() == n <==> r == Some(m)
  {
    if 0 <= n < |AllHdrMetadataTypes| then Some(AllHdrMetadataTypes[n]) else None
  }
}
