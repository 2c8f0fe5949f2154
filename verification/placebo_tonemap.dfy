/** `PlaceboTonemapOpts`: the immutable options record for the vs-placebo
    tone-mapping filter, its defaults, the static-peak-detect variant, the
    sparse keyword dictionary handed to the filter, and the three colour-space
    predicates. Keyword construction `PlaceboTonemapOpts(x=v, ...)` is the
    datatype update `Default.(x := v, ...)`, and `_replace` is the same update
    applied to any record. */
module PlaceboTonemap {
  import opened Wrappers
  import opened AssocList
  import opened PlaceboEnums

  /** A value in the keyword dictionary. Enum members keep their enum type
      (an IntEnum member is also its integer code); floats are reals. */
  datatype Value =
    | CspValue(csp: ColorSpace)
    | IntValue(i: int)
    | RealValue(x: real)
    | BoolValue(b: bool)
    | GamutValue(gamut: GamutMapping)
    | FunctionValue(curve: TonemapFunction)
    | FunctionNameValue(name: TonemapFunctionName)
    | MetadataValue(metadata: HdrMetadataType)

  /** The record. Fields typed `Option` are `Optional[...]` with `None` as
      the unset sentinel; the others always hold a value. */
  datatype Opts = Opts(
    sourceColorspace: ColorSpace,
    targetColorspace: ColorSpace,
    targetPrimaries: Option<int>,
    dstMax: real,
    dstMin: real,
    peakDetect: bool,
    gamutMapping: Option<GamutMapping>,
    toneMapFunction: Option<TonemapFunction>,
    toneMapFunctionS: Option<TonemapFunctionName>,
    toneMapParam: Option<real>,
    contrastRecovery: Option<real>,
    hdrMetadataType: Option<HdrMetadataType>,
    useDovi: Option<bool>,
    smoothingPeriod: Option<real>,
    sceneThresholdLow: Option<real>,
    sceneThresholdHigh: Option<real>,
    percentile: Option<real>,
    showClipping: Option<bool>,
    visualizeLut: Option<bool>,
    usePlanestats: bool)

  /** Default peak brightness of the target, in nits. */
  const DefaultDstMax: real := 203.0

  /** Default black point: computed once, from the default peak, when the
      record type is defined. It does not follow a `dstMax` given at
      construction. */
  const DefaultDstMin: real := DefaultDstMax / 1000.0

  /** `PlaceboTonemapOpts()`: HDR10 to SDR, 203 nits peak, dynamic peak
      detection and plane statistics on, every optional field unset. */
  const Default: Opts := Opts(
    sourceColorspace := HDR10,
    targetColorspace := SDR,
    targetPrimaries := None,
    dstMax := DefaultDstMax,
    dstMin := DefaultDstMin,
    peakDetect := true,
    gamutMapping := None,
    toneMapFunction := None,
    toneMapFunctionS := None,
    toneMapParam := None,
    contrastRecovery := None,
    hdrMetadataType := None,
    useDovi := None,
    smoothingPeriod := None,
    sceneThresholdLow := None,
    sceneThresholdHigh := None,
    percentile := None,
    showClipping := None,
    visualizeLut := None,
    usePlanestats := true)

  /** The entries of the keyword dictionary, in its insertion order. */
  datatype Field =
    | SrcCsp | DstCsp | DstPrim | DstMax | DstMin | DynamicPeakDetection
    | Gamut | ToneMappingFunction | ToneMappingFunctionS | ToneMappingParam
    | UseDovi | SmoothingPeriod | SceneThresholdLow | SceneThresholdHigh
    | ShowClipping | Percentile | Metadata | VisualizeLut | ContrastRecovery
  {
    /** Where this entry sits in the dictionary order. */
    function Position(): (i: nat)
      ensures i < |AllFields| && AllFields[i] == this
    {
      match this
      case SrcCsp => 0
      case DstCsp => 1
      case DstPrim => 2
      case DstMax => 3
      case DstMin => 4
      case DynamicPeakDetection => 5
      case Gamut => 6
      case ToneMappingFunction => 7
      case ToneMappingFunctionS => 8
      case ToneMappingParam => 9
      case UseDovi => 10
      case SmoothingPeriod => 11
      case SceneThresholdLow => 12
      case SceneThresholdHigh => 13
      case ShowClipping => 14
      case Percentile => 15
      case Metadata => 16
      case VisualizeLut => 17
      case ContrastRecovery => 18
    }

    /** The keyword the filter knows this entry by. */
    function Key(): string
    {
      match this
      case SrcCsp => "src_csp"
      case DstCsp => "dst_csp"
      case DstPrim => "dst_prim"
      case DstMax => "dst_max"
      case DstMin => "dst_min"
      case DynamicPeakDetection => "dynamic_peak_detection"
      case Gamut => "gamut_mapping"
      case ToneMappingFunction => "tone_mapping_function"
      case ToneMappingFunctionS => "tone_mapping_function_s"
      case ToneMappingParam => "tone_mapping_param"
      case UseDovi => "use_dovi"
      case SmoothingPeriod => "smoothing_period"
      case SceneThresholdLow => "scene_threshold_low"
      case SceneThresholdHigh => "scene_threshold_high"
      case ShowClipping => "show_clipping"
      case Percentile => "percentile"
      case Metadata => "metadata"
      case VisualizeLut => "visualize_lut"
      case ContrastRecovery => "contrast_recovery"
    }
  }

  const AllFields: seq<Field> :=
    [SrcCsp, DstCsp, DstPrim, DstMax, DstMin, DynamicPeakDetection,
     Gamut, ToneMappingFunction, ToneMappingFunctionS, ToneMappingParam,
     UseDovi, SmoothingPeriod, SceneThresholdLow, SceneThresholdHigh,
     ShowClipping, Percentile, Metadata, VisualizeLut, ContrastRecovery]

  /** The keywords of `all_args`, in dictionary order. */
  const AllKeys: seq<string> := seq(|AllFields|, i requires 0 <= i < |AllFields| => AllFields[i].Key())

  /** The record field behind a dictionary entry (`None` when unset). */
  function Get(o: Opts, f: Field): Option<Value>
  {
    match f
    case SrcCsp => Some(CspValue(o.sourceColorspace))
    case DstCsp => Some(CspValue(o.targetColorspace))
    case DstPrim => if o.targetPrimaries.Some? then Some(IntValue(o.targetPrimaries.value)) else None
    case DstMax => Some(RealValue(o.dstMax))
    case DstMin => Some(RealValue(o.dstMin))
    case DynamicPeakDetection => Some(BoolValue(o.peakDetect))
    case Gamut => if o.gamutMapping.Some? then Some(GamutValue(o.gamutMapping.value)) else None
    case ToneMappingFunction => if o.toneMapFunction.Some? then Some(FunctionValue(o.toneMapFunction.value)) else None
    case ToneMappingFunctionS => if o.toneMapFunctionS.Some? then Some(FunctionNameValue(o.toneMapFunctionS.value)) else None
    case ToneMappingParam => if o.toneMapParam.Some? then Some(RealValue(o.toneMapParam.value)) else None
    case UseDovi => if o.useDovi.Some? then Some(BoolValue(o.useDovi.value)) else None
    case SmoothingPeriod => if o.smoothingPeriod.Some? then Some(RealValue(o.smoothingPeriod.value)) else None
    case SceneThresholdLow => if o.sceneThresholdLow.Some? then Some(RealValue(o.sceneThresholdLow.value)) else None
    case SceneThresholdHigh => if o.sceneThresholdHigh.Some? then Some(RealValue(o.sceneThresholdHigh.value)) else None
    case ShowClipping => if o.showClipping.Some? then Some(BoolValue(o.showClipping.value)) else None
    case Percentile => if o.percentile.Some? then Some(RealValue(o.percentile.value)) else None
    case Metadata => if o.hdrMetadataType.Some? then Some(MetadataValue(o.hdrMetadataType.value)) else None
    case VisualizeLut => if o.visualizeLut.Some? then Some(BoolValue(o.visualizeLut.value)) else None
    case ContrastRecovery => if o.contrastRecovery.Some? then Some(RealValue(o.contrastRecovery.value)) else None
  }

  /** `all_args`: every keyword with its field, set or not. */
  function AllArgs(o: Opts): (r: seq<(string, Option<Value>)>)
    ensures |r| == |AllFields|
    ensures forall f: Field :: r[f.Position()] == (f.Key(), Get(o, f))
  {
    seq(|AllFields|, i requires 0 <= i < |AllFields| => (AllKeys[i], Get(o, AllFields[i])))
  }

  /** `vsplacebo_dict`: the keyword arguments for the filter, keeping exactly
      the entries whose field is not `None`. */
  function VsplaceboDict(o: Opts): (r: seq<(string, Value)>)
    ensures |r| <= |AllFields|
  {
    Compact(AllArgs(o))
  }

  /** `with_static_peak_detect`: the same options with scene-change smoothing
      and both scene thresholds forced to 0, every other field kept. */
  function WithStaticPeakDetect(o: Opts): (r: Opts)
    ensures r.smoothingPeriod == Some(0.0)
    ensures r.sceneThresholdLow == Some(0.0)
    ensures r.sceneThresholdHigh == Some(0.0)
    ensures r.(smoothingPeriod := o.smoothingPeriod,
               sceneThresholdLow := o.sceneThresholdLow,
               sceneThresholdHigh := o.sceneThresholdHigh) == o
  {
    o.(smoothingPeriod := Some(0.0), sceneThresholdLow := Some(0.0), sceneThresholdHigh := Some(0.0))
  }

  /** `is_dovi_src`: the source is processed as Dolby Vision. */
  predicate IsDoviSrc(o: Opts)
    ensures IsDoviSrc(o) <==> o.sourceColorspace.Code() == 3
  {
    o.sourceColorspace == DOVI
  }

  /** `is_hdr10_src`: the source is HDR10. */
  predicate IsHdr10Src(o: Opts)
    ensures IsHdr10Src(o) <==> o.sourceColorspace.Code() == 1
  {
    o.sourceColorspace == HDR10
  }

  /** `is_sdr_target`: the output is SDR. */
  predicate IsSdrTarget(o: Opts)
    ensures IsSdrTarget(o) <==> o.targetColorspace.Code() == 0
  {
    o.targetColorspace == SDR
  }
}
