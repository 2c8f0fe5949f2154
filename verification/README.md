# Tone-mapping options for vs-placebo, modelled in Dafny

This project models `PlaceboTonemapOpts`, the options record that awsmfunc
passes to the vs-placebo tone-mapping filter. It also models the closed
enumerations the record's fields draw from. The record does three things:

- it builds the sparse keyword dictionary for the filter (`vsplacebo_dict`);
- it derives a "static peak detect" variant (`with_static_peak_detect`);
- it answers three colour-space questions (`is_dovi_src`, `is_hdr10_src`,
  `is_sdr_target`).

Files:

- `wrappers.dfy`: module `Wrappers`. `Option`, used for Python's
  `Optional[...]` fields, with `None` as the unset sentinel.
- `assoc_list.dfy`: module `AssocList`. An insertion-ordered association
  list models a Python `dict`. `Compact` models the comprehension
  `{k: v for k, v in ... if v is not None}`. Lemmas cover lookup, order
  and key uniqueness.
- `placebo_enums.dfy`: module `PlaceboEnums`. The five enumerations, with
  their codes, their declaration order and lookup by code or name.
- `placebo_tonemap.dfy`: module `PlaceboTonemap`. The record `Opts`, its
  defaults and the dictionary's field/keyword table. It also holds
  `VsplaceboDict`, `WithStaticPeakDetect` and the three predicates.
- `placebo_tonemap_props.dfy`: module `PlaceboTonemapProps`. The
  properties of the dictionary, the static variant and the predicates.

Modelling choices:

- Keyword construction `PlaceboTonemapOpts(dst_max=m)` is the datatype
  update `Default.(dstMax := m)`. That is what a `NamedTuple` with field
  defaults does. `_replace` is the same update applied to any record.
- The default black point is the constant `DefaultDstMin`
  (= 203.0 / 1000.0). The class body computes `dst_max / 1000` once, from
  the class-level default `dst_max`, when the class is defined. An
  explicitly given `dst_max` therefore does not change the default
  `dst_min` (`DefaultDict`). The docstring's "defaults to 1000:1 contrast"
  holds only while `dst_max` keeps its default.
- The dictionary keeps every field that is not `None`, default-valued ones
  included. So `src_csp`, `dst_csp`, `dst_max`, `dst_min` and
  `dynamic_peak_detection` are always emitted.
- The dictionary is a `seq<(string, Value)>`. `Value` has no `None`
  case, so no entry can carry `None`.
- Dictionary values keep their enum type (`CspValue(HDR10)`, ...). An
  `IntEnum` member is its integer code (`Code()`). Python floats are Dafny
  `real`s.
- Some enum member names clash inside one Dafny module, so they are
  renamed:
  - `Clip` and `Linear` of `PlaceboGamutMapping` become `ClipGamut` and
    `LinearGamut`;
  - `Any` and `HDR10` of `PlaceboHdrMetadataType` become `AnyMetadata` and
    `HDR10Metadata`;
  - the members of `PlaceboTonemapFunctionName` carry a `Name` suffix.

  `MemberName()` returns the Python member name where the model needs it.

## Model

| member | source | states |
|---|---|---|
| PlaceboEnums.ColorSpace.Code | src/awsmfunc/types/placebo.py:5-10 | each colour space's integer value is its position in the declaration order SDR, HDR10, HLG, DOVI |
| PlaceboEnums.TonemapFunction.Code | src/awsmfunc/types/placebo.py:13-25 | each curve's integer value is its position in the declaration order, from Auto = 0 to Linear = 11 |
| PlaceboEnums.GamutMapping.Code | src/awsmfunc/types/placebo.py:43-94 | each gamut-mapping mode's integer value is its position in the declaration order, from Clip = 0 to Linear = 9 |
| PlaceboEnums.HdrMetadataType.Code | src/awsmfunc/types/placebo.py:97-107 | each metadata type's integer value is its position in the declaration order, from Any = 0 to CIE_Y = 4 |
| PlaceboEnums.ColorSpaceOf | src/awsmfunc/types/placebo.py:5-10 | `PlaceboColorSpace(n)` is defined exactly for n in 0..3; it is the inverse of the member codes, so SDR, HDR10, HLG and DOVI have the distinct codes 0, 1, 2, 3 |
| PlaceboEnums.TonemapFunctionOf | src/awsmfunc/types/placebo.py:13-25 | `PlaceboTonemapFunction(n)` is defined exactly for n in 0..11; it is the inverse of the codes, so the twelve curves have distinct codes |
| PlaceboEnums.TonemapFunctionNameOf | src/awsmfunc/types/placebo.py:28-40 | `PlaceboTonemapFunctionName(s)` finds a member exactly when `s` is that member's string value, so the twelve string values are distinct |
| PlaceboEnums.TonemapNamesMirrorFunctions | src/awsmfunc/types/placebo.py:13-40 | the string enumeration has the same twelve members, under the same member names and in the same order, as the integer one; each string value is distinct |
| PlaceboEnums.TonemapNameStrsDistinct | src/awsmfunc/types/placebo.py:28-40 | the twelve string values of the string enumeration differ pairwise |
| PlaceboEnums.GamutMappingOf | src/awsmfunc/types/placebo.py:43-94 | `PlaceboGamutMapping(n)` is defined exactly for n in 0..9 and is the inverse of the codes |
| PlaceboEnums.HdrMetadataTypeOf | src/awsmfunc/types/placebo.py:97-107 | `PlaceboHdrMetadataType(n)` is defined exactly for n in 0..4 and is the inverse of the codes |
| PlaceboTonemap.AllArgs | src/awsmfunc/types/placebo.py:185-205 | `all_args` has nineteen entries, and the entry at each field's position pairs that field's keyword with its value, `None` included |
| PlaceboTonemap.VsplaceboDict | src/awsmfunc/types/placebo.py:184-207 | defined as the `None`-dropping filter applied to `AllArgs`, so it has at most nineteen entries; DictEntryIffSet, DictKeysOrdered, DictOmitsPlanestats and DictSize state what it returns |
| PlaceboTonemap.WithStaticPeakDetect | src/awsmfunc/types/placebo.py:180-182 | the smoothing period and both scene thresholds become 0; putting back their old values gives the original record, so the other 17 fields are unchanged |
| PlaceboTonemap.IsDoviSrc | src/awsmfunc/types/placebo.py:209-211 | holds exactly when the source colour space has code 3 (DOVI) |
| PlaceboTonemap.IsHdr10Src | src/awsmfunc/types/placebo.py:213-214 | holds exactly when the source colour space has code 1 (HDR10) |
| PlaceboTonemap.IsSdrTarget | src/awsmfunc/types/placebo.py:216-217 | holds exactly when the target colour space has code 0 (SDR) |
| PlaceboTonemapProps.ClassificationConsistent | src/awsmfunc/types/placebo.py:209-217 | a source is never both Dolby Vision and HDR10; the static variant keeps all three answers |
| PlaceboTonemapProps.AllArgsKeys | src/awsmfunc/types/placebo.py:185-205 | the nineteen keywords of `all_args` are pairwise distinct and are its keys for every record |
| PlaceboTonemapProps.AllArgsLookup | src/awsmfunc/types/placebo.py:185-205 | in `all_args`, each keyword maps to the value of its record field (e.g. `src_csp` to `source_colorspace`, `metadata` to `hdr_metadata_type`), `None` included |
| PlaceboTonemapProps.DictEntryIffSet | src/awsmfunc/types/placebo.py:184-207 | the dictionary has an entry for a field exactly when the field is not `None`, and the entry holds the field's value under its fixed keyword |
| PlaceboTonemapProps.DictKeysOrdered | src/awsmfunc/types/placebo.py:185-207 | the dictionary's keywords are a subsequence of the `all_args` keyword order and are pairwise distinct |
| PlaceboTonemapProps.DictOmitsPlanestats | src/awsmfunc/types/placebo.py:177-207 | no keyword outside the nineteen appears; `use_planestats` is never a key, and changing it leaves the dictionary unchanged |
| PlaceboTonemapProps.DictKeepsFalsyValues | src/awsmfunc/types/placebo.py:191-207 | the filter tests `is not None`, not truthiness: `peak_detect=False`, `use_dovi=False`, a zero `tone_map_param` or `target_primaries` are still emitted |
| PlaceboTonemapProps.DictHead | src/awsmfunc/types/placebo.py:185-207 | the dictionary begins with `src_csp`, `dst_csp`, then `dst_prim` exactly when it is set, then `dst_max`, `dst_min` and `dynamic_peak_detection`, with their record values; the filtered other thirteen entries follow |
| PlaceboTonemapProps.DictSize | src/awsmfunc/types/placebo.py:184-207 | the dictionary has between 5 and 19 entries |
| PlaceboTonemapProps.DefaultDict | src/awsmfunc/types/placebo.py:128-141 | a record built with only `dst_max=m` gives exactly `src_csp`=HDR10, `dst_csp`=SDR, `dst_max`=m, `dst_min`=203/1000 and `dynamic_peak_detection`=true; `dst_min` keeps its constant default; m = 203 gives the default record |
| PlaceboTonemapProps.StaticPeakDetectIdempotent | src/awsmfunc/types/placebo.py:180-182 | applying `with_static_peak_detect` twice gives the same record as applying it once |
| PlaceboTonemapProps.StaticPeakDetectDict | src/awsmfunc/types/placebo.py:180-207 | after `with_static_peak_detect`, the dictionary always has `smoothing_period`, `scene_threshold_low` and `scene_threshold_high`, each with value 0 |
| PlaceboTonemapProps.ZeroedScenesDict | src/awsmfunc/types/placebo.py:191-207 | a record whose smoothing period and scene thresholds are 0 passes all three keywords to the filter with value 0 |
| PlaceboTonemapProps.StaticPeakDetectKeepsOtherEntries | src/awsmfunc/types/placebo.py:180-207 | every other keyword of the static variant's dictionary is present or absent with the same value as before |
| AssocList.Compact | src/awsmfunc/types/placebo.py:207 | the comprehension never adds entries: the result is at most as long as its input; CompactMembers and CompactLookup state which entries it keeps |
| AssocList.CompactLookup | src/awsmfunc/types/placebo.py:207 | when keys are distinct, a lookup after dropping the `None` values gives the value stored before, and nothing where it was `None` |
| AssocList.CompactKeysSubsequence | src/awsmfunc/types/placebo.py:207 | the comprehension keeps the surviving keys in their insertion order |
| AssocList.CompactMembers | src/awsmfunc/types/placebo.py:207 | the comprehension keeps exactly the entries whose value is not `None`, with the value unwrapped |

## Left out

- The vs-placebo / libplacebo filter that consumes the dictionary. It is
  a foreign native library and is not part of this model. How it treats
  conflicting `tone_mapping_function` and `tone_mapping_function_s` is its
  own business.
- Floating-point behaviour. `dst_max`, `dst_min`, `tone_map_param` and the
  other numeric fields are Dafny `real`s. The only arithmetic in the code
  is the constant 203.0 / 1000, and its IEEE rounding is not modelled.
- PlaceboTonemap.WithStaticPeakDetect: the code stores the Python integer
  `0`, and the model stores the real 0.0. Python compares them as equal, and
  the filter receives a number either way.
- Validation. The code checks no ranges and no consistency between fields
  (for example `dst_min` <= `dst_max`, or `use_dovi` only with a DOVI
  source), so the model promises none.
- Python runtime details are not modelled: positional construction,
  tuple indexing and iteration, the `IntEnum`/`str` mixin comparison rules,
  and docstrings. Python does not check field types at run time; the model
  assumes well-typed fields.
- The dictionary is an association list. Dictionary equality that ignores
  order is not modelled; the code's insertion order is stated instead.
