/** What the options record promises about its keyword dictionary, its
    static-peak-detect variant and its colour-space predicates. */
module PlaceboTonemapProps {
  import opened Wrappers
  import opened AssocList
  import opened PlaceboEnums
  import opened PlaceboTonemap

  /** The nineteen keywords of `all_args` are pairwise distinct and are the
      keys of `AllArgs`, whatever the options. */
  lemma AllArgsKeys(o: Opts)
    ensures Keys(AllArgs(o)) == AllKeys
    ensures Distinct(AllKeys)
    ensures |AllKeys| == 19
  {
    KeysDistinct();
  }

  /** The nineteen keywords of `all_args` differ pairwise. */
  lemma KeysDistinct()
    ensures Distinct(AllKeys)
  {
    KeysSpelledOut();
    KeywordLiteralsDistinct();
  }

  /** `AllKeys`, field by field, is the keyword list of `all_args`. */
  lemma KeysSpelledOut()
    ensures AllKeys ==
      ["src_csp", "dst_csp", "dst_prim", "dst_max", "dst_min", "dynamic_peak_detection",
       "gamut_mapping", "tone_mapping_function", "tone_mapping_function_s", "tone_mapping_param",
       "use_dovi", "smoothing_period", "scene_threshold_low", "scene_threshold_high",
       "show_clipping", "percentile", "metadata", "visualize_lut", "contrast_recovery"]
  {
  }

  /** Distinctness stated on the keyword literals themselves. */
  lemma KeywordLiteralsDistinct()
    ensures Distinct(
      ["src_csp", "dst_csp", "dst_prim", "dst_max", "dst_min", "dynamic_peak_detection",
       "gamut_mapping", "tone_mapping_function", "tone_mapping_function_s", "tone_mapping_param",
       "use_dovi", "smoothing_period", "scene_threshold_low", "scene_threshold_high",
       "show_clipping", "percentile", "metadata", "visualize_lut", "contrast_recovery"])
  {
  }

  /** `all_args` maps each keyword to its field's value. */
  lemma {:induction false} AllArgsLookup(o: Opts, f: Field)
    ensures Lookup(AllArgs(o), f.Key()) == Some(Get(o, f))
  {
    AllArgsKeys(o);
    var s := AllArgs(o);
    var i := f.Position();
    assert s[i] == (f.Key(), Get(o, f));
    assert f.Key() in Keys(s) by {
      assert Keys(s)[i] == f.Key();
    }
    LookupMembers(s, f.Key());
    var v := Lookup(s, f.Key()).value;
    assert (f.Key(), v) in s;
    var j :| 0 <= j < |s| && s[j] == (f.Key(), v);
    assert AllKeys[j] == AllKeys[i];
  }

  /** The dictionary holds an entry for a field exactly when the field is not
      `None`, and that entry carries the field's value under its fixed
      keyword. */
  lemma DictEntryIffSet(o: Opts, f: Field)
    ensures Lookup(VsplaceboDict(o), f.Key()) == Get(o, f)
    ensures f.Key() in Keys(VsplaceboDict(o)) <==> Get(o, f).Some?
  {
    AllArgsKeys(o);
    CompactLookup(AllArgs(o), f.Key());
    AllArgsLookup(o, f);
    LookupMembers(VsplaceboDict(o), f.Key());
  }

  /** Keywords come out in `all_args` order and none is repeated. */
  lemma DictKeysOrdered(o: Opts)
    ensures IsSubsequence(Keys(VsplaceboDict(o)), AllKeys)
    ensures Distinct(Keys(VsplaceboDict(o)))
  {
    AllArgsKeys(o);
    CompactKeysSubsequence(AllArgs(o));
    SubsequenceOfDistinct(Keys(VsplaceboDict(o)), AllKeys);
  }

  /** Only the nineteen known keywords can appear: in particular
      `use_planestats` never does, and changing it leaves the dictionary as
      it was. */
  lemma DictOmitsPlanestats(o: Opts, k: string, b: bool)
    ensures k !in AllKeys ==> Lookup(VsplaceboDict(o), k) == None
    ensures "use_planestats" !in Keys(VsplaceboDict(o))
    ensures VsplaceboDict(o.(usePlanestats := b)) == VsplaceboDict(o)
  {
    var ks := Keys(VsplaceboDict(o));
    DictKeysOrdered(o);
    LookupMembers(VsplaceboDict(o), k);
    if k in ks {
      SubsequenceMembers(ks, AllKeys, k);
    }
    assert "use_planestats" !in AllKeys;
    if "use_planestats" in ks {
      SubsequenceMembers(ks, AllKeys, "use_planestats");
    }
    var o' := o.(usePlanestats := b);
    forall i | 0 <= i < |AllFields|
      ensures AllArgs(o')[i] == AllArgs(o)[i]
    {
      GetIgnoresPlanestats(o, b, AllFields[i]);
    }
    assert AllArgs(o') == AllArgs(o);
  }

  /** No dictionary entry reads `use_planestats`. */
  lemma GetIgnoresPlanestats(o: Opts, b: bool, f: Field)
    ensures Get(o.(usePlanestats := b), f) == Get(o, f)
  {
    match f
    case _ =>
  }

  /** The filter tests `is not None` rather than truthiness: a false flag or a
      zero number that is set is still passed on. */
  lemma DictKeepsFalsyValues(o: Opts)
    ensures !o.peakDetect ==>
      Lookup(VsplaceboDict(o), "dynamic_peak_detection") == Some(BoolValue(false))
    ensures o.useDovi == Some(false) ==>
      Lookup(VsplaceboDict(o), "use_dovi") == Some(BoolValue(false))
    ensures o.toneMapParam == Some(0.0) ==>
      Lookup(VsplaceboDict(o), "tone_mapping_param") == Some(RealValue(0.0))
    ensures o.targetPrimaries == Some(0) ==>
      Lookup(VsplaceboDict(o), "dst_prim") == Some(IntValue(0))
  {
    DictEntryAt(o, DynamicPeakDetection, "dynamic_peak_detection");
    DictEntryAt(o, UseDovi, "use_dovi");
    DictEntryAt(o, ToneMappingParam, "tone_mapping_param");
    DictEntryAt(o, DstPrim, "dst_prim");
  }

  /** `DictEntryIffSet` with the keyword spelled out by the caller. */
  lemma DictEntryAt(o: Opts, f: Field, k: string)
    requires f.Key() == k
    ensures Lookup(VsplaceboDict(o), k) == Get(o, f)
  {
    DictEntryIffSet(o, f);
  }

  /** Filtering six entries whose third alone may be absent keeps the other
      five, in order, around whatever the third contributes. */
  lemma HeadSix<K, V>(h: seq<(K, Option<V>)>)
    requires |h| == 6
    requires h[0].1.Some? && h[1].1.Some? && h[3].1.Some? && h[4].1.Some? && h[5].1.Some?
    ensures Compact(h) ==
      [(h[0].0, h[0].1.value), (h[1].0, h[1].1.value)] + Keep(h[2]) +
      [(h[3].0, h[3].1.value), (h[4].0, h[4].1.value), (h[5].0, h[5].1.value)]
  {
    assert h[6..] == [];
    CompactSuffixStep(h, 5);
    CompactSuffixStep(h, 4);
    CompactSuffixStep(h, 3);
    CompactSuffixStep(h, 2);
    CompactSuffixStep(h, 1);
    CompactSuffixStep(h, 0);
    assert h[0..] == h;
  }

  /** The dictionary starts with the filtered first six entries of
      `all_args`: the five fields that are never `None`, in order, with
      `dst_prim` third exactly when it is set; the other thirteen follow. */
  lemma DictHead(o: Opts)
    ensures Compact(AllArgs(o)[..6]) ==
      [("src_csp", CspValue(o.sourceColorspace)), ("dst_csp", CspValue(o.targetColorspace))] +
      (if o.targetPrimaries.Some? then [("dst_prim", IntValue(o.targetPrimaries.value))] else []) +
      [("dst_max", RealValue(o.dstMax)), ("dst_min", RealValue(o.dstMin)),
       ("dynamic_peak_detection", BoolValue(o.peakDetect))]
    ensures VsplaceboDict(o) == Compact(AllArgs(o)[..6]) + Compact(AllArgs(o)[6..])
  {
    var s := AllArgs(o);
    var h := s[..6];
    assert h[0] == ("src_csp", Get(o, SrcCsp)) by { assert s[SrcCsp.Position()] == (SrcCsp.Key(), Get(o, SrcCsp)); }
    assert h[1] == ("dst_csp", Get(o, DstCsp)) by { assert s[DstCsp.Position()] == (DstCsp.Key(), Get(o, DstCsp)); }
    assert h[2] == ("dst_prim", Get(o, DstPrim)) by { assert s[DstPrim.Position()] == (DstPrim.Key(), Get(o, DstPrim)); }
    assert h[3] == ("dst_max", Get(o, DstMax)) by { assert s[DstMax.Position()] == (DstMax.Key(), Get(o, DstMax)); }
    assert h[4] == ("dst_min", Get(o, DstMin)) by { assert s[DstMin.Position()] == (DstMin.Key(), Get(o, DstMin)); }
    assert h[5] == ("dynamic_peak_detection", Get(o, DynamicPeakDetection)) by {
      assert s[DynamicPeakDetection.Position()] == (DynamicPeakDetection.Key(), Get(o, DynamicPeakDetection));
    }
    HeadSix(h);
    assert s == h + s[6..];
    CompactAppend(h, s[6..]);
  }

  /** However the options are set, the filter receives between five and
      nineteen keyword arguments. */
  lemma DictSize(o: Opts)
    ensures 5 <= |VsplaceboDict(o)| <= 19
  {
    DictHead(o);
  }

  /** `PlaceboTonemapOpts(dst_max=m)`: the black point keeps its constant
      default 203/1000 whatever `m` is, and the dictionary holds exactly the
      five always-present keywords. With m = 203 this is the default record. */
  lemma DefaultDict(m: real)
    ensures Default.(dstMax := m).dstMin == 203.0 / 1000.0
    ensures VsplaceboDict(Default.(dstMax := m)) ==
      [("src_csp", CspValue(HDR10)), ("dst_csp", CspValue(SDR)), ("dst_max", RealValue(m)),
       ("dst_min", RealValue(203.0 / 1000.0)), ("dynamic_peak_detection", BoolValue(true))]
    ensures Default.(dstMax := 203.0) == Default
  {
    DictHead(Default.(dstMax := m));
    DefaultTailAbsent(Default.(dstMax := m));
  }

  /** A record whose thirteen `Optional` fields after `dynamic_peak_detection`
      are all unset contributes nothing after the first six entries. */
  lemma DefaultTailAbsent(o: Opts)
    requires o.(sourceColorspace := HDR10, targetColorspace := SDR, dstMax := 203.0,
                dstMin := 203.0 / 1000.0, peakDetect := true, targetPrimaries := None,
                usePlanestats := true) == Default
    ensures Compact(AllArgs(o)[6..]) == []
  {
    var s := AllArgs(o);
    forall i | 0 <= i < |s[6..]|
      ensures s[6..][i].1.None?
    {
      var f := AllFields[i + 6];
      assert f.Position() == i + 6;
      assert s[6..][i] == s[f.Position()];
    }
    CompactAllAbsent(s[6..]);
  }

  /** The static variant is idempotent. */
  lemma StaticPeakDetectIdempotent(o: Opts)
    ensures WithStaticPeakDetect(WithStaticPeakDetect(o)) == WithStaticPeakDetect(o)
  {
  }

  /** After `with_static_peak_detect` the dictionary always carries the three
      scene-detection keywords with value 0. */
  lemma StaticPeakDetectDict(o: Opts)
    ensures Lookup(VsplaceboDict(WithStaticPeakDetect(o)), "smoothing_period") == Some(RealValue(0.0))
    ensures Lookup(VsplaceboDict(WithStaticPeakDetect(o)), "scene_threshold_low") == Some(RealValue(0.0))
    ensures Lookup(VsplaceboDict(WithStaticPeakDetect(o)), "scene_threshold_high") == Some(RealValue(0.0))
  {
    ZeroedScenesDict(WithStaticPeakDetect(o));
  }

  /** A record whose smoothing period and scene thresholds are 0 passes all
      three on as 0. */
  lemma ZeroedScenesDict(r: Opts)
    requires r.smoothingPeriod == Some(0.0)
    requires r.sceneThresholdLow == Some(0.0)
    requires r.sceneThresholdHigh == Some(0.0)
    ensures Lookup(VsplaceboDict(r), "smoothing_period") == Some(RealValue(0.0))
    ensures Lookup(VsplaceboDict(r), "scene_threshold_low") == Some(RealValue(0.0))
    ensures Lookup(VsplaceboDict(r), "scene_threshold_high") == Some(RealValue(0.0))
  {
    DictEntryAt(r, SmoothingPeriod, "smoothing_period");
    DictEntryAt(r, SceneThresholdLow, "scene_threshold_low");
    DictEntryAt(r, SceneThresholdHigh, "scene_threshold_high");
  }

  /** Every other keyword of the static variant's dictionary is as before,
      present or absent. */
  lemma StaticPeakDetectKeepsOtherEntries(o: Opts, f: Field)
    requires f != SmoothingPeriod && f != SceneThresholdLow && f != SceneThresholdHigh
    ensures Lookup(VsplaceboDict(WithStaticPeakDetect(o)), f.Key()) == Lookup(VsplaceboDict(o), f.Key())
  {
    var r := WithStaticPeakDetect(o);
    assert Get(r, f) == Get(o, f);
    DictEntryIffSet(r, f);
    DictEntryIffSet(o, f);
  }

  /** A source is never both Dolby Vision and HDR10, and the static variant
      keeps all three classifications. */
  lemma ClassificationConsistent(o: Opts)
    ensures !(IsDoviSrc(o) && IsHdr10Src(o))
    ensures IsDoviSrc(WithStaticPeakDetect(o)) == IsDoviSrc(o)
    ensures IsHdr10Src(WithStaticPeakDetect(o)) == IsHdr10Src(o)
    ensures IsSdrTarget(WithStaticPeakDetect(o)) == IsSdrTarget(o)
  {
  }
}
