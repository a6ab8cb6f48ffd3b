/** The animated-waves cascade manager (LodDataMgrAnimWaves): the wavelength
    filters that assign contributors to LODs, the per-frame pass schedule as a
    trace of commands, the shape-weight fade-out rule, the data-LOD query and
    the Gerstner registration list. */
module AnimWaves {
  import opened Render
  import opened Ocean

  /** Identity of a registered ShapeGerstnerBatched component. */
  type GerstnerId = nat

  /** A registered RegisterAnimWavesInput: its identity and octave wavelength
      (0 means "no LOD preference"). */
  datatype AnimWavesInput = AnimWavesInput(id: nat, octaveWavelength: real)

  // ---------------------------------------------------------------------------
  // Draw filters

  /** The band filter: a LOD draws the inputs in [min, max), and the coarsest
      LOD also everything at or above its max. */
  datatype FilterWavelength = FilterWavelength(lodMinWavelength: real, lodMaxWavelength: real, lodIdx: int, lodCount: int) {
    predicate Filter(octaveWavelength: real)
      ensures Filter(octaveWavelength) ==> lodMinWavelength <= octaveWavelength
      ensures lodMinWavelength <= octaveWavelength < lodMaxWavelength ==> Filter(octaveWavelength)
      ensures lodIdx != lodCount - 1 && Filter(octaveWavelength) ==> octaveWavelength < lodMaxWavelength
      ensures lodIdx == lodCount - 1 ==> (Filter(octaveWavelength) <==> lodMinWavelength <= octaveWavelength)
    {
      lodMinWavelength <= octaveWavelength && (octaveWavelength < lodMaxWavelength || lodIdx == lodCount - 1)
    }
  }

  /** Accepts only inputs that declared no LOD preference (wavelength 0). */
  datatype FilterNoLodPreference = FilterNoLodPreference {
    predicate Filter(octaveWavelength: real)
      ensures Filter(octaveWavelength) ==> !(octaveWavelength > 0.0) && !(octaveWavelength < 0.0)
      ensures octaveWavelength == 0.0 ==> Filter(octaveWavelength)
    {
      octaveWavelength == 0.0
    }
  }

  /** The IDrawFilter interface, as the closed set of its two implementations. */
  datatype DrawFilter = ByWavelength(band: FilterWavelength) | NoLodPreference(none: FilterNoLodPreference) {
    predicate Filter(octaveWavelength: real) {
      match this
      case ByWavelength(f) => f.Filter(octaveWavelength)
      case NoLodPreference(f) => f.Filter(octaveWavelength)
    }
  }

  /** The band filter as BuildCommandBuffer sets it up for LOD `lodIdx`:
      max = MaxWavelength(lodIdx), min = max / 2. */
  function LodBand(ocean: OceanRenderer, lodIdx: nat): FilterWavelength
    requires lodIdx < ocean.CurrentLodCount()
  {
    var maxWavelength := ocean.lods[lodIdx].maxWavelength;
    FilterWavelength(maxWavelength / 2.0, maxWavelength, lodIdx, ocean.CurrentLodCount())
  }

  // ---------------------------------------------------------------------------
  // Shape weight and property bindings

  /** The shape weight bound with a LOD's ocean params: the coarsest LOD fades
      out by the viewer-altitude alpha when the ocean may scale down later. */
  function ShapeWeight(ocean: OceanRenderer, lodIdx: int, blendOut: bool): (weight: real)
    ensures 0.0 <= ocean.viewerAltitudeLevelAlpha <= 1.0 ==> 0.0 <= weight <= 1.0
  {
    var needToBlendOutShape := lodIdx == ocean.CurrentLodCount() - 1 && ocean.scaleCouldDecrease && blendOut;
    if needToBlendOutShape then ocean.viewerAltitudeLevelAlpha else 1.0
  }

  /** The ocean-params vector: texel width, resolution, shape weight, 1/resolution. */
  function OceanParamsVector(ocean: OceanRenderer, lodIdx: nat, blendOut: bool): Vec4
    requires ocean.Valid() && lodIdx < ocean.CurrentLodCount()
  {
    var rd := ocean.lods[lodIdx].renderData;
    Vec4(rd.texelWidth, rd.textureRes, ShapeWeight(ocean, lodIdx, blendOut), 1.0 / rd.textureRes)
  }

  const SliceIndexThisLod: ParamId := Property("_LD_SLICE_Index_ThisLod")
  const WaveBufferThisFrame: ParamId := Property("_LD_TexArray_WaveBuffer_ThisFrame")
  const AnimatedWavesThisFrame: ParamId := Property("_LD_TexArray_AnimatedWaves_ThisFrame")

  /** The BindData override: the base binding, then the ocean params. */
  function BindData(target: int, ocean: OceanRenderer, lodIdx: nat, applyData: Option<Texture>, blendOut: bool, prevFrame: bool): (r: seq<Cmd>)
    requires ocean.Valid() && lodIdx < ocean.CurrentLodCount()
    ensures |r| == 2 && r[0] == BaseBindData(target, lodIdx, applyData, blendOut, prevFrame)
    ensures r[1].Prop? && r[1].target == target && r[1].write.SetVector? && r[1].write.param == LodTransformOceanParams(prevFrame)
    ensures r[1].write.vector.x == ocean.lods[lodIdx].renderData.texelWidth
    ensures r[1].write.vector.z == ShapeWeight(ocean, lodIdx, blendOut)
  {
    [ BaseBindData(target, lodIdx, applyData, blendOut, prevFrame),
      Prop(target, SetVector(LodTransformOceanParams(prevFrame), OceanParamsVector(ocean, lodIdx, blendOut))) ]
  }

  /** BindData2: the wave-buffer texture and slice, the base binding without
      data, then the ocean params. */
  function BindData2(target: int, ocean: OceanRenderer, lodIdx: nat, applyData: Texture, blendOut: bool, prevFrame: bool): (r: seq<Cmd>)
    requires ocean.Valid() && lodIdx < ocean.CurrentLodCount()
    ensures |r| == 4
    ensures r[0] == Prop(target, SetTexture(WaveBufferThisFrame, applyData))
    ensures r[1] == Prop(target, SetFloat(SliceIndexThisLod, lodIdx as real))
    ensures r[2] == BaseBindData(target, lodIdx, None, blendOut, prevFrame)
    ensures r[3].Prop? && r[3].write.SetVector? && r[3].write.vector.z == ShapeWeight(ocean, lodIdx, blendOut)
  {
    [ Prop(target, SetTexture(WaveBufferThisFrame, applyData)),
      Prop(target, SetFloat(SliceIndexThisLod, lodIdx as real)),
      BaseBindData(target, lodIdx, None, blendOut, prevFrame),
      Prop(target, SetVector(LodTransformOceanParams(prevFrame), OceanParamsVector(ocean, lodIdx, blendOut))) ]
  }

  /** BindData3: as BindData2, for the animated-waves texture. */
  function BindData3(target: int, ocean: OceanRenderer, lodIdx: nat, applyData: Texture, blendOut: bool, prevFrame: bool): (r: seq<Cmd>)
    requires ocean.Valid() && lodIdx < ocean.CurrentLodCount()
    ensures |r| == 4
    ensures r[0] == Prop(target, SetTexture(AnimatedWavesThisFrame, applyData))
    ensures r[1] == Prop(target, SetFloat(SliceIndexThisLod, lodIdx as real))
    ensures r[2] == BaseBindData(target, lodIdx, None, blendOut, prevFrame)
    ensures r[3].Prop? && r[3].write.SetVector? && r[3].write.vector.z == ShapeWeight(ocean, lodIdx, blendOut)
  {
    [ Prop(target, SetTexture(AnimatedWavesThisFrame, applyData)),
      Prop(target, SetFloat(SliceIndexThisLod, lodIdx as real)),
      BaseBindData(target, lodIdx, None, blendOut, prevFrame),
      Prop(target, SetVector(LodTransformOceanParams(prevFrame), OceanParamsVector(ocean, lodIdx, blendOut))) ]
  }

  /** Binds the wave buffer, or the black 2D texture when only params are wanted. */
  function BindWaveBuffer(target: int, ocean: OceanRenderer, lodIdx: nat, paramsOnly: bool, prevFrame: bool): (r: seq<Cmd>)
    requires ocean.Valid() && lodIdx < ocean.CurrentLodCount()
    ensures |r| == 4
    ensures r[0] == Prop(target, SetTexture(WaveBufferThisFrame, if paramsOnly then BlackTexture2D else WaveBuffers))
    ensures r[3].Prop? && r[3].write.SetVector? && r[3].write.vector.z == ShapeWeight(ocean, lodIdx, true)
  {
    BindData2(target, ocean, lodIdx, if paramsOnly then BlackTexture2D else WaveBuffers, true, prevFrame)
  }

  /** Binds the combined result array, or the black texture array when only
      params are wanted. */
  function BindAnimatedWaves(target: int, ocean: OceanRenderer, lodIdx: nat, paramsOnly: bool, prevFrame: bool): (r: seq<Cmd>)
    requires ocean.Valid() && lodIdx < ocean.CurrentLodCount()
    ensures |r| == 4
    ensures r[0] == Prop(target, SetTexture(AnimatedWavesThisFrame, if paramsOnly then BlackTextureArray else Targets))
    ensures r[3].Prop? && r[3].write.SetVector? && r[3].write.vector.z == ShapeWeight(ocean, lodIdx, true)
  {
    BindData3(target, ocean, lodIdx, if paramsOnly then BlackTextureArray else Targets, true, prevFrame)
  }

  const TextureArrayName: string := "_LD_TexArray_AnimatedWaves_"

  /** The sampler parameter of this frame's or the previous frame's result. */
  function ParamIdSampler(prevFrame: bool): (id: ParamId)
    ensures id.Property? && |id.name| > |TextureArrayName| && id.name[..|TextureArrayName|] == TextureArrayName
    ensures id == AnimatedWavesThisFrame <==> !prevFrame
  {
    assert (TextureArrayName + "PrevFrame")[|TextureArrayName|] == 'P';
    assert AnimatedWavesThisFrame.name[|TextureArrayName|] == 'T';
    if prevFrame then Property(TextureArrayName + "PrevFrame") else Property(TextureArrayName + "ThisFrame")
  }

  /** Binds black in place of the animated-waves result. */
  function BindNull(target: int, prevFrame: bool): (r: seq<Cmd>)
    ensures |r| == 1 && r[0].Prop? && r[0].target == target
    ensures r[0].write == SetTexture(ParamIdSampler(prevFrame), BlackTexture2D)
    ensures !prevFrame ==> r[0].write.param == AnimatedWavesThisFrame
  {
    [Prop(target, SetTexture(ParamIdSampler(prevFrame), BlackTexture2D))]
  }

  // ---------------------------------------------------------------------------
  // The frame trace that BuildCommandBuffer appends

  /** SubmitDrawsFiltered (base class): one draw per registered input that the
      filter accepts, in registration order. */
  function SubmitDrawsFiltered(lodIdx: int, inputs: seq<AnimWavesInput>, filter: DrawFilter): (r: seq<Cmd>)
    ensures |r| <= |inputs|
  {
    if inputs == [] then []
    else
      var last := inputs[|inputs| - 1];
      var rest := SubmitDrawsFiltered(lodIdx, inputs[..|inputs| - 1], filter);
      if filter.Filter(last.octaveWavelength) then rest + [DrawInput(last.id, lodIdx)] else rest
  }

  /** One ShapeGerstnerBatched.BuildCommandBuffer call per registered component, in list order. */
  function GerstnerDraws(components: seq<GerstnerId>, lodIdx: int): (r: seq<Cmd>)
    ensures |r| == |components|
  {
    if components == [] then []
    else GerstnerDraws(components[..|components| - 1], lodIdx) + [GerstnerDraw(components[|components| - 1], lodIdx)]
  }

  /** The i-th Gerstner draw of a LOD is the i-th registered component's. */
  lemma {:induction false} GerstnerDrawsElements(components: seq<GerstnerId>, lodIdx: int)
    ensures forall i :: 0 <= i < |components| ==> GerstnerDraws(components, lodIdx)[i] == GerstnerDraw(components[i], lodIdx)
    decreases |components|
  {
    if components != [] {
      var init := components[..|components| - 1];
      GerstnerDrawsElements(init, lodIdx);
      forall i | 0 <= i < |components|
        ensures GerstnerDraws(components, lodIdx)[i] == GerstnerDraw(components[i], lodIdx)
      {
        if i < |init| {
          assert components[i] == init[i];
        }
      }
    }
  }

  /** First loop, one LOD: clear its wave-buffer slice, draw the Gerstner
      components, then the inputs in this LOD's wavelength band. */
  function DrawLodPass(ocean: OceanRenderer, components: seq<GerstnerId>, inputs: seq<AnimWavesInput>, lodIdx: nat): seq<Cmd>
    requires lodIdx < ocean.CurrentLodCount()
  {
    [SetRenderTarget(Slice(WaveBuffers, lodIdx)), ClearRenderTarget, SetGlobalFloat(SliceIndexThisLod, lodIdx as real)]
    + GerstnerDraws(components, lodIdx)
    + SubmitDrawsFiltered(lodIdx, inputs, ByWavelength(LodBand(ocean, lodIdx)))
  }

  /** First loop: DrawLodPass for LODs CurrentLodCount-1 down to `from`. */
  function DrawPasses(ocean: OceanRenderer, components: seq<GerstnerId>, inputs: seq<AnimWavesInput>, from: nat): seq<Cmd>
    decreases ocean.CurrentLodCount() - from
  {
    if from >= ocean.CurrentLodCount() then []
    else DrawPasses(ocean, components, inputs, from + 1) + DrawLodPass(ocean, components, inputs, from)
  }

  /** The coarser LOD's combined result when combining is on and a coarser
      LOD exists, else the black animated-waves binding. */
  function CombineCoarserBinding(ocean: OceanRenderer, lodIdx: nat, shapeCombinePass: bool): seq<Cmd>
    requires ocean.Valid() && lodIdx < ocean.CurrentLodCount()
  {
    if lodIdx < ocean.CurrentLodCount() - 1 && shapeCombinePass
    then [BindResultData(lodIdx, lodIdx)]
    else BindAnimatedWaves(lodIdx, ocean, lodIdx, true, false)
  }

  /** The dynamic-waves result when that simulation is present, else its null binding. */
  function CombineDynWavesBinding(ocean: OceanRenderer, lodIdx: nat): seq<Cmd> {
    if ocean.hasDynWaves
    then [DynWavesBindCopySettings(lodIdx), DynWavesBindResultData(lodIdx, lodIdx)]
    else [DynWavesBindNull(lodIdx)]
  }

  /** The flow result when that simulation is present, else its null binding. */
  function CombineFlowBinding(ocean: OceanRenderer, lodIdx: nat): seq<Cmd> {
    if ocean.hasFlow then [FlowBindResultData(lodIdx, lodIdx)] else [FlowBindNull(lodIdx)]
  }

  lemma DrawPassesStep(ocean: OceanRenderer, components: seq<GerstnerId>, inputs: seq<AnimWavesInput>, lodIdx: nat)
    requires lodIdx < ocean.CurrentLodCount()
    ensures DrawPasses(ocean, components, inputs, lodIdx) ==
            DrawPasses(ocean, components, inputs, lodIdx + 1) + DrawLodPass(ocean, components, inputs, lodIdx)
  {
  }

  /** Second loop, one LOD, before the blit: bind its wave buffer, then the
      coarser combined result (or black), dynamic waves (or their null
      binding) and flow (or its null binding). */
  function CombineBindings(ocean: OceanRenderer, lodIdx: nat, shapeCombinePass: bool): seq<Cmd>
    requires ocean.Valid() && lodIdx < ocean.CurrentLodCount()
  {
    BindWaveBuffer(lodIdx, ocean, lodIdx, false, false)
    + CombineCoarserBinding(ocean, lodIdx, shapeCombinePass)
    + CombineDynWavesBinding(ocean, lodIdx)
    + CombineFlowBinding(ocean, lodIdx)
  }

  /** Second loop, one LOD: the bindings, then the blit into the data texture
      with this LOD's material. */
  function CombineLodPass(ocean: OceanRenderer, lodIdx: nat, shapeCombinePass: bool): seq<Cmd>
    requires ocean.Valid() && lodIdx < ocean.CurrentLodCount()
  {
    CombineBindings(ocean, lodIdx, shapeCombinePass) + [Blit(BlackTexture2D, DataTexture, lodIdx, lodIdx)]
  }

  /** Second loop: CombineLodPass for LODs CurrentLodCount-1 down to `from`. */
  function CombinePasses(ocean: OceanRenderer, shapeCombinePass: bool, from: nat): seq<Cmd>
    requires ocean.Valid()
    decreases ocean.CurrentLodCount() - from
  {
    if from >= ocean.CurrentLodCount() then []
    else CombinePasses(ocean, shapeCombinePass, from + 1) + CombineLodPass(ocean, from, shapeCombinePass)
  }

  lemma CombinePassesStep(ocean: OceanRenderer, shapeCombinePass: bool, lodIdx: nat)
    requires ocean.Valid() && lodIdx < ocean.CurrentLodCount()
    ensures CombinePasses(ocean, shapeCombinePass, lodIdx) ==
            CombinePasses(ocean, shapeCombinePass, lodIdx + 1) + CombineLodPass(ocean, lodIdx, shapeCombinePass)
  {
  }

  /** Concatenation is associative. */
  lemma AppendAssoc<T>(s: seq<T>, a: seq<T>, b: seq<T>)
    ensures s + a + b == s + (a + b)
  {
  }

  lemma AppendAssoc3<T>(s: seq<T>, a: seq<T>, b: seq<T>, c: seq<T>)
    ensures s + a + b + c == s + (a + b + c)
  {
  }

  lemma AppendAssoc4<T>(s: seq<T>, a: seq<T>, b: seq<T>, c: seq<T>, d: seq<T>)
    ensures s + a + b + c + d == s + (a + b + c + d)
  {
  }

  /** Third loop, one LOD: the inputs with no LOD preference, drawn into the LOD's slice of `_targets`. */
  function IndependentLodPass(inputs: seq<AnimWavesInput>, lodIdx: nat): seq<Cmd> {
    [SetRenderTarget(Slice(Targets, lodIdx))]
    + SubmitDrawsFiltered(lodIdx, inputs, NoLodPreference(FilterNoLodPreference))
  }

  /** Third loop: IndependentLodPass for LODs lodCount-1 down to `from`. */
  function IndependentPasses(lodCount: nat, inputs: seq<AnimWavesInput>, from: nat): seq<Cmd>
    decreases lodCount - from
  {
    if from >= lodCount then []
    else IndependentPasses(lodCount, inputs, from + 1) + IndependentLodPass(inputs, from)
  }

  /** Everything one BuildCommandBuffer call appends. */
  function FrameCommands(ocean: OceanRenderer, components: seq<GerstnerId>, inputs: seq<AnimWavesInput>, shapeCombinePass: bool): seq<Cmd>
    requires ocean.Valid()
  {
    [BaseBuildCommandBuffer]
    + DrawPasses(ocean, components, inputs, 0)
    + CombinePasses(ocean, shapeCombinePass, 0)
    + IndependentPasses(ocean.CurrentLodCount(), inputs, 0)
  }

  // ---------------------------------------------------------------------------
  // The Gerstner registration list

  /** List<T>.Remove: deletes the first element equal to `x`, if any. */
  function ListRemove<T(==)>(s: seq<T>, x: T): (r: seq<T>)
    ensures x in s ==> |r| == |s| - 1 && multiset(r) == multiset(s) - multiset{x}
    ensures x !in s ==> r == s
  {
    if s == [] then []
    else
      assert s == [s[0]] + s[1..];
      if s[0] == x then s[1..] else [s[0]] + ListRemove(s[1..], x)
  }

  /** One forwarded ShapeGerstnerBatched.SetOrigin call. */
  datatype OriginShift = SetOriginCall(component: GerstnerId, newOrigin: Vec3)

  class LodDataMgrAnimWaves {
    var gerstnerComponents: seq<GerstnerId>
    /** The filter object reused across LODs; BuildCommandBuffer rewrites its fields per LOD. */
    var filterWavelength: FilterWavelength

    constructor ()
      ensures gerstnerComponents == [] && filterWavelength == FilterWavelength(0.0, 0.0, 0, 0)
    {
      gerstnerComponents := [];
      filterWavelength := FilterWavelength(0.0, 0.0, 0, 0);
    }

    /** Appends this frame's passes to `buf`: the wave-buffer draws, the
        combine pass and the LOD-independent draws, each over the LODs in
        descending order. `inputs` are the inputs registered with the manager;
        `shapeCombinePass` is the static debug switch. */
    method BuildCommandBuffer(ocean: OceanRenderer, inputs: seq<AnimWavesInput>, shapeCombinePass: bool, buf: CommandBuffer)
      requires ocean.Valid()
      modifies this`filterWavelength, buf`cmds
      ensures buf.cmds == old(buf.cmds) + FrameCommands(ocean, gerstnerComponents, inputs, shapeCombinePass)
      ensures filterWavelength ==
                if ocean.CurrentLodCount() == 0 then old(filterWavelength).(lodCount := 0) else LodBand(ocean, 0)
    {
      buf.cmds := buf.cmds + [BaseBuildCommandBuffer];
      DrawLodDependentData(ocean, inputs, buf);
      CombineWaves(ocean, shapeCombinePass, buf);
      DrawLodIndependentData(ocean.CurrentLodCount(), inputs, buf);
      AppendAssoc4(old(buf.cmds), [BaseBuildCommandBuffer], DrawPasses(ocean, gerstnerComponents, inputs, 0),
                   CombinePasses(ocean, shapeCombinePass, 0), IndependentPasses(ocean.CurrentLodCount(), inputs, 0));
    }

    /** BuildCommandBuffer's first loop. */
    method DrawLodDependentData(ocean: OceanRenderer, inputs: seq<AnimWavesInput>, buf: CommandBuffer)
      modifies this`filterWavelength, buf`cmds
      ensures buf.cmds == old(buf.cmds) + DrawPasses(ocean, gerstnerComponents, inputs, 0)
      ensures filterWavelength ==
                if ocean.CurrentLodCount() == 0 then old(filterWavelength).(lodCount := 0) else LodBand(ocean, 0)
    {
      var lodCount: int := ocean.CurrentLodCount();
      filterWavelength := filterWavelength.(lodCount := lodCount);
      ghost var start := buf.cmds;
      var lodIdx: int := lodCount - 1;
      while lodIdx >= 0
        invariant -1 <= lodIdx < lodCount
        invariant buf.cmds == start + DrawPasses(ocean, gerstnerComponents, inputs, lodIdx + 1)
        invariant filterWavelength ==
                    if lodIdx == lodCount - 1 then old(filterWavelength).(lodCount := lodCount) else LodBand(ocean, lodIdx + 1)
      {
        assert filterWavelength.lodCount == lodCount;
        DrawLod(ocean, inputs, lodIdx, buf);
        DrawPassesStep(ocean, gerstnerComponents, inputs, lodIdx);
        AppendAssoc(start, DrawPasses(ocean, gerstnerComponents, inputs, lodIdx + 1), DrawLodPass(ocean, gerstnerComponents, inputs, lodIdx));
        lodIdx := lodIdx - 1;
      }
    }

    /** One iteration of BuildCommandBuffer's first loop; the wavelength
        filter is left set to this LOD's band. */
    method DrawLod(ocean: OceanRenderer, inputs: seq<AnimWavesInput>, lodIdx: nat, buf: CommandBuffer)
      requires lodIdx < ocean.CurrentLodCount() && filterWavelength.lodCount == ocean.CurrentLodCount()
      modifies this`filterWavelength, buf`cmds
      ensures buf.cmds == old(buf.cmds) + DrawLodPass(ocean, gerstnerComponents, inputs, lodIdx)
      ensures filterWavelength == LodBand(ocean, lodIdx)
    {
      ghost var blockStart := buf.cmds;
      buf.cmds := buf.cmds + [SetRenderTarget(Slice(WaveBuffers, lodIdx)), ClearRenderTarget, SetGlobalFloat(SliceIndexThisLod, lodIdx as real)];
      DrawGerstners(lodIdx, buf);

      // band-filtered contributors of this LOD
      filterWavelength := filterWavelength.(lodIdx := lodIdx);
      filterWavelength := filterWavelength.(lodMaxWavelength := ocean.lods[lodIdx].maxWavelength);
      filterWavelength := filterWavelength.(lodMinWavelength := filterWavelength.lodMaxWavelength / 2.0);
      buf.cmds := buf.cmds + SubmitDrawsFiltered(lodIdx, inputs, ByWavelength(filterWavelength));
      assert filterWavelength == LodBand(ocean, lodIdx);
      AppendAssoc3(blockStart, [SetRenderTarget(Slice(WaveBuffers, lodIdx)), ClearRenderTarget, SetGlobalFloat(SliceIndexThisLod, lodIdx as real)],
                   GerstnerDraws(gerstnerComponents, lodIdx), SubmitDrawsFiltered(lodIdx, inputs, ByWavelength(filterWavelength)));
    }

    /** The `foreach` over the Gerstner components for one LOD. */
    method DrawGerstners(lodIdx: int, buf: CommandBuffer)
      modifies buf`cmds
      ensures buf.cmds == old(buf.cmds) + GerstnerDraws(gerstnerComponents, lodIdx)
    {
      ghost var start := buf.cmds;
      for i := 0 to |gerstnerComponents|
        invariant buf.cmds == start + GerstnerDraws(gerstnerComponents[..i], lodIdx)
      {
        buf.cmds := buf.cmds + [GerstnerDraw(gerstnerComponents[i], lodIdx)];
        assert gerstnerComponents[..i + 1][..i] == gerstnerComponents[..i];
      }
      assert gerstnerComponents[..|gerstnerComponents|] == gerstnerComponents;
    }

    /** BuildCommandBuffer's second loop. */
    method CombineWaves(ocean: OceanRenderer, shapeCombinePass: bool, buf: CommandBuffer)
      requires ocean.Valid()
      modifies buf`cmds
      ensures buf.cmds == old(buf.cmds) + CombinePasses(ocean, shapeCombinePass, 0)
    {
      var lodCount: int := ocean.CurrentLodCount();
      ghost var start := buf.cmds;
      var lodIdx: int := lodCount - 1;
      while lodIdx >= 0
        invariant -1 <= lodIdx < lodCount
        invariant buf.cmds == start + CombinePasses(ocean, shapeCombinePass, lodIdx + 1)
      {
        CombineLod(ocean, lodIdx, shapeCombinePass, buf);
        CombinePassesStep(ocean, shapeCombinePass, lodIdx);
        AppendAssoc(start, CombinePasses(ocean, shapeCombinePass, lodIdx + 1), CombineLodPass(ocean, lodIdx, shapeCombinePass));
        lodIdx := lodIdx - 1;
      }
    }

    /** One iteration of BuildCommandBuffer's second loop. */
    method CombineLod(ocean: OceanRenderer, lodIdx: nat, shapeCombinePass: bool, buf: CommandBuffer)
      requires ocean.Valid() && lodIdx < ocean.CurrentLodCount()
      modifies buf`cmds
      ensures buf.cmds == old(buf.cmds) + CombineLodPass(ocean, lodIdx, shapeCombinePass)
    {
      ghost var blockStart := buf.cmds;
      // own wave buffer
      buf.cmds := buf.cmds + BindWaveBuffer(lodIdx, ocean, lodIdx, false, false);
      ghost var afterOwn := buf.cmds;
      // coarser combined result, or black
      if lodIdx < ocean.CurrentLodCount() - 1 && shapeCombinePass {
        buf.cmds := buf.cmds + [BindResultData(lodIdx, lodIdx)];
      } else {
        buf.cmds := buf.cmds + BindAnimatedWaves(lodIdx, ocean, lodIdx, true, false);
      }
      assert buf.cmds == afterOwn + CombineCoarserBinding(ocean, lodIdx, shapeCombinePass);
      ghost var afterCoarser := buf.cmds;
      // dynamic-waves result or its null binding
      if ocean.hasDynWaves {
        buf.cmds := buf.cmds + [DynWavesBindCopySettings(lodIdx), DynWavesBindResultData(lodIdx, lodIdx)];
      } else {
        buf.cmds := buf.cmds + [DynWavesBindNull(lodIdx)];
      }
      assert buf.cmds == afterCoarser + CombineDynWavesBinding(ocean, lodIdx);
      ghost var afterDynWaves := buf.cmds;
      // flow result or its null binding
      if ocean.hasFlow {
        buf.cmds := buf.cmds + [FlowBindResultData(lodIdx, lodIdx)];
      } else {
        buf.cmds := buf.cmds + [FlowBindNull(lodIdx)];
      }
      assert buf.cmds == afterDynWaves + CombineFlowBinding(ocean, lodIdx);
      AppendAssoc4(blockStart, BindWaveBuffer(lodIdx, ocean, lodIdx, false, false),
                   CombineCoarserBinding(ocean, lodIdx, shapeCombinePass), CombineDynWavesBinding(ocean, lodIdx),
                   CombineFlowBinding(ocean, lodIdx));
      assert buf.cmds == blockStart + CombineBindings(ocean, lodIdx, shapeCombinePass);
      buf.cmds := buf.cmds + [Blit(BlackTexture2D, DataTexture, lodIdx, lodIdx)];
      AppendAssoc(blockStart, CombineBindings(ocean, lodIdx, shapeCombinePass), [Blit(BlackTexture2D, DataTexture, lodIdx, lodIdx)]);
    }

    /** BuildCommandBuffer's third loop. */
    method DrawLodIndependentData(lodCount: nat, inputs: seq<AnimWavesInput>, buf: CommandBuffer)
      modifies buf`cmds
      ensures buf.cmds == old(buf.cmds) + IndependentPasses(lodCount, inputs, 0)
    {
      ghost var start := buf.cmds;
      var lodIdx: int := lodCount - 1;
      while lodIdx >= 0
        invariant -1 <= lodIdx < lodCount
        invariant buf.cmds == start + IndependentPasses(lodCount, inputs, lodIdx + 1)
      {
        buf.cmds := buf.cmds + [SetRenderTarget(Slice(Targets, lodIdx))];
        // contributors without a LOD preference
        buf.cmds := buf.cmds + SubmitDrawsFiltered(lodIdx, inputs, NoLodPreference(FilterNoLodPreference));
        assert IndependentPasses(lodCount, inputs, lodIdx) ==
               IndependentPasses(lodCount, inputs, lodIdx + 1) + IndependentLodPass(inputs, lodIdx);
        AppendAssoc(start, IndependentPasses(lodCount, inputs, lodIdx + 1), IndependentLodPass(inputs, lodIdx));
        lodIdx := lodIdx - 1;
      }
    }

    /** Registers a Gerstner component while the ocean exists; once the ocean
        has unloaded the list is cleared instead. */
    method AddGerstnerComponent(gerstner: GerstnerId, oceanInstanceExists: bool)
      modifies this`gerstnerComponents
      ensures gerstnerComponents == if oceanInstanceExists then old(gerstnerComponents) + [gerstner] else []
    {
      if !oceanInstanceExists {
        gerstnerComponents := [];
        return;
      }
      gerstnerComponents := gerstnerComponents + [gerstner];
    }

    /** Deregisters the first matching component while the ocean exists; once
        the ocean has unloaded the list is cleared instead. */
    method RemoveGerstnerComponent(gerstner: GerstnerId, oceanInstanceExists: bool)
      modifies this`gerstnerComponents
      ensures gerstnerComponents == if oceanInstanceExists then ListRemove(old(gerstnerComponents), gerstner) else []
    {
      if !oceanInstanceExists {
        gerstnerComponents := [];
        return;
      }
      gerstnerComponents := ListRemove(gerstnerComponents, gerstner);
    }

    /** Forwards an origin shift to every registered component, once each, in list order. */
    method SetOrigin(newOrigin: Vec3) returns (calls: seq<OriginShift>)
      ensures |calls| == |gerstnerComponents|
      ensures forall i :: 0 <= i < |calls| ==> calls[i] == SetOriginCall(gerstnerComponents[i], newOrigin)
    {
      calls := [];
      for i := 0 to |gerstnerComponents|
        invariant |calls| == i
        invariant forall k :: 0 <= k < i ==> calls[k] == SetOriginCall(gerstnerComponents[k], newOrigin)
      {
        calls := calls + [SetOriginCall(gerstnerComponents[i], newOrigin)];
      }
    }
  }

  // ---------------------------------------------------------------------------
  // Data-LOD query

  /** The LOD rectangle shrunk by one texel on every side. */
  function ShrinkByTexel(rect: Rect, texelWidth: real): (r: Rect)
    ensures r.Min() == Vec2(rect.Min().x + texelWidth, rect.Min().y + texelWidth)
    ensures r.Max() == Vec2(rect.Max().x - texelWidth, rect.Max().y - texelWidth)
  {
    Rect(rect.x + texelWidth, rect.y + texelWidth, rect.width - 2.0 * texelWidth, rect.height - 2.0 * texelWidth)
  }

  /** The one-texel-shrunk rectangle of `lod` contains both corners of the sample area. */
  predicate CoversSampleArea(ocean: OceanRenderer, lod: nat, sampleAreaXZ: Rect)
    requires lod < ocean.CurrentLodCount()
    ensures CoversSampleArea(ocean, lod, sampleAreaXZ) && ocean.lods[lod].renderData.texelWidth >= 0.0 ==>
              ocean.lods[lod].renderData.rectXZ.Contains(sampleAreaXZ.Min())
              && ocean.lods[lod].renderData.rectXZ.Contains(sampleAreaXZ.Max())
  {
    var rd := ocean.lods[lod].renderData;
    var lodRect := ShrinkByTexel(rd.rectXZ, rd.texelWidth);
    lodRect.Contains(sampleAreaXZ.Min()) && lodRect.Contains(sampleAreaXZ.Max())
  }

  /** The smallest wavelengths of `lod` repeat no more than twice across the
      requested length, or `lod` is the coarsest and the best available. */
  predicate ResolvesWavelengths(ocean: OceanRenderer, lod: nat, minSpatialLength: real)
    requires lod < ocean.CurrentLodCount()
    ensures lod == ocean.CurrentLodCount() - 1 ==> ResolvesWavelengths(ocean, lod, minSpatialLength)
    ensures lod < ocean.CurrentLodCount() - 1 ==>
              (ResolvesWavelengths(ocean, lod, minSpatialLength) <==> minSpatialLength <= ocean.lods[lod].maxWavelength)
  {
    var minWavelength := ocean.lods[lod].maxWavelength / 2.0;
    !(minWavelength < minSpatialLength / 2.0 && lod < ocean.CurrentLodCount() - 1)
  }

  predicate SuitableLod(ocean: OceanRenderer, lod: nat, sampleAreaXZ: Rect, minSpatialLength: real)
    requires lod < ocean.CurrentLodCount()
  {
    CoversSampleArea(ocean, lod, sampleAreaXZ) && ResolvesWavelengths(ocean, lod, minSpatialLength)
  }

  /** The first suitable LOD at or after `from`, or -1 when there is none. */
  function FirstSuitableLod(ocean: OceanRenderer, sampleAreaXZ: Rect, minSpatialLength: real, from: nat): (lod: int)
    requires from <= ocean.CurrentLodCount()
    decreases ocean.CurrentLodCount() - from
    ensures lod == -1 || from <= lod < ocean.CurrentLodCount()
    ensures lod != -1 ==> SuitableLod(ocean, lod, sampleAreaXZ, minSpatialLength)
    ensures forall l :: from <= l < ocean.CurrentLodCount() && (lod == -1 || l < lod) ==>
              !SuitableLod(ocean, l, sampleAreaXZ, minSpatialLength)
  {
    if from == ocean.CurrentLodCount() then -1
    else if SuitableLod(ocean, from, sampleAreaXZ, minSpatialLength) then from
    else FirstSuitableLod(ocean, sampleAreaXZ, minSpatialLength, from + 1)
  }

  /** The finest LOD that covers the sample area with a one-texel margin and
      resolves `minSpatialLength`, or -1. */
  method SuggestDataLOD(ocean: OceanRenderer, sampleAreaXZ: Rect, minSpatialLength: real) returns (lod: int)
    ensures lod == -1 || 0 <= lod < ocean.CurrentLodCount()
    ensures lod != -1 ==> SuitableLod(ocean, lod, sampleAreaXZ, minSpatialLength)
    ensures forall l :: 0 <= l < ocean.CurrentLodCount() && (lod == -1 || l < lod) ==>
              !SuitableLod(ocean, l, sampleAreaXZ, minSpatialLength)
    ensures lod == FirstSuitableLod(ocean, sampleAreaXZ, minSpatialLength, 0)
  {
    var lodCount := ocean.CurrentLodCount();
    for l := 0 to lodCount
      invariant forall k :: 0 <= k < l ==> !SuitableLod(ocean, k, sampleAreaXZ, minSpatialLength)
    {
      var lt := ocean.lods[l];

      var lodRect := lt.renderData.rectXZ;
      // lodRect shrinks by one texel on each side, one field at a time
      lodRect := lodRect.(x := lodRect.x + lt.renderData.texelWidth);
      lodRect := lodRect.(y := lodRect.y + lt.renderData.texelWidth);
      lodRect := lodRect.(width := lodRect.width - 2.0 * lt.renderData.texelWidth);
      lodRect := lodRect.(height := lodRect.height - 2.0 * lt.renderData.texelWidth);
      assert lodRect == ShrinkByTexel(lt.renderData.rectXZ, lt.renderData.texelWidth);
      if !lodRect.Contains(sampleAreaXZ.Min()) || !lodRect.Contains(sampleAreaXZ.Max()) {
        continue;
      }

      var minWL := ocean.lods[l].maxWavelength / 2.0;
      if minWL < minSpatialLength / 2.0 && l < lodCount - 1 {
        continue;
      }

      assert SuitableLod(ocean, l, sampleAreaXZ, minSpatialLength);
      return l;
    }
    return -1;
  }

  /** The one-argument overload: the requested length is the shorter side of the sample area. */
  method SuggestDataLODForArea(ocean: OceanRenderer, sampleAreaXZ: Rect) returns (lod: int)
    ensures lod == FirstSuitableLod(ocean, sampleAreaXZ,
                                    if sampleAreaXZ.width <= sampleAreaXZ.height then sampleAreaXZ.width else sampleAreaXZ.height, 0)
  {
    var minSide := if sampleAreaXZ.width <= sampleAreaXZ.height then sampleAreaXZ.width else sampleAreaXZ.height;
    lod := SuggestDataLOD(ocean, sampleAreaXZ, minSide);
  }
}
