/** What the animated-waves manager guarantees: how the wavelength bands
    partition the contributors, what the frame trace does to render targets,
    the order of the combine blits and bindings, the shape-weight rule, the
    monotonicity of the data-LOD query and the registration list. */
module AnimWavesProofs {
  import opened Render
  import opened Ocean
  import opened AnimWaves

  // ===========================================================================
  // Wavelength filters

  /** A LOD's band filter rejects everything below half its max wavelength;
      the coarsest LOD accepts everything from there up, any other LOD only up
      to (excluding) its max. */
  lemma FilterWavelengthBand(ocean: OceanRenderer, lod: nat, w: real)
    requires lod < ocean.CurrentLodCount()
    ensures w < ocean.lods[lod].maxWavelength / 2.0 ==> !LodBand(ocean, lod).Filter(w)
    ensures lod == ocean.CurrentLodCount() - 1 ==>
              (LodBand(ocean, lod).Filter(w) <==> ocean.lods[lod].maxWavelength / 2.0 <= w)
    ensures lod < ocean.CurrentLodCount() - 1 ==>
              (LodBand(ocean, lod).Filter(w) <==> ocean.lods[lod].maxWavelength / 2.0 <= w < ocean.lods[lod].maxWavelength)
  {
  }

  /** A no-preference contributor (wavelength 0) passes the no-preference
      filter and no band whose max wavelength is positive, so the two passes
      never draw the same contributor. */
  lemma NoLodPreferenceDisjointFromBands(ocean: OceanRenderer, lod: nat)
    requires lod < ocean.CurrentLodCount() && ocean.lods[lod].maxWavelength > 0.0
    ensures NoLodPreference(FilterNoLodPreference).Filter(0.0)
    ensures forall w :: NoLodPreference(FilterNoLodPreference).Filter(w) ==> !ByWavelength(LodBand(ocean, lod)).Filter(w)
  {
  }

  /** The LOD max wavelengths double from each LOD to the next coarser one, so
      each LOD's band minimum is the next finer LOD's band maximum. */
  predicate CascadedBands(ocean: OceanRenderer) {
    |ocean.lods| > 0 && ocean.lods[0].maxWavelength > 0.0 &&
    forall i :: 0 < i < |ocean.lods| ==> ocean.lods[i].maxWavelength / 2.0 == ocean.lods[i - 1].maxWavelength
  }

  lemma {:induction false} MaxWavelengthPositive(ocean: OceanRenderer, i: nat)
    requires CascadedBands(ocean) && i < ocean.CurrentLodCount()
    ensures ocean.lods[i].maxWavelength > 0.0
  {
    if i > 0 {
      MaxWavelengthPositive(ocean, i - 1);
    }
  }

  lemma {:induction false} MaxWavelengthGrows(ocean: OceanRenderer, i: nat, j: nat)
    requires CascadedBands(ocean) && i <= j < ocean.CurrentLodCount()
    ensures ocean.lods[i].maxWavelength <= ocean.lods[j].maxWavelength
    decreases j - i
  {
    if i < j {
      MaxWavelengthGrows(ocean, i, j - 1);
      MaxWavelengthPositive(ocean, j - 1);
    }
  }

  /** Searching coarser from a LOD whose band minimum is at or below `w` finds a LOD whose band accepts `w`. */
  lemma {:induction false} BandSearch(ocean: OceanRenderer, w: real, from: nat) returns (lod: nat)
    requires CascadedBands(ocean) && from < ocean.CurrentLodCount()
    requires ocean.lods[from].maxWavelength / 2.0 <= w
    ensures from <= lod < ocean.CurrentLodCount() && LodBand(ocean, lod).Filter(w)
    decreases ocean.CurrentLodCount() - from
  {
    if from == ocean.CurrentLodCount() - 1 || w < ocean.lods[from].maxWavelength {
      lod := from;
    } else {
      lod := BandSearch(ocean, w, from + 1);
    }
  }

  /** With cascaded bands, every wavelength at or above the finest band's
      minimum is accepted by exactly one LOD's band filter. */
  lemma BandsPartitionWavelengths(ocean: OceanRenderer, w: real) returns (lod: nat)
    requires CascadedBands(ocean) && ocean.lods[0].maxWavelength / 2.0 <= w
    ensures lod < ocean.CurrentLodCount()
    ensures forall l :: 0 <= l < ocean.CurrentLodCount() ==> (LodBand(ocean, l).Filter(w) <==> l == lod)
  {
    lod := BandSearch(ocean, w, 0);
    forall l | 0 <= l < ocean.CurrentLodCount()
      ensures LodBand(ocean, l).Filter(w) <==> l == lod
    {
      if l < lod {
        MaxWavelengthGrows(ocean, l, lod - 1);
      } else if l > lod {
        MaxWavelengthGrows(ocean, lod + 1, l);
      }
    }
  }

  /** With cascaded bands, a wavelength below the finest band's
      minimum is accepted by no band. */
  lemma BelowFinestBandAcceptedNowhere(ocean: OceanRenderer, w: real)
    requires CascadedBands(ocean) && w < ocean.lods[0].maxWavelength / 2.0
    ensures forall l :: 0 <= l < ocean.CurrentLodCount() ==> !LodBand(ocean, l).Filter(w)
  {
    forall l | 0 <= l < ocean.CurrentLodCount()
      ensures !LodBand(ocean, l).Filter(w)
    {
      MaxWavelengthGrows(ocean, 0, l);
    }
  }

  /** Five cascaded LODs and a wavelength of three quarters of LOD 2's max:
      only LOD 2 draws it. */
  lemma WavelengthInLodTwoBand(ocean: OceanRenderer)
    requires CascadedBands(ocean) && ocean.CurrentLodCount() == 5
    ensures forall l :: 0 <= l < 5 ==> (LodBand(ocean, l).Filter(ocean.lods[2].maxWavelength * 0.75) <==> l == 2)
  {
    var w := ocean.lods[2].maxWavelength * 0.75;
    MaxWavelengthPositive(ocean, 2);
    MaxWavelengthGrows(ocean, 0, 2);
    var lod := BandsPartitionWavelengths(ocean, w);
    assert LodBand(ocean, 2).Filter(w);
  }

  // ===========================================================================
  // What SubmitDrawsFiltered emits

  /** SubmitDrawsFiltered emits draws at its LOD only, one for each accepted
      input, and nothing for a rejected one. */
  lemma {:induction false} SubmitDrawsFilteredDraws(lod: int, inputs: seq<AnimWavesInput>, filter: DrawFilter)
    ensures forall c :: c in SubmitDrawsFiltered(lod, inputs, filter) ==> c.DrawInput? && c.lod == lod
    ensures forall i :: 0 <= i < |inputs| && filter.Filter(inputs[i].octaveWavelength) ==>
              DrawInput(inputs[i].id, lod) in SubmitDrawsFiltered(lod, inputs, filter)
    ensures forall c :: c in SubmitDrawsFiltered(lod, inputs, filter) ==>
              exists i :: 0 <= i < |inputs| && c.input == inputs[i].id && filter.Filter(inputs[i].octaveWavelength)
    decreases |inputs|
  {
    if inputs != [] {
      var init := inputs[..|inputs| - 1];
      SubmitDrawsFilteredDraws(lod, init, filter);
      assert forall i :: 0 <= i < |init| ==> init[i] == inputs[i];
    }
  }

  /** A single registered input is drawn exactly when the filter accepts it. */
  lemma SubmitDrawsFilteredSingle(lod: int, inp: AnimWavesInput, filter: DrawFilter)
    ensures SubmitDrawsFiltered(lod, [inp], filter) == if filter.Filter(inp.octaveWavelength) then [DrawInput(inp.id, lod)] else []
  {
    assert [inp][..0] == [];
  }

  // ===========================================================================
  // Render targets in the frame trace

  predicate IsDraw(c: Cmd) {
    c.GerstnerDraw? || c.DrawInput?
  }

  /** The active render target and whether it was cleared since it was set. */
  datatype RenderState = RenderState(target: Option<Slice>, cleared: bool)

  /** The effect of one command on the render state. The base pass and a blit
      leave the active target unknown, taken here as none. */
  function Step(s: RenderState, c: Cmd): RenderState {
    match c
    case SetRenderTarget(t) => RenderState(Some(t), false)
    case ClearRenderTarget => s.(cleared := true)
    case BaseBuildCommandBuffer => RenderState(None, false)
    case Blit(_, _, _, _) => RenderState(None, false)
    case _ => s
  }

  function Run(s: RenderState, cmds: seq<Cmd>): RenderState
    decreases |cmds|
  {
    if cmds == [] then s else Run(Step(s, cmds[0]), cmds[1..])
  }

  /** A draw at LOD `l` goes to slice `l` of the active target, a Gerstner
      draw goes into the wave buffers, and a draw into a wave-buffer slice
      comes after that slice was cleared. */
  predicate DrawOk(s: RenderState, c: Cmd) {
    IsDraw(c) ==>
      s.target.Some? && s.target.value.index == c.lod && (s.target.value.texture == WaveBuffers ==> s.cleared)
      && (c.GerstnerDraw? ==> s.target.value.texture == WaveBuffers)
  }

  /** Every draw in `cmds` is DrawOk in the state it is issued in. */
  predicate DrawsOnTheirSlices(s: RenderState, cmds: seq<Cmd>)
    decreases |cmds|
  {
    cmds == [] || (DrawOk(s, cmds[0]) && DrawsOnTheirSlices(Step(s, cmds[0]), cmds[1..]))
  }

  lemma {:induction false} RunAppend(s: RenderState, a: seq<Cmd>, b: seq<Cmd>)
    ensures Run(s, a + b) == Run(Run(s, a), b)
    decreases |a|
  {
    if a == [] {
      assert a + b == b;
    } else {
      assert (a + b)[0] == a[0];
      assert (a + b)[1..] == a[1..] + b;
      RunAppend(Step(s, a[0]), a[1..], b);
    }
  }

  lemma {:induction false} DrawsOnTheirSlicesAppend(s: RenderState, a: seq<Cmd>, b: seq<Cmd>)
    requires DrawsOnTheirSlices(s, a) && DrawsOnTheirSlices(Run(s, a), b)
    ensures DrawsOnTheirSlices(s, a + b)
    decreases |a|
  {
    if a == [] {
      assert a + b == b;
    } else {
      assert (a + b)[0] == a[0];
      assert (a + b)[1..] == a[1..] + b;
      DrawsOnTheirSlicesAppend(Step(s, a[0]), a[1..], b);
    }
  }

  /** Draws at one LOD, issued on that LOD's (cleared, if a wave buffer) slice,
      are all fine and leave the state as it was. */
  lemma {:induction false} DrawsAtSlice(s: RenderState, cmds: seq<Cmd>, lod: int)
    requires forall c :: c in cmds ==> IsDraw(c) && c.lod == lod
    requires s.target.Some? && s.target.value.index == lod && (s.target.value.texture == WaveBuffers ==> s.cleared)
    requires forall c :: c in cmds && c.GerstnerDraw? ==> s.target.value.texture == WaveBuffers
    ensures DrawsOnTheirSlices(s, cmds) && Run(s, cmds) == s
    decreases |cmds|
  {
    if cmds != [] {
      assert cmds[0] in cmds;
      assert forall c :: c in cmds[1..] ==> c in cmds;
      DrawsAtSlice(s, cmds[1..], lod);
    }
  }

  /** Commands that draw nothing never break the property. */
  lemma {:induction false} NoDrawsAnywhere(s: RenderState, cmds: seq<Cmd>)
    requires forall c :: c in cmds ==> !IsDraw(c)
    ensures DrawsOnTheirSlices(s, cmds)
    decreases |cmds|
  {
    if cmds != [] {
      assert cmds[0] in cmds;
      assert forall c :: c in cmds[1..] ==> c in cmds;
      NoDrawsAnywhere(Step(s, cmds[0]), cmds[1..]);
    }
  }

  /** From any state, one LOD of the first loop draws only into its own
      wave-buffer slice, after clearing it. */
  lemma DrawLodPassOnClearedSlice(ocean: OceanRenderer, components: seq<GerstnerId>, inputs: seq<AnimWavesInput>, lod: nat, s: RenderState)
    requires lod < ocean.CurrentLodCount()
    ensures DrawsOnTheirSlices(s, DrawLodPass(ocean, components, inputs, lod))
  {
    var head := [SetRenderTarget(Slice(WaveBuffers, lod)), ClearRenderTarget, SetGlobalFloat(SliceIndexThisLod, lod as real)];
    var g := GerstnerDraws(components, lod);
    var d := SubmitDrawsFiltered(lod, inputs, ByWavelength(LodBand(ocean, lod)));
    var ready := RenderState(Some(Slice(WaveBuffers, lod)), true);
    NoDrawsAnywhere(s, head);
    var targeted := RenderState(Some(Slice(WaveBuffers, lod)), false);
    assert head[1..] == [ClearRenderTarget, SetGlobalFloat(SliceIndexThisLod, lod as real)];
    assert head[1..][1..] == [SetGlobalFloat(SliceIndexThisLod, lod as real)];
    assert Run(ready, head[1..][1..]) == ready by {
      assert head[1..][1..][1..] == [];
    }
    assert Run(targeted, head[1..]) == ready;
    assert Run(s, head) == ready;
    SubmitDrawsFilteredDraws(lod, inputs, ByWavelength(LodBand(ocean, lod)));
    GerstnerDrawsElements(components, lod);
    DrawsAtSlice(ready, g, lod);
    DrawsAtSlice(ready, d, lod);
    DrawsOnTheirSlicesAppend(ready, g, d);
    RunAppend(ready, g, d);
    DrawsOnTheirSlicesAppend(s, head, g + d);
    assert DrawLodPass(ocean, components, inputs, lod) == head + (g + d);
  }

  lemma {:induction false} DrawPassesOnClearedSlices(ocean: OceanRenderer, components: seq<GerstnerId>, inputs: seq<AnimWavesInput>, from: nat, s: RenderState)
    ensures DrawsOnTheirSlices(s, DrawPasses(ocean, components, inputs, from))
    decreases ocean.CurrentLodCount() - from
  {
    if from < ocean.CurrentLodCount() {
      var rest := DrawPasses(ocean, components, inputs, from + 1);
      DrawPassesOnClearedSlices(ocean, components, inputs, from + 1, s);
      DrawLodPassOnClearedSlice(ocean, components, inputs, from, Run(s, rest));
      DrawsOnTheirSlicesAppend(s, rest, DrawLodPass(ocean, components, inputs, from));
    } else {
      assert DrawPasses(ocean, components, inputs, from) == [];
    }
  }

  /** The commands that bind material properties or simulation results. */
  predicate IsBinding(c: Cmd) {
    c.Prop? || c.BaseBindData? || c.BindResultData? || c.DynWavesBindCopySettings? || c.DynWavesBindResultData?
    || c.DynWavesBindNull? || c.FlowBindResultData? || c.FlowBindNull?
  }

  lemma MaterialBindingsAreProps(target: int, ocean: OceanRenderer, lodIdx: nat, paramsOnly: bool, prevFrame: bool)
    requires ocean.Valid() && lodIdx < ocean.CurrentLodCount()
    ensures forall c :: c in BindWaveBuffer(target, ocean, lodIdx, paramsOnly, prevFrame) ==> c.Prop? || c.BaseBindData?
    ensures forall c :: c in BindAnimatedWaves(target, ocean, lodIdx, paramsOnly, prevFrame) ==> c.Prop? || c.BaseBindData?
  {
  }

  lemma CombineBindingsAreBindings(ocean: OceanRenderer, lod: nat, shapeCombinePass: bool)
    requires ocean.Valid() && lod < ocean.CurrentLodCount()
    ensures forall c :: c in CombineBindings(ocean, lod, shapeCombinePass) ==> IsBinding(c)
  {
    MaterialBindingsAreProps(lod, ocean, lod, false, false);
    MaterialBindingsAreProps(lod, ocean, lod, true, false);
  }

  /** The combine loop only binds and blits. */
  lemma {:induction false} CombinePassesCommands(ocean: OceanRenderer, shapeCombinePass: bool, from: nat)
    requires ocean.Valid()
    ensures forall c :: c in CombinePasses(ocean, shapeCombinePass, from) ==> IsBinding(c) || c.Blit?
    decreases ocean.CurrentLodCount() - from
  {
    if from < ocean.CurrentLodCount() {
      CombinePassesCommands(ocean, shapeCombinePass, from + 1);
      CombineBindingsAreBindings(ocean, from, shapeCombinePass);
    }
  }

  lemma {:induction false} IndependentPassesOnTheirSlices(lodCount: nat, inputs: seq<AnimWavesInput>, from: nat, s: RenderState)
    ensures DrawsOnTheirSlices(s, IndependentPasses(lodCount, inputs, from))
    decreases lodCount - from
  {
    if from < lodCount {
      var rest := IndependentPasses(lodCount, inputs, from + 1);
      IndependentPassesOnTheirSlices(lodCount, inputs, from + 1, s);
      var s' := Run(s, rest);
      var head := [SetRenderTarget(Slice(Targets, from))];
      var d := SubmitDrawsFiltered(from, inputs, NoLodPreference(FilterNoLodPreference));
      NoDrawsAnywhere(s', head);
      assert Run(s', head) == RenderState(Some(Slice(Targets, from)), false);
      SubmitDrawsFilteredDraws(from, inputs, NoLodPreference(FilterNoLodPreference));
      DrawsAtSlice(Run(s', head), d, from);
      DrawsOnTheirSlicesAppend(s', head, d);
      DrawsOnTheirSlicesAppend(s, rest, IndependentLodPass(inputs, from));
    } else {
      assert IndependentPasses(lodCount, inputs, from) == [];
    }
  }

  /** Whatever the render state before it, every draw of a frame lands on the
      slice of the LOD it is for, and every draw into a wave-buffer slice comes
      after that slice was cleared. */
  lemma FrameDrawsOnClearedSlices(ocean: OceanRenderer, components: seq<GerstnerId>, inputs: seq<AnimWavesInput>, shapeCombinePass: bool, s: RenderState)
    requires ocean.Valid()
    ensures DrawsOnTheirSlices(s, FrameCommands(ocean, components, inputs, shapeCombinePass))
  {
    var base := [BaseBuildCommandBuffer];
    var draws := DrawPasses(ocean, components, inputs, 0);
    var combine := CombinePasses(ocean, shapeCombinePass, 0);
    var independent := IndependentPasses(ocean.CurrentLodCount(), inputs, 0);
    NoDrawsAnywhere(s, base);
    DrawPassesOnClearedSlices(ocean, components, inputs, 0, Run(s, base));
    DrawsOnTheirSlicesAppend(s, base, draws);
    CombinePassesCommands(ocean, shapeCombinePass, 0);
    NoDrawsAnywhere(Run(s, base + draws), combine);
    DrawsOnTheirSlicesAppend(s, base + draws, combine);
    IndependentPassesOnTheirSlices(ocean.CurrentLodCount(), inputs, 0, Run(s, base + draws + combine));
    DrawsOnTheirSlicesAppend(s, base + draws + combine, independent);
  }

  lemma IndexLeft<T>(a: seq<T>, b: seq<T>, i: nat)
    requires i < |a|
    ensures (a + b)[i] == a[i]
  {
  }

  lemma IndexRight<T>(a: seq<T>, b: seq<T>, i: nat)
    requires i < |b|
    ensures (a + b)[|a| + i] == b[i]
  {
  }

  lemma DrawLodPassStart(ocean: OceanRenderer, components: seq<GerstnerId>, inputs: seq<AnimWavesInput>, lod: nat)
    requires lod < ocean.CurrentLodCount()
    ensures |DrawLodPass(ocean, components, inputs, lod)| >= 2
    ensures DrawLodPass(ocean, components, inputs, lod)[0] == SetRenderTarget(Slice(WaveBuffers, lod))
    ensures DrawLodPass(ocean, components, inputs, lod)[1] == ClearRenderTarget
  {
    var head := [SetRenderTarget(Slice(WaveBuffers, lod)), ClearRenderTarget, SetGlobalFloat(SliceIndexThisLod, lod as real)];
    var g := GerstnerDraws(components, lod);
    var d := SubmitDrawsFiltered(lod, inputs, ByWavelength(LodBand(ocean, lod)));
    IndexLeft(head, g, 0);
    IndexLeft(head, g, 1);
    IndexLeft(head + g, d, 0);
    IndexLeft(head + g, d, 1);
  }

  lemma {:induction false} DrawPassesClearSlice(ocean: OceanRenderer, components: seq<GerstnerId>, inputs: seq<AnimWavesInput>, from: nat, lod: nat) returns (p: nat)
    requires from <= lod < ocean.CurrentLodCount()
    ensures p + 1 < |DrawPasses(ocean, components, inputs, from)|
    ensures DrawPasses(ocean, components, inputs, from)[p] == SetRenderTarget(Slice(WaveBuffers, lod))
    ensures DrawPasses(ocean, components, inputs, from)[p + 1] == ClearRenderTarget
    decreases ocean.CurrentLodCount() - from
  {
    var rest := DrawPasses(ocean, components, inputs, from + 1);
    var block := DrawLodPass(ocean, components, inputs, from);
    assert DrawPasses(ocean, components, inputs, from) == rest + block;
    if from == lod {
      p := |rest|;
      DrawLodPassStart(ocean, components, inputs, lod);
      IndexRight(rest, block, 0);
      IndexRight(rest, block, 1);
    } else {
      p := DrawPassesClearSlice(ocean, components, inputs, from + 1, lod);
      IndexLeft(rest, block, p);
      IndexLeft(rest, block, p + 1);
    }
  }

  /** Every LOD's wave-buffer slice is made the render target and cleared each
      frame, whether or not anything is drawn into it. */
  lemma EverySliceClearedEachFrame(ocean: OceanRenderer, components: seq<GerstnerId>, inputs: seq<AnimWavesInput>, shapeCombinePass: bool, lod: nat) returns (p: nat)
    requires ocean.Valid() && lod < ocean.CurrentLodCount()
    ensures p + 1 < |FrameCommands(ocean, components, inputs, shapeCombinePass)|
    ensures FrameCommands(ocean, components, inputs, shapeCombinePass)[p] == SetRenderTarget(Slice(WaveBuffers, lod))
    ensures FrameCommands(ocean, components, inputs, shapeCombinePass)[p + 1] == ClearRenderTarget
  {
    var q := DrawPassesClearSlice(ocean, components, inputs, 0, lod);
    var base := [BaseBuildCommandBuffer];
    var draws := DrawPasses(ocean, components, inputs, 0);
    var combine := CombinePasses(ocean, shapeCombinePass, 0);
    var independent := IndependentPasses(ocean.CurrentLodCount(), inputs, 0);
    p := 1 + q;
    IndexRight(base, draws, q);
    IndexRight(base, draws, q + 1);
    IndexLeft(base + draws, combine, p);
    IndexLeft(base + draws, combine, p + 1);
    IndexLeft(base + draws + combine, independent, p);
    IndexLeft(base + draws + combine, independent, p + 1);
  }

  /** With nothing registered, a frame draws nothing at all (so every slice stays cleared). */
  lemma NothingRegisteredDrawsNothing(ocean: OceanRenderer, shapeCombinePass: bool)
    requires ocean.Valid()
    ensures forall c :: c in FrameCommands(ocean, [], [], shapeCombinePass) ==> !IsDraw(c)
  {
    NoContributorDraws(ocean, 0);
    CombinePassesCommands(ocean, shapeCombinePass, 0);
    NoInputIndependentDraws(ocean.CurrentLodCount(), 0);
  }

  lemma {:induction false} NoContributorDraws(ocean: OceanRenderer, from: nat)
    ensures forall c :: c in DrawPasses(ocean, [], [], from) ==> !IsDraw(c)
    decreases ocean.CurrentLodCount() - from
  {
    if from < ocean.CurrentLodCount() {
      NoContributorDraws(ocean, from + 1);
      assert GerstnerDraws([], from) == [];
      assert SubmitDrawsFiltered(from, [], ByWavelength(LodBand(ocean, from))) == [];
    }
  }

  lemma {:induction false} NoInputIndependentDraws(lodCount: nat, from: nat)
    ensures forall c :: c in IndependentPasses(lodCount, [], from) ==> !IsDraw(c)
    decreases lodCount - from
  {
    if from < lodCount {
      NoInputIndependentDraws(lodCount, from + 1);
      assert SubmitDrawsFiltered(from, [], NoLodPreference(FilterNoLodPreference)) == [];
    }
  }

  // ===========================================================================
  // The combine blits

  /** The slices of the blits in a trace, in order. */
  function BlitSlices(cmds: seq<Cmd>): seq<int>
    decreases |cmds|
  {
    if cmds == [] then [] else (if cmds[0].Blit? then [cmds[0].slice] else []) + BlitSlices(cmds[1..])
  }

  lemma {:induction false} BlitSlicesAppend(a: seq<Cmd>, b: seq<Cmd>)
    ensures BlitSlices(a + b) == BlitSlices(a) + BlitSlices(b)
    decreases |a|
  {
    if a == [] {
      assert a + b == b;
    } else {
      assert (a + b)[0] == a[0];
      assert (a + b)[1..] == a[1..] + b;
      BlitSlicesAppend(a[1..], b);
    }
  }

  lemma {:induction false} NoBlitNoSlices(cmds: seq<Cmd>)
    requires forall c :: c in cmds ==> !c.Blit?
    ensures BlitSlices(cmds) == []
    decreases |cmds|
  {
    if cmds != [] {
      assert cmds[0] in cmds;
      assert forall c :: c in cmds[1..] ==> c in cmds;
      NoBlitNoSlices(cmds[1..]);
    }
  }

  lemma {:induction false} DrawPassesCommands(ocean: OceanRenderer, components: seq<GerstnerId>, inputs: seq<AnimWavesInput>, from: nat)
    ensures forall c :: c in DrawPasses(ocean, components, inputs, from) ==>
              c.SetRenderTarget? || c.ClearRenderTarget? || c.SetGlobalFloat? || IsDraw(c)
    decreases ocean.CurrentLodCount() - from
  {
    if from < ocean.CurrentLodCount() {
      DrawPassesCommands(ocean, components, inputs, from + 1);
      SubmitDrawsFilteredDraws(from, inputs, ByWavelength(LodBand(ocean, from)));
      GerstnerDrawsElements(components, from);
    }
  }

  lemma {:induction false} IndependentPassesCommands(lodCount: nat, inputs: seq<AnimWavesInput>, from: nat)
    ensures forall c :: c in IndependentPasses(lodCount, inputs, from) ==> c.SetRenderTarget? || c.DrawInput?
    decreases lodCount - from
  {
    if from < lodCount {
      IndependentPassesCommands(lodCount, inputs, from + 1);
      SubmitDrawsFilteredDraws(from, inputs, NoLodPreference(FilterNoLodPreference));
    }
  }

  /** The LOD indices hi-1 down to lo. */
  function Descending(hi: nat, lo: nat): seq<int>
    decreases hi - lo
  {
    if lo >= hi then [] else Descending(hi, lo + 1) + [lo]
  }

  lemma {:induction false} DescendingAt(hi: nat, lo: nat)
    requires lo <= hi
    ensures |Descending(hi, lo)| == hi - lo
    ensures forall i :: 0 <= i < hi - lo ==> Descending(hi, lo)[i] == hi - 1 - i
    decreases hi - lo
  {
    if lo < hi {
      DescendingAt(hi, lo + 1);
    }
  }

  /** One LOD's combine pass blits exactly once, into its own slice. */
  lemma CombineLodPassBlits(ocean: OceanRenderer, lod: nat, shapeCombinePass: bool)
    requires ocean.Valid() && lod < ocean.CurrentLodCount()
    ensures BlitSlices(CombineLodPass(ocean, lod, shapeCombinePass)) == [lod]
  {
    var bindings := CombineBindings(ocean, lod, shapeCombinePass);
    var blit := [Blit(BlackTexture2D, DataTexture, lod, lod)];
    CombineBindingsAreBindings(ocean, lod, shapeCombinePass);
    NoBlitNoSlices(bindings);
    assert BlitSlices(blit) == [lod];
    BlitSlicesAppend(bindings, blit);
  }

  lemma {:induction false} CombinePassesBlits(ocean: OceanRenderer, shapeCombinePass: bool, from: nat)
    requires ocean.Valid()
    ensures BlitSlices(CombinePasses(ocean, shapeCombinePass, from)) == Descending(ocean.CurrentLodCount(), from)
    decreases ocean.CurrentLodCount() - from
  {
    if from < ocean.CurrentLodCount() {
      CombinePassesBlits(ocean, shapeCombinePass, from + 1);
      CombineLodPassBlits(ocean, from, shapeCombinePass);
      BlitSlicesAppend(CombinePasses(ocean, shapeCombinePass, from + 1), CombineLodPass(ocean, from, shapeCombinePass));
    } else {
      assert CombinePasses(ocean, shapeCombinePass, from) == [];
    }
  }

  lemma DrawPassesHaveNoBlits(ocean: OceanRenderer, components: seq<GerstnerId>, inputs: seq<AnimWavesInput>)
    ensures BlitSlices(DrawPasses(ocean, components, inputs, 0)) == []
  {
    DrawPassesCommands(ocean, components, inputs, 0);
    NoBlitNoSlices(DrawPasses(ocean, components, inputs, 0));
  }

  lemma IndependentPassesHaveNoBlits(lodCount: nat, inputs: seq<AnimWavesInput>)
    ensures BlitSlices(IndependentPasses(lodCount, inputs, 0)) == []
  {
    IndependentPassesCommands(lodCount, inputs, 0);
    NoBlitNoSlices(IndependentPasses(lodCount, inputs, 0));
  }

  /** Blits of four concatenated parts, only the third of which blits. */
  lemma OnlyCombineBlits(base: seq<Cmd>, draws: seq<Cmd>, combine: seq<Cmd>, independent: seq<Cmd>)
    requires BlitSlices(base) == [] && BlitSlices(draws) == [] && BlitSlices(independent) == []
    ensures BlitSlices(base + draws + combine + independent) == BlitSlices(combine)
  {
    BlitSlicesAppend(base, draws);
    BlitSlicesAppend(base + draws, combine);
    BlitSlicesAppend(base + draws + combine, independent);
  }

  /** A frame blits exactly once per LOD, from the coarsest LOD down to LOD 0. */
  lemma FrameBlitsOncePerLodDescending(ocean: OceanRenderer, components: seq<GerstnerId>, inputs: seq<AnimWavesInput>, shapeCombinePass: bool)
    requires ocean.Valid()
    ensures |BlitSlices(FrameCommands(ocean, components, inputs, shapeCombinePass))| == ocean.CurrentLodCount()
    ensures forall i :: 0 <= i < ocean.CurrentLodCount() ==>
              BlitSlices(FrameCommands(ocean, components, inputs, shapeCombinePass))[i] == ocean.CurrentLodCount() - 1 - i
  {
    var base := [BaseBuildCommandBuffer];
    var draws := DrawPasses(ocean, components, inputs, 0);
    var combine := CombinePasses(ocean, shapeCombinePass, 0);
    var independent := IndependentPasses(ocean.CurrentLodCount(), inputs, 0);
    assert BlitSlices(base) == [] by {
      assert base[1..] == [];
    }
    DrawPassesHaveNoBlits(ocean, components, inputs);
    IndependentPassesHaveNoBlits(ocean.CurrentLodCount(), inputs);
    CombinePassesBlits(ocean, shapeCombinePass, 0);
    DescendingAt(ocean.CurrentLodCount(), 0);
    OnlyCombineBlits(base, draws, combine, independent);
    assert BlitSlices(FrameCommands(ocean, components, inputs, shapeCombinePass)) == Descending(ocean.CurrentLodCount(), 0);
  }

  // ===========================================================================
  // What one LOD's combine pass binds

  lemma ParamNamesDistinct()
    ensures WaveBufferThisFrame != AnimatedWavesThisFrame
  {
    assert WaveBufferThisFrame.name[13] == 'W';
    assert AnimatedWavesThisFrame.name[13] == 'A';
  }

  /** BindData2 and BindData3 differ from the BindData override only in the
      texture and slice writes they put first; the base binding then gets no data. */
  lemma BindDataCopiesShareTail(target: int, ocean: OceanRenderer, lodIdx: nat, applyData: Texture, blendOut: bool, prevFrame: bool)
    requires ocean.Valid() && lodIdx < ocean.CurrentLodCount()
    ensures BindData2(target, ocean, lodIdx, applyData, blendOut, prevFrame)[2..]
            == BindData(target, ocean, lodIdx, None, blendOut, prevFrame)
    ensures BindData3(target, ocean, lodIdx, applyData, blendOut, prevFrame)[2..]
            == BindData(target, ocean, lodIdx, None, blendOut, prevFrame)
    ensures BindData2(target, ocean, lodIdx, applyData, blendOut, prevFrame)[..2]
            != BindData3(target, ocean, lodIdx, applyData, blendOut, prevFrame)[..2]
  {
    ParamNamesDistinct();
    assert BindData2(target, ocean, lodIdx, applyData, blendOut, prevFrame)[..2][0]
           != BindData3(target, ocean, lodIdx, applyData, blendOut, prevFrame)[..2][0];
  }

  /** The combine pass of one LOD first binds its own wave buffer and ends
      with the blit of that LOD. */
  lemma CombineLodPassEnds(ocean: OceanRenderer, lod: nat, shapeCombinePass: bool)
    requires ocean.Valid() && lod < ocean.CurrentLodCount()
    ensures CombineLodPass(ocean, lod, shapeCombinePass)[0] == Prop(lod, SetTexture(WaveBufferThisFrame, WaveBuffers))
    ensures CombineLodPass(ocean, lod, shapeCombinePass)[|CombineLodPass(ocean, lod, shapeCombinePass)| - 1]
            == Blit(BlackTexture2D, DataTexture, lod, lod)
  {
    var w := BindWaveBuffer(lod, ocean, lod, false, false);
    var rest := CombineCoarserBinding(ocean, lod, shapeCombinePass) + CombineDynWavesBinding(ocean, lod) + CombineFlowBinding(ocean, lod);
    var blit := [Blit(BlackTexture2D, DataTexture, lod, lod)];
    AppendAssoc3(w, CombineCoarserBinding(ocean, lod, shapeCombinePass), CombineDynWavesBinding(ocean, lod), CombineFlowBinding(ocean, lod));
    IndexLeft(w, rest, 0);
    IndexLeft(CombineBindings(ocean, lod, shapeCombinePass), blit, 0);
    IndexRight(CombineBindings(ocean, lod, shapeCombinePass), blit, 0);
  }

  /** A LOD's combine pass binds the coarser combined result exactly when a
      coarser LOD exists and combining is on, and the black animated waves
      otherwise. */
  lemma CombineCoarserSelection(ocean: OceanRenderer, lod: nat, shapeCombinePass: bool)
    requires ocean.Valid() && lod < ocean.CurrentLodCount()
    ensures BindResultData(lod, lod) in CombineLodPass(ocean, lod, shapeCombinePass)
            <==> lod < ocean.CurrentLodCount() - 1 && shapeCombinePass
    ensures Prop(lod, SetTexture(AnimatedWavesThisFrame, BlackTextureArray)) in CombineLodPass(ocean, lod, shapeCombinePass)
            <==> !(lod < ocean.CurrentLodCount() - 1 && shapeCombinePass)
  {
    var w := BindWaveBuffer(lod, ocean, lod, false, false);
    MaterialBindingsAreProps(lod, ocean, lod, false, false);
    MaterialBindingsAreProps(lod, ocean, lod, true, false);
    ParamNamesDistinct();
    assert Prop(lod, SetTexture(AnimatedWavesThisFrame, BlackTextureArray)) !in w;
  }

  /** Dynamic waves are bound either to their result or to their null
      binding, never both and never neither; likewise flow. */
  lemma CombineSimulationSelection(ocean: OceanRenderer, lod: nat, shapeCombinePass: bool)
    requires ocean.Valid() && lod < ocean.CurrentLodCount()
    ensures DynWavesBindResultData(lod, lod) in CombineLodPass(ocean, lod, shapeCombinePass) <==> ocean.hasDynWaves
    ensures DynWavesBindNull(lod) in CombineLodPass(ocean, lod, shapeCombinePass) <==> !ocean.hasDynWaves
    ensures FlowBindResultData(lod, lod) in CombineLodPass(ocean, lod, shapeCombinePass) <==> ocean.hasFlow
    ensures FlowBindNull(lod) in CombineLodPass(ocean, lod, shapeCombinePass) <==> !ocean.hasFlow
  {
    var prefix := BindWaveBuffer(lod, ocean, lod, false, false) + CombineCoarserBinding(ocean, lod, shapeCombinePass);
    var dynWaves := CombineDynWavesBinding(ocean, lod);
    var flow := CombineFlowBinding(ocean, lod);
    var blit := [Blit(BlackTexture2D, DataTexture, lod, lod)];
    assert CombineLodPass(ocean, lod, shapeCombinePass) == prefix + dynWaves + flow + blit;
    CombinePrefixKinds(ocean, lod, shapeCombinePass);
    InParts(DynWavesBindResultData(lod, lod), prefix, dynWaves, flow, blit);
    InParts(DynWavesBindNull(lod), prefix, dynWaves, flow, blit);
    InParts(FlowBindResultData(lod, lod), prefix, dynWaves, flow, blit);
    InParts(FlowBindNull(lod), prefix, dynWaves, flow, blit);
  }

  /** Before the simulation bindings, a combine pass makes only material
      writes, base bindings and the coarser-result binding. */
  lemma CombinePrefixKinds(ocean: OceanRenderer, lod: nat, shapeCombinePass: bool)
    requires ocean.Valid() && lod < ocean.CurrentLodCount()
    ensures forall c :: c in BindWaveBuffer(lod, ocean, lod, false, false) + CombineCoarserBinding(ocean, lod, shapeCombinePass) ==>
              c.Prop? || c.BaseBindData? || c.BindResultData?
  {
    MaterialBindingsAreProps(lod, ocean, lod, false, false);
    MaterialBindingsAreProps(lod, ocean, lod, true, false);
  }

  lemma InParts(x: Cmd, a: seq<Cmd>, b: seq<Cmd>, c: seq<Cmd>, d: seq<Cmd>)
    ensures x in a + b + c + d <==> x in a || x in b || x in c || x in d
  {
  }

  /** In the combine pass every ocean-params vector carries shape weight 1,
      except on the coarsest LOD when the ocean may scale down, where it
      carries the viewer-altitude alpha. */
  lemma CombineShapeWeights(ocean: OceanRenderer, lod: nat, shapeCombinePass: bool)
    requires ocean.Valid() && lod < ocean.CurrentLodCount()
    ensures forall c :: c in CombineLodPass(ocean, lod, shapeCombinePass) && c.Prop? && c.write.SetVector? ==>
              c.write.vector.z ==
                if lod == ocean.CurrentLodCount() - 1 && ocean.scaleCouldDecrease then ocean.viewerAltitudeLevelAlpha else 1.0
  {
  }

  /** The shape weight of every bind: the viewer-altitude alpha exactly on the
      coarsest LOD of an ocean that may scale down, when blending out. */
  lemma ShapeWeightRule(ocean: OceanRenderer, lodIdx: nat, blendOut: bool)
    requires ocean.Valid() && lodIdx < ocean.CurrentLodCount()
    ensures lodIdx < ocean.CurrentLodCount() - 1 || !ocean.scaleCouldDecrease || !blendOut ==>
              OceanParamsVector(ocean, lodIdx, blendOut).z == 1.0
    ensures lodIdx == ocean.CurrentLodCount() - 1 && ocean.scaleCouldDecrease && blendOut ==>
              OceanParamsVector(ocean, lodIdx, blendOut).z == ocean.viewerAltitudeLevelAlpha
    ensures BindData(lodIdx, ocean, lodIdx, None, blendOut, false)[1].write.vector == OceanParamsVector(ocean, lodIdx, blendOut)
  {
  }

  // ===========================================================================
  // Params-only bindings

  /** The textures a sequence of commands binds. */
  predicate BindsTexture(cmds: seq<Cmd>, t: Texture) {
    exists c :: c in cmds && c.Prop? && c.write.SetTexture? && c.write.texture == t
  }

  /** A params-only wave-buffer binding binds the black texture and never the
      wave buffer; otherwise it binds the wave buffer and not black. */
  lemma BindWaveBufferParamsOnly(target: int, ocean: OceanRenderer, lodIdx: nat, paramsOnly: bool, prevFrame: bool)
    requires ocean.Valid() && lodIdx < ocean.CurrentLodCount()
    ensures BindsTexture(BindWaveBuffer(target, ocean, lodIdx, paramsOnly, prevFrame), WaveBuffers) <==> !paramsOnly
    ensures BindsTexture(BindWaveBuffer(target, ocean, lodIdx, paramsOnly, prevFrame), BlackTexture2D) <==> paramsOnly
  {
    var r := BindWaveBuffer(target, ocean, lodIdx, paramsOnly, prevFrame);
    assert r[0] in r;
  }

  /** A params-only animated-waves binding binds the black texture array and
      never the result array; otherwise the result array and not black. */
  lemma BindAnimatedWavesParamsOnly(target: int, ocean: OceanRenderer, lodIdx: nat, paramsOnly: bool, prevFrame: bool)
    requires ocean.Valid() && lodIdx < ocean.CurrentLodCount()
    ensures BindsTexture(BindAnimatedWaves(target, ocean, lodIdx, paramsOnly, prevFrame), Targets) <==> !paramsOnly
    ensures BindsTexture(BindAnimatedWaves(target, ocean, lodIdx, paramsOnly, prevFrame), BlackTextureArray) <==> paramsOnly
  {
    var r := BindAnimatedWaves(target, ocean, lodIdx, paramsOnly, prevFrame);
    assert r[0] in r;
  }

  /** The two sampler ids differ, and this frame's is the one BindData3 writes. */
  lemma ParamIdSamplerIds()
    ensures ParamIdSampler(true) != ParamIdSampler(false)
    ensures ParamIdSampler(false) == AnimatedWavesThisFrame
    ensures BindNull(0, false)[0].write == SetTexture(AnimatedWavesThisFrame, BlackTexture2D)
  {
    assert ParamIdSampler(true).name[|TextureArrayName|] == 'P';
    assert ParamIdSampler(false).name[|TextureArrayName|] == 'T';
  }

  // ===========================================================================
  // Contributors without a LOD preference

  lemma {:induction false} IndependentPassesContain(lodCount: nat, inputs: seq<AnimWavesInput>, from: nat, lod: nat)
    requires from <= lod < lodCount
    ensures forall c :: c in IndependentLodPass(inputs, lod) ==> c in IndependentPasses(lodCount, inputs, from)
    decreases lodCount - from
  {
    if from < lod {
      IndependentPassesContain(lodCount, inputs, from + 1, lod);
    }
  }

  lemma {:induction false} ZeroWavelengthNotInBands(ocean: OceanRenderer, components: seq<GerstnerId>, inp: AnimWavesInput, from: nat)
    requires inp.octaveWavelength == 0.0
    requires forall l :: 0 <= l < ocean.CurrentLodCount() ==> ocean.lods[l].maxWavelength > 0.0
    ensures forall c :: c in DrawPasses(ocean, components, [inp], from) ==> !c.DrawInput?
    decreases ocean.CurrentLodCount() - from
  {
    if from < ocean.CurrentLodCount() {
      ZeroWavelengthNotInBands(ocean, components, inp, from + 1);
      SubmitDrawsFilteredSingle(from, inp, ByWavelength(LodBand(ocean, from)));
      GerstnerDrawsElements(components, from);
    }
  }

  /** A single no-preference contributor is drawn into every LOD's result
      slice, and never by the wavelength-band pass. */
  lemma NoPreferenceDrawnIntoEveryLod(ocean: OceanRenderer, components: seq<GerstnerId>, inp: AnimWavesInput)
    requires inp.octaveWavelength == 0.0
    requires forall l :: 0 <= l < ocean.CurrentLodCount() ==> ocean.lods[l].maxWavelength > 0.0
    ensures forall l :: 0 <= l < ocean.CurrentLodCount() ==>
              DrawInput(inp.id, l) in IndependentPasses(ocean.CurrentLodCount(), [inp], 0)
    ensures forall c :: c in DrawPasses(ocean, components, [inp], 0) ==> !c.DrawInput?
  {
    forall l | 0 <= l < ocean.CurrentLodCount()
      ensures DrawInput(inp.id, l) in IndependentPasses(ocean.CurrentLodCount(), [inp], 0)
    {
      SubmitDrawsFilteredSingle(l, inp, NoLodPreference(FilterNoLodPreference));
      assert DrawInput(inp.id, l) in IndependentLodPass([inp], l);
      IndependentPassesContain(ocean.CurrentLodCount(), [inp], 0, l);
    }
    ZeroWavelengthNotInBands(ocean, components, inp, 0);
  }

  // ===========================================================================
  // Data-LOD query

  /** Asking for a longer minimum spatial length never yields a finer LOD:
      the new answer is -1 or at least the old one. */
  lemma SuggestDataLODMonotonic(ocean: OceanRenderer, sampleAreaXZ: Rect, shorter: real, longer: real)
    requires shorter <= longer
    ensures var before := FirstSuitableLod(ocean, sampleAreaXZ, shorter, 0);
            var after := FirstSuitableLod(ocean, sampleAreaXZ, longer, 0);
            after == -1 || (before != -1 && before <= after)
  {
    var before := FirstSuitableLod(ocean, sampleAreaXZ, shorter, 0);
    var after := FirstSuitableLod(ocean, sampleAreaXZ, longer, 0);
    if after != -1 {
      assert SuitableLod(ocean, after, sampleAreaXZ, longer);
      assert SuitableLod(ocean, after, sampleAreaXZ, shorter);
    }
  }

  /** A point inside the shrunk rectangle stays inside the LOD's rectangle when
      moved by up to one texel along either axis, so finite differences fit. */
  lemma ShrunkRectKeepsNeighboursInside(rect: Rect, texelWidth: real, p: Vec2)
    requires texelWidth >= 0.0 && ShrinkByTexel(rect, texelWidth).Contains(p)
    ensures rect.Contains(Vec2(p.x - texelWidth, p.y - texelWidth))
    ensures rect.Contains(Vec2(p.x + texelWidth, p.y + texelWidth))
  {
  }

  /** A sample area exactly equal to a LOD's shrunk rectangle is not covered by
      that LOD: its max corner lies on the excluded edge. */
  lemma SampleAreaOnShrunkEdgeNotCovered(ocean: OceanRenderer, lod: nat)
    requires lod < ocean.CurrentLodCount()
    ensures var rd := ocean.lods[lod].renderData;
            !CoversSampleArea(ocean, lod, ShrinkByTexel(rd.rectXZ, rd.texelWidth))
  {
  }

  // ===========================================================================
  // The registration list

  /** List.Remove deletes exactly the first occurrence. */
  lemma {:induction false} ListRemoveFirstOccurrence<T>(s: seq<T>, x: T, i: nat)
    requires i < |s| && s[i] == x && x !in s[..i]
    ensures ListRemove(s, x) == s[..i] + s[i + 1..]
    decreases i
  {
    if i > 0 {
      assert s[0] in s[..i];
      assert ListRemove(s, x) == [s[0]] + ListRemove(s[1..], x);
      assert s[1..][..i - 1] == s[1..i];
      ListRemoveFirstOccurrence(s[1..], x, i - 1);
      assert s[1..][i..] == s[i + 1..];
      assert s[..i] == [s[0]] + s[1..i];
    }
  }

  /** Removing a component that was just added to a list not holding it restores the list. */
  lemma RemoveUndoesAdd<T>(s: seq<T>, x: T)
    requires x !in s
    ensures ListRemove(s + [x], x) == s
  {
    assert (s + [x])[..|s|] == s;
    ListRemoveFirstOccurrence(s + [x], x, |s|);
    assert (s + [x])[|s| + 1..] == [];
  }
}
