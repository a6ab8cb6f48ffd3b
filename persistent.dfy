/** One step of a persistent simulation that follows a displacement LOD
    (LodDataPersistent): the clamped timestep, the ocean-scale tracking that
    picks which LOD's previous result to read from, and the one-time creation
    of the command buffer that advances the simulation. */
module Persistent {
  import opened Render

  /** MAX_SIM_DELTA_TIME: the simulation never steps by more than 1/30 s. */
  const MAX_SIM_DELTA_TIME: real := 1.0 / 30.0

  /** The previous-step timestep before the first step. */
  const INITIAL_SIM_DELTA_TIME_PREV: real := 1.0 / 60.0

  /** The "no ocean scale seen yet" value of the previous ocean scale. */
  const SCALE_NOT_SEEN: real := -1.0

  /** SimDeltaTime = Mathf.Min(Time.deltaTime, MAX_SIM_DELTA_TIME). */
  function SimDeltaTime(deltaTime: real): (dt: real)
    ensures dt <= MAX_SIM_DELTA_TIME
    ensures deltaTime <= MAX_SIM_DELTA_TIME ==> dt == deltaTime
    ensures deltaTime >= MAX_SIM_DELTA_TIME ==> dt == MAX_SIM_DELTA_TIME
  {
    if deltaTime < MAX_SIM_DELTA_TIME then deltaTime else MAX_SIM_DELTA_TIME
  }

  /** The ratio of this step's ocean scale to the previous one; on the first
      step (sentinel) the previous scale is taken to be the current one. */
  function ScaleRatio(oceanLocalScale: real, oceanLocalScalePrev: real): (ratio: real)
    requires oceanLocalScale > 0.0
    requires oceanLocalScalePrev == SCALE_NOT_SEEN || oceanLocalScalePrev > 0.0
    ensures ratio > 0.0
    ensures oceanLocalScalePrev == SCALE_NOT_SEEN ==> ratio == 1.0
    ensures oceanLocalScalePrev > 0.0 ==> ratio * oceanLocalScalePrev == oceanLocalScale
  {
    var prev := if oceanLocalScalePrev == SCALE_NOT_SEEN then oceanLocalScale else oceanLocalScalePrev;
    oceanLocalScale / prev
  }

  /** The LOD whose previous result this step reads: the simulation's own LOD
      shifted by round(log2(ratio)). The floating-point log and rounding are
      the parameter `roundLog2`. */
  function SourceLodIndex(lodIndex: int, oceanLocalScale: real, oceanLocalScalePrev: real, roundLog2: real -> int): (src: int)
    requires oceanLocalScale > 0.0
    requires oceanLocalScalePrev == SCALE_NOT_SEEN || oceanLocalScalePrev > 0.0
    ensures oceanLocalScalePrev == SCALE_NOT_SEEN ==> src == lodIndex + roundLog2(1.0)
    ensures oceanLocalScalePrev == oceanLocalScale ==> src == lodIndex + roundLog2(1.0)
  {
    lodIndex + roundLog2(ScaleRatio(oceanLocalScale, oceanLocalScalePrev))
  }

  /** 2 to the power k, for any integer k. */
  function Pow2(k: int): (p: real)
    ensures p > 0.0
    decreases if k < 0 then -k else k
  {
    if k == 0 then 1.0 else if k > 0 then 2.0 * Pow2(k - 1) else Pow2(k + 1) / 2.0
  }

  /** What is taken of round(log2(x)): it is exact on powers of two. */
  ghost predicate RoundsPowersOfTwoExactly(roundLog2: real -> int) {
    forall k: int :: roundLog2(Pow2(k)) == k
  }

  /** Where the previous-frame data for this step comes from: the simulation
      at index `index`, or this simulation's own params only. */
  datatype SourceChoice = FromSim(index: nat) | OwnParamsOnly

  /** The in-range test of LateUpdate. */
  function SelectSource(srcDataIdx: int, simCount: nat): (choice: SourceChoice)
    ensures choice.FromSim? <==> 0 <= srcDataIdx < simCount
    ensures choice.FromSim? ==> choice.index == srcDataIdx && choice.index < simCount
  {
    if 0 <= srcDataIdx < simCount then FromSim(srcDataIdx) else OwnParamsOnly
  }

  /** BindSourceData's texture: black for params only, else the simulation's ping-pong source. */
  function SourceBinding(paramsOnly: bool, lodIndex: int): (t: Texture)
    ensures t == BlackTexture2D <==> paramsOnly
    ensures !paramsOnly ==> t == PingPongSource(lodIndex)
  {
    if paramsOnly then BlackTexture2D else PingPongSource(lodIndex)
  }

  /** The texture a step binds into the render-sim material, given the
      simulations indexed by camera. */
  function StepSourceTexture(choice: SourceChoice, sims: seq<LodDataPersistent>, ownLod: int): (t: Texture)
    requires choice.FromSim? ==> choice.index < |sims|
    ensures choice.FromSim? ==> t == PingPongSource(sims[choice.index].lodIndex)
    ensures choice.OwnParamsOnly? ==> t == BlackTexture2D
  {
    match choice
    case FromSim(i) => SourceBinding(false, sims[i].lodIndex)
    case OwnParamsOnly => SourceBinding(true, ownLod)
  }

  class LodDataPersistent {
    /** LodTransform.LodIndex of this simulation's LOD. */
    const lodIndex: int
    /** SimName, used to name the command buffer. */
    const simName: string
    /** Cam: the camera the advance-sim command buffer is registered on. */
    const cam: Camera
    /** _renderSimMaterial, created with the render-sim quad at Start. */
    const renderSimMaterial: Material

    var simDeltaTimePrev: real
    var oceanLocalScalePrev: real
    var advanceSimCmdBuf: CommandBuffer?
    /** _pwMat._target: the material the property wrapper currently writes to. */
    var pwMatTarget: Material?

    /** The previous scale is the sentinel or a scale that was seen. */
    predicate Valid()
      reads this
    {
      oceanLocalScalePrev == SCALE_NOT_SEEN || oceanLocalScalePrev > 0.0
    }

    /** The field initialisers, followed by Start's creation of the render-sim material. */
    constructor (lodIndex: int, simName: string, cam: Camera, materialId: int)
      ensures Valid()
      ensures this.lodIndex == lodIndex && this.simName == simName && this.cam == cam
      ensures simDeltaTimePrev == INITIAL_SIM_DELTA_TIME_PREV && oceanLocalScalePrev == SCALE_NOT_SEEN
      ensures advanceSimCmdBuf == null && pwMatTarget == null
      ensures fresh(renderSimMaterial) && renderSimMaterial.id == materialId && renderSimMaterial.writes == []
    {
      this.lodIndex := lodIndex;
      this.simName := simName;
      this.cam := cam;
      simDeltaTimePrev := INITIAL_SIM_DELTA_TIME_PREV;
      oceanLocalScalePrev := SCALE_NOT_SEEN;
      advanceSimCmdBuf := null;
      pwMatTarget := null;
      renderSimMaterial := new Material(materialId);
    }

    /** Binds this simulation's previous result (or black, params only) into
        slot `shapeSlot` of `properties`, through the property wrapper, which
        targets nothing again afterwards. */
    method BindSourceData(shapeSlot: int, properties: Material, paramsOnly: bool)
      modifies this`pwMatTarget, properties`writes
      ensures pwMatTarget == null
      ensures properties.writes == old(properties.writes) + [LodDataBindData(shapeSlot, SourceBinding(paramsOnly, lodIndex), true)]
    {
      pwMatTarget := properties;
      pwMatTarget.writes := pwMatTarget.writes + [LodDataBindData(shapeSlot, if paramsOnly then BlackTexture2D else PingPongSource(lodIndex), true)];
      pwMatTarget := null;
    }

    /** One simulation step. `sims` stands for SimCameras, each camera's
        simulation; `oceanLocalScale` for the ocean's local x scale. The
        advance-sim command buffer is created and registered on the first step
        only; the clamped timestep and the previous step's timestep are written
        to the render-sim material; the previous scale becomes the current one;
        and the source data is bound from the simulation at the shifted LOD when
        there is one, else from this simulation with params only. */
    method LateUpdate(deltaTime: real, oceanLocalScale: real, roundLog2: real -> int, sims: seq<LodDataPersistent>)
      requires Valid() && oceanLocalScale > 0.0
      modifies this`simDeltaTimePrev, this`oceanLocalScalePrev, this`advanceSimCmdBuf, this`pwMatTarget
      modifies sims`pwMatTarget, renderSimMaterial`writes, cam`commandBuffers
      ensures Valid()
      ensures simDeltaTimePrev == SimDeltaTime(deltaTime)
      ensures oceanLocalScalePrev == oceanLocalScale
      ensures old(advanceSimCmdBuf) != null ==>
                advanceSimCmdBuf == old(advanceSimCmdBuf) && cam.commandBuffers == old(cam.commandBuffers)
      ensures old(advanceSimCmdBuf) == null ==>
                advanceSimCmdBuf != null && fresh(advanceSimCmdBuf)
                && advanceSimCmdBuf.name == "AdvanceSim_" + simName
                && advanceSimCmdBuf.cmds == [DrawRenderer(renderSimMaterial.id, 0, 0)]
                && cam.commandBuffers == old(cam.commandBuffers) + [advanceSimCmdBuf]
      ensures var choice := SelectSource(SourceLodIndex(lodIndex, oceanLocalScale, old(oceanLocalScalePrev), roundLog2), |sims|);
              renderSimMaterial.writes == old(renderSimMaterial.writes) + [
                SetFloat(Property("_SimDeltaTime"), SimDeltaTime(deltaTime)),
                SetFloat(Property("_SimDeltaTimePrev"), old(simDeltaTimePrev)),
                LodDataBindData(0, StepSourceTexture(choice, sims, lodIndex), true)]
      ensures var choice := SelectSource(SourceLodIndex(lodIndex, oceanLocalScale, old(oceanLocalScalePrev), roundLog2), |sims|);
              var bound := if choice.FromSim? then sims[choice.index] else this;
              bound.pwMatTarget == null
              && (forall s :: s in sims && s != bound ==> s.pwMatTarget == old(s.pwMatTarget))
              && (this != bound ==> pwMatTarget == old(pwMatTarget))
    {
      CreateAdvanceSimCmdBuf();
      WriteTimesteps(deltaTime);
      var ratio := UpdateScale(oceanLocalScale);
      var delta := roundLog2(ratio);
      BindStepSource(lodIndex + delta, sims);
    }

    /** LateUpdate, first part: on the first step, create the advance-sim
        command buffer and register it on the camera; afterwards keep it. */
    method CreateAdvanceSimCmdBuf()
      modifies this`advanceSimCmdBuf, cam`commandBuffers
      ensures old(advanceSimCmdBuf) != null ==>
                advanceSimCmdBuf == old(advanceSimCmdBuf) && cam.commandBuffers == old(cam.commandBuffers)
      ensures old(advanceSimCmdBuf) == null ==>
                advanceSimCmdBuf != null && fresh(advanceSimCmdBuf)
                && advanceSimCmdBuf.name == "AdvanceSim_" + simName
                && advanceSimCmdBuf.cmds == [DrawRenderer(renderSimMaterial.id, 0, 0)]
                && cam.commandBuffers == old(cam.commandBuffers) + [advanceSimCmdBuf]
    {
      if advanceSimCmdBuf == null {
        var buf := new CommandBuffer();
        advanceSimCmdBuf := buf;
        buf.name := "AdvanceSim_" + simName;
        cam.commandBuffers := cam.commandBuffers + [buf];
        buf.cmds := buf.cmds + [DrawRenderer(renderSimMaterial.id, 0, 0)];
      }
    }

    /** LateUpdate, second part: write the clamped timestep and the previous
        step's timestep, then remember the clamped one. */
    method WriteTimesteps(deltaTime: real)
      modifies this`simDeltaTimePrev, renderSimMaterial`writes
      ensures simDeltaTimePrev == SimDeltaTime(deltaTime)
      ensures renderSimMaterial.writes == old(renderSimMaterial.writes) + [
                SetFloat(Property("_SimDeltaTime"), SimDeltaTime(deltaTime)),
                SetFloat(Property("_SimDeltaTimePrev"), old(simDeltaTimePrev))]
    {
      var dt := SimDeltaTime(deltaTime);
      renderSimMaterial.writes := renderSimMaterial.writes + [SetFloat(Property("_SimDeltaTime"), dt)];
      renderSimMaterial.writes := renderSimMaterial.writes + [SetFloat(Property("_SimDeltaTimePrev"), simDeltaTimePrev)];
      simDeltaTimePrev := dt;
    }

    /** LateUpdate, third part: the scale ratio since the previous step (1 on
        the first step); the current scale becomes the previous one. */
    method UpdateScale(oceanLocalScale: real) returns (ratio: real)
      requires Valid() && oceanLocalScale > 0.0
      modifies this`oceanLocalScalePrev
      ensures Valid() && oceanLocalScalePrev == oceanLocalScale
      ensures ratio == ScaleRatio(oceanLocalScale, old(oceanLocalScalePrev))
    {
      if oceanLocalScalePrev == SCALE_NOT_SEEN {
        oceanLocalScalePrev := oceanLocalScale;
      }
      ratio := oceanLocalScale / oceanLocalScalePrev;
      oceanLocalScalePrev := oceanLocalScale;
    }

    /** LateUpdate, last part: bind slot 0 of the render-sim material from the
        simulation at `srcDataIdx` when there is one, else from this
        simulation with params only. */
    method BindStepSource(srcDataIdx: int, sims: seq<LodDataPersistent>)
      modifies this`pwMatTarget, sims`pwMatTarget, renderSimMaterial`writes
      ensures var choice := SelectSource(srcDataIdx, |sims|);
              renderSimMaterial.writes == old(renderSimMaterial.writes) + [
                LodDataBindData(0, StepSourceTexture(choice, sims, lodIndex), true)]
      ensures var choice := SelectSource(srcDataIdx, |sims|);
              var bound := if choice.FromSim? then sims[choice.index] else this;
              bound.pwMatTarget == null
              && (forall s :: s in sims && s != bound ==> s.pwMatTarget == old(s.pwMatTarget))
              && (this != bound ==> pwMatTarget == old(pwMatTarget))
    {
      if 0 <= srcDataIdx < |sims| {
        sims[srcDataIdx].BindSourceData(0, renderSimMaterial, false);
      } else {
        BindSourceData(0, renderSimMaterial, true);
      }
    }
  }

  // ===========================================================================
  // Which LOD a step reads from

  /** On the first step the ratio is 1, so a simulation reads its own LOD. */
  lemma FirstStepReadsOwnLod(lodIndex: int, oceanLocalScale: real, roundLog2: real -> int)
    requires RoundsPowersOfTwoExactly(roundLog2) && oceanLocalScale > 0.0
    ensures SourceLodIndex(lodIndex, oceanLocalScale, SCALE_NOT_SEEN, roundLog2) == lodIndex
  {
    assert Pow2(0) == 1.0;
    assert roundLog2(Pow2(0)) == 0;
  }

  /** When the scale changed by exactly 2^k the simulation reads from k LODs
      away (k < 0: finer, k > 0: coarser). */
  lemma PowerOfTwoRatioShiftsLod(lodIndex: int, oceanLocalScalePrev: real, k: int, roundLog2: real -> int)
    requires RoundsPowersOfTwoExactly(roundLog2) && oceanLocalScalePrev > 0.0
    ensures oceanLocalScalePrev * Pow2(k) > 0.0
    ensures SourceLodIndex(lodIndex, oceanLocalScalePrev * Pow2(k), oceanLocalScalePrev, roundLog2) == lodIndex + k
  {
    var p := Pow2(k);
    MulPositive(oceanLocalScalePrev, p);
    var scale := oceanLocalScalePrev * p;
    DivCancel(oceanLocalScalePrev, p);
    assert ScaleRatio(scale, oceanLocalScalePrev) == scale / oceanLocalScalePrev;
    assert ScaleRatio(scale, oceanLocalScalePrev) == Pow2(k);
    assert roundLog2(Pow2(k)) == k;
    assert SourceLodIndex(lodIndex, scale, oceanLocalScalePrev, roundLog2) == lodIndex + roundLog2(ScaleRatio(scale, oceanLocalScalePrev));
    assert scale == oceanLocalScalePrev * Pow2(k);
  }

  lemma MulPositive(a: real, b: real)
    requires a > 0.0 && b > 0.0
    ensures a * b > 0.0
  {
  }

  lemma DivCancel(a: real, b: real)
    requires a > 0.0
    ensures (a * b) / a == b
  {
  }

  /** Halving the ocean scale makes a simulation read from the next finer LOD. */
  lemma HalvedScaleReadsFinerLod(lodIndex: int, oceanLocalScalePrev: real, roundLog2: real -> int)
    requires RoundsPowersOfTwoExactly(roundLog2) && oceanLocalScalePrev > 0.0
    ensures SourceLodIndex(lodIndex, oceanLocalScalePrev * 0.5, oceanLocalScalePrev, roundLog2) == lodIndex - 1
  {
    assert Pow2(-1) == 0.5 by {
      assert Pow2(0) == 1.0;
    }
    PowerOfTwoRatioShiftsLod(lodIndex, oceanLocalScalePrev, -1, roundLog2);
  }

  /** An unchanged scale keeps a simulation on its own LOD. */
  lemma UnchangedScaleReadsOwnLod(lodIndex: int, oceanLocalScale: real, roundLog2: real -> int)
    requires RoundsPowersOfTwoExactly(roundLog2) && oceanLocalScale > 0.0
    ensures SourceLodIndex(lodIndex, oceanLocalScale, oceanLocalScale, roundLog2) == lodIndex
  {
    assert Pow2(0) == 1.0;
    assert roundLog2(Pow2(0)) == 0;
  }

  /** Each step binds from exactly one place: the in-range simulation with its
      ping-pong source, or this simulation's black params-only binding. */
  lemma ExactlyOneSourceBound(srcDataIdx: int, sims: seq<LodDataPersistent>, ownLod: int)
    ensures var choice := SelectSource(srcDataIdx, |sims|);
            (0 <= srcDataIdx < |sims| ==> StepSourceTexture(choice, sims, ownLod) == PingPongSource(sims[srcDataIdx].lodIndex))
            && (!(0 <= srcDataIdx < |sims|) ==> StepSourceTexture(choice, sims, ownLod) == BlackTexture2D)
  {
  }
}
