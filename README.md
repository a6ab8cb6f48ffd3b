# Crest ocean LOD cascade: a Dafny model

This project models two pieces of the Crest ocean renderer's LOD data cascade and proves properties of them:

- **The animated-waves cascade manager** (`LodDataMgrAnimWaves`):
  - the two draw filters that decide which wave contributors a LOD draws;
  - the per-frame pass schedule that `BuildCommandBuffer` appends to the command buffer;
  - the shape-weight fade-out rule in the three `BindData` variants;
  - the params-only texture choice of `BindWaveBuffer` and `BindAnimatedWaves`;
  - the data-LOD query `SuggestDataLOD`;
  - the Gerstner registration list (add, remove, origin shift).
- **One step of a persistent simulation** (`LodDataPersistent`):
  - the clamped timestep and the kept previous timestep;
  - the ocean-scale tracking with its "not seen yet" sentinel;
  - the choice of which LOD's previous result a step reads from;
  - the one-time creation of the advance-sim command buffer;
  - `BindSourceData`'s texture choice.

## Files

- `render.dfy` (module `Render`) holds the engine vocabulary: textures, shader parameters, material property writes, the command type, and small `CommandBuffer`, `Material` and `Camera` classes.
- `ocean.dfy` (module `Ocean`) holds what the managers read from `OceanRenderer.Instance`, passed in as an explicit value. That is, per LOD, its XZ rectangle, texel width, texture resolution and `MaxWavelength()`, plus the scale-down flag, the viewer-altitude alpha and which simulations exist.
- `anim_waves.dfy` (module `AnimWaves`) holds the manager: filters, bindings, the frame trace as specification functions, and the class `LodDataMgrAnimWaves`. The class's loops are proved to append exactly that trace.
- `anim_waves_proofs.dfy` (module `AnimWavesProofs`) holds what the manager guarantees.
- `persistent.dfy` (module `Persistent`) holds the class `LodDataPersistent` and the lemmas about source-LOD selection.

## How a frame's work is represented

The GPU work is modelled as a trace of commands in program order (`Render.Cmd`).

- Writes into the per-LOD combine materials sit in the same trace as the command-buffer commands, as `Prop(target, write)`, so that the order of bindings is visible.
- `BuildCommandBuffer` is proved to append exactly `FrameCommands`, which is built from three recursive pass functions, one per loop, each over the LODs from `lodCount-1` down to 0.

Render-target properties are proved with a small interpreter, `AnimWavesProofs.Step`:

- it tracks the active render target and whether that target was cleared since it was set;
- a blit and the base-class pass are taken to leave the target unknown, which is the conservative reading.

Properties of the persistent simulation are stated on the class's new state and on the material writes it makes.

## Notes on `SuggestDataLOD` and `Rect.Contains`

- **Search direction and the wavelength test.** The loop scans from LOD 0 and returns the first, that is the finest, LOD that passes both tests. A LOD is skipped when `MaxWavelength/2 < minSpatialLength/2` and it is not the coarsest LOD (LodDataMgrAnimWaves.cs:262-280).
- **Containment at the edge.** `Rect.Contains` is taken as half-open. So a sample area exactly equal to a LOD's shrunk rectangle is not covered by that LOD (`AnimWavesProofs.SampleAreaOnShrunkEdgeNotCovered`).

## Model

| member | source | states |
|---|---|---|
| `AnimWavesProofs.FilterWavelengthBand` | crest/Assets/Crest/Crest/Scripts/LodData/LodDataMgrAnimWaves.cs:87-91 | A LOD's band filter rejects every wavelength below `MaxWavelength/2`. On the coarsest LOD it accepts exactly the wavelengths `>= MaxWavelength/2`. On any other LOD it accepts exactly `[MaxWavelength/2, MaxWavelength)`. |
| `AnimWavesProofs.NoLodPreferenceDisjointFromBands` | crest/Assets/Crest/Crest/Scripts/LodData/LodDataMgrAnimWaves.cs:97-100 | Wavelength 0 passes the no-preference filter. Nothing that passes it also passes the band of a LOD whose max wavelength is positive, so the two passes never draw the same contributor. |
| `AnimWavesProofs.BandsPartitionWavelengths` | crest/Assets/Crest/Crest/Scripts/LodData/LodDataMgrAnimWaves.cs:124-127 | If each LOD's band minimum equals the next finer LOD's maximum, every wavelength `>= min_0` is accepted by exactly one LOD. |
| `AnimWavesProofs.BelowFinestBandAcceptedNowhere` | crest/Assets/Crest/Crest/Scripts/LodData/LodDataMgrAnimWaves.cs:124-127 | With such cascaded bands, a wavelength below the finest band's minimum is accepted by no band. |
| `AnimWavesProofs.WavelengthInLodTwoBand` | crest/Assets/Crest/Crest/Scripts/LodData/LodDataMgrAnimWaves.cs:112-128 | With 5 cascaded LODs, the wavelength `0.75 * MaxWavelength(2)` is accepted by LOD 2 and by no other LOD. |
| `AnimWavesProofs.SubmitDrawsFilteredDraws` | crest/Assets/Crest/Crest/Scripts/LodData/LodDataMgrAnimWaves.cs:127 | SubmitDrawsFiltered draws only at its own LOD. It draws every input the filter accepts, and every draw comes from an accepted input. |
| `AnimWavesProofs.SubmitDrawsFilteredSingle` | crest/Assets/Crest/Crest/Scripts/LodData/LodDataMgrAnimWaves.cs:177 | A single registered input is drawn once if the filter accepts it, and not at all otherwise. |
| `AnimWaves.GerstnerDrawsElements` | crest/Assets/Crest/Crest/Scripts/LodData/LodDataMgrAnimWaves.cs:118-121 | The i-th Gerstner draw of a LOD is the i-th registered component's, at that LOD, so there is one draw per component in list order. |
| `AnimWaves.LodDataMgrAnimWaves.DrawGerstners` | crest/Assets/Crest/Crest/Scripts/LodData/LodDataMgrAnimWaves.cs:118-121 | The `foreach` loop appends exactly `GerstnerDraws` for the LOD. |
| `AnimWaves.LodDataMgrAnimWaves.DrawLodDependentData` | crest/Assets/Crest/Crest/Scripts/LodData/LodDataMgrAnimWaves.cs:110-128 | The first descending loop appends, for each LOD from `lodCount-1` to 0: set target, clear, the slice index, the Gerstner draws and the band-filtered draws. The shared filter is left as LOD 0's band. |
| `AnimWaves.LodDataMgrAnimWaves.DrawLod` | crest/Assets/Crest/Crest/Scripts/LodData/LodDataMgrAnimWaves.cs:114-127 | One iteration of the first loop appends exactly that LOD's pass (`DrawLodPass`) and leaves the filter set to that LOD's band. |
| `AnimWaves.LodDataMgrAnimWaves.CombineWaves` | crest/Assets/Crest/Crest/Scripts/LodData/LodDataMgrAnimWaves.cs:130-169 | The combine loop appends, for each LOD from `lodCount-1` to 0, that LOD's bindings followed by its blit. |
| `AnimWaves.LodDataMgrAnimWaves.CombineLod` | crest/Assets/Crest/Crest/Scripts/LodData/LodDataMgrAnimWaves.cs:133-168 | One iteration of the combine loop appends exactly that LOD's combine pass (`CombineLodPass`). |
| `AnimWaves.LodDataMgrAnimWaves.DrawLodIndependentData` | crest/Assets/Crest/Crest/Scripts/LodData/LodDataMgrAnimWaves.cs:171-178 | The third loop appends, for each LOD from `lodCount-1` to 0, a target set to that LOD's slice of `_targets` followed by the no-preference draws. |
| `AnimWaves.LodDataMgrAnimWaves.BuildCommandBuffer` | crest/Assets/Crest/Crest/Scripts/LodData/LodDataMgrAnimWaves.cs:104-179 | It appends exactly the base pass followed by the three loops' traces (`FrameCommands`). The trace does not depend on the filter state left by an earlier frame. |
| `AnimWavesProofs.FrameDrawsOnClearedSlices` | crest/Assets/Crest/Crest/Scripts/LodData/LodDataMgrAnimWaves.cs:112-178 | From any render state, every draw of a frame lands on its own LOD's slice. Every Gerstner draw goes into the wave buffers, and every draw into a wave-buffer slice comes after that slice was cleared. |
| `AnimWavesProofs.EverySliceClearedEachFrame` | crest/Assets/Crest/Crest/Scripts/LodData/LodDataMgrAnimWaves.cs:112-116 | Every LOD's wave-buffer slice is set as the target and then cleared in every frame, whether or not anything is drawn into it. |
| `AnimWavesProofs.NothingRegisteredDrawsNothing` | crest/Assets/Crest/Crest/Scripts/LodData/LodDataMgrAnimWaves.cs:112-178 | With no Gerstner components and no inputs, a frame contains no draw at all. Together with the clears above, every slice stays cleared. |
| `AnimWavesProofs.NoPreferenceDrawnIntoEveryLod` | crest/Assets/Crest/Crest/Scripts/LodData/LodDataMgrAnimWaves.cs:171-178 | A lone wavelength-0 input is drawn into every LOD's slice of `_targets` by the third loop, and never by the band pass. |
| `AnimWavesProofs.CombinePassesBlits` | crest/Assets/Crest/Crest/Scripts/LodData/LodDataMgrAnimWaves.cs:131-169 | The blits of the combine loop are at slices `lodCount-1, ..., from`, in that order. |
| `AnimWavesProofs.FrameBlitsOncePerLodDescending` | crest/Assets/Crest/Crest/Scripts/LodData/LodDataMgrAnimWaves.cs:131-169 | A frame blits exactly once per LOD, in descending LOD order. |
| `AnimWavesProofs.CombineLodPassEnds` | crest/Assets/Crest/Crest/Scripts/LodData/LodDataMgrAnimWaves.cs:133-168 | A LOD's combine pass first binds its own wave buffer (this frame's sampler, the wave-buffer array) and ends with that LOD's blit from black into the data texture. |
| `AnimWavesProofs.CombineCoarserSelection` | crest/Assets/Crest/Crest/Scripts/LodData/LodDataMgrAnimWaves.cs:136-145 | A LOD's combine pass binds the coarser combined result iff `lodIdx < lodCount-1 && shapeCombinePass`. It binds the black animated waves iff that test fails. |
| `AnimWavesProofs.CombineSimulationSelection` | crest/Assets/Crest/Crest/Scripts/LodData/LodDataMgrAnimWaves.cs:147-166 | A LOD's combine pass binds the dynamic-waves result iff dynamic waves exist, and their null binding iff they do not. Flow is bound the same way. |
| `AnimWavesProofs.CombineLodPassBlits` | crest/Assets/Crest/Crest/Scripts/LodData/LodDataMgrAnimWaves.cs:133-168 | A LOD's combine pass blits exactly once, at that LOD's slice; its bindings contain no blit. |
| `AnimWaves.ShapeWeight` | crest/Assets/Crest/Crest/Scripts/LodData/LodDataMgrAnimWaves.cs:199-201 | The shape weight stays in [0, 1] whenever the viewer-altitude alpha does. |
| `AnimWavesProofs.ShapeWeightRule` | crest/Assets/Crest/Crest/Scripts/LodData/LodDataMgrAnimWaves.cs:193-206 | The ocean-params vector carries the viewer-altitude alpha iff the LOD is the coarsest, the ocean may scale down and the bind blends out. Otherwise it carries 1. BindData writes this vector. |
| `AnimWavesProofs.CombineShapeWeights` | crest/Assets/Crest/Crest/Scripts/LodData/LodDataMgrAnimWaves.cs:134-144 | Every ocean-params vector in a combine pass has weight 1, except on the coarsest LOD of an ocean that may scale down, where it is the viewer-altitude alpha. |
| `AnimWaves.FilterWavelength.Filter` | crest/Assets/Crest/Crest/Scripts/LodData/LodDataMgrAnimWaves.cs:87-91 | An accepted wavelength is at least the band minimum. Every wavelength in `[min, max)` is accepted. Off the coarsest LOD nothing at or above the max is accepted; on the coarsest LOD exactly the wavelengths `>= min` are. |
| `AnimWaves.FilterNoLodPreference.Filter` | crest/Assets/Crest/Crest/Scripts/LodData/LodDataMgrAnimWaves.cs:97-100 | Only wavelength 0 is accepted, and it always is; a positive or negative wavelength is rejected. |
| `AnimWaves.BindData` | crest/Assets/Crest/Crest/Scripts/LodData/LodDataMgrAnimWaves.cs:193-206 | The base binding (with the given data) comes first, then one write of this LOD's ocean-params vector to the current or previous-frame id, carrying the texel width and `ShapeWeight` as shape weight. |
| `AnimWaves.BindData2` | crest/Assets/Crest/Crest/Scripts/LodData/LodDataMgrAnimWaves.cs:209-227 | It binds the given texture to the wave-buffer sampler of this frame and this LOD's slice index, then the base binding with no data, then the params vector with `ShapeWeight`. |
| `AnimWaves.BindData3` | crest/Assets/Crest/Crest/Scripts/LodData/LodDataMgrAnimWaves.cs:230-248 | As BindData2, with the texture bound to the animated-waves sampler of this frame. |
| `AnimWavesProofs.BindDataCopiesShareTail` | crest/Assets/Crest/Crest/Scripts/LodData/LodDataMgrAnimWaves.cs:193-248 | After their first two writes, BindData2 and BindData3 are exactly the BindData override with no data; their first two writes differ, because the sampler ids differ. |
| `AnimWaves.BindWaveBuffer` | crest/Assets/Crest/Crest/Scripts/LodData/LodDataMgrAnimWaves.cs:181-185 | It first binds black (params only) or the wave buffers to the wave-buffer sampler, and always blends out: its params vector carries `ShapeWeight(.., true)`. |
| `AnimWaves.BindAnimatedWaves` | crest/Assets/Crest/Crest/Scripts/LodData/LodDataMgrAnimWaves.cs:187-191 | It first binds the black texture array (params only) or `_targets` to the animated-waves sampler, and always blends out. |
| `AnimWaves.ParamIdSampler` | crest/Assets/Crest/Crest/Scripts/LodData/LodDataMgrAnimWaves.cs:314-324 | Both ids share the `_LD_TexArray_AnimatedWaves_` prefix, and the id is this frame's animated-waves sampler iff `prevFrame` is false. |
| `AnimWaves.BindNull` | crest/Assets/Crest/Crest/Scripts/LodData/LodDataMgrAnimWaves.cs:329-332 | It makes exactly one write, to the given material: black to `ParamIdSampler(prevFrame)`, which is this frame's animated-waves sampler when `prevFrame` is false. |
| `AnimWaves.SubmitDrawsFiltered` | crest/Assets/Crest/Crest/Scripts/LodData/LodDataMgrAnimWaves.cs:127 | The assumed base-class behaviour: at most one draw per registered input (see `SubmitDrawsFilteredDraws` for the full characterisation). |
| `AnimWaves.ShrinkByTexel` | crest/Assets/Crest/Crest/Scripts/LodData/LodDataMgrAnimWaves.cs:269-270 | The minimum corner moves in by one texel on each axis, and so does the maximum corner. |
| `AnimWaves.CoversSampleArea` | crest/Assets/Crest/Crest/Scripts/LodData/LodDataMgrAnimWaves.cs:267-272 | When the texel width is not negative, a covered sample area has both corners inside the LOD's own rectangle. |
| `AnimWaves.ResolvesWavelengths` | crest/Assets/Crest/Crest/Scripts/LodData/LodDataMgrAnimWaves.cs:276-278 | The coarsest LOD always passes. Any other LOD passes if and only if `MaxWavelength >= minSpatialLength`. |
| `AnimWavesProofs.BindWaveBufferParamsOnly` | crest/Assets/Crest/Crest/Scripts/LodData/LodDataMgrAnimWaves.cs:181-185 | It binds the wave buffer iff not params-only, and the black texture iff params-only. |
| `AnimWavesProofs.BindAnimatedWavesParamsOnly` | crest/Assets/Crest/Crest/Scripts/LodData/LodDataMgrAnimWaves.cs:187-191 | It binds the result array iff not params-only, and the black texture array iff params-only. |
| `AnimWavesProofs.ParamIdSamplerIds` | crest/Assets/Crest/Crest/Scripts/LodData/LodDataMgrAnimWaves.cs:311-332 | The previous-frame and this-frame sampler ids differ. This frame's id is the one the combine binding writes, and BindNull binds black to it. |
| `AnimWaves.FirstSuitableLod` | crest/Assets/Crest/Crest/Scripts/LodData/LodDataMgrAnimWaves.cs:259-284 | The result is -1 or a LOD in range. A returned LOD covers the sample area with a one-texel margin and resolves the length (or is the coarsest). Every earlier LOD fails one of the two tests. |
| `AnimWaves.SuggestDataLOD` | crest/Assets/Crest/Crest/Scripts/LodData/LodDataMgrAnimWaves.cs:259-284 | The loop, which shrinks `lodRect` field by field and then `continue`s or returns, meets the same characterisation and returns `FirstSuitableLod`. |
| `AnimWaves.SuggestDataLODForArea` | crest/Assets/Crest/Crest/Scripts/LodData/LodDataMgrAnimWaves.cs:255-258 | The one-argument overload uses the shorter side of the sample area as the length. |
| `AnimWavesProofs.SuggestDataLODMonotonic` | crest/Assets/Crest/Crest/Scripts/LodData/LodDataMgrAnimWaves.cs:262-280 | Raising the minimum spatial length gives -1 or a LOD at least as coarse as before. |
| `AnimWavesProofs.ShrunkRectKeepsNeighboursInside` | crest/Assets/Crest/Crest/Scripts/LodData/LodDataMgrAnimWaves.cs:268-271 | A point inside the shrunk rectangle stays inside the LOD's rectangle when moved by one texel either way, so finite differences fit. |
| `AnimWavesProofs.SampleAreaOnShrunkEdgeNotCovered` | crest/Assets/Crest/Crest/Scripts/LodData/LodDataMgrAnimWaves.cs:267-272 | A sample area exactly equal to a LOD's shrunk rectangle is not covered by that LOD, because its max corner is on the excluded edge. |
| `AnimWaves.LodDataMgrAnimWaves.constructor` | crest/Assets/Crest/Crest/Scripts/LodData/LodDataMgrAnimWaves.cs:35 | The registration list starts empty. |
| `AnimWaves.LodDataMgrAnimWaves.AddGerstnerComponent` | crest/Assets/Crest/Crest/Scripts/LodData/LodDataMgrAnimWaves.cs:286-296 | While the ocean exists, the component is appended. Otherwise the list is cleared. |
| `AnimWaves.LodDataMgrAnimWaves.RemoveGerstnerComponent` | crest/Assets/Crest/Crest/Scripts/LodData/LodDataMgrAnimWaves.cs:298-308 | While the ocean exists, the first equal entry is removed. Otherwise the list is cleared. |
| `AnimWaves.ListRemove` | crest/Assets/Crest/Crest/Scripts/LodData/LodDataMgrAnimWaves.cs:307 | Removing a member drops exactly one copy of it, by multiset and length. Removing a non-member changes nothing. |
| `AnimWavesProofs.ListRemoveFirstOccurrence` | crest/Assets/Crest/Crest/Scripts/LodData/LodDataMgrAnimWaves.cs:307 | The entry removed is the first occurrence; the list before and after it is kept. |
| `AnimWavesProofs.RemoveUndoesAdd` | crest/Assets/Crest/Crest/Scripts/LodData/LodDataMgrAnimWaves.cs:295-307 | Removing a component just appended to a list that did not hold it restores the list. |
| `AnimWaves.LodDataMgrAnimWaves.SetOrigin` | crest/Assets/Crest/Crest/Scripts/LodData/LodDataMgrAnimWaves.cs:334-340 | Exactly one origin shift per registered component is forwarded, in list order, each with the new origin. |
| `Persistent.SimDeltaTime` | src/unity/Assets/Crest/Scripts/LodData/LodDataPersistent.cs:30 | The step is never above `MAX_SIM_DELTA_TIME = 1/30`. It equals the frame's delta time when that is not above the cap, and equals the cap otherwise. |
| `Persistent.ScaleRatio` | src/unity/Assets/Crest/Scripts/LodData/LodDataPersistent.cs:82-84 | The ratio is positive. It is 1 when the previous scale is the sentinel -1. Otherwise it times the previous scale gives the current scale. |
| `Persistent.SelectSource` | src/unity/Assets/Crest/Scripts/LodData/LodDataPersistent.cs:91-100 | The source is a simulation iff `0 <= srcDataIdx < SimCameras.Length`, and then it is the simulation at that index. Otherwise it is this simulation's own params. |
| `Persistent.SourceBinding` | src/unity/Assets/Crest/Scripts/LodData/LodDataPersistent.cs:59 | The black texture is bound iff params-only. Otherwise the ping-pong source of the simulation is bound. |
| `Persistent.SourceLodIndex` | src/unity/Assets/Crest/Scripts/LodData/LodDataPersistent.cs:83-89 | On the first step (sentinel), and whenever the scale is unchanged, the source index is the own LOD shifted by the rounding of `log2(1)`. |
| `Persistent.StepSourceTexture` | src/unity/Assets/Crest/Scripts/LodData/LodDataPersistent.cs:91-100 | A selected simulation contributes its own ping-pong source; with no selected simulation the binding is black. |
| `Persistent.LodDataPersistent.constructor` | src/unity/Assets/Crest/Scripts/LodData/LodDataPersistent.cs:29-53 | Initially the previous timestep is 1/60, the previous scale is the sentinel -1, there is no command buffer, the wrapper targets nothing, and the render-sim material is fresh. |
| `Persistent.LodDataPersistent.BindSourceData` | src/unity/Assets/Crest/Scripts/LodData/LodDataPersistent.cs:55-61 | It writes one bind of `SourceBinding(paramsOnly, lodIndex)`, blending out, into slot `shapeSlot` of `properties`. The wrapper's target is null afterwards. |
| `Persistent.LodDataPersistent.LateUpdate` | src/unity/Assets/Crest/Scripts/LodData/LodDataPersistent.cs:64-105 | On the first step only, a fresh buffer named `AdvanceSim_<SimName>` holding one DrawRenderer is created and registered once on the camera; later steps keep the same buffer and registrations. The material gets the clamped dt and the previous dt. The previous dt becomes the clamped dt, and the previous scale becomes the current scale. The source is bound from the in-range simulation, or from this simulation params-only. Only the bound simulation's wrapper target changes, and it ends as null. |
| `Persistent.LodDataPersistent.CreateAdvanceSimCmdBuf` | src/unity/Assets/Crest/Scripts/LodData/LodDataPersistent.cs:68-74 | On the first step, a fresh buffer named `AdvanceSim_<SimName>` holding one DrawRenderer is registered on the camera. Later steps keep the buffer and the camera's list. |
| `Persistent.LodDataPersistent.WriteTimesteps` | src/unity/Assets/Crest/Scripts/LodData/LodDataPersistent.cs:76-79 | The material gets the clamped dt and then the previous dt, and the previous dt becomes the clamped one. |
| `Persistent.LodDataPersistent.UpdateScale` | src/unity/Assets/Crest/Scripts/LodData/LodDataPersistent.cs:82-85 | The ratio is `ScaleRatio` of the current and the previous scale (1 on the first step), and the previous scale becomes the current one. |
| `Persistent.LodDataPersistent.BindStepSource` | src/unity/Assets/Crest/Scripts/LodData/LodDataPersistent.cs:91-100 | It writes one bind of `StepSourceTexture(SelectSource(srcDataIdx, n))` into slot 0. Only the bound simulation's wrapper target changes, and it ends as null. |
| `Persistent.FirstStepReadsOwnLod` | src/unity/Assets/Crest/Scripts/LodData/LodDataPersistent.cs:82-89 | On the first step (sentinel) the source index is the simulation's own LOD. |
| `Persistent.PowerOfTwoRatioShiftsLod` | src/unity/Assets/Crest/Scripts/LodData/LodDataPersistent.cs:84-89 | A scale ratio of exactly `2^k` gives the source index `LodIndex + k`. |
| `Persistent.HalvedScaleReadsFinerLod` | src/unity/Assets/Crest/Scripts/LodData/LodDataPersistent.cs:84-89 | A ratio of 0.5 gives `LodIndex - 1`. |
| `Persistent.UnchangedScaleReadsOwnLod` | src/unity/Assets/Crest/Scripts/LodData/LodDataPersistent.cs:84-89 | An unchanged scale gives the simulation's own LOD. |
| `Persistent.ExactlyOneSourceBound` | src/unity/Assets/Crest/Scripts/LodData/LodDataPersistent.cs:91-100 | The texture bound for a step is the ping-pong source of the in-range simulation, or else black. |

## Left out

- **Engine resource setup** is not modelled, because it only creates engine objects. This covers `InitData`, `CreateDefaultSettings`, `UseSettings`, `CreateRenderSimQuad` (the quad's transform, renderer and layer), and the texture formats and descriptors.
- **Base-class calls** become single opaque trace events, because `LodDataMgr` and `LodData` are not part of this model. These are `base.BuildCommandBuffer`, `base.BindData`, `BindResultData`, `LodDataMgrDynWaves` and `LodDataMgrFlow` bindings, and `LodData.BindData` in `BindSourceData`.
- **`SubmitDrawsFiltered` is assumed** to draw each registered input the filter accepts once, in registration order.
- AnimWaves.SubmitDrawsFiltered: its own contract states only that it makes at most one draw per input. The full characterisation (each draw at the call's LOD, and draws matching accepted inputs both ways) is the lemma `AnimWavesProofs.SubmitDrawsFilteredDraws`. It is kept separate because a quantified `ensures` on a function used in every pass makes each proof about the frame much more expensive; `AnimWaves.GerstnerDraws` and `AnimWaves.GerstnerDrawsElements` are split the same way.
- **Gerstner component internals** (`BuildCommandBuffer`, `SetOrigin`) are recorded as one event per call.
- **`RenderData.Validate`** is left out; it only refreshes a cached snapshot.
- **The `if (applyData)` test** in `BindData2`/`BindData3` is not modelled: every call in this core passes a non-null texture, so the writes are always made.
- **`GetParamIdSampler`** only forwards to `ParamIdSampler`, so it has no separate member.
- **The shape-combine switch and the ocean singleton** become parameters. `_shapeCombinePass` is the `shapeCombinePass` parameter, and "`OceanRenderer.Instance == null`" is the `oceanInstanceExists` parameter.
- **`Shader.PropertyToID`** is taken to be injective on names, so names stand for ids.
- **Floating point is not modelled.** Wavelengths, rectangles, scales and timesteps are reals. `Mathf.Log`/`Mathf.RoundToInt` become the parameter `roundLog2`, which the lemmas assume is exact on powers of two. Ties and non-power-of-two ratios are not characterised.
- **`Rect.Contains`** is taken as half-open, as an assumption about Unity's implementation.
- **The render-state interpreter** takes a blit and the base-class pass to leave the active render target unknown. It takes the collaborator draws (`ShapeGerstnerBatched.BuildCommandBuffer` and each draw of `SubmitDrawsFiltered`) to leave the active target and its cleared state unchanged; `FrameDrawsOnClearedSlices` holds only under that assumption. What the combine shader computes is not modelled, so "a cleared slice with nothing drawn is zero" is shown only as "cleared and never drawn into".
- Persistent.LodDataPersistent.LateUpdate: requires a positive ocean scale, so the sentinel -1 can never be a real scale. `Persistent.ScaleRatio`, `Persistent.SourceLodIndex` and `Persistent.LodDataPersistent.UpdateScale` carry the same requirement, since they only ever receive the scale `LateUpdate` passes (LodDataPersistent.cs:82). A zero scale (0/0, then x/0) or a sign change between steps would make the ratio NaN or an infinity and its logarithm undefined; a constant negative scale gives ratio 1, and a scale of exactly -1 would reset the previous scale every step. None of these cases is modelled.
- Persistent.LodDataPersistent.LateUpdate: the `_renderSim != null` test is dropped. The constructor models the field initialisers together with `Start`, which always creates the render-sim quad, and a step before `Start` is not modelled.
- **`base.Start`, `base.LateUpdate`, and the empty virtual hooks** `SetAdditionalSimParams` and `LateUpdateInternal` are left out.
- **Dropped call arguments.** `LodDataBindData` does not record the render-data snapshot passed to the base binding (`BindSourceData` passes `_renderDataPrevFrame`, LodDataPersistent.cs:58), and `DrawRenderer` does not record the mesh renderer found by `GetComponentInChildren<MeshRenderer>()` (line 73).
- **`DataTexture` and `_targets`.** `DataTexture` is defined by the base class, which is not part of this model, so the model does not identify it with `_targets`. The combine blit writes `DataTexture` while the third loop draws into `_targets` and `BindAnimatedWaves` binds `_targets`; that these are one texture, which the coarse-to-fine combine relies on, is not modelled.
- **`CamClearFlags` and `HookEvent`** are engine properties and are left out. The camera's list holds the buffers of the one hook event.
- **`SimCameras[i].GetComponent<LodDataPersistent>()`** becomes the sequence `sims`.
- **`Time.deltaTime` and the ocean's local scale** are parameters of `LateUpdate`.
- **The rectangle nesting and texel-width ordering between LODs** are not modelled: they are properties of `LodTransform`, which is not part of this model.
- **Frame-to-frame idempotence of the combined texture** follows from `BuildCommandBuffer` appending the same trace for the same inputs but is not stated as a separate lemma.
- **The editor validation, inspector and layer-assignment files** are not part of this model.
