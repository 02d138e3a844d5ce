# XQPipeline render-graph scheduling, modelled in Dafny

This project models the per-frame scheduling core of the XQPipeline custom render pipeline, a
TypeScript pipeline for Cocos Creator (`assets/scripts/pipeline/`). Each frame the engine makes two
kinds of call on the pipeline:

- `windowResize` on a window. Once the utility material is loaded, it resolves the device
  features, chooses the camera's pipeline settings, resets the camera info and declares the
  render window. Then each pass builder declares its render targets, in render order.
- `setup` on the cameras. It picks the profiler camera and skips cameras without a scene or a
  window. A camera that sees the DEFAULT layer runs the builder chain on a fresh rendering
  context. Every other camera gets one simple forward pass onto its window.

The builder chain has five builders:

1. the depth prepass;
2. the shadow pass: light culling, the cascaded shadow map and the spot-light shadow maps;
3. the main forward pass: reflection probes, the forward pass with its light queues, and the
   planar shadow and transparent queues;
4. the post-process chain: bloom and tone mapping or colour grading, then TAA, then FXAA, then
   FSR or a copy to the screen;
5. the UI overlay.

The subsurface-scattering builder is modelled too, though the pipeline never registers it. The
builders pass one another a colour name, a depth-stencil name and the last pass through the
rendering context.

The host's graph builder is a `Recorder` class (module `RenderGraph`). Each host call appends to
a log; the log holds the declared resources, the passes with their attachments, textures and
queues, the external textures, the global uniforms and the console warnings. Each builder method
is proved to leave exactly the log a specification function describes. Lemmas about those
functions state what the builders promise each other:

- every name the prepass, shadow, forward, post, TAA and SSS passes write was declared by that
  builder's `windowResize`, or is the window's own colour or depth-stencil (the pipeline declares
  the window itself), or, for the SSS passes, a context name handed in. The reflection-probe
  passes are the exception: their targets are declared during `setup`, just before each probe
  pass;
- the names handed on are the ones the next builder expects;
- when the colour handed to the post chain, its two buffers and the TAA history all differ from
  the window colour, the window colour is written exactly once, by the last post pass.
  When the colour handed in already is the window colour (the main pass renders on screen), FSR
  is off and no effect or TAA runs, no post pass writes it; a colour handed in that is the window
  colour always records the post builder's assertion warning;
- the spot lights lit in the forward pass are those whose shadow maps the shadow pass drew;
- the TAA history ping-pongs once the jitter is updated each frame. Nothing in these files
  calls the jitter's `update`, so as written every frame reads taaFrame1 and writes taaFrame0,
  and no pass writes taaFrame1;
- at most four probes are rendered.

Modules follow the source files:

- `Cameras` (camera-info.ts), `Windows` (windowInfo.ts), `Utils` (utils.ts),
  `Features` (xq-pipeline-features.ts), `Contexts` (rendering-context.ts);
- the builders `PrePass`, `ShadowPass`, `MainPass`, `PostPass`, `TaaPass`, `UiPass`, `SssPass`;
- `Pipeline` (xq-pipeline.ts).

Shared modules:

- `Host`: engine values and constants;
- `Names`: the `prefix${id}` resource names;
- `Sorting`: the stable sort by render order, for the builders and the effects;
- `RenderGraph`;
- `Wrappers`: `Option`.

Host behaviour the core only calls is a parameter of the model:

- The engine helpers `getTextureName`, `sceneDepthPacked` and `needOffscreenRT` are function
  values in `Helpers`. The files defining them are not part of this model.
- The frustum tests are the set of light ids a camera sees.
- `Mat4.equals` is equality of a matrix token.
- Whether `builtinResMgr` holds `utilMtl`, and the `EDITOR` and `DEBUG` build flags, are fields
  of `Environment`.

## Model

| member | source | states |
|---|---|---|
| Windows.ScaledSize | assets/scripts/pipeline/windowInfo.ts:14-15 | the scaled side is at least 1 and is the floor of `native * scale` whenever that is at least 1 |
| Windows.ScaledSizeUnitScale | assets/scripts/pipeline/windowInfo.ts:9-16 | at scale 1 a side of at least 1 is kept unchanged |
| Windows.ScaledSizeNotAboveNative | assets/scripts/pipeline/windowInfo.ts:14-15 | a scale in (0, 1] never makes a side grow |
| Windows.ScaledSizeMonotonic | assets/scripts/pipeline/windowInfo.ts:14-15 | a larger scale never gives a smaller side |
| Windows.SetSize | assets/scripts/pipeline/windowInfo.ts:9-16 | `set` stores the id, the native sizes and the scale, and sizes of at least 1 scaled from them |
| Windows.WindowInfo.constructor | assets/scripts/pipeline/windowInfo.ts:2-7 | a new record holds id 0xFFFFFFFF, zero sizes and scale 1 |
| Windows.WindowInfo.Set | assets/scripts/pipeline/windowInfo.ts:9-16 | after `set` the record holds exactly what `SetSize` gives |
| Contexts.RenderingContext.constructor | assets/scripts/pipeline/rendering-context.ts:4-6 | a new context has no colour, no depth-stencil and no last pass |
| Contexts.RenderingContext.Reset | assets/scripts/pipeline/rendering-context.ts:8-12 | `reset` clears all three fields, whatever they held |
| Utils.JitterStep | assets/scripts/pipeline/utils.ts:52-60 | one `update` moves the sample index on by one modulo 15, flips the ping-pong flag and keeps the flag a sign |
| Utils.JitterStepSample | assets/scripts/pipeline/utils.ts:52-60 | after an update (x, y) is the Halton table entry at the new index |
| Utils.LookupIsIndex | assets/scripts/pipeline/utils.ts:26-42 | walking down the table reaches the indexed entry |
| Utils.JitterStepsIndex | assets/scripts/pipeline/utils.ts:52-60 | after n updates the index has moved on by n modulo 15 |
| Utils.JitterStepsFlag | assets/scripts/pipeline/utils.ts:58 | after n updates the flag has flipped n times |
| Utils.JitterPeriod | assets/scripts/pipeline/utils.ts:26-60 | any whole number r of 15-update rounds brings the index back, flips the flag r times and, for r ≥ 1, reloads the Halton sample of that index |
| Utils.Jitter.constructor | assets/scripts/pipeline/utils.ts:48 | the jitter starts at (0, 0, -1, 0) |
| Utils.Jitter.Update | assets/scripts/pipeline/utils.ts:52-60 | `update` leaves the value `JitterStep` of the old value and keeps the invariant |
| Utils.Jitter.Reset | assets/scripts/pipeline/utils.ts:61-63 | `reset` restores (0, 0, -1, 0) |
| Utils.NativeSize | assets/scripts/pipeline/utils.ts:121-122 | a window side is floored and raised to at least 1 |
| Utils.EffectiveScale | assets/scripts/pipeline/utils.ts:118-120 | the shading scale is the configured one exactly when scaling is enabled, 1 otherwise |
| Utils.WindowInfoCache.constructor | assets/scripts/pipeline/utils.ts:109 | the window-info map starts empty |
| Utils.WindowInfoCache.GetWindowInfo | assets/scripts/pipeline/utils.ts:111-133 | a cached record is returned unchanged; otherwise a new record sized from the window and the settings is stored under the window id |
| Utils.WindowInfoCache.UpdateWindowInfo | assets/scripts/pipeline/utils.ts:135-155 | a new window is handled as by `getWindowInfo`; a cached record is set again exactly when the floored size changed; other windows' records are untouched; the cache's sizes by window id become `RefreshedSizes` of the old ones |
| Utils.GetProfile | assets/scripts/pipeline/utils.ts:81-99 | a profile exists exactly for indices 0 to 2, its type value is the index plus one, and it has three-component factors |
| Features.ShadowMapFormat | assets/scripts/pipeline/xq-pipeline-features.ts:44-47 | R32F exactly when that format can be rendered to and sampled and the API is not WebGL 1; RGBA8 otherwise |
| Features.SupportsDepthSample | assets/scripts/pipeline/xq-pipeline-features.ts:24-52 | depth can be sampled exactly when the depth-stencil format supports sampling and linear filtering |
| Features.PlatformW | assets/scripts/pipeline/xq-pipeline-features.ts:55 | the packed word is 2 for a positive screen-space sign plus 1 for a positive clip-space sign |
| Features.PlatformWInjective | assets/scripts/pipeline/xq-pipeline-features.ts:55 | the packed word determines both signs |
| Features.ResolveFeatures | assets/scripts/pipeline/xq-pipeline-features.ts:23-56 | every flag `reset` sets, from the device and the scene data: exclusive API flags, planar shadows only with shadows on, the shadow format, the depth-sample test, the platform x and w |
| Features.PipelineFeatures.constructor | assets/scripts/pipeline/xq-pipeline-features.ts:4-21 | the flags start at the field initialisers |
| Features.PipelineFeatures.Reset | assets/scripts/pipeline/xq-pipeline-features.ts:23-56 | `reset` overwrites every flag with `ResolveFeatures` of the device and the scene data |
| Features.PipelineFeatures.FillPlatformVec4 | assets/scripts/pipeline/xq-pipeline-features.ts:134-139 | x gets the platform flag and w the packed signs; y and z are kept; the same vector is returned |
| Features.Vec4.constructor | assets/scripts/pipeline/xq-shadowpass.ts:16 | a vector holds the four components it is built from |
| Names.Decimal | assets/scripts/pipeline/camera-info.ts:72-102 | an id is written as a non-empty digit string, more than one digit exactly from 10 on, without a leading zero |
| Names.DecimalRoundTrip | assets/scripts/pipeline/camera-info.ts:72-102 | reading the digits back gives the id |
| Names.DecimalInjective | assets/scripts/pipeline/camera-info.ts:72-102 | two ids with the same digits are equal |
| Names.Prefixed | assets/scripts/pipeline/camera-info.ts:72-102 | a name starts with its prefix and is longer than it |
| Names.PrefixedInjective | assets/scripts/pipeline/camera-info.ts:72-102 | with all-letter prefixes, equal names have equal prefixes and equal ids |
| Names.CameraNamesDistinct | assets/scripts/pipeline/camera-info.ts:72-130 | two camera resource getters give the same name exactly when they are the same getter on the same window id |
| Names.SpotShadowNamesDistinct | assets/scripts/pipeline/xq-shadowpass.ts:61-72 | spot shadow maps and depths are injective in the slot, and a map is never a depth |
| Cameras.DeriveFlags | assets/scripts/pipeline/camera-info.ts:37-65 | each flag `reset` derives: HDR and the radiance format, SSSS and the shadow format, the shadow-map and planar-shadow flags (never both), game window and game view, planar probes (always for the main game window), MSAA exactly when enabled and not WebGL 1 |
| Cameras.NeedClearColor | assets/scripts/pipeline/camera-info.ts:168-170 | true exactly when the clear mask has the COLOR or the SKYBOX bit |
| Cameras.NeedDepthStencil | assets/scripts/pipeline/camera-info.ts:172-174 | true exactly when the clear mask has the DEPTH or the STENCIL bit |
| Cameras.IsProfilerLayerCamera | assets/scripts/pipeline/camera-info.ts:176-180 | true exactly when a profile camera was chosen and it equals the camera the info holds |
| Cameras.FillViewport | assets/scripts/pipeline/camera-info.ts:193-201 | the viewport corner is the rounded normalised corner times the camera size; width and height are at least 1 |
| Cameras.DecideProfilerCamera | assets/scripts/pipeline/camera-info.ts:182-191 | none exactly when no camera's window has a swapchain; otherwise the last camera of the list whose window has one |
| Cameras.CameraInfo.constructor | assets/scripts/pipeline/camera-info.ts:8-20 | no camera, the unset window record and the initial flags |
| Cameras.CameraInfo.Reset | assets/scripts/pipeline/camera-info.ts:22-66 | `reset` refreshes the window's cached record (the cache's sizes become `RefreshedSizes`: a new window is sized from the window, a cached one is set again only when its floored size changed, other windows keep theirs), takes the camera, sets the size from the window and the effective scale, and derives the flags |
| Sorting.Insert | assets/scripts/pipeline/xq-pipeline.ts:42-44 | insertion keeps every element and adds one |
| Sorting.InsertSorted | assets/scripts/pipeline/xq-pipeline.ts:42-44 | inserting into a sorted sequence keeps it sorted |
| Sorting.Sort | assets/scripts/pipeline/xq-postpass.ts:102-103 | the sort by render order returns a sorted permutation of its input |
| Sorting.SortSortedIsIdentity | assets/scripts/pipeline/xq-pipeline.ts:41-45 | sorting an already sorted sequence leaves it unchanged |
| Sorting.SortPair | assets/scripts/pipeline/xq-postpass.ts:102 | two elements swap exactly when the second has the smaller order; equal orders keep their order |
| Sorting.SortShort | assets/scripts/pipeline/xq-postpass.ts:102-103 | on at most two elements the sort is the closed form `ShortSort` |
| Sorting.SortKeepsMembers | assets/scripts/pipeline/xq-postpass.ts:102-103 | sorting keeps exactly the given elements, and leaves a sequence of at most one unchanged |
| RenderGraph.NewPass | assets/scripts/pipeline/xq-prepass.ts:70-71 | a new pass has the given name, layout and size, one sample, and no attachment, texture or queue |
| RenderGraph.Written | assets/scripts/pipeline/xq-prepass.ts:73-80 | every colour target and the depth-stencil of a pass are among the names it writes |
| RenderGraph.Sampled | assets/scripts/pipeline/xq-postpass.ts:147 | every texture a pass binds is among the names it samples |
| RenderGraph.DeclaredNames | assets/scripts/pipeline/xq-prepass.ts:33-47 | the names of a run of declarations: every declared name, and nothing undeclared |
| RenderGraph.WritesWithinConcat | assets/scripts/pipeline/xq-pipeline.ts:105-109 | two runs of passes that each write only given names still do so once appended |
| RenderGraph.Recorder.constructor | assets/scripts/pipeline/xq-pipeline.ts:89 | the graph starts empty |
| RenderGraph.Recorder.Declare | assets/scripts/pipeline/xq-prepass.ts:33-47 | a declaration appends one resource and changes nothing else |
| RenderGraph.Recorder.AddPass | assets/scripts/pipeline/xq-prepass.ts:70 | a pass is appended and its handle is its index |
| RenderGraph.Recorder.AddQueue | assets/scripts/pipeline/xq-prepass.ts:81-82 | a queue is appended to that one pass only |
| RenderGraph.Recorder.AddTexture | assets/scripts/pipeline/xq-mainpass.ts:155 | a texture binding is appended to that one pass only |
| RenderGraph.Recorder.ShowStatistics | assets/scripts/pipeline/xq-uipass.ts:34 | that one pass shows statistics |
| RenderGraph.Recorder.AddExternalTexture | assets/scripts/pipeline/xq-ssspass.ts:52-60 | the name joins the external textures |
| RenderGraph.Recorder.SetVec4 | assets/scripts/pipeline/xq-shadowpass.ts:87 | one global uniform is appended |
| RenderGraph.Recorder.Warn | assets/scripts/pipeline/xq-uipass.ts:27 | one warning is appended |
| Host.Trunc | assets/scripts/pipeline/xq-shadowpass.ts:154-164 | `Math.trunc` is the floor of a non-negative value and lies within 1 of its argument toward zero |
| PrePass.PrepassDeclarations | assets/scripts/pipeline/xq-prepass.ts:24-58 | the packed depth (persistent RGBA16F) and the memoryless prepass depth are always declared at the camera size; a persistent depth-stencil is declared exactly when the camera renders off screen |
| PrePass.HandedDepthDeclared | assets/scripts/pipeline/xq-prepass.ts:49-85 | off screen the depth name handed on was declared as a persistent depth-stencil; it is the window's own exactly when the camera renders on screen |
| PrePass.PrepassWritesDeclared | assets/scripts/pipeline/xq-prepass.ts:68-82 | the prepass samples nothing, writes only the two declared depths, and clears depth to 1 and stencil to 0 |
| PrePass.PrePassBuilder.WindowResize | assets/scripts/pipeline/xq-prepass.ts:24-58 | the log gains exactly `PrepassResources` |
| PrePass.PrePassBuilder.Setup | assets/scripts/pipeline/xq-prepass.ts:60-88 | exactly the prepass is added and returned; the context's depth-stencil is the handed depth and the rest of the context is kept |
| ShadowPass.Kept | assets/scripts/pipeline/xq-shadowpass.ts:177-219 | culling never lengthens a list |
| ShadowPass.KeptMembers | assets/scripts/pipeline/xq-shadowpass.ts:177-219 | a light is kept exactly when it is in the list and passes the rule |
| ShadowPass.KeptAll | assets/scripts/pipeline/xq-shadowpass.ts:177-219 | a list whose every light passes is kept whole, in order |
| ShadowPass.CullPartition | assets/scripts/pipeline/xq-shadowpass.ts:172-226 | the shadowed list holds exactly the visible, unbaked, shadow-casting spot lights; the other list exactly the other visible unbaked spot, sphere and point lights and the visible ranged directional lights |
| ShadowPass.BakedAndShadowedLights | assets/scripts/pipeline/xq-shadowpass.ts:177-211 | a baked light is kept only as a ranged directional light; a shadow-casting spot light never reaches the unshadowed list |
| ShadowPass.CsmViewport | assets/scripts/pipeline/xq-shadowpass.ts:143-170 | the cascade viewport has a non-negative corner and a size of at least 1 |
| ShadowPass.HalfTrunc | assets/scripts/pipeline/xq-shadowpass.ts:163-164 | `Math.trunc(0.5 * n)` is half of n, rounded down |
| ShadowPass.WholeTrunc | assets/scripts/pipeline/xq-shadowpass.ts:154-155 | `Math.trunc` of a whole number is that number |
| ShadowPass.CsmFullAtlas | assets/scripts/pipeline/xq-shadowpass.ts:151-155 | a fixed-area or single-cascade light gets the whole atlas at every level |
| ShadowPass.CsmTile | assets/scripts/pipeline/xq-shadowpass.ts:156-165 | otherwise level l gets the half-size tile in column l % 2; its row is the upper or lower half by l / 2, flipped by the screen-space y sign |
| ShadowPass.CsmTileInside | assets/scripts/pipeline/xq-shadowpass.ts:143-170 | every cascade tile lies inside the atlas |
| ShadowPass.CsmTilesDisjoint | assets/scripts/pipeline/xq-shadowpass.ts:156-165 | the tiles of two different cascade levels do not overlap |
| ShadowPass.CascadeCount | assets/scripts/pipeline/xq-shadowpass.ts:128 | one to four cascades, and one without CSM support |
| ShadowPass.CascadeQueues | assets/scripts/pipeline/xq-shadowpass.ts:131-140 | one shadow-caster queue per level, in level order |
| ShadowPass.CascadePass | assets/scripts/pipeline/xq-shadowpass.ts:108-141 | the cascaded pass has one queue per cascade, each culled by that cascade's light frustum, and writes exactly the shadow map and shadow depth |
| ShadowPass.SpotPassWrites | assets/scripts/pipeline/xq-shadowpass.ts:240-246 | the i-th spot shadow pass writes exactly slot i's map and depth |
| ShadowPass.SpotPasses | assets/scripts/pipeline/xq-shadowpass.ts:237-251 | one pass per added spot light |
| ShadowPass.SpotPassesAt | assets/scripts/pipeline/xq-shadowpass.ts:238-247 | pass k is the pass of the k-th shadowed spot light |
| ShadowPass.SpotPassCount | assets/scripts/pipeline/xq-shadowpass.ts:234-251 | no pass for a cap that is not positive, otherwise the smaller of the light count and the cap |
| ShadowPass.ShadowResources | assets/scripts/pipeline/xq-shadowpass.ts:42-73 | `windowResize` declares two resources for the main light plus two per spot slot |
| ShadowPass.MainShadowResources | assets/scripts/pipeline/xq-shadowpass.ts:45-56 | the main light's map and depth |
| ShadowPass.SpotResources | assets/scripts/pipeline/xq-shadowpass.ts:59-73 | two resources per spot slot |
| ShadowPass.SpotSlot | assets/scripts/pipeline/xq-shadowpass.ts:61-72 | a slot's map and depth |
| ShadowPass.SpotResourcesAt | assets/scripts/pipeline/xq-shadowpass.ts:60-73 | entries 2i and 2i+1 are slot i's map and depth |
| ShadowPass.SpotPassTargets | assets/scripts/pipeline/xq-shadowpass.ts:237-251 | spot pass k writes exactly slot k's map and depth |
| ShadowPass.SpotTargetsDeclared | assets/scripts/pipeline/xq-shadowpass.ts:59-73 | with the same cap, every slot a spot pass writes was declared by `windowResize` |
| ShadowPass.ShadowWritesDeclared | assets/scripts/pipeline/xq-shadowpass.ts:33-252 | with the cap `windowResize` used, every pass `setup` adds (cascaded and spot) writes only names `windowResize` declared |
| ShadowPass.ShadowPassBuilder.constructor | assets/scripts/pipeline/xq-shadowpass.ts:16-19 | empty light lists and a zero platform vector |
| ShadowPass.ShadowPassBuilder.WindowResize | assets/scripts/pipeline/xq-shadowpass.ts:33-74 | the log gains exactly `ShadowResources` for the spot-map cap |
| ShadowPass.ShadowPassBuilder.CullLights | assets/scripts/pipeline/xq-shadowpass.ts:172-226 | the two light lists become exactly the culled lists in scene order |
| ShadowPass.ShadowPassBuilder.CullSpotLights | assets/scripts/pipeline/xq-shadowpass.ts:177-189 | the spot loop appends the kept shadowed and unshadowed spot lights to the two lists |
| ShadowPass.ShadowPassBuilder.KeepLights | assets/scripts/pipeline/xq-shadowpass.ts:192-219 | a sphere, point or ranged loop appends its kept lights and leaves the shadowed list alone |
| ShadowPass.ShadowPassBuilder.AddCascadedShadowMapPass | assets/scripts/pipeline/xq-shadowpass.ts:108-141 | exactly `CascadePass` is added |
| ShadowPass.ShadowPassBuilder.AddSpotlightShadowPasses | assets/scripts/pipeline/xq-shadowpass.ts:228-252 | exactly the first `SpotPassCount` spot passes are added |
| ShadowPass.ShadowPassBuilder.Setup | assets/scripts/pipeline/xq-shadowpass.ts:76-98 | without a scene nothing changes; otherwise `g_platform` is set, the lights are culled, and the cascaded pass (when the main-light shadow map is on) and the spot passes are added; the previous pass is returned |
| ShadowPass.ShadowPassBuilder.AddShadowPasses | assets/scripts/pipeline/xq-shadowpass.ts:91-95 | the cascaded pass when enabled, then the spot passes |
| MainPass.HandedNamesDeclared | assets/scripts/pipeline/xq-mainpass.ts:29-90 | the names handed on are the window's own exactly when the camera renders on screen; off screen both were declared, in the radiance format and as a depth-stencil, scaled exactly when shading is scaled |
| MainPass.MsaaBuffersDeclared | assets/scripts/pipeline/xq-mainpass.ts:62-69 | with MSAA the two multisample buffers are declared memoryless with the configured sample count and the camera renders off screen; without MSAA no texture is declared |
| MainPass.ForwardWritesDeclared | assets/scripts/pipeline/xq-mainpass.ts:41-165 | the forward pass writes and resolves into only names `windowResize` declared or the window's own colour and depth-stencil |
| MainPass.LightQueues | assets/scripts/pipeline/xq-mainpass.ts:167-192 | one queue per local light |
| MainPass.LightQueuesAt | assets/scripts/pipeline/xq-mainpass.ts:167-192 | queue k is a BLEND queue of phase `forward-add` that draws the camera's blended objects lit by light k, and it is renamed after that light's type |
| MainPass.MainSpotCount | assets/scripts/pipeline/xq-mainpass.ts:153-162 | the cap is compared only after adding, so a non-empty list gives at least one spot light; from a cap of 1 up it is the shadow builder's spot pass count |
| MainPass.SpotBindings | assets/scripts/pipeline/xq-mainpass.ts:155 | one spot shadow map binding per added spot light |
| MainPass.SpotQueues | assets/scripts/pipeline/xq-mainpass.ts:156-157 | one `forward-add` queue per added spot light |
| MainPass.SpotBindingsAt | assets/scripts/pipeline/xq-mainpass.ts:155 | binding k samples slot k's map |
| MainPass.SpotQueuesAt | assets/scripts/pipeline/xq-mainpass.ts:156-157 | spot queue k is lit by the k-th shadowed spot light |
| MainPass.ForwardAttachments | assets/scripts/pipeline/xq-mainpass.ts:128-231 | with MSAA a multisample pass on the multisample buffers discards both and resolves into the handed colour; without MSAA a single-sample pass stores that colour and uses the given depth-stencil and store op |
| MainPass.SampledMaps | assets/scripts/pipeline/xq-mainpass.ts:153-235 | a pass binding the optional cascaded map and the first n spot maps samples exactly those maps |
| MainPass.SampledWithin | assets/scripts/pipeline/xq-mainpass.ts:153-235 | such a pass samples nothing else |
| MainPass.SampledCovers | assets/scripts/pipeline/xq-mainpass.ts:153-235 | such a pass samples every one of those maps |
| MainPass.ShadowMapNotSpot | assets/scripts/pipeline/xq-shadowpass.ts:45-72 | the cascaded map is never a spot map |
| MainPass.ShadowMapSampled | assets/scripts/pipeline/xq-mainpass.ts:233-235 | the forward pass samples the cascaded map exactly when the main-light shadow map is on and the shadow builder kept a local light, plus the added lights' spot maps |
| MainPass.SpotSamplesShadowed | assets/scripts/pipeline/xq-mainpass.ts:153-162 | from a cap of 1 up, spot queue k is lit by the light of spot shadow pass k and samples the map that pass writes |
| MainPass.HandedNamesNeverWarn | assets/scripts/pipeline/xq-mainpass.ts:214-219 | the names `setup` hands to the forward pass never raise the debug warning |
| MainPass.ProbeSize | assets/scripts/pipeline/xq-mainpass.ts:241-303 | a probe side is at least 1 and not below its floor |
| MainPass.ProbePassWritesDeclared | assets/scripts/pipeline/xq-mainpass.ts:305-344 | a probe pass writes exactly the two resources declared for it, at its own size, and samples at most the cascaded map |
| MainPass.CubeWork | assets/scripts/pipeline/xq-mainpass.ts:281-293 | one pass and two resources per cube face |
| MainPass.ProbeWorkOf | assets/scripts/pipeline/xq-mainpass.ts:263-294 | a rendered probe declares two resources per pass |
| MainPass.Scan | assets/scripts/pipeline/xq-mainpass.ts:253-302 | at most four probes are rendered; two resources per pass; only cube probes that asked to render are marked |
| MainPass.ScanSaturated | assets/scripts/pipeline/xq-mainpass.ts:298-301 | once four probes were rendered the loop adds nothing more |
| MainPass.ScanOutsideEditor | assets/scripts/pipeline/xq-mainpass.ts:263-295 | outside the editor no probe is marked, each rendered probe adds at most one pass, and without planar probes nothing is added |
| MainPass.ScanNext | assets/scripts/pipeline/xq-mainpass.ts:255-301 | one more probe is skipped, or rendered with the next number |
| MainPass.MainPassBuilder.WindowResize | assets/scripts/pipeline/xq-mainpass.ts:41-70 | the log gains exactly `MainResources` |
| MainPass.MainPassBuilder.Setup | assets/scripts/pipeline/xq-mainpass.ts:72-113 | the probe scan, then the forward pass with its lights and tail queues; the context gets the main colour and depth; the forward pass is returned |
| MainPass.MainPassBuilder.AddPasses | assets/scripts/pipeline/xq-mainpass.ts:80-112 | the probe passes, the context names, then the forward pass |
| MainPass.MainPassBuilder.AddForwardPass | assets/scripts/pipeline/xq-mainpass.ts:95-110 | the forward radiance pass followed by the tail queues |
| MainPass.MainPassBuilder.AddTailQueues | assets/scripts/pipeline/xq-mainpass.ts:100-110 | the planar shadow queue when enabled, then the transparent queue |
| MainPass.MainPassBuilder.AddForwardSingleRadiancePass | assets/scripts/pipeline/xq-mainpass.ts:115-165 | exactly `ForwardRadiancePass` is added, with its debug warning |
| MainPass.MainPassBuilder.AddMainLightPass | assets/scripts/pipeline/xq-mainpass.ts:194-239 | the base pass with its main-light queue, after the debug warning |
| MainPass.MainPassBuilder.AddLightQueues | assets/scripts/pipeline/xq-mainpass.ts:167-192 | the pass gains exactly `LightQueues`: one renamed `forward-add` queue per local light, in list order |
| MainPass.MainPassBuilder.AddSpotQueues | assets/scripts/pipeline/xq-mainpass.ts:153-162 | the pass gains exactly `MainSpotCount` spot bindings and queues |
| MainPass.MainPassBuilder.AddSpotLight | assets/scripts/pipeline/xq-mainpass.ts:155-158 | one spot light's binding and queue |
| MainPass.MainPassBuilder.TryAddReflectionProbePasses | assets/scripts/pipeline/xq-mainpass.ts:241-303 | nothing without a probe manager; otherwise exactly the log and probe marks of `Scan` |
| MainPass.MainPassBuilder.ScanProbes | assets/scripts/pipeline/xq-mainpass.ts:253-302 | the loop leaves exactly the log and the marks of a full `Scan` |
| MainPass.MainPassBuilder.RenderProbe | assets/scripts/pipeline/xq-mainpass.ts:263-298 | the body for a rendered probe advances the scan by one |
| MainPass.MainPassBuilder.MarkRendered | assets/scripts/pipeline/xq-mainpass.ts:295 | the probe stops asking to be rendered |
| MainPass.MainPassBuilder.AddProbeWork | assets/scripts/pipeline/xq-mainpass.ts:263-294 | exactly `ProbeWorkOf` is added |
| MainPass.MainPassBuilder.AddProbePass | assets/scripts/pipeline/xq-mainpass.ts:268-344 | the probe's two targets are declared, then its pass is added |
| MainPass.ReflectionProbeManager.constructor | assets/scripts/pipeline/xq-mainpass.ts:241-255 | the manager holds the given probes |
| PostPass.SortedGroups | assets/scripts/pipeline/xq-postpass.ts:102-103 | both groups are the stable sort of the pushed entries |
| PostPass.PushedEffects | assets/scripts/pipeline/xq-postpass.ts:69-100 | the entries as pushed, before sorting, already satisfy the same group facts |
| PostPass.EffectBuckets | assets/scripts/pipeline/xq-postpass.ts:72-103 | after sorting: bloom runs exactly when enabled with a material; colour grading whenever it is configured; plain tone mapping exactly with HDR and no colour grading; at most two effects before TAA, none of them FXAA; FXAA after TAA exactly when enabled with a material, and nothing else there; both groups sorted by render order |
| PostPass.GroupsHoldReordered | assets/scripts/pipeline/xq-postpass.ts:102-103 | the group facts survive any reordering |
| PostPass.PreGroupOrder | assets/scripts/pipeline/xq-postpass.ts:102 | with bloom and a tone-mapping entry, the smaller render order runs first, and bloom first on a tie |
| PostPass.LutLayout | assets/scripts/pipeline/xq-postpass.ts:197-204 | a square LUT uses the 8x8 layout and pass 1; any other uses the nx1 layout and pass 0 |
| PostPass.QuadPassShape | assets/scripts/pipeline/xq-postpass.ts:137-267 | a full-screen pass writes its output only and samples its input only |
| PostPass.EffectPassShape | assets/scripts/pipeline/xq-postpass.ts:158-247 | every effect pass writes exactly its output and samples exactly its input |
| PostPass.Chain | assets/scripts/pipeline/xq-postpass.ts:108-122 | one pass per effect |
| PostPass.ChainShape | assets/scripts/pipeline/xq-postpass.ts:108-122 | every pass of a group writes the group's target; the first samples the input, every later one the target it writes |
| PostPass.FinalPassShape | assets/scripts/pipeline/xq-postpass.ts:124-131 | no final pass exactly when FSR is off and the colour already is the window colour; otherwise one pass reads that colour and writes the window colour |
| PostPass.ChainAvoids | assets/scripts/pipeline/xq-postpass.ts:108-122 | a group writes nothing but its target |
| PostPass.TaaAvoids | assets/scripts/pipeline/xq-taapass.ts:116-121 | the TAA resolve writes nothing but this frame's history |
| PostPass.FinalWritesWindow | assets/scripts/pipeline/xq-postpass.ts:124-131 | a colour other than the window colour gets exactly one final pass, which writes the window colour |
| PostPass.WindowWrittenOnce | assets/scripts/pipeline/xq-postpass.ts:57-134 | when the input, the post targets and the history differ from the window colour, exactly one pass writes it: the last |
| PostPass.PostWritesDeclared | assets/scripts/pipeline/xq-postpass.ts:27-135 | every pass `setup` adds writes only the buffers and histories `windowResize` declared, or the window colour |
| PostPass.GroupsWriteWindowOnce | assets/scripts/pipeline/xq-postpass.ts:105-131 | the same for any two groups |
| PostPass.InputAssertion | assets/scripts/pipeline/xq-postpass.ts:57-59 | the assertion records a warning exactly when the context colour is the window colour |
| PostPass.LastAfter | assets/scripts/pipeline/xq-postpass.ts:106-131 | the last-pass handle after two runs of passes is the one after their concatenation |
| PostPass.PostProcessPassBuilder.constructor | assets/scripts/pipeline/xq-postpass.ts:16 | a new TAA builder in its initial state |
| PostPass.PostProcessPassBuilder.WindowResize | assets/scripts/pipeline/xq-postpass.ts:27-47 | the log gains exactly `PostResources`; the TAA state is reset |
| PostPass.PostProcessPassBuilder.RunGroup | assets/scripts/pipeline/xq-postpass.ts:108-122 | exactly the group's chain is added; the colour becomes the target when the group is not empty |
| PostPass.PostProcessPassBuilder.Finish | assets/scripts/pipeline/xq-postpass.ts:124-131 | exactly `FinalPasses` are added, with the missing-material warning |
| PostPass.PostProcessPassBuilder.RunTaa | assets/scripts/pipeline/xq-postpass.ts:113-117 | TAA takes one step on the colour so far, handed over and read back through the context |
| PostPass.PostProcessPassBuilder.PreAndTaa | assets/scripts/pipeline/xq-postpass.ts:105-117 | the pre group, then TAA |
| PostPass.PostProcessPassBuilder.PostAndFinal | assets/scripts/pipeline/xq-postpass.ts:119-131 | the post group, then the final pass |
| PostPass.PostProcessPassBuilder.CheckInput | assets/scripts/pipeline/xq-postpass.ts:57-59 | the assertion's warning exactly when the input is the window colour |
| PostPass.PostProcessPassBuilder.Run | assets/scripts/pipeline/xq-postpass.ts:105-134 | the two groups, TAA and the final pass; the context colour becomes the window colour |
| PostPass.PostProcessPassBuilder.Setup | assets/scripts/pipeline/xq-postpass.ts:49-135 | exactly `PostPasses` are recorded, with the input assertion's warning and the final pass's warning; TAA takes its step; the context colour becomes the window colour, and the last pass added (or the previous one) is returned |
| TaaPass.Resized | assets/scripts/pipeline/xq-taapass.ts:66-68 | after a resize: initialised, warm-up frame next, count 0, view-projection kept |
| TaaPass.TaaStep | assets/scripts/pipeline/xq-taapass.ts:90-133 | First exactly on the warm-up frame; SSAA exactly for an unchanged view-projection afterwards, counting one more frame; otherwise the count restarts at 1; the view-projection is remembered |
| TaaPass.TaaRun | assets/scripts/pipeline/xq-taapass.ts:90-103 | repeated steps keep the state valid |
| TaaPass.StaticFramesAccumulate | assets/scripts/pipeline/xq-taapass.ts:66-103 | after a resize and n frames of a still camera the count is n, and every frame after the first is SSAA |
| TaaPass.BlendWeight | assets/scripts/pipeline/xq-taapass.ts:114 | the history weight is in (0, 1] and is the reciprocal of a positive count |
| TaaPass.HistoryFramesDiffer | assets/scripts/pipeline/xq-taapass.ts:86-88 | the read and written histories differ; a positive flag reads taaFrame0 and writes taaFrame1 |
| TaaPass.HistoryPingPong | assets/scripts/pipeline/xq-taapass.ts:86-88 | after one jitter update the history written now is read next |
| TaaPass.HistoryWithoutJitterUpdate | assets/scripts/pipeline/xq-taapass.ts:85-88 | with the initial jitter, every frame reads taaFrame1 and writes taaFrame0 |
| TaaPass.TaaResolveShape | assets/scripts/pipeline/xq-taapass.ts:116-129 | the resolve writes only this frame's history and samples the current colour, the other history and the packed depth |
| TaaPass.TaaWritesDeclared | assets/scripts/pipeline/xq-taapass.ts:41-129 | the resolve writes only a history `windowResize` declared |
| TaaPass.TAAPassBuilder.constructor | assets/scripts/pipeline/xq-taapass.ts:23-31 | the initial state: not initialised, warm-up frame, count 0, identity matrix |
| TaaPass.TAAPassBuilder.WindowResize | assets/scripts/pipeline/xq-taapass.ts:41-69 | the log gains exactly the two histories; the state becomes `Resized` |
| TaaPass.TAAPassBuilder.Setup | assets/scripts/pipeline/xq-taapass.ts:71-136 | before any resize nothing changes and no pass is returned; afterwards one `TaaStep`, the resolve pass is added, and its history becomes the context colour |
| UiPass.UiAppendsOneQueue | assets/scripts/pipeline/xq-uipass.ts:31-36 | one BLEND queue starting with the 2D draw is appended; the profiler draw and statistics appear exactly for the profile camera; the rest of the pass is kept |
| UiPass.UIPassBuilder.Setup | assets/scripts/pipeline/xq-uipass.ts:18-39 | without a previous pass only a warning is recorded; otherwise the UI queue goes into that pass alone; the previous pass is returned |
| SssPass.GlobalLogCases | assets/scripts/pipeline/xq-ssspass.ts:52-60 | the kernel is registered exactly with SSSS and a LUT; SSSS without a LUT only warns; without SSSS nothing is recorded |
| SssPass.ScatterPasses | assets/scripts/pipeline/xq-ssspass.ts:76-114 | four scattering passes |
| SssPass.SetupPasses | assets/scripts/pipeline/xq-ssspass.ts:62-131 | five passes with SSSS, only the specular pass without |
| SssPass.BlurPassShape | assets/scripts/pipeline/xq-ssspass.ts:84-114 | a blur writes its output and samples its input, the packed depth and, when bound, the kernel |
| SssPass.CopyPassShape | assets/scripts/pipeline/xq-ssspass.ts:76-117 | a copy writes its output only and samples its input only |
| SssPass.ScatterOrder | assets/scripts/pipeline/xq-ssspass.ts:76-117 | the ping-pong order: colour to blurred, blurred to blend, blend to blurred, blurred back onto the colour; the blurs sample the kernel exactly when it is bound |
| SssPass.ScatterNeverReadsItsTarget | assets/scripts/pipeline/xq-ssspass.ts:76-117 | with five distinct names, no pass samples what it writes, each pass samples what the previous one wrote, and the chain ends on its input |
| SssPass.KernelBoundOnceRegistered | assets/scripts/pipeline/xq-ssspass.ts:52-106 | the blurs sample the kernel exactly once `updateGlobalResources` registered it |
| SssPass.SpecularLoadsContext | assets/scripts/pipeline/xq-ssspass.ts:118-130 | the specular pass loads and writes exactly the context colour and depth-stencil, stores only the colour, and samples nothing |
| SssPass.SssWritesDeclared | assets/scripts/pipeline/xq-ssspass.ts:25-131 | every pass `setup` adds writes only the two ping-pong targets `windowResize` declared, or the context colour and depth-stencil it was handed |
| SssPass.SSSPassBuilder.constructor | assets/scripts/pipeline/xq-ssspass.ts:14-15 | a unit viewport and a zero info vector |
| SssPass.SSSPassBuilder.WindowResize | assets/scripts/pipeline/xq-ssspass.ts:25-50 | the log gains exactly the two ping-pong targets |
| SssPass.SSSPassBuilder.UpdateGlobalResources | assets/scripts/pipeline/xq-ssspass.ts:52-60 | the log becomes `GlobalLog` |
| SssPass.SSSPassBuilder.Setup | assets/scripts/pipeline/xq-ssspass.ts:62-131 | the viewport is filled from the camera; with SSSS the quality goes into the info's x and the four scattering passes are added before the specular pass, otherwise only the specular pass; the last pass is returned |
| SssPass.SSSPassBuilder.AddScatterPasses | assets/scripts/pipeline/xq-ssspass.ts:76-117 | exactly `ScatterPasses` are added |
| Pipeline.WithOrders | assets/scripts/pipeline/xq-pipeline.ts:42-44 | each builder is paired with its render order |
| Pipeline.Items | assets/scripts/pipeline/xq-pipeline.ts:42-44 | the builders of the paired list, in order |
| Pipeline.BuildersInRenderOrder | assets/scripts/pipeline/xq-pipeline.ts:22-45 | sorting the declared builders by render order leaves them as declared, with strictly increasing orders |
| Pipeline.FirstIndex | assets/scripts/pipeline/xq-pipeline.ts:118-120 | none exactly when no builder has the order; otherwise the first one that has it |
| Pipeline.FindRegisteredBuilders | assets/scripts/pipeline/xq-pipeline.ts:118-120 | each builder's order finds it; the TAA order (500) finds the post builder; the SSS order (400) finds none |
| Pipeline.ChooseSettings | assets/scripts/pipeline/xq-pipeline.ts:59-65 | editor views take the editor settings and other cameras their own; the defaults when missing |
| Pipeline.SimplePassShape | assets/scripts/pipeline/xq-pipeline.ts:122-149 | the simple pass writes the window pair and samples nothing; it clears colour and depth exactly when the camera asks; one opaque queue draws the scene, then 2D, then the profiler exactly for the profile camera, which alone shows statistics |
| Pipeline.ResizedOntoAppends | assets/scripts/pipeline/xq-pipeline.ts:85-86 | the resize loop appends each builder's resources in builder order |
| Pipeline.ChainStep | assets/scripts/pipeline/xq-pipeline.ts:105-109 | one more builder keeps the chain of handed last passes and pass counts |
| Pipeline.NamesAlongDeclared | assets/scripts/pipeline/xq-pipeline.ts:104-109 | across the chain the post builder receives the main colour, and the chain ends on the window colour and the main depth |
| Pipeline.XQPipeline.constructor | assets/scripts/pipeline/xq-pipeline.ts:16-45 | the builders in render order, a reset context, no camera, the initial features and TAA state |
| Pipeline.XQPipeline.UpdateSettingsAndInfo | assets/scripts/pipeline/xq-pipeline.ts:59-68 | the settings are `ChooseSettings`; the camera info takes the camera, the scaled window size and the derived flags; the window cache is refreshed as `RefreshedSizes` states; builders and profile camera are kept |
| Pipeline.XQPipeline.WindowResize | assets/scripts/pipeline/xq-pipeline.ts:76-87 | nothing without the utility material, the window cache included; otherwise the features resolved, the settings chosen, the camera info sized from the window and the effective scale with its flags derived, the window cache refreshed, the profile camera kept, the window declared, then every builder's resources in order |
| Pipeline.XQPipeline.ResizeBuilders | assets/scripts/pipeline/xq-pipeline.ts:85-86 | exactly each builder's resources, in builder order; the TAA state is reset |
| Pipeline.XQPipeline.ResizeEach | assets/scripts/pipeline/xq-pipeline.ts:85-86 | the loop over any builder list |
| Pipeline.XQPipeline.ResizeStep | assets/scripts/pipeline/xq-pipeline.ts:86 | one turn of the loop |
| Pipeline.XQPipeline.ResizeBuilder | assets/scripts/pipeline/xq-pipeline.ts:86 | one builder's `windowResize` |
| Pipeline.XQPipeline.Setup | assets/scripts/pipeline/xq-pipeline.ts:89-116 | nothing without the utility material; otherwise the profile camera is the last camera with a swapchain, and a list with no renderable camera records nothing |
| Pipeline.XQPipeline.RenderCamera | assets/scripts/pipeline/xq-pipeline.ts:99-112 | a camera without the DEFAULT layer gets exactly the simple pass; otherwise the chain adds passes and ends on the window colour and the main depth; in both cases the window cache is refreshed as `RefreshedSizes` states |
| Pipeline.XQPipeline.RunChain | assets/scripts/pipeline/xq-pipeline.ts:104-109 | the reset context, then the chain |
| Pipeline.XQPipeline.BuildSimplePipeline | assets/scripts/pipeline/xq-pipeline.ts:122-149 | exactly `SimplePass` is added |
| Pipeline.XQPipeline.RunBuilders | assets/scripts/pipeline/xq-pipeline.ts:105-109 | each builder gets the previous builder's pass; the context's last pass is the last builder's, a recorded pass; the names end as the window colour and the main depth |
| Pipeline.XQPipeline.RunBuilder | assets/scripts/pipeline/xq-pipeline.ts:106-108 | one builder's `setup`, with its pass handed on |
| Pipeline.XQPipeline.RunPre | assets/scripts/pipeline/xq-prepass.ts:60-88 | the prepass, handing its depth on |
| Pipeline.XQPipeline.RunShadow | assets/scripts/pipeline/xq-shadowpass.ts:76-98 | the shadow builder returns the pass it was given |
| Pipeline.XQPipeline.RunMain | assets/scripts/pipeline/xq-mainpass.ts:72-113 | the forward pass is the newest pass and the main names are handed on |
| Pipeline.XQPipeline.RunPost | assets/scripts/pipeline/xq-postpass.ts:49-135 | the newest pass, or the one given, is returned, and the colour is the window colour |
| Pipeline.XQPipeline.RunUi | assets/scripts/pipeline/xq-uipass.ts:18-39 | no pass added and the given one returned |

## Left out

- I/O and resource loading are not modelled: `resUtils` (texture loading), `envUtils`,
  `pointRepeatSampler` and the `clearColorUtils` colour objects. The colours become clear-value
  constants.
- The pipeline events RENDER_CAMERA_BEGIN and RENDER_CAMERA_END are not modelled; they are
  notifications to other engine code.
- `builder.setup` is always present for the five registered builders, so the
  `if (!builder.setup) continue` branch of the chain cannot occur in the model.
- Pipeline.XQPipeline.constructor: `_settings` is undefined until the first
  `_updateSettingsAndInfo`; the model takes initial settings as a constructor argument. Every
  reader of the settings runs after that call.
- The `_viewport` and `_clearColor` scratch objects of the pipeline and the builders are not
  modelled as objects. `fillViewport` is a function (`Cameras.FillViewport`), and
  `fillClearColor` becomes the clear value `ClearCameraColor(camera id)`.
- Floating-point values pass through the model unexamined: the Halton offsets, the FXAA, bloom,
  FSR and colour-grading uniforms, and the TAA motion columns (`Mat4.invert`/`multiply`).
  Only the TAA mode and blend weight are stated.
- Cameras are `Camera` values, so the profiler test compares cameras by value where the source
  compares object identity; two distinct cameras with equal fields would both pass it.
- Window objects are identified by their render window id; object identity of the
  `RenderWindow` is not modelled (`addRenderWindow` records the id and sizes).
- Cameras.DecideProfilerCamera: a camera without a window would throw in the source when its
  `window.swapchain` is read; the model treats it as a camera without a swapchain.
- ShadowPass.ShadowPassBuilder.Setup: requires only the consequence of the flag derivation it
  uses (a main light with shadows when the shadow map is enabled), not the whole derivation.
- The `cameraPos` sort of `_cullLights` is never reached, because `setup` passes no camera
  position; the model keeps scene order.
- `probe.updateCameraDir` and the reflection probe's camera setup are engine calls on the
  probe; the model keeps the probe's `needRender` flag and passes only.
- SssPass.SSSPassBuilder.Setup: requires the utility material when SSSS is on. The source
  asserts it, and the pipeline only runs builders once the material is loaded.
- TaaPass.TAAPassBuilder.Setup: does not model the `utilMtl` assertion of xq-taapass.ts:83.
  The resolve always uses the utility material; only the pipeline's gate on `env.utilMtl`
  ensures the material is loaded before any builder runs.
- PostPass.PostProcessPassBuilder.CheckInput: the assertion that the input colour differs from
  the window colour (xq-postpass.ts:57-59) is treated as non-fatal. It records a warning and
  the chain goes on; a build in which the engine's `assert` throws is not modelled.
- The SSS quality `settings.skin.sssQuality ?? 0` always takes the settings value, because
  settings are always present in the model.
- The SSS builder is not registered in the pipeline's builder list (xq-pipeline.ts:22-28); it
  is modelled on its own, and Pipeline.FindRegisteredBuilders states that its order finds no
  builder.
- Pipeline.XQPipeline.RenderCamera: for a DEFAULT-layer camera it states the names handed on,
  that passes were added and that the last pass is recorded. The exact passes are stated by
  each builder's own `Setup`, not composed into one log equation.
- Pipeline.XQPipeline.RunChain: the same holds for this DEFAULT-layer branch of `setup`. It
  states the names handed on, that passes were added and that the last pass is recorded, not the
  exact passes.
- Pipeline.XQPipeline.RunBuilders: states the chaining of last passes and pass counts, not the
  exact list of passes.
- Pipeline.XQPipeline.Setup: for several renderable cameras it states the profile camera and
  the final invariants, not the concatenated log of every camera.
- RenderGraph.Recorder.AddPass: a pass is recorded with its attachments already in place;
  `addRenderTarget`/`addDepthStencil` calls on a pass builder are not separate log entries.
