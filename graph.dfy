/**
 * The render graph as the pipeline sees it: every call the builders make on the host's graph
 * builder (declaring a resource, adding a pass, adding a queue or texture binding to a pass,
 * registering an external texture, setting a global uniform) is recorded by a `Recorder`.
 * A pass is identified by its handle, the index at which it was recorded.
 */
module RenderGraph {
  import opened Wrappers
  import opened Host

  datatype Format = RGBA8 | RGBA16F | R32F | R11G11B10F | DepthStencilFormat

  /** Residency policy of a declared resource. */
  datatype Residency = Managed | Persistent | Memoryless | Backbuffer

  datatype LoadOp = Load | Clear | Discard
  datatype StoreOp = Store | Discard

  datatype TextureUsage = ColorAttachment | DepthStencilAttachment

  datatype ResourceKind =
    | RenderTargetResource
    | DepthStencilResource
    | TextureResource(samples: int, usage: TextureUsage)
    | RenderWindowResource(depthStencil: Option<string>)

  /** A resource declaration: `addRenderTarget`, `addDepthStencil`, `addTexture`, `addRenderWindow`. */
  datatype Resource = Resource(kind: ResourceKind, name: string, format: Format,
                               width: int, height: int, residency: Residency)

  /** The clear value given with a CLEAR load operation. */
  datatype ClearValue =
    | NoClearValue
    | ClearWhite
    | ClearTransparent
    | ClearCameraColor(camera: nat)
    | ClearCameraColorRGBE(camera: nat)
    | ClearDepthStencil(depth: real, stencil: int, flags: set<ClearBit>)

  /** The clear value the host uses when a depth-stencil attachment is given without one. */
  const DefaultDepthClear := ClearDepthStencil(1.0, 0, DepthStencilBits)

  datatype Attachment = Attachment(name: string, load: LoadOp, store: StoreOp, clear: ClearValue)

  /** `pass.addTexture(resource, slot)`: the pass samples `resource`. */
  datatype Binding = Binding(resource: string, slot: string)

  datatype QueueHint = HintNone | HintOpaque | HintBlend

  datatype SceneFlag =
    | SceneOpaque | SceneMask | SceneBlend | SceneGeometry
    | SceneShadowCaster | ScenePlanarShadow | SceneReflectionProbe

  /** The light a scene draw is lit by. */
  datatype LightRef = NoLight | MainLightRef | SceneLight(id: nat)

  /** Which frustum a scene draw culls against: the camera's, or the light's (`useLightFrustum`). */
  datatype FrustumUse = CameraFrustum | LightFrustum(level: Option<int>)

  datatype Material = UtilMaterial | BloomMaterial | ToneMappingMaterial
                    | ColorGradingMaterial | FxaaMaterial | FsrMaterial

  datatype Draw =
    | SceneDraw(camera: nat, flags: set<SceneFlag>, light: LightRef, frustum: FrustumUse)
    | Quad(material: Material, passIndex: int)
    | Draw2D(camera: nat)
    | Profiler(camera: nat)

  datatype Viewport = Viewport(left: int, top: int, width: int, height: int)

  /**
   * A queue of a pass: `phase` is the layout phase given to `addQueue` ("default" when none is
   * given), and `debugName` the name assigned to the queue afterwards, if any.
   */
  datatype Queue = Queue(hint: QueueHint, phase: string, debugName: Option<string>,
                         viewport: Option<Viewport>, draws: seq<Draw>)

  /** A per-pass uniform: `setFloat`, `setVec2`, `setVec4`, or a vector computed by matrix maths. */
  datatype Uniform =
    | FloatUniform(name: string, value: real)
    | Vec2Uniform(name: string, x: real, y: real)
    | Vec4Uniform(name: string, x: real, y: real, z: real, w: real)
    | MatrixUniform(name: string)

  datatype Resolve = Resolve(source: string, target: string)

  datatype Pass = Pass(
    name: string, layout: string, width: int, height: int, samples: int,
    viewport: Option<Viewport>,
    targets: seq<Attachment>, depthStencil: Option<Attachment>,
    textures: seq<Binding>, queues: seq<Queue>, resolves: seq<Resolve>,
    uniforms: seq<Uniform>, showStatistics: bool)

  /** A freshly added single-sample pass, before any attachment, texture or queue. */
  function NewPass(name: string, layout: string, width: int, height: int): (p: Pass)
    ensures p.name == name && p.layout == layout && p.width == width && p.height == height
    ensures p.samples == 1 && p.targets == [] && p.textures == [] && p.queues == []
    ensures p.depthStencil == None && !p.showStatistics
  {
    Pass(name, layout, width, height, 1, None, [], None, [], [], [], [], false)
  }

  /** The names a pass writes: its colour targets and its depth-stencil attachment. */
  function Written(p: Pass): (names: set<string>)
    ensures forall k :: 0 <= k < |p.targets| ==> p.targets[k].name in names
    ensures p.depthStencil.Some? ==> p.depthStencil.value.name in names
  {
    (set k | 0 <= k < |p.targets| :: p.targets[k].name)
    + (if p.depthStencil.Some? then {p.depthStencil.value.name} else {})
  }

  /** The names a pass samples. */
  function Sampled(p: Pass): (names: set<string>)
    ensures forall k :: 0 <= k < |p.textures| ==> p.textures[k].resource in names
  {
    set k | 0 <= k < |p.textures| :: p.textures[k].resource
  }

  /** The names a run of resource declarations declares. */
  function DeclaredNames(rs: seq<Resource>): (names: set<string>)
    ensures forall k :: 0 <= k < |rs| ==> rs[k].name in names
    ensures forall n :: n in names ==> exists r :: r in rs && r.name == n
  {
    set r | r in rs :: r.name
  }

  /** Every pass of `ps` writes only names among `names`. */
  predicate WritesWithin(ps: seq<Pass>, names: set<string>) {
    forall k :: 0 <= k < |ps| ==> Written(ps[k]) <= names
  }

  /** Two runs of passes that each write within `names` do so one after the other. */
  lemma WritesWithinConcat(a: seq<Pass>, b: seq<Pass>, names: set<string>)
    requires WritesWithin(a, names) && WritesWithin(b, names)
    ensures WritesWithin(a + b, names)
  {
    forall k | 0 <= k < |a + b|
      ensures Written((a + b)[k]) <= names
    {
      if k < |a| {
        assert (a + b)[k] == a[k];
      } else {
        assert (a + b)[k] == b[k - |a|];
      }
    }
  }

  /**
   * The handle of the last pass once `added` passes were recorded on top of `count`: the newest
   * of them, or `prev` when none was.
   */
  function LastPass(prev: Option<nat>, count: nat, added: nat): Option<nat> {
    if added == 0 then prev else Some(count + added - 1)
  }

  /** The console warnings the core emits. */
  datatype Warning =
    | NoPreviousPass          // UI pass without a previous pass
    | SssLutMissing           // SSS enabled without a LUT texture
    | CopyToScreenNoMaterial  // blit without utilMtl
    | PostInputIsOutput       // the post-process assert on input != output fails
    | CustomDepthOnWindow     // default framebuffer with a custom depth-stencil (debug builds)

  datatype Global = Global(name: string, x: real, y: real, z: real, w: real)

  /** Everything recorded so far, in call order within each kind of call. */
  datatype Log = Log(
    resources: seq<Resource>, passes: seq<Pass>, externals: set<string>,
    globals: seq<Global>, warnings: seq<Warning>)

  const EmptyLog := Log([], [], {}, [], [])

  /** The host's graph builder, recording every call made on it. */
  class Recorder {
    var log: Log

    constructor ()
      ensures log == EmptyLog
    {
      log := EmptyLog;
    }

    /** `prev` is absent or the handle of a recorded pass. */
    predicate IsHandle(prev: Option<nat>)
      reads this
    {
      prev.Some? ==> prev.value < |log.passes|
    }

    /** `hasExternalTexture(name)`. */
    predicate HasExternalTexture(name: string)
      reads this
    {
      name in log.externals
    }

    /** `addRenderTarget`, `addDepthStencil`, `addTexture` or `addRenderWindow` on the pipeline. */
    method Declare(r: Resource)
      modifies this
      ensures log == old(log).(resources := old(log).resources + [r])
    {
      log := log.(resources := log.resources + [r]);
    }

    /** `addRenderPass`, with the attachments already in `p`; the handle is the pass's index. */
    method AddPass(p: Pass) returns (h: nat)
      modifies this
      ensures log == old(log).(passes := old(log).passes + [p]) && h == |old(log).passes|
    {
      h := |log.passes|;
      log := log.(passes := log.passes + [p]);
    }

    /** `pass.addQueue`, with the queue's draws already in `q`. */
    method AddQueue(h: nat, q: Queue)
      requires h < |log.passes|
      modifies this
      ensures log == old(log).(passes := old(log).passes[h := old(log).passes[h].(queues := old(log).passes[h].queues + [q])])
    {
      log := log.(passes := log.passes[h := log.passes[h].(queues := log.passes[h].queues + [q])]);
    }

    /** `pass.addTexture(resource, slot)` on a pass recorded earlier. */
    method AddTexture(h: nat, b: Binding)
      requires h < |log.passes|
      modifies this
      ensures log == old(log).(passes := old(log).passes[h := old(log).passes[h].(textures := old(log).passes[h].textures + [b])])
    {
      log := log.(passes := log.passes[h := log.passes[h].(textures := log.passes[h].textures + [b])]);
    }

    /** `pass.showStatistics = true`. */
    method ShowStatistics(h: nat)
      requires h < |log.passes|
      modifies this
      ensures log == old(log).(passes := old(log).passes[h := old(log).passes[h].(showStatistics := true)])
    {
      log := log.(passes := log.passes[h := log.passes[h].(showStatistics := true)]);
    }

    /** `addTexture` of an external texture by name. */
    method AddExternalTexture(name: string)
      modifies this
      ensures log == old(log).(externals := old(log).externals + {name})
    {
      log := log.(externals := log.externals + {name});
    }

    /** `setVec4` of a global uniform. */
    method SetVec4(g: Global)
      modifies this
      ensures log == old(log).(globals := old(log).globals + [g])
    {
      log := log.(globals := log.globals + [g]);
    }

    /** A console warning. */
    method Warn(w: Warning)
      modifies this
      ensures log == old(log).(warnings := old(log).warnings + [w])
    {
      log := log.(warnings := log.warnings + [w]);
    }
  }
}
