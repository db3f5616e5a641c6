/**
 * The scoped settings cache of src/settings.ts.
 *
 * A `SettingsCache` record mirrors the WebGL state the library has set. A
 * `Settings` value is an immutable chain of scopes; `apply(callback)` enters
 * every scope in chain order, runs the callback and leaves the scopes in the
 * reverse order, also when the callback throws. A scope whose value equals
 * the cached one does nothing; any other one writes the cache, issues the GL
 * call, and on the way out writes and re-issues the old value.
 *
 * The chain is modelled as a sequence of steps, the callback as a `Body`
 * (calls it makes, then how it ends, possibly inside further scopes), and
 * the effect of `apply` as the pure function `RunSteps`, which the imperative
 * `Gl.Apply` is proved against.
 */
module StateCache {
  import opened Wrappers
  import opened Objects
  import W = WebGl

  /**
   * The value of a `SettingsCache` record (src/settings.ts:37-59), its
   * fields grouped by what they configure. The `attributes` Map keeps
   * insertion order.
   */
  datatype Cache = Cache(
    blending: Blending,
    depth: Depth,
    raster: Raster,
    units: Units,
    bindings: Bindings,
    attributes: seq<(nat, W.AttributePointer)>)

  datatype Blending = Blending(
    blend: bool,
    blendEquation: (W.BlendEquation, W.BlendEquation),
    blendFunction: (W.BlendFunction, W.BlendFunction, W.BlendFunction, W.BlendFunction))

  datatype Depth = Depth(depthTest: bool, depthFunction: W.DepthFunction, clearDepth: real)

  datatype Raster = Raster(
    viewport: W.Rect,
    scissorTest: bool,
    scissorBox: W.Rect,
    lineWidth: real,
    clearColor: W.Color,
    cullFace: bool,
    cullFaceMode: W.FaceCulling)

  datatype Units = Units(activeTexture: int, textures: map<int, W.Texture>)

  datatype Bindings = Bindings(
    arrayBuffer: Option<W.Handle>,
    elementsBuffer: Option<W.Handle>,
    program: Option<W.Handle>,
    renderBuffer: Option<W.Handle>,
    frameBuffer: Option<W.Handle>)

  /** `SettingsCache.initial()`. */
  const Initial: Cache := Cache(
    Blending(false, (W.Add, W.Add), (W.One, W.Zero, W.One, W.Zero)),
    Depth(false, W.Less, 1.0),
    Raster(W.Rect(0, 0, 0, 0), false, W.Rect(0, 0, 0, 0), 1.0, W.Color(0.0, 0.0, 0.0, 0.0), false, W.Back),
    Units(0, map[]),
    Bindings(None, None, None, None, None),
    [])

  function Location(e: (nat, W.AttributePointer)): nat { e.0 }

  /** `attributes.get(location) ?? null`. */
  function PointerAt(c: Cache, location: nat): Option<W.AttributePointer> {
    var e := Get(c.attributes, Location, location);
    if e.Some? then Some(e.value.1) else None
  }

  /** The value a `cached` setter scopes, tagged with the setter it belongs to. */
  datatype Setting =
    | Blend(on: bool)
    | CullFace(on: bool)
    | CullFaceMode(mode: W.FaceCulling)
    | Viewport(rect: W.Rect)
    | ScissorTest(on: bool)
    | ScissorBox(rect: W.Rect)
    | DepthTest(on: bool)
    | ClearDepth(depth: real)
    | LineWidth(width: real)
    | BlendEquation(equations: (W.BlendEquation, W.BlendEquation))
    | BlendFunction(functions: (W.BlendFunction, W.BlendFunction, W.BlendFunction, W.BlendFunction))
    | DepthFunction(depthFunction: W.DepthFunction)
    | ClearColor(color: W.Color)
    | ActiveTexture(unit: int)
    | TextureUnit(index: int, texture: Option<W.Texture>)
    | ArrayBuffer(buffer: Option<W.Handle>)
    | ElementsBuffer(buffer: Option<W.Handle>)
    | Program(buffer: Option<W.Handle>)
    | RenderBuffer(buffer: Option<W.Handle>)
    | FrameBuffer(buffer: Option<W.Handle>)

  /** The setter's `read`: the cached value, as a setting of the same kind. */
  function Read(c: Cache, s: Setting): (r: Setting)
    ensures r.TextureUnit? == s.TextureUnit?
  {
    match s
    case Blend(_) => Blend(c.blending.blend)
    case CullFace(_) => CullFace(c.raster.cullFace)
    case CullFaceMode(_) => CullFaceMode(c.raster.cullFaceMode)
    case Viewport(_) => Viewport(c.raster.viewport)
    case ScissorTest(_) => ScissorTest(c.raster.scissorTest)
    case ScissorBox(_) => ScissorBox(c.raster.scissorBox)
    case DepthTest(_) => DepthTest(c.depth.depthTest)
    case ClearDepth(_) => ClearDepth(c.depth.clearDepth)
    case LineWidth(_) => LineWidth(c.raster.lineWidth)
    case BlendEquation(_) => BlendEquation(c.blending.blendEquation)
    case BlendFunction(_) => BlendFunction(c.blending.blendFunction)
    case DepthFunction(_) => DepthFunction(c.depth.depthFunction)
    case ClearColor(_) => ClearColor(c.raster.clearColor)
    case ActiveTexture(_) => ActiveTexture(c.units.activeTexture)
    case TextureUnit(i, _) => TextureUnit(i, if i in c.units.textures then Some(c.units.textures[i]) else None)
    case ArrayBuffer(_) => ArrayBuffer(c.bindings.arrayBuffer)
    case ElementsBuffer(_) => ElementsBuffer(c.bindings.elementsBuffer)
    case Program(_) => Program(c.bindings.program)
    case RenderBuffer(_) => RenderBuffer(c.bindings.renderBuffer)
    case FrameBuffer(_) => FrameBuffer(c.bindings.frameBuffer)
  }

  /** The setter's `write`. A texture unit set to null is deleted from the `textures` Map. */
  function Written(c: Cache, s: Setting): Cache {
    match s
    case Blend(v) => c.(blending := c.blending.(blend := v))
    case CullFace(v) => c.(raster := c.raster.(cullFace := v))
    case CullFaceMode(v) => c.(raster := c.raster.(cullFaceMode := v))
    case Viewport(v) => c.(raster := c.raster.(viewport := v))
    case ScissorTest(v) => c.(raster := c.raster.(scissorTest := v))
    case ScissorBox(v) => c.(raster := c.raster.(scissorBox := v))
    case DepthTest(v) => c.(depth := c.depth.(depthTest := v))
    case ClearDepth(v) => c.(depth := c.depth.(clearDepth := v))
    case LineWidth(v) => c.(raster := c.raster.(lineWidth := v))
    case BlendEquation(v) => c.(blending := c.blending.(blendEquation := v))
    case BlendFunction(v) => c.(blending := c.blending.(blendFunction := v))
    case DepthFunction(v) => c.(depth := c.depth.(depthFunction := v))
    case ClearColor(v) => c.(raster := c.raster.(clearColor := v))
    case ActiveTexture(v) => c.(units := c.units.(activeTexture := v))
    case TextureUnit(i, t) => c.(units := c.units.(textures := if t.Some? then c.units.textures[i := t.value] else c.units.textures - {i}))
    case ArrayBuffer(v) => c.(bindings := c.bindings.(arrayBuffer := v))
    case ElementsBuffer(v) => c.(bindings := c.bindings.(elementsBuffer := v))
    case Program(v) => c.(bindings := c.bindings.(program := v))
    case RenderBuffer(v) => c.(bindings := c.bindings.(renderBuffer := v))
    case FrameBuffer(v) => c.(bindings := c.bindings.(frameBuffer := v))
  }

  function Switch(cap: W.Capability, on: bool): W.Call {
    if on then W.Enable(cap) else W.Disable(cap)
  }

  function HandleOf(t: Option<W.Texture>): Option<W.Handle> {
    if t.Some? then Some(t.value.handle) else None
  }

  /** The setter's `apply` for every setter but the texture units, whose `apply` opens a scope of its own. */
  function DirectCalls(s: Setting): seq<W.Call>
    requires !s.TextureUnit?
  {
    match s
    case Blend(v) => [Switch(W.BlendCap, v)]
    case CullFace(v) => [Switch(W.CullFaceCap, v)]
    case CullFaceMode(v) => [W.CullFace(v)]
    case Viewport(v) => [W.Viewport(v)]
    case ScissorTest(v) => [Switch(W.ScissorTestCap, v)]
    case ScissorBox(v) => [W.Scissor(v)]
    case DepthTest(v) => [Switch(W.DepthTestCap, v)]
    case ClearDepth(v) => [W.ClearDepth(v)]
    case LineWidth(v) => [W.LineWidth(v)]
    case BlendEquation(v) => [W.BlendEquationSeparate(v.0, v.1)]
    case BlendFunction(v) => [W.BlendFuncSeparate(v.0, v.1, v.2, v.3)]
    case DepthFunction(v) => [W.DepthFunc(v)]
    case ClearColor(v) => [W.ClearColor(v)]
    case ActiveTexture(v) => [W.ActiveTexture(W.Texture0 + v)]
    case ArrayBuffer(v) => [W.BindBuffer(W.ArrayTarget, v)]
    case ElementsBuffer(v) => [W.BindBuffer(W.ElementsTarget, v)]
    case Program(v) => [W.UseProgram(v)]
    case RenderBuffer(v) => [W.BindRenderbuffer(v)]
    case FrameBuffer(v) => [W.BindFramebuffer(v)]
  }

  /** One link of a chain. `Cached` is a `cached`-based setter; the others have scopes of their own. */
  datatype Step =
    | Cached(setting: Setting)
    | Attribute(location: nat, pointer: Option<W.AttributePointer>)
    | RenderTarget(target: W.Texture)

  /** The callback given to `apply`: GL calls it makes and how it ends, possibly inside a further chain. */
  datatype Body =
    | Leaf(calls: seq<W.Call>, outcome: W.Outcome)
    | Within(steps: seq<Step>, body: Body)

  /** What `apply` acts on: the cache, the calls made so far, and the count of objects it created. */
  datatype GlState = GlState(cache: Cache, log: seq<W.Call>, serial: nat)

  /** The immutable builder. `gl.settings()` is the empty chain, whose `apply` just runs the callback. */
  datatype Settings = Settings(steps: seq<Step>)

  function StepWeight(s: Step): nat {
    if s.Cached? && !s.setting.TextureUnit? then 1 else 3
  }

  function Weight(steps: seq<Step>): nat {
    if |steps| == 0 then 0 else StepWeight(steps[0]) + Weight(steps[1..])
  }

  function BodySize(b: Body): (r: nat)
    ensures r >= 1
  {
    match b
    case Leaf(_, _) => 1
    case Within(steps, inner) => 1 + Weight(steps) + BodySize(inner)
  }

  lemma WeightOne(s: Step)
    ensures Weight([s]) == StepWeight(s)
  {
    assert [s][1..] == [];
  }

  lemma {:induction false} WeightAppend(a: seq<Step>, b: seq<Step>)
    ensures Weight(a + b) == Weight(a) + Weight(b)
  {
    if |a| > 0 {
      assert (a + b)[1..] == a[1..] + b;
      WeightAppend(a[1..], b);
    } else {
      assert a + b == b;
    }
  }

  /** The scopes `renderTarget` opens around the callback, after its frame buffer exists. */
  function TargetSteps(fb: W.Handle, t: W.Texture): seq<Step> {
    [Cached(FrameBuffer(Some(fb))), Cached(Viewport(W.Rect(0, 0, t.width, t.height)))]
  }

  /** The callback `new FrameBuffer(gl, texture)` runs with the new frame buffer bound. */
  function AttachBody(t: W.Texture): Body {
    Leaf([W.FramebufferTexture2D(t.handle)], W.Returned(0))
  }

  /** The callback that `writeAttributePointer` runs with the pointer's buffer bound. */
  function PointerBody(location: nat, p: W.AttributePointer): Body {
    Leaf([W.VertexAttribPointer(location, W.SizeOf(p.dataType), p.stride, p.offset)], W.Returned(0))
  }

  /** `settings.apply(callback)`: the outcome of the callback and the state afterwards. */
  function RunSteps(steps: seq<Step>, body: Body, st: GlState): (W.Outcome, GlState)
    decreases Weight(steps) + BodySize(body), 3
  {
    if |steps| == 0 then RunBody(body, st)
    else
      match steps[0]
      case Cached(s) => RunCached(s, steps[1..], body, st)
      case Attribute(location, p) => RunAttribute(location, p, steps[1..], body, st)
      case RenderTarget(t) => RunRenderTarget(t, steps[1..], body, st)
  }

  /**
   * The scope of a `cached` setter (src/settings.ts:127-141): nothing when
   * the cache holds the value; otherwise write and apply it, run the inner
   * scopes, and write and apply the old value (a `finally`).
   */
  function RunCached(s: Setting, rest: seq<Step>, body: Body, st: GlState): (W.Outcome, GlState)
    decreases StepWeight(Cached(s)) + Weight(rest) + BodySize(body), 2
  {
    var cached := Read(st.cache, s);
    if cached == s then RunSteps(rest, body, st)
    else
      var st1 := Applied(st.(cache := Written(st.cache, s)), s);
      var (o, st2) := RunSteps(rest, body, st1);
      (o, Applied(st2.(cache := Written(st2.cache, cached)), cached))
  }

  /**
   * The scope of `attribute(location, pointer)` (src/settings.ts:596-626):
   * nothing when both pointers are null or all five fields agree; otherwise
   * write the new pointer, run the inner scopes and write back the old one.
   */
  function RunAttribute(location: nat, p: Option<W.AttributePointer>, rest: seq<Step>, body: Body, st: GlState): (W.Outcome, GlState)
    decreases StepWeight(Attribute(location, p)) + Weight(rest) + BodySize(body), 2
  {
    var previous := PointerAt(st.cache, location);
    if p.None? && previous.None? then RunSteps(rest, body, st)
    else if p.Some? && previous == p then RunSteps(rest, body, st)
    else
      var st1 := PointerWritten(st, location, p);
      var (o, st2) := RunSteps(rest, body, st1);
      (o, PointerWritten(st2, location, previous))
  }

  /**
   * The scope of `renderTarget(texture)` (src/settings.ts:552-562 with the
   * `FrameBuffer` of src/webgl.ts): create a frame buffer and attach the
   * texture with it bound, then bind it with a full-texture viewport around
   * the inner scopes, and delete it at the end.
   */
  function RunRenderTarget(t: W.Texture, rest: seq<Step>, body: Body, st: GlState): (W.Outcome, GlState)
    decreases StepWeight(RenderTarget(t)) + Weight(rest) + BodySize(body), 2
  {
    var fb := W.Created(st.serial);
    var st1 := st.(serial := st.serial + 1, log := st.log + [W.CreateFramebuffer(fb)]);
    WeightOne(Cached(FrameBuffer(Some(fb))));
    var st2 := RunSteps([Cached(FrameBuffer(Some(fb)))], AttachBody(t), st1).1;
    WeightAppend(TargetSteps(fb, t), rest);
    var (o, st3) := RunSteps(TargetSteps(fb, t) + rest, body, st2);
    (o, st3.(log := st3.log + [W.DeleteFramebuffer(fb)]))
  }

  function RunBody(body: Body, st: GlState): (W.Outcome, GlState)
    decreases BodySize(body), 1
  {
    match body
    case Leaf(calls, o) => (o, st.(log := st.log + calls))
    case Within(steps, inner) => RunSteps(steps, inner, st)
  }

  /** The setter's `apply`: a texture unit is bound inside an `activeTexture(i)` scope. */
  function Applied(st: GlState, s: Setting): GlState
    decreases if s.TextureUnit? then 2 else 0, 4
  {
    if s.TextureUnit? then
      WeightOne(Cached(ActiveTexture(s.index)));
      RunSteps([Cached(ActiveTexture(s.index))], Leaf([W.BindTexture(HandleOf(s.texture))], W.Returned(0)), st).1
    else
      st.(log := st.log + DirectCalls(s))
  }

  /** `writeAttributePointer(location, pointer)` (src/settings.ts:564-594). */
  function PointerWritten(st: GlState, location: nat, p: Option<W.AttributePointer>): GlState
    decreases 2, 4
  {
    if p.None? then
      st.(log := st.log + [W.DisableVertexAttribArray(location)],
          cache := st.cache.(attributes := Remove(st.cache.attributes, Location, location)))
    else
      var st1 := st.(log := st.log + [W.EnableVertexAttribArray(location)]);
      WeightOne(Cached(ArrayBuffer(Some(p.value.buffer))));
      var st2 := RunSteps([Cached(ArrayBuffer(Some(p.value.buffer)))], PointerBody(location, p.value), st1).1;
      st2.(log := st2.log + [W.VertexAttribDivisor(location, p.value.divisor)],
           cache := st2.cache.(attributes := Put(st2.cache.attributes, Location, (location, p.value))))
  }

  /**
   * The GL context as the settings see it: its `SettingsCache` record, whose
   * properties the setters overwrite in place, the calls made on the native
   * handle, and the number of frame buffers it has created.
   */
  class Gl {
    var cache: Cache
    var log: seq<W.Call>
    var serial: nat

    function State(): GlState
      reads this
    {
      GlState(cache, log, serial)
    }

    /** A context starts from `SettingsCache.initial()`. */
    constructor ()
      ensures State() == GlState(Initial, [], 0)
    {
      cache := Initial;
      log := [];
      serial := 0;
    }

    /**
     * `settings.attributes(map)`: reads the locations the cache holds when it
     * is called, not when the chain is applied. The chain sets every entry in
     * Map order and then nulls exactly the held locations the map lacks.
     */
    method Attributes(s: Settings, entries: seq<(nat, W.AttributePointer)>) returns (r: Settings)
      ensures r == AttributesChain(s, entries, Keys(cache.attributes, Location))
      ensures var n := |s.steps| + |entries|;
              |r.steps| >= n && r.steps[..|s.steps|] == s.steps &&
              (forall i :: 0 <= i < |entries| ==> r.steps[|s.steps| + i] == Attribute(entries[i].0, Some(entries[i].1))) &&
              (forall step :: step in r.steps[n..] <==>
                step.Attribute? && step.pointer.None? && HasKey(cache.attributes, Location, step.location) &&
                !HasKey(entries, Location, step.location))
    {
      var locations := Keys(cache.attributes, Location);
      r := AttributesChain(s, entries, locations);
      AttributesChainSteps(s, entries, locations);
      forall l
        ensures l in locations <==> HasKey(cache.attributes, Location, l)
      {
        if l in locations {
          var i :| 0 <= i < |locations| && locations[i] == l;
        }
      }
    }

    /** `settings.apply(callback)` for the chain `steps`. */
    method Apply(steps: seq<Step>, body: Body) returns (o: W.Outcome)
      modifies this
      ensures (o, State()) == RunSteps(steps, body, old(State()))
      decreases Weight(steps) + BodySize(body), 2
    {
      if |steps| == 0 {
        o := Run(body);
      } else if steps[0].Cached? {
        o := ApplyCached(steps, body);
      } else if steps[0].Attribute? {
        o := ApplyAttribute(steps, body);
      } else {
        o := ApplyRenderTarget(steps, body);
      }
    }

    /** The scope of a `cached` setter (src/settings.ts:127-141). */
    method ApplyCached(steps: seq<Step>, body: Body) returns (o: W.Outcome)
      requires |steps| > 0 && steps[0].Cached?
      modifies this
      ensures (o, State()) == RunSteps(steps, body, old(State()))
      decreases Weight(steps) + BodySize(body), 1
    {
      var s := steps[0].setting;
      var cached := Read(cache, s);
      if cached == s {
        o := Apply(steps[1..], body);
      } else {
        // try { write; apply; callback } finally { write old; apply old }
        cache := Written(cache, s);
        ApplySetting(s);
        o := Apply(steps[1..], body);
        cache := Written(cache, cached);
        ApplySetting(cached);
      }
    }

    /** The scope of `attribute(location, pointer)` (src/settings.ts:596-626). */
    method ApplyAttribute(steps: seq<Step>, body: Body) returns (o: W.Outcome)
      requires |steps| > 0 && steps[0].Attribute?
      modifies this
      ensures (o, State()) == RunSteps(steps, body, old(State()))
      decreases Weight(steps) + BodySize(body), 1
    {
      var location, p := steps[0].location, steps[0].pointer;
      var previous := PointerAt(cache, location);
      if p.None? && previous.None? {
        o := Apply(steps[1..], body);
      } else if p.Some? && previous == p {
        o := Apply(steps[1..], body);
      } else {
        WriteAttributePointer(location, p);
        o := Apply(steps[1..], body);
        WriteAttributePointer(location, previous);
      }
    }

    /**
     * The scope of `renderTarget(texture)` (src/settings.ts:552-562):
     * `use(gl.frameBuffer(texture), fb => gl.settings().frameBuffer(fb).viewport(0, 0, w, h).apply(callback))`.
     */
    method ApplyRenderTarget(steps: seq<Step>, body: Body) returns (o: W.Outcome)
      requires |steps| > 0 && steps[0].RenderTarget?
      modifies this
      ensures (o, State()) == RunSteps(steps, body, old(State()))
      decreases Weight(steps) + BodySize(body), 1
    {
      var t := steps[0].target;
      var fb := W.Created(serial);
      serial := serial + 1;
      log := log + [W.CreateFramebuffer(fb)];
      WeightOne(Cached(FrameBuffer(Some(fb))));
      var _ := Apply([Cached(FrameBuffer(Some(fb)))], AttachBody(t));
      WeightAppend(TargetSteps(fb, t), steps[1..]);
      o := Apply(TargetSteps(fb, t) + steps[1..], body);
      log := log + [W.DeleteFramebuffer(fb)];
    }

    method Run(body: Body) returns (o: W.Outcome)
      modifies this
      ensures (o, State()) == RunBody(body, old(State()))
      decreases BodySize(body), 1
    {
      match body
      case Leaf(calls, outcome) =>
        log := log + calls;
        o := outcome;
      case Within(steps, inner) =>
        o := Apply(steps, inner);
    }

    method ApplySetting(s: Setting)
      modifies this
      ensures State() == Applied(old(State()), s)
      decreases if s.TextureUnit? then 2 else 0, 4
    {
      if s.TextureUnit? {
        WeightOne(Cached(ActiveTexture(s.index)));
        var _ := Apply([Cached(ActiveTexture(s.index))], Leaf([W.BindTexture(HandleOf(s.texture))], W.Returned(0)));
      } else {
        log := log + DirectCalls(s);
      }
    }

    method WriteAttributePointer(location: nat, p: Option<W.AttributePointer>)
      modifies this
      ensures State() == PointerWritten(old(State()), location, p)
      decreases 2, 3
    {
      if p.None? {
        log := log + [W.DisableVertexAttribArray(location)];
        cache := cache.(attributes := Remove(cache.attributes, Location, location));
      } else {
        log := log + [W.EnableVertexAttribArray(location)];
        WeightOne(Cached(ArrayBuffer(Some(p.value.buffer))));
        var _ := Apply([Cached(ArrayBuffer(Some(p.value.buffer)))], PointerBody(location, p.value));
        log := log + [W.VertexAttribDivisor(location, p.value.divisor)];
        cache := cache.(attributes := Put(cache.attributes, Location, (location, p.value)));
      }
    }
  }

  // ---------------------------------------------------------------------------
  // The builder (src/settings.ts:105-152, 464-477, 552-562, 596-646)

  /** `a.then(b)`: `b`'s scopes inside `a`'s. */
  function Then(a: Settings, b: Settings): Settings {
    Settings(a.steps + b.steps)
  }

  /** A `cached` setter applied to a chain: `settings.then(<the setter's scope>)`. */
  function With(s: Settings, x: Setting): Settings {
    Then(s, Settings([Cached(x)]))
  }

  /** `blendEquation(rgb, alpha = rgb)`. */
  function BlendEquations(rgb: W.BlendEquation, alpha: Option<W.BlendEquation>): (r: Setting)
    ensures r.BlendEquation? && r.equations.0 == rgb
    ensures r.equations.1 == if alpha.Some? then alpha.value else rgb
  {
    BlendEquation((rgb, if alpha.Some? then alpha.value else rgb))
  }

  /** `blendFunction(srcRgb, dstRgb, srcAlpha = srcRgb, dstAlpha = dstRgb)`. */
  function BlendFunctions(srcRgb: W.BlendFunction, dstRgb: W.BlendFunction,
                          srcAlpha: Option<W.BlendFunction>, dstAlpha: Option<W.BlendFunction>): (r: Setting)
    ensures r.BlendFunction? && r.functions.0 == srcRgb && r.functions.1 == dstRgb
    ensures r.functions.2 == if srcAlpha.Some? then srcAlpha.value else srcRgb
    ensures r.functions.3 == if dstAlpha.Some? then dstAlpha.value else dstRgb
  {
    BlendFunction((srcRgb, dstRgb, if srcAlpha.Some? then srcAlpha.value else srcRgb,
                   if dstAlpha.Some? then dstAlpha.value else dstRgb))
  }

  /**
   * `texture(i, texture)`: one of the 16 per-unit setters. Any other `i`
   * finds no setter in the array, and calling `undefined` throws.
   */
  function TextureOf(s: Settings, i: int, t: Option<W.Texture>): (r: Result<Settings, string>)
    ensures r.Ok? <==> 0 <= i < 16
    ensures r.Ok? ==> r.value.steps == s.steps + [Cached(TextureUnit(i, t))]
  {
    if 0 <= i < 16 then Ok(With(s, TextureUnit(i, t))) else Err("textures[i] is not a function")
  }

  /** `textures(list)`: exactly the 16 units, unit `i` getting `list[i]`, or null past the end of the list. */
  method Textures(s: Settings, list: seq<Option<W.Texture>>) returns (r: Settings)
    ensures |r.steps| == |s.steps| + 16 && r.steps[..|s.steps|] == s.steps
    ensures forall i :: 0 <= i < 16 ==>
              r.steps[|s.steps| + i] == Cached(TextureUnit(i, if i >= |list| then None else list[i]))
  {
    r := s;
    for i := 0 to 16
      invariant |r.steps| == |s.steps| + i && r.steps[..|s.steps|] == s.steps
      invariant forall j :: 0 <= j < i ==>
                  r.steps[|s.steps| + j] == Cached(TextureUnit(j, if j >= |list| then None else list[j]))
    {
      var next := TextureOf(r, i, if i >= |list| then None else list[i]);
      r := next.value;
    }
  }

  function AttributeOf(s: Settings, location: nat, p: Option<W.AttributePointer>): Settings {
    Then(s, Settings([Attribute(location, p)]))
  }

  /** The first `reduce` of `attributes(map)`: an `attribute` scope per entry, in Map order. */
  function SetAll(s: Settings, entries: seq<(nat, W.AttributePointer)>): Settings
    decreases |entries|
  {
    if |entries| == 0 then s
    else SetAll(AttributeOf(s, entries[0].0, Some(entries[0].1)), entries[1..])
  }

  /** The second `reduce`: a null `attribute` scope per old location that the map does not hold. */
  function NullMissing(s: Settings, locations: seq<nat>, entries: seq<(nat, W.AttributePointer)>): Settings
    decreases |locations|
  {
    if |locations| == 0 then s
    else
      var next := if HasKey(entries, Location, locations[0]) then s else AttributeOf(s, locations[0], None);
      NullMissing(next, locations[1..], entries)
  }

  /** `attributes(map)`, where `locations` are the keys the cache held when `attributes` was called. */
  function AttributesChain(s: Settings, entries: seq<(nat, W.AttributePointer)>, locations: seq<nat>): Settings {
    Then(SetAll(s, entries), NullMissing(Settings([]), locations, entries))
  }

  /** `renderTarget(texture)`: a chain of its own; whatever `s` held is dropped. */
  function RenderTargetOf(s: Settings, t: W.Texture): Settings {
    Settings([RenderTarget(t)])
  }

  // ---------------------------------------------------------------------------
  // Reference definitions and properties

  /** How the callback ends, however deep inside further chains. */
  function ResultOf(b: Body): W.Outcome {
    match b
    case Leaf(_, o) => o
    case Within(_, inner) => ResultOf(inner)
  }

  /** Equal caches, except that the `attributes` Maps need only agree location by location, not in order. */
  ghost predicate Same(a: Cache, b: Cache) {
    a.(attributes := []) == b.(attributes := []) && forall l :: PointerAt(a, l) == PointerAt(b, l)
  }

  /** The calls a setter's `apply` makes, written out: a texture unit is bound with `activeTexture(i)` scoped around it. */
  function SettingCalls(c: Cache, s: Setting): seq<W.Call> {
    if s.TextureUnit? then
      var bind := W.BindTexture(HandleOf(s.texture));
      if c.units.activeTexture == s.index then [bind]
      else [W.ActiveTexture(W.Texture0 + s.index), bind, W.ActiveTexture(W.Texture0 + c.units.activeTexture)]
    else DirectCalls(s)
  }

  /** The calls `writeAttributePointer` makes, written out: the pointer is set with its buffer bound in a scope. */
  function PointerCalls(c: Cache, location: nat, p: Option<W.AttributePointer>): seq<W.Call> {
    if p.None? then [W.DisableVertexAttribArray(location)]
    else
      var q := p.value;
      var pointer := W.VertexAttribPointer(location, W.SizeOf(q.dataType), q.stride, q.offset);
      var bound := if c.bindings.arrayBuffer == Some(q.buffer) then [pointer]
                   else [W.BindBuffer(W.ArrayTarget, Some(q.buffer)), pointer, W.BindBuffer(W.ArrayTarget, c.bindings.arrayBuffer)];
      [W.EnableVertexAttribArray(location)] + bound + [W.VertexAttribDivisor(location, q.divisor)]
  }

  /** Reading back a write gives the written value, and writing back what was read restores the cache exactly. */
  lemma ReadWrite(c: Cache, s: Setting)
    ensures Read(Written(c, s), s) == s
    ensures Written(Written(c, s), Read(c, s)) == c
    ensures Written(c, s).attributes == c.attributes
    ensures s.TextureUnit? && s.texture.None? ==> s.index !in Written(c, s).units.textures
    ensures s.TextureUnit? && s.texture.Some? ==> Written(c, s).units.textures == c.units.textures[s.index := s.texture.value]
  {
    if s.TextureUnit? {
      var i := s.index;
      if i in c.units.textures {
        assert Written(Written(c, s), Read(c, s)).units.textures == c.units.textures;
      } else {
        assert Written(Written(c, s), Read(c, s)).units.textures == c.units.textures;
      }
    }
  }

  lemma SameWritten(a: Cache, b: Cache, s: Setting)
    requires Same(a, b)
    ensures Same(Written(a, s), Written(b, s))
  {
    ReadWrite(a, s);
    ReadWrite(b, s);
    assert Written(a, s).(attributes := []) == Written(a.(attributes := []), s);
    assert Written(b, s).(attributes := []) == Written(b.(attributes := []), s);
    forall l
      ensures PointerAt(Written(a, s), l) == PointerAt(Written(b, s), l)
    {
      assert PointerAt(Written(a, s), l) == PointerAt(a, l);
      assert PointerAt(Written(b, s), l) == PointerAt(b, l);
    }
  }

  /**
   * A setter's scope that changes the cache, around any inner scopes: write
   * and apply the value, run the inner scopes, then write and apply the value
   * read on entry.
   */
  lemma CachedEnter(s: Setting, rest: seq<Step>, body: Body, st: GlState)
    requires Read(st.cache, s) != s
    ensures var c := st.cache;
            var r := RunSteps(rest, body, st.(cache := Written(c, s), log := st.log + SettingCalls(Written(c, s), s)));
            var back := Written(r.1.cache, Read(c, s));
            RunSteps([Cached(s)] + rest, body, st) ==
              (r.0, r.1.(cache := back, log := r.1.log + SettingCalls(back, Read(c, s))))
  {
    assert ([Cached(s)] + rest)[0] == Cached(s) && ([Cached(s)] + rest)[1..] == rest;
    var c := st.cache;
    AppliedCalls(st.(cache := Written(c, s)), s);
    var r := RunSteps(rest, body, st.(cache := Written(c, s), log := st.log + SettingCalls(Written(c, s), s)));
    AppliedCalls(r.1.(cache := Written(r.1.cache, Read(c, s))), Read(c, s));
  }

  /** A setter's scope around a callback that makes `calls`: elided when the value is cached, otherwise entered and left in order. */
  lemma CachedScope(s: Setting, calls: seq<W.Call>, o: W.Outcome, st: GlState)
    ensures var c := st.cache;
            RunSteps([Cached(s)], Leaf(calls, o), st) ==
              if Read(c, s) == s then (o, st.(log := st.log + calls))
              else (o, st.(log := st.log + SettingCalls(Written(c, s), s) + calls + SettingCalls(c, Read(c, s))))
  {
    var c := st.cache;
    assert [Cached(s)][1..] == [];
    assert RunSteps([Cached(s)], Leaf(calls, o), st) == RunCached(s, [], Leaf(calls, o), st);
    assert RunSteps([], Leaf(calls, o), st) == (o, st.(log := st.log + calls));
    ReadWrite(c, s);
    if Read(c, s) != s {
      AppliedCalls(st.(cache := Written(c, s)), s);
      var st1 := st.(cache := Written(c, s), log := st.log + SettingCalls(Written(c, s), s));
      assert RunSteps([], Leaf(calls, o), st1) == (o, st1.(log := st1.log + calls));
      var st2 := st1.(log := st1.log + calls);
      AppliedCalls(st2.(cache := c), Read(c, s));
    }
  }

  lemma LeafRun(calls: seq<W.Call>, o: W.Outcome, st: GlState)
    ensures RunSteps([], Leaf(calls, o), st) == (o, st.(log := st.log + calls))
  {
    assert RunSteps([], Leaf(calls, o), st) == RunBody(Leaf(calls, o), st);
  }

  /** A setter's `apply` leaves the cache as it found it and makes the calls `SettingCalls` lists. */
  lemma AppliedCalls(st: GlState, s: Setting)
    ensures Applied(st, s) == st.(log := st.log + SettingCalls(st.cache, s))
  {
    if s.TextureUnit? {
      var a := ActiveTexture(s.index);
      var body := Leaf([W.BindTexture(HandleOf(s.texture))], W.Returned(0));
      var c := st.cache;
      assert [Cached(a)][1..] == [];
      assert Applied(st, s) == RunCached(a, [], body, st).1;
      LeafRun([W.BindTexture(HandleOf(s.texture))], W.Returned(0), st);
      if Read(c, a) != a {
        var x := st.(cache := Written(c, a));
        assert DirectCalls(a) == [W.ActiveTexture(W.Texture0 + s.index)];
        assert Applied(x, a) == x.(log := x.log + DirectCalls(a));
        var st1 := Applied(x, a);
        assert st1 == st.(cache := Written(c, a), log := st.log + [W.ActiveTexture(W.Texture0 + s.index)]);
        LeafRun([W.BindTexture(HandleOf(s.texture))], W.Returned(0), st1);
        var st2 := RunSteps([], body, st1).1;
        ReadWrite(c, a);
        assert Written(st2.cache, Read(c, a)) == c;
      }
    }
  }

  /** `writeAttributePointer` changes only the pointer at `location`, and makes the calls `PointerCalls` lists. */
  lemma PointerWrittenEffect(st: GlState, location: nat, p: Option<W.AttributePointer>)
    ensures PointerWritten(st, location, p).log == st.log + PointerCalls(st.cache, location, p)
    ensures PointerWritten(st, location, p).serial == st.serial
    ensures PointerWritten(st, location, p).cache.(attributes := []) == st.cache.(attributes := [])
    ensures PointerWritten(st, location, p).cache.attributes ==
              if p.None? then Remove(st.cache.attributes, Location, location)
              else Put(st.cache.attributes, Location, (location, p.value))
    ensures forall l :: PointerAt(PointerWritten(st, location, p).cache, l) ==
                          if l == location then p else PointerAt(st.cache, l)
  {
    var r := PointerWritten(st, location, p);
    if p.None? {
      forall l
        ensures PointerAt(r.cache, l) == if l == location then p else PointerAt(st.cache, l)
      {
        RemoveGet(st.cache.attributes, Location, location, l);
      }
    } else {
      var q := p.value;
      var st1 := st.(log := st.log + [W.EnableVertexAttribArray(location)]);
      CachedScope(ArrayBuffer(Some(q.buffer)), PointerBody(location, q).calls, W.Returned(0), st1);
      forall l
        ensures PointerAt(r.cache, l) == if l == location then p else PointerAt(st.cache, l)
      {
        PutGet(st.cache.attributes, Location, (location, q), l);
      }
    }
  }

  lemma SameTransitive(a: Cache, b: Cache, c: Cache)
    requires Same(a, b) && Same(b, c)
    ensures Same(a, c)
  {
  }

  /**
   * Restore on every exit: whatever the chain and the callback, `apply`
   * leaves the cache as it found it (the `attributes` Map location by
   * location), and ends as the callback ended, returning its value or
   * rethrowing its exception.
   */
  lemma {:induction false} StepsRestore(steps: seq<Step>, body: Body, st: GlState)
    ensures Same(RunSteps(steps, body, st).1.cache, st.cache)
    ensures RunSteps(steps, body, st).0 == ResultOf(body)
    decreases Weight(steps) + BodySize(body), 3
  {
    if |steps| == 0 {
      BodyRestores(body, st);
    } else {
      match steps[0]
      case Cached(s) => CachedRestores(s, steps[1..], body, st);
      case Attribute(location, p) => AttributeRestores(location, p, steps[1..], body, st);
      case RenderTarget(t) => RenderTargetRestores(t, steps[1..], body, st);
    }
  }

  lemma {:induction false} CachedRestores(s: Setting, rest: seq<Step>, body: Body, st: GlState)
    ensures Same(RunCached(s, rest, body, st).1.cache, st.cache)
    ensures RunCached(s, rest, body, st).0 == ResultOf(body)
    decreases StepWeight(Cached(s)) + Weight(rest) + BodySize(body), 2
  {
    var c := st.cache;
    var cached := Read(c, s);
    if cached == s {
      StepsRestore(rest, body, st);
    } else {
      var st1 := Applied(st.(cache := Written(c, s)), s);
      AppliedCalls(st.(cache := Written(c, s)), s);
      StepsRestore(rest, body, st1);
      var st2 := RunSteps(rest, body, st1).1;
      AppliedCalls(st2.(cache := Written(st2.cache, cached)), cached);
      SameWritten(st2.cache, Written(c, s), cached);
      ReadWrite(c, s);
    }
  }

  lemma {:induction false} AttributeRestores(location: nat, p: Option<W.AttributePointer>, rest: seq<Step>, body: Body, st: GlState)
    ensures Same(RunAttribute(location, p, rest, body, st).1.cache, st.cache)
    ensures RunAttribute(location, p, rest, body, st).0 == ResultOf(body)
    decreases StepWeight(Attribute(location, p)) + Weight(rest) + BodySize(body), 2
  {
    var previous := PointerAt(st.cache, location);
    if (p.None? && previous.None?) || (p.Some? && previous == p) {
      StepsRestore(rest, body, st);
    } else {
      var st1 := PointerWritten(st, location, p);
      PointerWrittenEffect(st, location, p);
      StepsRestore(rest, body, st1);
      var st2 := RunSteps(rest, body, st1).1;
      PointerWrittenEffect(st2, location, previous);
    }
  }

  lemma {:induction false} RenderTargetRestores(t: W.Texture, rest: seq<Step>, body: Body, st: GlState)
    ensures Same(RunRenderTarget(t, rest, body, st).1.cache, st.cache)
    ensures RunRenderTarget(t, rest, body, st).0 == ResultOf(body)
    decreases StepWeight(RenderTarget(t)) + Weight(rest) + BodySize(body), 2
  {
    var fb := W.Created(st.serial);
    var st1 := st.(serial := st.serial + 1, log := st.log + [W.CreateFramebuffer(fb)]);
    CachedScope(FrameBuffer(Some(fb)), AttachBody(t).calls, W.Returned(0), st1);
    var st2 := RunSteps([Cached(FrameBuffer(Some(fb)))], AttachBody(t), st1).1;
    WeightAppend(TargetSteps(fb, t), rest);
    StepsRestore(TargetSteps(fb, t) + rest, body, st2);
  }

  lemma {:induction false} BodyRestores(body: Body, st: GlState)
    ensures Same(RunBody(body, st).1.cache, st.cache)
    ensures RunBody(body, st).0 == ResultOf(body)
    decreases BodySize(body), 1
  {
    match body
    case Leaf(_, _) =>
    case Within(steps, inner) => StepsRestore(steps, inner, st);
  }

  /** `a.then(b).apply(cb)` is `a.apply(() => b.apply(cb))`: `b`'s scopes nest strictly inside `a`'s. */
  lemma {:induction false} ThenNests(a: Settings, b: Settings, body: Body, st: GlState)
    ensures RunSteps(Then(a, b).steps, body, st) == RunSteps(a.steps, Within(b.steps, body), st)
    decreases Weight(a.steps), 1
  {
    var ab := a.steps + b.steps;
    var inner := Within(b.steps, body);
    if |a.steps| == 0 {
      assert ab == b.steps;
    } else {
      var rest := a.steps[1..];
      assert ab[0] == a.steps[0] && ab[1..] == rest + b.steps;
      match a.steps[0]
      case Cached(s) =>
        ThenCached(s, rest, b, body, st);
      case Attribute(location, p) =>
        ThenAttribute(location, p, rest, b, body, st);
      case RenderTarget(t) =>
        ThenRenderTarget(t, rest, b, body, st);
    }
  }

  lemma {:induction false} ThenCached(s: Setting, rest: seq<Step>, b: Settings, body: Body, st: GlState)
    ensures RunCached(s, rest + b.steps, body, st) == RunCached(s, rest, Within(b.steps, body), st)
    decreases StepWeight(Cached(s)) + Weight(rest), 0
  {
    var c := st.cache;
    if Read(c, s) == s {
      ThenNests(Settings(rest), b, body, st);
    } else {
      ThenNests(Settings(rest), b, body, Applied(st.(cache := Written(c, s)), s));
    }
  }

  lemma {:induction false} ThenAttribute(location: nat, p: Option<W.AttributePointer>, rest: seq<Step>, b: Settings, body: Body, st: GlState)
    ensures RunAttribute(location, p, rest + b.steps, body, st) == RunAttribute(location, p, rest, Within(b.steps, body), st)
    decreases StepWeight(Attribute(location, p)) + Weight(rest), 0
  {
    ThenNests(Settings(rest), b, body, st);
    ThenNests(Settings(rest), b, body, PointerWritten(st, location, p));
  }

  lemma {:induction false} ThenRenderTarget(t: W.Texture, rest: seq<Step>, b: Settings, body: Body, st: GlState)
    ensures RunRenderTarget(t, rest + b.steps, body, st) == RunRenderTarget(t, rest, Within(b.steps, body), st)
    decreases StepWeight(RenderTarget(t)) + Weight(rest), 0
  {
    var fb := W.Created(st.serial);
    var target := TargetSteps(fb, t);
    var st1 := st.(serial := st.serial + 1, log := st.log + [W.CreateFramebuffer(fb)]);
    var st2 := RunSteps([Cached(FrameBuffer(Some(fb)))], AttachBody(t), st1).1;
    WeightAppend(target, rest);
    assert target + (rest + b.steps) == (target + rest) + b.steps;
    ThenNests(Settings(target + rest), b, body, st2);
  }

  /**
   * Two scopes that both change the cache, around a callback: entered in
   * chain order and left in the reverse order, each exit re-issuing the value
   * its entry replaced; the cache ends as it began.
   */
  lemma ScopesNestLastInFirstOut(s1: Setting, s2: Setting, calls: seq<W.Call>, o: W.Outcome, st: GlState)
    requires Read(st.cache, s1) != s1
    requires Read(Written(st.cache, s1), s2) != s2
    ensures var c := st.cache;
            var c1 := Written(c, s1);
            var c2 := Written(c1, s2);
            RunSteps(Then(With(Settings([]), s1), With(Settings([]), s2)).steps, Leaf(calls, o), st) ==
              (o, st.(log := st.log + SettingCalls(c1, s1) + SettingCalls(c2, s2) + calls
                                    + SettingCalls(c1, Read(c1, s2)) + SettingCalls(c, Read(c, s1))))
  {
    var c := st.cache;
    var c1 := Written(c, s1);
    var steps := [Cached(s1), Cached(s2)];
    assert Then(With(Settings([]), s1), With(Settings([]), s2)).steps == steps;
    assert steps[1..] == [Cached(s2)];
    ReadWrite(c, s1);
    AppliedCalls(st.(cache := c1), s1);
    var st1 := st.(cache := c1, log := st.log + SettingCalls(c1, s1));
    CachedScope(s2, calls, o, st1);
    ReadWrite(c1, s2);
    var st2 := RunSteps([Cached(s2)], Leaf(calls, o), st1).1;
    AppliedCalls(st2.(cache := c), Read(c, s1));
  }

  /** An `attribute` scope is elided when both pointers are null or all five fields agree. */
  lemma AttributeElided(location: nat, p: Option<W.AttributePointer>, rest: seq<Step>, body: Body, st: GlState)
    requires (p.None? && PointerAt(st.cache, location).None?) || (p.Some? && PointerAt(st.cache, location) == p)
    ensures RunSteps([Attribute(location, p)] + rest, body, st) == RunSteps(rest, body, st)
  {
    assert ([Attribute(location, p)] + rest)[1..] == rest;
  }

  /** A setter's scope is elided when the cache holds its value: no write, no call. */
  lemma CachedElided(s: Setting, rest: seq<Step>, body: Body, st: GlState)
    requires Read(st.cache, s) == s
    ensures RunSteps([Cached(s)] + rest, body, st) == RunSteps(rest, body, st)
  {
    assert ([Cached(s)] + rest)[1..] == rest;
  }

  /**
   * Any other `attribute` scope writes the new pointer, runs the callback
   * and writes back the old one; the cache ends with the same pointer at
   * every location.
   */
  lemma AttributeScope(location: nat, p: Option<W.AttributePointer>, calls: seq<W.Call>, o: W.Outcome, st: GlState)
    requires var previous := PointerAt(st.cache, location);
             !((p.None? && previous.None?) || (p.Some? && previous == p))
    ensures var previous := PointerAt(st.cache, location);
            var r := RunSteps([Attribute(location, p)], Leaf(calls, o), st);
            var c1 := PointerWritten(st, location, p).cache;
            r.0 == o && Same(r.1.cache, st.cache) &&
            r.1.log == st.log + PointerCalls(st.cache, location, p) + calls + PointerCalls(c1, location, previous)
  {
    var previous := PointerAt(st.cache, location);
    assert [Attribute(location, p)][1..] == [];
    assert RunSteps([Attribute(location, p)], Leaf(calls, o), st) == RunAttribute(location, p, [], Leaf(calls, o), st);
    var st1 := PointerWritten(st, location, p);
    PointerWrittenEffect(st, location, p);
    LeafRun(calls, o, st1);
    var st2 := st1.(log := st1.log + calls);
    PointerWrittenEffect(st2, location, previous);
  }

  /**
   * The restore is by location, not by Map order: a location that a null
   * pointer removed for the callback comes back at the end of the Map, where
   * a later `attributes(map)` visits it last.
   */
  lemma AttributeRestoreMovesLocation(p: W.AttributePointer, q: W.AttributePointer, st: GlState)
    requires st.cache.attributes == [(1, p), (2, q)]
    ensures RunSteps([Attribute(1, None)], Leaf([], W.Returned(0)), st).1.cache.attributes == [(2, q), (1, p)]
  {
    var body := Leaf([], W.Returned(0));
    assert [Attribute(1, None)][1..] == [];
    assert RunSteps([Attribute(1, None)], body, st) == RunAttribute(1, None, [], body, st);
    assert PointerAt(st.cache, 1) == Some(p);
    var st1 := PointerWritten(st, 1, None);
    assert [(1, p), (2, q)][1..] == [(2, q)] && [(2, q)][1..] == [];
    assert Remove([(2, q)], Location, 1) == [(2, q)];
    assert st1.cache.attributes == [(2, q)];
    LeafRun([], W.Returned(0), st1);
    var st2 := RunSteps([], body, st1).1;
    assert Put([(2, q)], Location, (1, p)) == [(2, q)] + Put([], Location, (1, p));
    PointerWrittenEffect(st2, 1, Some(p));
  }

  function NullsOf(locations: seq<nat>, entries: seq<(nat, W.AttributePointer)>): seq<Step>
  {
    if |locations| == 0 then []
    else (if HasKey(entries, Location, locations[0]) then [] else [Attribute(locations[0], None)])
         + NullsOf(locations[1..], entries)
  }

  lemma {:induction false} SetAllSteps(s: Settings, entries: seq<(nat, W.AttributePointer)>)
    ensures |SetAll(s, entries).steps| == |s.steps| + |entries|
    ensures SetAll(s, entries).steps[..|s.steps|] == s.steps
    ensures forall i :: 0 <= i < |entries| ==>
              SetAll(s, entries).steps[|s.steps| + i] == Attribute(entries[i].0, Some(entries[i].1))
    decreases |entries|
  {
    if |entries| > 0 {
      var next := AttributeOf(s, entries[0].0, Some(entries[0].1));
      SetAllSteps(next, entries[1..]);
      var r := SetAll(s, entries).steps;
      assert r[..|next.steps|] == next.steps;
      assert r[..|s.steps|] == next.steps[..|s.steps|];
      forall i | 0 <= i < |entries|
        ensures r[|s.steps| + i] == Attribute(entries[i].0, Some(entries[i].1))
      {
        if i > 0 {
          assert r[|next.steps| + (i - 1)] == Attribute(entries[1..][i - 1].0, Some(entries[1..][i - 1].1));
        }
      }
    }
  }

  lemma {:induction false} NullMissingSteps(s: Settings, locations: seq<nat>, entries: seq<(nat, W.AttributePointer)>)
    ensures NullMissing(s, locations, entries).steps == s.steps + NullsOf(locations, entries)
    decreases |locations|
  {
    if |locations| > 0 {
      var next := if HasKey(entries, Location, locations[0]) then s else AttributeOf(s, locations[0], None);
      NullMissingSteps(next, locations[1..], entries);
    }
  }

  lemma {:induction false} NullsOfExactly(locations: seq<nat>, entries: seq<(nat, W.AttributePointer)>, step: Step)
    ensures step in NullsOf(locations, entries) <==>
              step.Attribute? && step.pointer.None? && step.location in locations &&
              !HasKey(entries, Location, step.location)
    decreases |locations|
  {
    if |locations| > 0 {
      NullsOfExactly(locations[1..], entries, step);
      assert locations == [locations[0]] + locations[1..];
    }
  }

  /**
   * `attributes(map)` sets every entry of the map, in Map order, and then
   * nulls exactly the locations that the cache held when `attributes` was
   * called and the map lacks.
   */
  lemma AttributesChainSteps(s: Settings, entries: seq<(nat, W.AttributePointer)>, locations: seq<nat>)
    ensures var r := AttributesChain(s, entries, locations).steps;
            var n := |s.steps| + |entries|;
            |r| >= n && r[..|s.steps|] == s.steps &&
            (forall i :: 0 <= i < |entries| ==> r[|s.steps| + i] == Attribute(entries[i].0, Some(entries[i].1))) &&
            (forall step :: step in r[n..] <==>
              step.Attribute? && step.pointer.None? && step.location in locations &&
              !HasKey(entries, Location, step.location))
  {
    SetAllSteps(s, entries);
    NullMissingSteps(Settings([]), locations, entries);
    var r := AttributesChain(s, entries, locations).steps;
    var n := |s.steps| + |entries|;
    assert r[n..] == NullsOf(locations, entries);
    assert r[..|s.steps|] == SetAll(s, entries).steps[..|s.steps|];
    forall step
      ensures step in r[n..] <==>
                step.Attribute? && step.pointer.None? && step.location in locations &&
                !HasKey(entries, Location, step.location)
    {
      NullsOfExactly(locations, entries, step);
    }
  }

  /** The calls a viewport scope makes on entry, or on exit, when the cache holds `current`. */
  function ViewportCalls(current: W.Rect, rect: W.Rect): seq<W.Call> {
    if current == rect then [] else [W.Viewport(rect)]
  }

  /** The scopes `renderTarget` opens once its frame buffer `fb` exists, around a callback. */
  lemma TargetScope(fb: W.Handle, t: W.Texture, calls: seq<W.Call>, o: W.Outcome, st: GlState)
    requires st.cache.bindings.frameBuffer != Some(fb)
    ensures var c := st.cache;
            var rect := W.Rect(0, 0, t.width, t.height);
            RunSteps(TargetSteps(fb, t), Leaf(calls, o), st) ==
              (o, st.(log := st.log + [W.BindFramebuffer(Some(fb))] + ViewportCalls(c.raster.viewport, rect) + calls
                                    + ViewportCalls(rect, c.raster.viewport) + [W.BindFramebuffer(c.bindings.frameBuffer)]))
  {
    var c := st.cache;
    var rect := W.Rect(0, 0, t.width, t.height);
    var bind := FrameBuffer(Some(fb));
    assert TargetSteps(fb, t) == [Cached(bind)] + [Cached(Viewport(rect))];
    FrameBufferBinding(c, fb);
    CachedEnter(bind, [Cached(Viewport(rect))], Leaf(calls, o), st);
    ViewportScope(rect, calls, o, st.(cache := Written(c, bind), log := st.log + [W.BindFramebuffer(Some(fb))]));
  }

  /** Binding a frame buffer the cache does not hold makes one call, and restoring the held one another. */
  lemma FrameBufferBinding(c: Cache, fb: W.Handle)
    requires c.bindings.frameBuffer != Some(fb)
    ensures var s := FrameBuffer(Some(fb));
            Read(c, s) != s && Read(c, s) == FrameBuffer(c.bindings.frameBuffer)
            && SettingCalls(Written(c, s), s) == [W.BindFramebuffer(Some(fb))]
            && Written(Written(c, s), Read(c, s)) == c
            && SettingCalls(c, Read(c, s)) == [W.BindFramebuffer(c.bindings.frameBuffer)]
            && Written(c, s).raster == c.raster
  {
    ReadWrite(c, FrameBuffer(Some(fb)));
  }

  /** A viewport scope around a callback, from whatever viewport the cache holds. */
  lemma ViewportScope(rect: W.Rect, calls: seq<W.Call>, o: W.Outcome, st: GlState)
    ensures var v := st.cache.raster.viewport;
            RunSteps([Cached(Viewport(rect))], Leaf(calls, o), st) ==
              (o, st.(log := st.log + ViewportCalls(v, rect) + calls + ViewportCalls(rect, v)))
  {
    var v := st.cache.raster.viewport;
    CachedScope(Viewport(rect), calls, o, st);
    if v == rect {
      assert st.log + ViewportCalls(v, rect) + calls + ViewportCalls(rect, v) == st.log + calls;
    } else {
      ReadWrite(st.cache, Viewport(rect));
    }
  }

  /**
   * `renderTarget(texture)` around a callback: the frame buffer is created
   * and attached, bound together with a full-texture viewport for the
   * callback, both restored, and the frame buffer deleted last. The chain
   * it was called on plays no part.
   */
  lemma RenderTargetScope(s: Settings, t: W.Texture, calls: seq<W.Call>, o: W.Outcome, st: GlState)
    requires st.cache.bindings.frameBuffer != Some(W.Created(st.serial))
    ensures var c := st.cache;
            var fb := W.Created(st.serial);
            var rect := W.Rect(0, 0, t.width, t.height);
            var attach := [W.CreateFramebuffer(fb), W.BindFramebuffer(Some(fb)), W.FramebufferTexture2D(t.handle),
                           W.BindFramebuffer(c.bindings.frameBuffer)];
            var target := RunSteps(TargetSteps(fb, t), Leaf(calls, o), st.(log := st.log + attach)).1.log;
            RunSteps(RenderTargetOf(s, t).steps, Leaf(calls, o), st) ==
              (o, GlState(c, target + [W.DeleteFramebuffer(fb)], st.serial + 1))
  {
    var c := st.cache;
    var fb := W.Created(st.serial);
    var body := Leaf(calls, o);
    assert [RenderTarget(t)][1..] == [];
    assert RunSteps([RenderTarget(t)], body, st) == RunRenderTarget(t, [], body, st);
    var st1 := st.(serial := st.serial + 1, log := st.log + [W.CreateFramebuffer(fb)]);
    CachedScope(FrameBuffer(Some(fb)), AttachBody(t).calls, W.Returned(0), st1);
    var attach := [W.CreateFramebuffer(fb), W.BindFramebuffer(Some(fb)), W.FramebufferTexture2D(t.handle),
                   W.BindFramebuffer(c.bindings.frameBuffer)];
    var st2 := RunSteps([Cached(FrameBuffer(Some(fb)))], AttachBody(t), st1).1;
    assert st2 == st.(serial := st.serial + 1, log := st.log + attach);
    assert TargetSteps(fb, t) + [] == TargetSteps(fb, t);
    TargetScope(fb, t, calls, o, st2);
    TargetScope(fb, t, calls, o, st.(log := st.log + attach));
  }

  /** The settings `SettingsCache.initial()` holds (src/settings.ts:62-91), listed setter by setter. */
  predicate IsDefault(s: Setting) {
    match s
    case Blend(v) => !v
    case CullFace(v) => !v
    case CullFaceMode(m) => m == W.Back
    case Viewport(r) => r == W.Rect(0, 0, 0, 0)
    case ScissorTest(v) => !v
    case ScissorBox(r) => r == W.Rect(0, 0, 0, 0)
    case DepthTest(v) => !v
    case ClearDepth(d) => d == 1.0
    case LineWidth(w) => w == 1.0
    case BlendEquation(e) => e == (W.Add, W.Add)
    case BlendFunction(f) => f == (W.One, W.Zero, W.One, W.Zero)
    case DepthFunction(f) => f == W.Less
    case ClearColor(color) => color == W.Color(0.0, 0.0, 0.0, 0.0)
    case ActiveTexture(u) => u == 0
    case TextureUnit(_, t) => t.None?
    case ArrayBuffer(b) => b.None?
    case ElementsBuffer(b) => b.None?
    case Program(b) => b.None?
    case RenderBuffer(b) => b.None?
    case FrameBuffer(b) => b.None?
  }

  /** On a fresh context a setter's scope issues no call exactly when it asks for the default value. */
  lemma InitialHoldsDefaults(s: Setting, rest: seq<Step>, body: Body, st: GlState)
    requires st.cache == Initial
    ensures Read(Initial, s) == s <==> IsDefault(s)
    ensures IsDefault(s) ==> RunSteps([Cached(s)] + rest, body, st) == RunSteps(rest, body, st)
    ensures forall l :: PointerAt(Initial, l).None?
  {
    if IsDefault(s) {
      CachedElided(s, rest, body, st);
    }
  }
}
