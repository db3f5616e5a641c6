/**
 * The older scoped settings cache of src/webgl.ts, which the draw command
 * uses.
 *
 * The `cached` setters follow the same discipline as in src/settings.ts
 * (no call when the value is cached; otherwise write, apply, run the
 * callback and restore the old value in a `finally`), and so do texture units
 * and `renderTarget`. There is no face culling and no attribute-pointer
 * cache; instead the cache holds two sets of vertex-attribute locations,
 * the enabled ones and the instanced ones, and `enabledAttributes(locations)`
 * and `instancedAttributes(locations)` replace a set for the callback,
 * issuing the calls for the difference on entry and the reverse difference
 * on exit. Those two combinators differ only in the field they swap and the
 * calls they make, so the model has one step for both, tagged with a `Kind`.
 *
 * A JavaScript `Set` is a sequence without repetitions, in insertion order.
 */
module LegacyStateCache {
  import opened Wrappers
  import W = WebGl
  import SC = StateCache
  import Objects

  /** The value of the `SettingsCache` record of src/webgl.ts:176-200. */
  datatype Cache = Cache(
    blending: SC.Blending,
    depth: SC.Depth,
    raster: Raster,
    units: SC.Units,
    bindings: SC.Bindings,
    enabledAttributes: seq<nat>,
    instancedAttributes: seq<nat>)

  /** The raster fields: those of src/settings.ts without face culling. */
  datatype Raster = Raster(
    viewport: W.Rect,
    scissorTest: bool,
    scissorBox: W.Rect,
    lineWidth: real,
    clearColor: W.Color)

  /** `SettingsCache.initial()` (src/webgl.ts:202-228). */
  const Initial: Cache := Cache(
    SC.Blending(false, (W.Add, W.Add), (W.One, W.Zero, W.One, W.Zero)),
    SC.Depth(false, W.Less, 1.0),
    Raster(W.Rect(0, 0, 0, 0), false, W.Rect(0, 0, 0, 0), 1.0, W.Color(0.0, 0.0, 0.0, 0.0)),
    SC.Units(0, map[]),
    SC.Bindings(None, None, None, None, None),
    [], [])

  /** The setters of src/webgl.ts: those of src/settings.ts but the two face-culling ones. */
  type Setting = s: SC.Setting | !s.CullFace? && !s.CullFaceMode? witness SC.Blend(false)

  function Read(c: Cache, s: Setting): (r: Setting)
    ensures r.TextureUnit? == s.TextureUnit?
  {
    match s
    case Blend(_) => SC.Blend(c.blending.blend)
    case Viewport(_) => SC.Viewport(c.raster.viewport)
    case ScissorTest(_) => SC.ScissorTest(c.raster.scissorTest)
    case ScissorBox(_) => SC.ScissorBox(c.raster.scissorBox)
    case DepthTest(_) => SC.DepthTest(c.depth.depthTest)
    case ClearDepth(_) => SC.ClearDepth(c.depth.clearDepth)
    case LineWidth(_) => SC.LineWidth(c.raster.lineWidth)
    case BlendEquation(_) => SC.BlendEquation(c.blending.blendEquation)
    case BlendFunction(_) => SC.BlendFunction(c.blending.blendFunction)
    case DepthFunction(_) => SC.DepthFunction(c.depth.depthFunction)
    case ClearColor(_) => SC.ClearColor(c.raster.clearColor)
    case ActiveTexture(_) => SC.ActiveTexture(c.units.activeTexture)
    case TextureUnit(i, _) =>
      SC.TextureUnit(i, if i in c.units.textures then Some(c.units.textures[i]) else None)
    case ArrayBuffer(_) => SC.ArrayBuffer(c.bindings.arrayBuffer)
    case ElementsBuffer(_) => SC.ElementsBuffer(c.bindings.elementsBuffer)
    case Program(_) => SC.Program(c.bindings.program)
    case RenderBuffer(_) => SC.RenderBuffer(c.bindings.renderBuffer)
    case FrameBuffer(_) => SC.FrameBuffer(c.bindings.frameBuffer)
  }

  /** A texture unit set to null is deleted from the `textures` Map. */
  function Written(c: Cache, s: Setting): Cache {
    match s
    case Blend(v) => c.(blending := c.blending.(blend := v))
    case Viewport(v) => c.(raster := c.raster.(viewport := v))
    case ScissorTest(v) => c.(raster := c.raster.(scissorTest := v))
    case ScissorBox(v) => c.(raster := c.raster.(scissorBox := v))
    case DepthTest(v) => c.(depth := c.depth.(depthTest := v))
    case ClearDepth(v) => c.(depth := c.depth.(clearDepth := v))
    case LineWidth(v) => c.(raster := c.raster.(lineWidth := v))
    case BlendEquation(v) => c.(blending := c.blending.(blendEquation := v))
    case BlendFunction(v) => c.(blending := c.blending.(blendFunction := v))
    case DepthFunction(v) => c.(depth := c.depth.(depthFunction := v))
    case ClearColor(v) => c.(raster := c.raster.(clearColor := v))
    case ActiveTexture(v) => c.(units := c.units.(activeTexture := v))
    case TextureUnit(i, t) =>
      c.(units := c.units.(textures := if t.Some? then c.units.textures[i := t.value] else c.units.textures - {i}))
    case ArrayBuffer(v) => c.(bindings := c.bindings.(arrayBuffer := v))
    case ElementsBuffer(v) => c.(bindings := c.bindings.(elementsBuffer := v))
    case Program(v) => c.(bindings := c.bindings.(program := v))
    case RenderBuffer(v) => c.(bindings := c.bindings.(renderBuffer := v))
    case FrameBuffer(v) => c.(bindings := c.bindings.(frameBuffer := v))
  }

  // ---------------------------------------------------------------------------
  // Location sets

  /** Which set a diffing scope swaps: `enabledAttributes` or `instancedAttributes`. */
  datatype Kind = Enabled | Instanced

  function Locations(c: Cache, k: Kind): seq<nat> {
    if k == Enabled then c.enabledAttributes else c.instancedAttributes
  }

  function WithLocations(c: Cache, k: Kind, v: seq<nat>): Cache {
    if k == Enabled then c.(enabledAttributes := v) else c.(instancedAttributes := v)
  }

  /** The call for a location leaving the set: disable it, or reset its divisor to 0. */
  function Off(k: Kind, i: nat): W.Call {
    if k == Enabled then W.DisableVertexAttribArray(i) else W.VertexAttribDivisor(i, 0)
  }

  /** The call for a location joining the set: enable it, or set its divisor to 1. */
  function On(k: Kind, i: nat): W.Call {
    if k == Enabled then W.EnableVertexAttribArray(i) else W.VertexAttribDivisor(i, 1)
  }

  predicate Distinct(s: seq<nat>) {
    forall i, j :: 0 <= i < j < |s| ==> s[i] != s[j]
  }

  /** `new Set(locations)`: the first occurrence of each location, in order. */
  function SetOf(xs: seq<nat>): (r: seq<nat>)
    ensures Distinct(r)
    ensures forall x :: x in r <==> x in xs
    decreases |xs|
  {
    if |xs| == 0 then []
    else
      var r := SetOf(xs[..|xs| - 1]);
      assert forall x :: x in xs <==> x in xs[..|xs| - 1] || x == xs[|xs| - 1] by {
        assert xs == xs[..|xs| - 1] + [xs[|xs| - 1]];
      }
      if xs[|xs| - 1] in r then r else r + [xs[|xs| - 1]]
  }

  /** The first `forEach` of `applyDiff(source, target)`: an `Off` call per location of `source` not in `target`. */
  function Offs(k: Kind, source: seq<nat>, target: seq<nat>): seq<W.Call>
    decreases |source|
  {
    if |source| == 0 then []
    else
      var i := source[|source| - 1];
      Offs(k, source[..|source| - 1], target) + (if i in target then [] else [Off(k, i)])
  }

  /** The second `forEach`: an `On` call per location of `target` not in `source`. */
  function Ons(k: Kind, source: seq<nat>, target: seq<nat>): seq<W.Call>
    decreases |target|
  {
    if |target| == 0 then []
    else
      var i := target[|target| - 1];
      Ons(k, source, target[..|target| - 1]) + (if i in source then [] else [On(k, i)])
  }

  /** `applyDiff(source, target)` (src/webgl.ts:547-558 and 577-588). */
  function DiffCalls(k: Kind, source: seq<nat>, target: seq<nat>): seq<W.Call> {
    Offs(k, source, target) + Ons(k, source, target)
  }

  // ---------------------------------------------------------------------------
  // Chains

  datatype Step =
    | Cached(setting: Setting)
    | Diffed(kind: Kind, locations: seq<nat>)
    | RenderTarget(target: W.Texture)

  datatype Body = Leaf(calls: seq<W.Call>, outcome: W.Outcome) | Within(steps: seq<Step>, body: Body)

  datatype GlState = GlState(cache: Cache, log: seq<W.Call>, serial: nat)

  datatype Settings = Settings(steps: seq<Step>)

  function StepWeight(s: Step): nat {
    if s.RenderTarget? || (s.Cached? && s.setting.TextureUnit?) then 3 else 1
  }

  function Weight(steps: seq<Step>): nat {
    if |steps| == 0 then 0 else StepWeight(steps[0]) + Weight(steps[1..])
  }

  function BodySize(b: Body): (r: nat)
    ensures r >= 1
  {
    match b
    case Leaf(_, _) => 1
    case Within(steps, inner) => 1 + Weight(steps) + BodySize(inner)
  }

  lemma WeightOne(s: Step)
    ensures Weight([s]) == StepWeight(s)
  {
    assert [s][1..] == [];
  }

  lemma {:induction false} WeightAppend(a: seq<Step>, b: seq<Step>)
    ensures Weight(a + b) == Weight(a) + Weight(b)
  {
    if |a| > 0 {
      assert (a + b)[1..] == a[1..] + b;
      WeightAppend(a[1..], b);
    } else {
      assert a + b == b;
    }
  }

  function TargetSteps(fb: W.Handle, t: W.Texture): seq<Step> {
    [Cached(SC.FrameBuffer(Some(fb))), Cached(SC.Viewport(W.Rect(0, 0, t.width, t.height)))]
  }

  /** The callback of the `FrameBuffer` constructor (src/webgl.ts:705-720), without a depth buffer. */
  function AttachBody(t: W.Texture): Body {
    Leaf([W.FramebufferTexture2D(t.handle)], W.Returned(0))
  }

  /** `settings.apply(callback)`. */
  function RunSteps(steps: seq<Step>, body: Body, st: GlState): (W.Outcome, GlState)
    decreases Weight(steps) + BodySize(body), 3
  {
    if |steps| == 0 then RunBody(body, st)
    else
      match steps[0]
      case Cached(s) => RunCached(s, steps[1..], body, st)
      case Diffed(k, locations) => RunDiffed(k, locations, steps[1..], body, st)
      case RenderTarget(t) => RunRenderTarget(t, steps[1..], body, st)
  }

  /** The scope of a `cached` setter (src/webgl.ts:240-263). */
  function RunCached(s: Setting, rest: seq<Step>, body: Body, st: GlState): (W.Outcome, GlState)
    decreases StepWeight(Cached(s)) + Weight(rest) + BodySize(body), 2
  {
    var cached := Read(st.cache, s);
    if cached == s then RunSteps(rest, body, st)
    else
      var st1 := Applied(st.(cache := Written(st.cache, s)), s);
      var (o, st2) := RunSteps(rest, body, st1);
      (o, Applied(st2.(cache := Written(st2.cache, cached)), cached))
  }

  /**
   * The scope of `enabledAttributes` or `instancedAttributes` (src/webgl.ts:541-599):
   * swap in the new set, issue the difference, run the inner scopes, then
   * issue the reverse difference and put the old set back. It is never elided.
   */
  function RunDiffed(k: Kind, locations: seq<nat>, rest: seq<Step>, body: Body, st: GlState): (W.Outcome, GlState)
    decreases StepWeight(Diffed(k, locations)) + Weight(rest) + BodySize(body), 2
  {
    var previous := Locations(st.cache, k);
    var next := SetOf(locations);
    var st1 := st.(cache := WithLocations(st.cache, k, next), log := st.log + DiffCalls(k, previous, next));
    var (o, st2) := RunSteps(rest, body, st1);
    (o, st2.(cache := WithLocations(st2.cache, k, previous), log := st2.log + DiffCalls(k, next, previous)))
  }

  /** The scope of `renderTarget(texture)` (src/webgl.ts:601-610). */
  function RunRenderTarget(t: W.Texture, rest: seq<Step>, body: Body, st: GlState): (W.Outcome, GlState)
    decreases StepWeight(RenderTarget(t)) + Weight(rest) + BodySize(body), 2
  {
    var fb := W.Created(st.serial);
    var st1 := st.(serial := st.serial + 1, log := st.log + [W.CreateFramebuffer(fb)]);
    WeightOne(Cached(SC.FrameBuffer(Some(fb))));
    var st2 := RunSteps([Cached(SC.FrameBuffer(Some(fb)))], AttachBody(t), st1).1;
    WeightAppend(TargetSteps(fb, t), rest);
    var (o, st3) := RunSteps(TargetSteps(fb, t) + rest, body, st2);
    (o, st3.(log := st3.log + [W.DeleteFramebuffer(fb)]))
  }

  function RunBody(body: Body, st: GlState): (W.Outcome, GlState)
    decreases BodySize(body), 1
  {
    match body
    case Leaf(calls, o) => (o, st.(log := st.log + calls))
    case Within(steps, inner) => RunSteps(steps, inner, st)
  }

  /** The setter's `apply`; a texture unit is bound inside an `activeTexture(i)` scope (src/webgl.ts:453-478). */
  function Applied(st: GlState, s: Setting): GlState
    decreases if s.TextureUnit? then 2 else 0, 4
  {
    if s.TextureUnit? then
      WeightOne(Cached(SC.ActiveTexture(s.index)));
      RunSteps([Cached(SC.ActiveTexture(s.index))], Leaf([W.BindTexture(SC.HandleOf(s.texture))], W.Returned(0)), st).1
    else
      st.(log := st.log + SC.DirectCalls(s))
  }

  /** The context of src/webgl.ts as the settings see it. */
  class Gl {
    var cache: Cache
    var log: seq<W.Call>
    var serial: nat

    function State(): GlState
      reads this
    {
      GlState(cache, log, serial)
    }

    /** A context starts from `SettingsCache.initial()`. */
    constructor ()
      ensures State() == GlState(Initial, [], 0)
    {
      cache := Initial;
      log := [];
      serial := 0;
    }

    method Apply(steps: seq<Step>, body: Body) returns (o: W.Outcome)
      modifies this
      ensures (o, State()) == RunSteps(steps, body, old(State()))
      decreases Weight(steps) + BodySize(body), 2
    {
      if |steps| == 0 {
        o := Run(body);
      } else if steps[0].Cached? {
        o := ApplyCached(steps, body);
      } else if steps[0].Diffed? {
        o := ApplyDiffed(steps, body);
      } else {
        o := ApplyRenderTarget(steps, body);
      }
    }

    method ApplyCached(steps: seq<Step>, body: Body) returns (o: W.Outcome)
      requires |steps| > 0 && steps[0].Cached?
      modifies this
      ensures (o, State()) == RunSteps(steps, body, old(State()))
      decreases Weight(steps) + BodySize(body), 1
    {
      var s := steps[0].setting;
      var cached := Read(cache, s);
      if cached == s {
        o := Apply(steps[1..], body);
      } else {
        // try { write; apply; callback } finally { write old; apply old }
        cache := Written(cache, s);
        ApplySetting(s);
        o := Apply(steps[1..], body);
        cache := Written(cache, cached);
        ApplySetting(cached);
      }
    }

    method ApplyDiffed(steps: seq<Step>, body: Body) returns (o: W.Outcome)
      requires |steps| > 0 && steps[0].Diffed?
      modifies this
      ensures (o, State()) == RunSteps(steps, body, old(State()))
      decreases Weight(steps) + BodySize(body), 1
    {
      var k := steps[0].kind;
      var previous := Locations(cache, k);
      var next := SetOf(steps[0].locations);
      cache := WithLocations(cache, k, next);
      // try { applyDiff(old, new); callback } finally { applyDiff(new, old); reset }
      ApplyDiff(k, previous, next);
      o := Apply(steps[1..], body);
      ApplyDiff(k, next, previous);
      cache := WithLocations(cache, k, previous);
    }

    method ApplyRenderTarget(steps: seq<Step>, body: Body) returns (o: W.Outcome)
      requires |steps| > 0 && steps[0].RenderTarget?
      modifies this
      ensures (o, State()) == RunSteps(steps, body, old(State()))
      decreases Weight(steps) + BodySize(body), 1
    {
      var t := steps[0].target;
      var fb := W.Created(serial);
      serial := serial + 1;
      log := log + [W.CreateFramebuffer(fb)];
      WeightOne(Cached(SC.FrameBuffer(Some(fb))));
      var _ := Apply([Cached(SC.FrameBuffer(Some(fb)))], AttachBody(t));
      WeightAppend(TargetSteps(fb, t), steps[1..]);
      o := Apply(TargetSteps(fb, t) + steps[1..], body);
      log := log + [W.DeleteFramebuffer(fb)];
    }

    method Run(body: Body) returns (o: W.Outcome)
      modifies this
      ensures (o, State()) == RunBody(body, old(State()))
      decreases BodySize(body), 1
    {
      match body
      case Leaf(calls, outcome) =>
        log := log + calls;
        o := outcome;
      case Within(steps, inner) =>
        o := Apply(steps, inner);
    }

    method ApplySetting(s: Setting)
      modifies this
      ensures State() == Applied(old(State()), s)
      decreases if s.TextureUnit? then 2 else 0, 4
    {
      if s.TextureUnit? {
        WeightOne(Cached(SC.ActiveTexture(s.index)));
        var _ := Apply([Cached(SC.ActiveTexture(s.index))], Leaf([W.BindTexture(SC.HandleOf(s.texture))], W.Returned(0)));
      } else {
        log := log + SC.DirectCalls(s);
      }
    }

    /** `Program.setAttribute` on this context: the pointer call inside an `arrayBuffer(buffer)` scope. */
    method SetAttributeOf(attributes: seq<ActiveAttribute>, name: string, buffer: W.Handle,
                          strideInFloats: int, offsetInFloats: int) returns (o: W.Outcome)
      modifies this
      ensures (o, State()) == SetAttribute(attributes, name, buffer, strideInFloats, offsetInFloats, old(State()))
    {
      var found := Objects.Get(attributes, AttributeName, name);
      if found.None? {
        o := W.Returned(0);
      } else {
        o := Apply([Cached(SC.ArrayBuffer(Some(buffer)))], PointerSetting(found.value, strideInFloats, offsetInFloats));
      }
    }

    /** `applyDiff(source, target)`: the two `forEach` loops. */
    method ApplyDiff(k: Kind, source: seq<nat>, target: seq<nat>)
      modifies this
      ensures State() == old(State()).(log := old(log) + DiffCalls(k, source, target))
    {
      var i := 0;
      while i < |source|
        invariant 0 <= i <= |source|
        invariant cache == old(cache) && serial == old(serial)
        invariant log == old(log) + Offs(k, source[..i], target)
      {
        assert source[..i + 1][..i] == source[..i];
        if source[i] !in target {
          log := log + [Off(k, source[i])];
        }
        i := i + 1;
      }
      assert source[..i] == source;
      var j := 0;
      while j < |target|
        invariant 0 <= j <= |target|
        invariant cache == old(cache) && serial == old(serial)
        invariant log == old(log) + Offs(k, source, target) + Ons(k, source, target[..j])
      {
        assert target[..j + 1][..j] == target[..j];
        if target[j] !in source {
          log := log + [On(k, target[j])];
        }
        j := j + 1;
      }
      assert target[..j] == target;
    }
  }

  // ---------------------------------------------------------------------------
  // The builder (src/webgl.ts:265-271, 453-484, 541-610)

  function Then(a: Settings, b: Settings): Settings {
    Settings(a.steps + b.steps)
  }

  function With(s: Settings, x: Setting): Settings {
    Then(s, Settings([Cached(x)]))
  }

  /** `enabledAttributes(locations)`. */
  function EnabledAttributesOf(s: Settings, locations: seq<nat>): Settings {
    Then(s, Settings([Diffed(Enabled, locations)]))
  }

  /** `instancedAttributes(locations)`. */
  function InstancedAttributesOf(s: Settings, locations: seq<nat>): Settings {
    Then(s, Settings([Diffed(Instanced, locations)]))
  }

  /** `texture(i, texture)`: only the 16 units have a setter; calling `textures[i]` for any other `i` throws. */
  function TextureOf(s: Settings, i: int, t: Option<W.Texture>): (r: Result<Settings, string>)
    ensures r.Ok? <==> 0 <= i < 16
    ensures r.Ok? ==> r.value.steps == s.steps + [Cached(SC.TextureUnit(i, t))]
  {
    if 0 <= i < 16 then Ok(With(s, SC.TextureUnit(i, t))) else Err("textures[i] is not a function")
  }

  /** `textures(list)`: the 16 units, unit `i` getting `list[i]`, or null past the end of the list. */
  method Textures(s: Settings, list: seq<Option<W.Texture>>) returns (r: Settings)
    ensures |r.steps| == |s.steps| + 16 && r.steps[..|s.steps|] == s.steps
    ensures forall i :: 0 <= i < 16 ==>
              r.steps[|s.steps| + i] == Cached(SC.TextureUnit(i, if i >= |list| then None else list[i]))
  {
    r := s;
    for i := 0 to 16
      invariant |r.steps| == |s.steps| + i && r.steps[..|s.steps|] == s.steps
      invariant forall j :: 0 <= j < i ==>
                  r.steps[|s.steps| + j] == Cached(SC.TextureUnit(j, if j >= |list| then None else list[j]))
    {
      var next := TextureOf(r, i, if i >= |list| then None else list[i]);
      r := next.value;
    }
  }

  /** `renderTarget(texture)`: a chain of its own; whatever `s` held is dropped. */
  function RenderTargetOf(s: Settings, t: W.Texture): Settings {
    Settings([RenderTarget(t)])
  }

  // ---------------------------------------------------------------------------
  // Reference definitions and properties

  function ResultOf(b: Body): W.Outcome {
    match b
    case Leaf(_, o) => o
    case Within(_, inner) => ResultOf(inner)
  }

  /** The calls a setter's `apply` makes, written out: a texture unit is bound with `activeTexture(i)` scoped around it. */
  function SettingCalls(c: Cache, s: Setting): seq<W.Call> {
    if s.TextureUnit? then
      var bind := W.BindTexture(SC.HandleOf(s.texture));
      if c.units.activeTexture == s.index then [bind]
      else [W.ActiveTexture(W.Texture0 + s.index), bind, W.ActiveTexture(W.Texture0 + c.units.activeTexture)]
    else SC.DirectCalls(s)
  }

  /** Reading back a write gives the written value, writing back what was read restores the cache, and the location sets are untouched. */
  lemma ReadWrite(c: Cache, s: Setting)
    ensures Read(Written(c, s), s) == s
    ensures Written(Written(c, s), Read(c, s)) == c
    ensures Written(c, s).enabledAttributes == c.enabledAttributes
    ensures Written(c, s).instancedAttributes == c.instancedAttributes
    ensures s.TextureUnit? && s.texture.None? ==> s.index !in Written(c, s).units.textures
    ensures s.TextureUnit? && s.texture.Some? ==> Written(c, s).units.textures == c.units.textures[s.index := s.texture.value]
  {
    if s.TextureUnit? {
      assert Written(Written(c, s), Read(c, s)).units.textures == c.units.textures;
    }
  }

  lemma LeafRun(calls: seq<W.Call>, o: W.Outcome, st: GlState)
    ensures RunSteps([], Leaf(calls, o), st) == (o, st.(log := st.log + calls))
  {
    assert RunSteps([], Leaf(calls, o), st) == RunBody(Leaf(calls, o), st);
  }

  /** A setter's `apply` leaves the cache as it found it and makes the calls `SettingCalls` lists. */
  lemma AppliedCalls(st: GlState, s: Setting)
    ensures Applied(st, s) == st.(log := st.log + SettingCalls(st.cache, s))
  {
    if s.TextureUnit? {
      var a: Setting := SC.ActiveTexture(s.index);
      var body := Leaf([W.BindTexture(SC.HandleOf(s.texture))], W.Returned(0));
      var c := st.cache;
      assert [Cached(a)][1..] == [];
      assert Applied(st, s) == RunCached(a, [], body, st).1;
      LeafRun([W.BindTexture(SC.HandleOf(s.texture))], W.Returned(0), st);
      if Read(c, a) != a {
        var x := st.(cache := Written(c, a));
        assert SC.DirectCalls(a) == [W.ActiveTexture(W.Texture0 + s.index)];
        assert Applied(x, a) == x.(log := x.log + SC.DirectCalls(a));
        var st1 := Applied(x, a);
        assert st1 == st.(cache := Written(c, a), log := st.log + [W.ActiveTexture(W.Texture0 + s.index)]);
        LeafRun([W.BindTexture(SC.HandleOf(s.texture))], W.Returned(0), st1);
        var st2 := RunSteps([], body, st1).1;
        ReadWrite(c, a);
        assert Written(st2.cache, Read(c, a)) == c;
      }
    }
  }

  /** A setter's scope that changes the cache, around any inner scopes. */
  lemma CachedEnter(s: Setting, rest: seq<Step>, body: Body, st: GlState)
    requires Read(st.cache, s) != s
    ensures var c := st.cache;
            var r := RunSteps(rest, body, st.(cache := Written(c, s), log := st.log + SettingCalls(Written(c, s), s)));
            var back := Written(r.1.cache, Read(c, s));
            RunSteps([Cached(s)] + rest, body, st) ==
              (r.0, r.1.(cache := back, log := r.1.log + SettingCalls(back, Read(c, s))))
  {
    assert ([Cached(s)] + rest)[0] == Cached(s) && ([Cached(s)] + rest)[1..] == rest;
    var c := st.cache;
    AppliedCalls(st.(cache := Written(c, s)), s);
    var r := RunSteps(rest, body, st.(cache := Written(c, s), log := st.log + SettingCalls(Written(c, s), s)));
    AppliedCalls(r.1.(cache := Written(r.1.cache, Read(c, s))), Read(c, s));
  }

  /** A setter's scope is elided when the cache holds its value: no write, no call. */
  lemma CachedElided(s: Setting, rest: seq<Step>, body: Body, st: GlState)
    requires Read(st.cache, s) == s
    ensures RunSteps([Cached(s)] + rest, body, st) == RunSteps(rest, body, st)
  {
    assert ([Cached(s)] + rest)[1..] == rest;
  }

  /** A setter's scope around a callback that makes `calls`: elided when the value is cached, otherwise entered and left in order. */
  lemma CachedScope(s: Setting, calls: seq<W.Call>, o: W.Outcome, st: GlState)
    ensures var c := st.cache;
            RunSteps([Cached(s)], Leaf(calls, o), st) ==
              if Read(c, s) == s then (o, st.(log := st.log + calls))
              else (o, st.(log := st.log + SettingCalls(Written(c, s), s) + calls + SettingCalls(c, Read(c, s))))
  {
    var c := st.cache;
    assert [Cached(s)][1..] == [];
    assert RunSteps([Cached(s)], Leaf(calls, o), st) == RunCached(s, [], Leaf(calls, o), st);
    LeafRun(calls, o, st);
    ReadWrite(c, s);
    if Read(c, s) != s {
      AppliedCalls(st.(cache := Written(c, s)), s);
      var st1 := st.(cache := Written(c, s), log := st.log + SettingCalls(Written(c, s), s));
      LeafRun(calls, o, st1);
      var st2 := st1.(log := st1.log + calls);
      AppliedCalls(st2.(cache := c), Read(c, s));
    }
  }

  /**
   * A diffing scope around a callback that makes `calls`: the difference
   * from the old set to the new one, the callback, the difference back. The
   * cache ends with the old set.
   */
  lemma DiffedScope(k: Kind, locations: seq<nat>, calls: seq<W.Call>, o: W.Outcome, st: GlState)
    ensures var previous := Locations(st.cache, k);
            var next := SetOf(locations);
            RunSteps([Diffed(k, locations)], Leaf(calls, o), st) ==
              (o, st.(log := st.log + DiffCalls(k, previous, next) + calls + DiffCalls(k, next, previous)))
  {
    var previous := Locations(st.cache, k);
    var next := SetOf(locations);
    assert [Diffed(k, locations)][1..] == [];
    assert RunSteps([Diffed(k, locations)], Leaf(calls, o), st) == RunDiffed(k, locations, [], Leaf(calls, o), st);
    var st1 := st.(cache := WithLocations(st.cache, k, next), log := st.log + DiffCalls(k, previous, next));
    LeafRun(calls, o, st1);
    assert WithLocations(WithLocations(st.cache, k, next), k, previous) == st.cache;
  }

  /**
   * Restore on every exit: whatever the chain and the callback, `apply`
   * leaves the cache exactly as it found it, only appends calls to the log,
   * and ends as the callback ended, returning its value or rethrowing its
   * exception.
   */
  lemma {:induction false} StepsRestore(steps: seq<Step>, body: Body, st: GlState)
    ensures RunSteps(steps, body, st).1.cache == st.cache
    ensures st.log <= RunSteps(steps, body, st).1.log
    ensures RunSteps(steps, body, st).0 == ResultOf(body)
    decreases Weight(steps) + BodySize(body), 3
  {
    if |steps| == 0 {
      BodyRestores(body, st);
    } else {
      match steps[0]
      case Cached(s) => CachedRestores(s, steps[1..], body, st);
      case Diffed(k, locations) => DiffedRestores(k, locations, steps[1..], body, st);
      case RenderTarget(t) => RenderTargetRestores(t, steps[1..], body, st);
    }
  }

  lemma {:induction false} CachedRestores(s: Setting, rest: seq<Step>, body: Body, st: GlState)
    ensures RunCached(s, rest, body, st).1.cache == st.cache
    ensures st.log <= RunCached(s, rest, body, st).1.log
    ensures RunCached(s, rest, body, st).0 == ResultOf(body)
    decreases StepWeight(Cached(s)) + Weight(rest) + BodySize(body), 2
  {
    var c := st.cache;
    var cached := Read(c, s);
    if cached == s {
      StepsRestore(rest, body, st);
    } else {
      var st1 := Applied(st.(cache := Written(c, s)), s);
      AppliedCalls(st.(cache := Written(c, s)), s);
      StepsRestore(rest, body, st1);
      var st2 := RunSteps(rest, body, st1).1;
      AppliedCalls(st2.(cache := Written(st2.cache, cached)), cached);
      ReadWrite(c, s);
    }
  }

  lemma {:induction false} DiffedRestores(k: Kind, locations: seq<nat>, rest: seq<Step>, body: Body, st: GlState)
    ensures RunDiffed(k, locations, rest, body, st).1.cache == st.cache
    ensures st.log <= RunDiffed(k, locations, rest, body, st).1.log
    ensures RunDiffed(k, locations, rest, body, st).0 == ResultOf(body)
    decreases StepWeight(Diffed(k, locations)) + Weight(rest) + BodySize(body), 2
  {
    var previous := Locations(st.cache, k);
    var next := SetOf(locations);
    var st1 := st.(cache := WithLocations(st.cache, k, next), log := st.log + DiffCalls(k, previous, next));
    StepsRestore(rest, body, st1);
    assert WithLocations(WithLocations(st.cache, k, next), k, previous) == st.cache;
  }

  lemma {:induction false} RenderTargetRestores(t: W.Texture, rest: seq<Step>, body: Body, st: GlState)
    ensures RunRenderTarget(t, rest, body, st).1.cache == st.cache
    ensures st.log <= RunRenderTarget(t, rest, body, st).1.log
    ensures RunRenderTarget(t, rest, body, st).0 == ResultOf(body)
    decreases StepWeight(RenderTarget(t)) + Weight(rest) + BodySize(body), 2
  {
    var fb := W.Created(st.serial);
    var st1 := st.(serial := st.serial + 1, log := st.log + [W.CreateFramebuffer(fb)]);
    CachedScope(SC.FrameBuffer(Some(fb)), AttachBody(t).calls, W.Returned(0), st1);
    var st2 := RunSteps([Cached(SC.FrameBuffer(Some(fb)))], AttachBody(t), st1).1;
    WeightAppend(TargetSteps(fb, t), rest);
    StepsRestore(TargetSteps(fb, t) + rest, body, st2);
  }

  lemma {:induction false} BodyRestores(body: Body, st: GlState)
    ensures RunBody(body, st).1.cache == st.cache
    ensures st.log <= RunBody(body, st).1.log
    ensures RunBody(body, st).0 == ResultOf(body)
    decreases BodySize(body), 1
  {
    match body
    case Leaf(_, _) =>
    case Within(steps, inner) => StepsRestore(steps, inner, st);
  }

  /** `a.then(b).apply(cb)` is `a.apply(() => b.apply(cb))`: `b`'s scopes nest strictly inside `a`'s. */
  lemma {:induction false} ThenNests(a: Settings, b: Settings, body: Body, st: GlState)
    ensures RunSteps(Then(a, b).steps, body, st) == RunSteps(a.steps, Within(b.steps, body), st)
    decreases Weight(a.steps), 1
  {
    var ab := a.steps + b.steps;
    if |a.steps| == 0 {
      assert ab == b.steps;
    } else {
      var rest := a.steps[1..];
      assert ab[0] == a.steps[0] && ab[1..] == rest + b.steps;
      match a.steps[0]
      case Cached(s) =>
        ThenCached(s, rest, b, body, st);
      case Diffed(k, locations) =>
        ThenDiffed(k, locations, rest, b, body, st);
      case RenderTarget(t) =>
        ThenRenderTarget(t, rest, b, body, st);
    }
  }

  lemma {:induction false} ThenCached(s: Setting, rest: seq<Step>, b: Settings, body: Body, st: GlState)
    ensures RunCached(s, rest + b.steps, body, st) == RunCached(s, rest, Within(b.steps, body), st)
    decreases StepWeight(Cached(s)) + Weight(rest), 0
  {
    var c := st.cache;
    if Read(c, s) == s {
      ThenNests(Settings(rest), b, body, st);
    } else {
      ThenNests(Settings(rest), b, body, Applied(st.(cache := Written(c, s)), s));
    }
  }

  lemma {:induction false} ThenDiffed(k: Kind, locations: seq<nat>, rest: seq<Step>, b: Settings, body: Body, st: GlState)
    ensures RunDiffed(k, locations, rest + b.steps, body, st) == RunDiffed(k, locations, rest, Within(b.steps, body), st)
    decreases StepWeight(Diffed(k, locations)) + Weight(rest), 0
  {
    var previous := Locations(st.cache, k);
    var next := SetOf(locations);
    ThenNests(Settings(rest), b, body, st.(cache := WithLocations(st.cache, k, next), log := st.log + DiffCalls(k, previous, next)));
  }

  lemma {:induction false} ThenRenderTarget(t: W.Texture, rest: seq<Step>, b: Settings, body: Body, st: GlState)
    ensures RunRenderTarget(t, rest + b.steps, body, st) == RunRenderTarget(t, rest, Within(b.steps, body), st)
    decreases StepWeight(RenderTarget(t)) + Weight(rest), 0
  {
    var fb := W.Created(st.serial);
    var target := TargetSteps(fb, t);
    var st1 := st.(serial := st.serial + 1, log := st.log + [W.CreateFramebuffer(fb)]);
    var st2 := RunSteps([Cached(SC.FrameBuffer(Some(fb)))], AttachBody(t), st1).1;
    WeightAppend(target, rest);
    assert target + (rest + b.steps) == (target + rest) + b.steps;
    ThenNests(Settings(target + rest), b, body, st2);
  }

  /**
   * Two scopes that both change the cache, around a callback: entered in
   * chain order and left in the reverse order; the cache ends as it began.
   */
  lemma ScopesNestLastInFirstOut(s1: Setting, s2: Setting, calls: seq<W.Call>, o: W.Outcome, st: GlState)
    requires Read(st.cache, s1) != s1
    requires Read(Written(st.cache, s1), s2) != s2
    ensures var c := st.cache;
            var c1 := Written(c, s1);
            var c2 := Written(c1, s2);
            RunSteps(Then(With(Settings([]), s1), With(Settings([]), s2)).steps, Leaf(calls, o), st) ==
              (o, st.(log := st.log + SettingCalls(c1, s1) + SettingCalls(c2, s2) + calls
                                    + SettingCalls(c1, Read(c1, s2)) + SettingCalls(c, Read(c, s1))))
  {
    var c := st.cache;
    var c1 := Written(c, s1);
    var steps := [Cached(s1), Cached(s2)];
    assert Then(With(Settings([]), s1), With(Settings([]), s2)).steps == steps;
    assert steps[1..] == [Cached(s2)];
    ReadWrite(c, s1);
    AppliedCalls(st.(cache := c1), s1);
    var st1 := st.(cache := c1, log := st.log + SettingCalls(c1, s1));
    CachedScope(s2, calls, o, st1);
    ReadWrite(c1, s2);
    var st2 := RunSteps([Cached(s2)], Leaf(calls, o), st1).1;
    AppliedCalls(st2.(cache := c), Read(c, s1));
  }

  // ---------------------------------------------------------------------------
  // What the difference calls do

  /** What a call does to location `l` in the GL's set of kind `k`: `Some(true)` when `l` joins, `Some(false)` when it leaves. */
  function Effect(k: Kind, call: W.Call, l: nat): Option<bool> {
    if call == On(k, l) then Some(true) else if call == Off(k, l) then Some(false) else None
  }

  /** Whether `l` is in the GL's set of kind `k` after `calls`, when `before` says whether it was. */
  function Member(k: Kind, calls: seq<W.Call>, l: nat, before: bool): bool
    decreases |calls|
  {
    if |calls| == 0 then before
    else
      var e := Effect(k, calls[|calls| - 1], l);
      if e.Some? then e.value else Member(k, calls[..|calls| - 1], l, before)
  }

  lemma {:induction false} MemberAppend(k: Kind, a: seq<W.Call>, b: seq<W.Call>, l: nat, before: bool)
    ensures Member(k, a + b, l, before) == Member(k, b, l, Member(k, a, l, before))
    decreases |b|
  {
    if |b| == 0 {
      assert a + b == a;
    } else {
      var n := |b| - 1;
      assert (a + b)[..|a + b| - 1] == a + b[..n];
      assert (a + b)[|a + b| - 1] == b[n];
      MemberAppend(k, a, b[..n], l, before);
    }
  }

  lemma MemberSnoc(k: Kind, p: seq<W.Call>, call: W.Call, l: nat, before: bool)
    ensures Member(k, p + [call], l, before) ==
              if Effect(k, call, l).Some? then Effect(k, call, l).value else Member(k, p, l, before)
  {
    var q := p + [call];
    assert q[..|q| - 1] == p && q[|q| - 1] == call;
  }

  lemma {:induction false} OffsEffect(k: Kind, source: seq<nat>, target: seq<nat>, l: nat, before: bool)
    ensures Member(k, Offs(k, source, target), l, before) == if l in source && l !in target then false else before
    decreases |source|
  {
    if |source| > 0 {
      var n := |source| - 1;
      var front := source[..n];
      var i := source[n];
      assert l in source <==> l in front || l == i by {
        assert source == front + [i];
      }
      OffsEffect(k, front, target, l, before);
      var p := Offs(k, front, target);
      if i in target {
        assert Offs(k, source, target) == p + [] == p;
      } else {
        assert Offs(k, source, target) == p + [Off(k, i)];
        MemberSnoc(k, p, Off(k, i), l, before);
      }
    }
  }



  lemma {:induction false} OnsEffect(k: Kind, source: seq<nat>, target: seq<nat>, l: nat, before: bool)
    ensures Member(k, Ons(k, source, target), l, before) == if l in target && l !in source then true else before
    decreases |target|
  {
    if |target| > 0 {
      var n := |target| - 1;
      var front := target[..n];
      var i := target[n];
      assert l in target <==> l in front || l == i by {
        assert target == front + [i];
      }
      OnsEffect(k, source, front, l, before);
      var p := Ons(k, source, front);
      if i in source {
        assert Ons(k, source, target) == p + [] == p;
      } else {
        assert Ons(k, source, target) == p + [On(k, i)];
        MemberSnoc(k, p, On(k, i), l, before);
      }
    }
  }



  /**
   * `applyDiff(source, target)` moves the GL from `source` to `target`: a
   * location leaves when only `source` holds it, joins when only `target`
   * holds it, and keeps its state otherwise.
   */
  lemma DiffMoves(k: Kind, source: seq<nat>, target: seq<nat>, l: nat, before: bool)
    ensures Member(k, DiffCalls(k, source, target), l, before) ==
              if l in source && l !in target then false
              else if l in target && l !in source then true
              else before
    ensures Member(k, DiffCalls(k, source, target), l, l in source) == (l in target)
  {
    MemberAppend(k, Offs(k, source, target), Ons(k, source, target), l, before);
    OffsEffect(k, source, target, l, before);
    OnsEffect(k, source, target, l, Member(k, Offs(k, source, target), l, before));
    MemberAppend(k, Offs(k, source, target), Ons(k, source, target), l, l in source);
    OffsEffect(k, source, target, l, l in source);
    OnsEffect(k, source, target, l, Member(k, Offs(k, source, target), l, l in source));
  }

  /** The exit difference undoes the entry one: every location is back in the state the old set gives it. */
  lemma DiffRoundTrip(k: Kind, previous: seq<nat>, next: seq<nat>, l: nat)
    ensures Member(k, DiffCalls(k, previous, next) + DiffCalls(k, next, previous), l, l in previous) == (l in previous)
  {
    MemberAppend(k, DiffCalls(k, previous, next), DiffCalls(k, next, previous), l, l in previous);
    DiffMoves(k, previous, next, l, l in previous);
    DiffMoves(k, next, previous, l, l in next);
  }

  lemma {:induction false} OffsMembers(k: Kind, source: seq<nat>, target: seq<nat>)
    ensures forall i :: Off(k, i) in Offs(k, source, target) <==> i in source && i !in target
    ensures forall i :: On(k, i) !in Offs(k, source, target)
    decreases |source|
  {
    if |source| > 0 {
      var n := |source| - 1;
      assert source == source[..n] + [source[n]];
      OffsMembers(k, source[..n], target);
    }
  }

  lemma {:induction false} OnsMembers(k: Kind, source: seq<nat>, target: seq<nat>)
    ensures forall i :: On(k, i) in Ons(k, source, target) <==> i in target && i !in source
    ensures forall i :: Off(k, i) !in Ons(k, source, target)
    decreases |target|
  {
    if |target| > 0 {
      var n := |target| - 1;
      assert target == target[..n] + [target[n]];
      OnsMembers(k, source, target[..n]);
    }
  }

  /** The calls of a difference, each way: a location is switched off exactly when it only is in the source, on exactly when it only is in the target. */
  lemma DiffMembers(k: Kind, source: seq<nat>, target: seq<nat>)
    ensures forall i :: Off(k, i) in DiffCalls(k, source, target) <==> i in source && i !in target
    ensures forall i :: On(k, i) in DiffCalls(k, source, target) <==> i in target && i !in source
  {
    OffsMembers(k, source, target);
    OnsMembers(k, source, target);
  }

  lemma {:induction false} OffsSame(k: Kind, source: seq<nat>, target: seq<nat>)
    requires forall i :: i in source ==> i in target
    ensures Offs(k, source, target) == []
    decreases |source|
  {
    if |source| > 0 {
      OffsSame(k, source[..|source| - 1], target);
    }
  }

  lemma {:induction false} OnsSame(k: Kind, source: seq<nat>, target: seq<nat>)
    requires forall i :: i in target ==> i in source
    ensures Ons(k, source, target) == []
    decreases |target|
  {
    if |target| > 0 {
      OnsSame(k, source, target[..|target| - 1]);
    }
  }

  /** Sets with the same members differ by no call. */
  lemma DiffOfSameSet(k: Kind, source: seq<nat>, target: seq<nat>)
    requires forall i :: i in source <==> i in target
    ensures DiffCalls(k, source, target) == []
  {
    OffsSame(k, source, target);
    OnsSame(k, source, target);
  }

  /** From the empty set the entry difference switches on every location of the target, in order. */
  lemma {:induction false} OnsFromEmpty(k: Kind, target: seq<nat>)
    ensures DiffCalls(k, [], target) == seq(|target|, j requires 0 <= j < |target| => On(k, target[j]))
    decreases |target|
  {
    if |target| > 0 {
      var n := |target| - 1;
      var front := target[..n];
      OnsFromEmpty(k, front);
      assert Offs(k, [], target) == [] && Offs(k, [], front) == [];
      assert Ons(k, [], target) == Ons(k, [], front) + [On(k, target[n])];
      var q := seq(n, j requires 0 <= j < n => On(k, front[j]));
      assert seq(|target|, j requires 0 <= j < |target| => On(k, target[j])) == q + [On(k, target[n])];
    }
  }

  // ---------------------------------------------------------------------------
  // Render target and the initial cache

  /** A viewport scope around a callback: its entry and exit calls, and nothing else changes. */
  lemma ViewportScope(rect: W.Rect, calls: seq<W.Call>, o: W.Outcome, st: GlState)
    ensures var current := st.cache.raster.viewport;
            RunSteps([Cached(SC.Viewport(rect))], Leaf(calls, o), st) ==
              (o, st.(log := st.log + SC.ViewportCalls(current, rect) + calls + SC.ViewportCalls(rect, current)))
  {
    var current := st.cache.raster.viewport;
    var v: Setting := SC.Viewport(rect);
    CachedScope(v, calls, o, st);
    ReadWrite(st.cache, v);
    if current == rect {
      assert st.log + SC.ViewportCalls(current, rect) + calls + SC.ViewportCalls(rect, current) == st.log + calls;
    }
  }

  /** The scopes `renderTarget` opens once its frame buffer `fb` exists, around a callback. */
  lemma TargetScope(fb: W.Handle, t: W.Texture, calls: seq<W.Call>, o: W.Outcome, st: GlState)
    requires st.cache.bindings.frameBuffer != Some(fb)
    ensures var c := st.cache;
            var rect := W.Rect(0, 0, t.width, t.height);
            RunSteps(TargetSteps(fb, t), Leaf(calls, o), st) ==
              (o, st.(log := st.log + [W.BindFramebuffer(Some(fb))] + SC.ViewportCalls(c.raster.viewport, rect) + calls
                                    + SC.ViewportCalls(rect, c.raster.viewport) + [W.BindFramebuffer(c.bindings.frameBuffer)]))
  {
    var c := st.cache;
    var rect := W.Rect(0, 0, t.width, t.height);
    var f: Setting := SC.FrameBuffer(Some(fb));
    assert TargetSteps(fb, t) == [Cached(f)] + [Cached(SC.Viewport(rect))];
    FrameBufferBinding(c, fb);
    CachedEnter(f, [Cached(SC.Viewport(rect))], Leaf(calls, o), st);
    ViewportScope(rect, calls, o, st.(cache := Written(c, f), log := st.log + [W.BindFramebuffer(Some(fb))]));
  }

  /** Binding a frame buffer the cache does not hold makes one call, and restoring the held one another. */
  lemma FrameBufferBinding(c: Cache, fb: W.Handle)
    requires c.bindings.frameBuffer != Some(fb)
    ensures var s: Setting := SC.FrameBuffer(Some(fb));
            Read(c, s) != s && Read(c, s) == SC.FrameBuffer(c.bindings.frameBuffer)
            && SettingCalls(Written(c, s), s) == [W.BindFramebuffer(Some(fb))]
            && Written(Written(c, s), Read(c, s)) == c
            && SettingCalls(c, Read(c, s)) == [W.BindFramebuffer(c.bindings.frameBuffer)]
            && Written(c, s).raster == c.raster
  {
    ReadWrite(c, SC.FrameBuffer(Some(fb)));
  }

  /**
   * `renderTarget(texture)` around a callback: the frame buffer is created
   * and attached, bound together with a full-texture viewport for the
   * callback, both restored, and the frame buffer deleted last. The chain it
   * was called on plays no part.
   */
  lemma RenderTargetScope(s: Settings, t: W.Texture, calls: seq<W.Call>, o: W.Outcome, st: GlState)
    requires st.cache.bindings.frameBuffer != Some(W.Created(st.serial))
    ensures var c := st.cache;
            var fb := W.Created(st.serial);
            var attach := [W.CreateFramebuffer(fb), W.BindFramebuffer(Some(fb)), W.FramebufferTexture2D(t.handle),
                           W.BindFramebuffer(c.bindings.frameBuffer)];
            var target := RunSteps(TargetSteps(fb, t), Leaf(calls, o), st.(log := st.log + attach)).1.log;
            RunSteps(RenderTargetOf(s, t).steps, Leaf(calls, o), st) ==
              (o, GlState(c, target + [W.DeleteFramebuffer(fb)], st.serial + 1))
  {
    var c := st.cache;
    var fb := W.Created(st.serial);
    var body := Leaf(calls, o);
    assert [RenderTarget(t)][1..] == [];
    assert RunSteps([RenderTarget(t)], body, st) == RunRenderTarget(t, [], body, st);
    var st1 := st.(serial := st.serial + 1, log := st.log + [W.CreateFramebuffer(fb)]);
    CachedScope(SC.FrameBuffer(Some(fb)), AttachBody(t).calls, W.Returned(0), st1);
    var attach := [W.CreateFramebuffer(fb), W.BindFramebuffer(Some(fb)), W.FramebufferTexture2D(t.handle),
                   W.BindFramebuffer(c.bindings.frameBuffer)];
    var st2 := RunSteps([Cached(SC.FrameBuffer(Some(fb)))], AttachBody(t), st1).1;
    assert st2 == st.(serial := st.serial + 1, log := st.log + attach);
    assert TargetSteps(fb, t) + [] == TargetSteps(fb, t);
    TargetScope(fb, t, calls, o, st2);
    TargetScope(fb, t, calls, o, st.(log := st.log + attach));
  }

  /**
   * On a fresh context a setter's scope issues no call exactly when it asks
   * for the default value, and both location sets start empty, so a first
   * diffing scope switches on each of its locations once, in order.
   */
  lemma InitialHoldsDefaults(s: Setting, k: Kind, locations: seq<nat>, rest: seq<Step>, body: Body, st: GlState)
    requires st.cache == Initial
    ensures Read(Initial, s) == s <==> SC.IsDefault(s)
    ensures SC.IsDefault(s) ==> RunSteps([Cached(s)] + rest, body, st) == RunSteps(rest, body, st)
    ensures Locations(Initial, k) == []
    ensures var next := SetOf(locations);
            DiffCalls(k, Locations(Initial, k), next) == seq(|next|, j requires 0 <= j < |next| => On(k, next[j]))
  {
    if SC.IsDefault(s) {
      CachedElided(s, rest, body, st);
    }
    OnsFromEmpty(k, SetOf(locations));
  }

  // ---------------------------------------------------------------------------
  // `Program.setAttribute` (src/webgl.ts:984-1021)

  /** The uniform type codes `setAttribute` knows (WebGL 1.0). */
  const Float: int := 0x1406
  const FloatVec2: int := 0x8B50
  const FloatVec3: int := 0x8B51
  const FloatVec4: int := 0x8B52
  const FloatMat2: int := 0x8B5A
  const FloatMat3: int := 0x8B5B
  const FloatMat4: int := 0x8B5C

  /** The component count for an attribute's type; any other type throws `Invalid attribute type`. */
  function ComponentCount(dataType: int): (r: Result<nat, int>)
    ensures r.Err? <==> dataType !in {Float, FloatVec2, FloatVec3, FloatVec4, FloatMat2, FloatMat3, FloatMat4}
    ensures r.Err? ==> r.error == dataType
    ensures dataType == Float ==> r == Ok(1)
    ensures dataType == FloatVec2 ==> r == Ok(2)
    ensures dataType == FloatVec3 ==> r == Ok(3)
    ensures dataType == FloatVec4 ==> r == Ok(4)
    ensures dataType == FloatMat2 ==> r == Ok(4)
    ensures dataType == FloatMat3 ==> r == Ok(9)
    ensures dataType == FloatMat4 ==> r == Ok(16)
  {
    if dataType == Float then Ok(1)
    else if dataType == FloatVec2 then Ok(2)
    else if dataType == FloatVec3 then Ok(3)
    else if dataType == FloatVec4 then Ok(4)
    else if dataType == FloatMat2 then Ok(4)
    else if dataType == FloatMat3 then Ok(9)
    else if dataType == FloatMat4 then Ok(16)
    else Err(dataType)
  }

  /** An active attribute of a linked program: its location and type code. */
  datatype ActiveAttribute = ActiveAttribute(name: string, location: nat, dataType: int)

  function AttributeName(a: ActiveAttribute): string { a.name }

  /**
   * The callback `setAttribute` runs inside its `arrayBuffer(buffer)` scope:
   * the pointer call with stride and offset in bytes, or the error thrown
   * when the type has no component count.
   */
  function PointerSetting(a: ActiveAttribute, strideInFloats: int, offsetInFloats: int): Body {
    match ComponentCount(a.dataType)
    case Ok(n) => Leaf([W.VertexAttribPointer(a.location, W.Count(n), strideInFloats * 4, offsetInFloats * 4)], W.Returned(0))
    case Err(code) => Leaf([], W.Threw("Invalid attribute type"))
  }

  /** `setAttribute(name, buffer, strideInFloats, offsetInFloats)`; a name the program lacks only warns, making no call. */
  function SetAttribute(attributes: seq<ActiveAttribute>, name: string, buffer: W.Handle,
                        strideInFloats: int, offsetInFloats: int, st: GlState): (W.Outcome, GlState)
  {
    match Objects.Get(attributes, AttributeName, name)
    case None => (W.Returned(0), st)
    case Some(a) => RunSteps([Cached(SC.ArrayBuffer(Some(buffer)))], PointerSetting(a, strideInFloats, offsetInFloats), st)
  }

  /**
   * The calls `setAttribute` makes: none for a missing name; otherwise the
   * pointer call (its component count from the type, stride and offset in
   * bytes) with the buffer bound around it, or, for a type without a count,
   * the error rethrown after the binding is restored.
   */
  lemma SetAttributeCalls(attributes: seq<ActiveAttribute>, name: string, buffer: W.Handle,
                          strideInFloats: int, offsetInFloats: int, st: GlState)
    ensures var r := SetAttribute(attributes, name, buffer, strideInFloats, offsetInFloats, st);
            var bound := st.cache.bindings.arrayBuffer;
            var around := (calls: seq<W.Call>) =>
              if bound == Some(buffer) then calls
              else [W.BindBuffer(W.ArrayTarget, Some(buffer))] + calls + [W.BindBuffer(W.ArrayTarget, bound)];
            match Objects.Get(attributes, AttributeName, name)
            case None => r == (W.Returned(0), st)
            case Some(a) =>
              r.1.cache == st.cache && r.1.serial == st.serial &&
              match ComponentCount(a.dataType)
              case Ok(n) =>
                r.0 == W.Returned(0) &&
                r.1.log == st.log + around([W.VertexAttribPointer(a.location, W.Count(n), strideInFloats * 4, offsetInFloats * 4)])
              case Err(_) => r.0 == W.Threw("Invalid attribute type") && r.1.log == st.log + around([])
  {
    var found := Objects.Get(attributes, AttributeName, name);
    if found.Some? {
      var a := found.value;
      var s: Setting := SC.ArrayBuffer(Some(buffer));
      var body := PointerSetting(a, strideInFloats, offsetInFloats);
      CachedScope(s, body.calls, body.outcome, st);
      ReadWrite(st.cache, s);
    }
  }
}
