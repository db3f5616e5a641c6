/**
 * The `Command` class of src/command.ts: a linked program with one buffer
 * of attribute records, one of instance records and one of element
 * indexes; the texture index of each sampler uniform; the conversion of
 * the values `setUniforms` receives; and `draw`, which picks one of four
 * draw calls from the counts and makes it inside the settings scopes of
 * src/webgl.ts.
 *
 * What the native context does (compiling and linking, creating buffers,
 * the calls themselves) is not performed: the objects it creates arrive as
 * handles and the calls go to the log of the `LegacyStateCache.Gl` the
 * command draws with.
 */
module Command {
  import opened Wrappers
  import Objects
  import W = WebGl
  import opened GlslType
  import T = TypeMaps
  import SC = StateCache
  import L = LegacyStateCache
  import S = Sources
  import opened Packing

  /** A precision-stripped type map of `ProgramSource`, in key order. */
  type TypeMap = seq<(string, Member)>

  predicate DistinctKeys(m: TypeMap) {
    forall i, j :: 0 <= i < j < |m| ==> m[i].0 != m[j].0
  }

  /** The map as `TypeMap.stride` and `TypeMap.layout` see it: every entry a bare type. */
  function Fields(m: TypeMap): (r: seq<T.Field>)
    ensures |r| == |m|
  {
    seq(|m|, i requires 0 <= i < |m| => T.Field(m[i].0, T.Plain(m[i].1)))
  }

  /** `uniforms[name]`: the declared type, if the map has the key. */
  function DeclaredType(m: TypeMap, name: string): Option<Type> {
    if |m| == 0 then None
    else if m[0].0 == name then Some(m[0].1)
    else DeclaredType(m[1..], name)
  }

  // ---------------------------------------------------------------------------
  // Texture indexes (src/command.ts:65-69)

  function IndexKey(e: (string, nat)): string { e.0 }

  /** `textureIndexes.get(name)`. */
  function IndexOf(indexes: seq<(string, nat)>, name: string): Option<nat> {
    match Objects.Get(indexes, IndexKey, name)
    case None => None
    case Some(e) => Some(e.1)
  }

  /** How many of the uniforms are samplers. */
  function SamplerCount(u: TypeMap): nat
    decreases |u|
  {
    if |u| == 0 then 0
    else SamplerCount(u[..|u| - 1]) + if u[|u| - 1].1 == Sampler then 1 else 0
  }

  /** The map the constructor's loop builds: each sampler uniform is set to the size the map has at that moment. */
  function Indexes(u: TypeMap): seq<(string, nat)>
    decreases |u|
  {
    if |u| == 0 then []
    else
      var rest := Indexes(u[..|u| - 1]);
      if u[|u| - 1].1 == Sampler then Objects.Put(rest, IndexKey, (u[|u| - 1].0, |rest|)) else rest
  }

  /** A name that is no uniform has no texture index. */
  lemma {:induction false} IndexOfUnknown(u: TypeMap, k: string)
    requires forall i :: 0 <= i < |u| ==> u[i].0 != k
    ensures IndexOf(Indexes(u), k) == None
    decreases |u|
  {
    if |u| > 0 {
      var p := u[..|u| - 1];
      IndexOfUnknown(p, k);
      Objects.PutGet(Indexes(p), IndexKey, (u[|u| - 1].0, |Indexes(p)|), k);
    }
  }

  /** Each sampler takes a new key, so the map holds one entry per sampler. */
  lemma {:induction false} IndexesSize(u: TypeMap)
    requires DistinctKeys(u)
    ensures |Indexes(u)| == SamplerCount(u)
    decreases |u|
  {
    if |u| > 0 {
      var p := u[..|u| - 1];
      var last := u[|u| - 1];
      assert DistinctKeys(p);
      IndexesSize(p);
      if last.1 == Sampler {
        IndexOfUnknown(p, last.0);
        Objects.PutAbsent(Indexes(p), IndexKey, (last.0, |Indexes(p)|));
      }
    }
  }

  /**
   * Sampler uniforms receive the texture indexes 0, 1, 2, … in key order:
   * uniform `i` has the index `SamplerCount(u[..i])` when it is a sampler,
   * and no index otherwise.
   */
  lemma {:induction false} IndexOfSampler(u: TypeMap, i: nat)
    requires DistinctKeys(u) && i < |u|
    ensures IndexOf(Indexes(u), u[i].0) == if u[i].1 == Sampler then Some(SamplerCount(u[..i])) else None
    decreases |u|
  {
    var n := |u| - 1;
    var p := u[..n];
    var last := u[n];
    var k := u[i].0;
    assert DistinctKeys(p);
    Objects.PutGet(Indexes(p), IndexKey, (last.0, |Indexes(p)|), k);
    if i == n {
      assert u[..i] == p;
      IndexOfUnknown(p, k);
      IndexesSize(p);
    } else {
      assert p[i] == u[i] && p[..i] == u[..i];
      IndexOfSampler(p, i);
    }
  }

  // ---------------------------------------------------------------------------
  // The texture list of `draw` (src/command.ts:198-205)

  /** `textureInstances`: a `Map` from index to texture; a uniform without an index sets the key `undefined` (`None`). */
  type Instances = seq<(Option<nat>, W.Texture)>

  function InstanceKey(e: (Option<nat>, W.Texture)): Option<nat> { e.0 }

  function NoTextures(): (r: seq<Option<W.Texture>>)
    ensures |r| == 16 && forall k :: 0 <= k < 16 ==> r[k].None?
  {
    seq(16, _ => None)
  }

  /**
   * The `reduce` over the map's entries: sixteen nulls, then each texture
   * written at its index. Writing at 16 or beyond lengthens the JavaScript
   * array and writing at `undefined` sets a property; `textures` reads only
   * the first sixteen elements, so both are dropped here.
   */
  function Slots(entries: Instances): (r: seq<Option<W.Texture>>)
    ensures |r| == 16
    decreases |entries|
  {
    if |entries| == 0 then NoTextures()
    else
      var r := Slots(entries[..|entries| - 1]);
      var e := entries[|entries| - 1];
      if e.0.Some? && e.0.value < 16 then r[e.0.value := Some(e.1)] else r
  }

  /** Slot `k` holds the texture recorded at index `k`, and null when there is none. */
  lemma {:induction false} SlotsAt(entries: Instances, k: nat)
    requires Objects.DistinctKeys(entries, InstanceKey)
    requires k < 16
    ensures Slots(entries)[k] == match Objects.Get(entries, InstanceKey, Some(k))
                                 case Some(e) => Some(e.1)
                                 case None => None
    decreases |entries|
  {
    if |entries| > 0 {
      var p := entries[..|entries| - 1];
      var e := entries[|entries| - 1];
      assert Objects.DistinctKeys(p, InstanceKey);
      SlotsAt(p, k);
      assert p + [e] == entries;
      GetSnoc(p, e, Some(k));
    }
  }

  /** `map.get(k)` after an entry was added last: an earlier key wins. */
  lemma GetSnoc(s: Instances, x: (Option<nat>, W.Texture), k: Option<nat>)
    ensures Objects.Get(s + [x], InstanceKey, k) ==
              if Objects.HasKey(s, InstanceKey, k) then Objects.Get(s, InstanceKey, k)
              else if x.0 == k then Some(x) else None
  {
    var r := Objects.Get(s + [x], InstanceKey, k);
    if Objects.HasKey(s, InstanceKey, k) {
      GetPrefix(s, [x], k);
    } else if x.0 == k {
      assert Objects.HasKey(s + [x], InstanceKey, k) by {
        assert (s + [x])[|s|] == x;
      }
      assert r.value == x by {
        var i :| 0 <= i < |s + [x]| && (s + [x])[i] == r.value;
        if i < |s| {
          assert s[i] == (s + [x])[i];
        }
      }
    }
  }

  lemma {:induction false} GetPrefix(s: Instances, t: Instances, k: Option<nat>)
    requires Objects.HasKey(s, InstanceKey, k)
    ensures Objects.Get(s + t, InstanceKey, k) == Objects.Get(s, InstanceKey, k)
  {
    if s[0].0 != k {
      assert (s + t)[1..] == s[1..] + t;
      assert Objects.HasKey(s[1..], InstanceKey, k) by {
        var i :| 0 <= i < |s| && InstanceKey(s[i]) == k;
        assert s[1..][i - 1] == s[i];
      }
      GetPrefix(s[1..], t, k);
    }
  }

  // ---------------------------------------------------------------------------
  // `setUniforms` (src/command.ts:139-168)

  /** What one value becomes: the numbers handed to `setUniform`, and the texture recorded, with its index. */
  datatype Conversion = Conversion(values: seq<W.Number>, recorded: Option<(Option<nat>, W.Texture)>)

  /**
   * One entry of `setUniforms`: a number is wrapped, an array passed on, a
   * texture replaced by its index (`undefined` for a uniform that is not a
   * sampler) and recorded; any other value is destructured when the uniform
   * is declared `vec2` or `vec3` and rejected otherwise.
   */
  function Convert(u: TypeMap, indexes: seq<(string, nat)>, name: string, v: JsValue): (r: Result<Conversion, Error>)
    ensures r.Err? <==> !(v.Num? || v.List? || v.Tex?) && (v.Missing? || DeclaredType(u, name) !in {Some(Vector2), Some(Vector3)})
    ensures r.Err? ==> r.error == if DeclaredType(u, name) in {Some(Vector2), Some(Vector3)} then CannotDestructure else InvalidUniform(name)
    ensures r.Ok? ==> (r.value.recorded.Some? <==> v.Tex?)
  {
    match v
    case Num(n) => Ok(Conversion([W.Real(n)], None))
    case List(xs) => Ok(Conversion(Reals(xs), None))
    case Tex(t) =>
      var index := IndexOf(indexes, name);
      Ok(Conversion([if index.Some? then W.Real(index.value as real) else W.NaN], Some((index, t))))
    case _ =>
      if DeclaredType(u, name) == Some(Vector2) then
        match Destructure(v, 2)
        case Ok(xs) => Ok(Conversion(xs, None))
        case Err(e) => Err(e)
      else if DeclaredType(u, name) == Some(Vector3) then
        match Destructure(v, 3)
        case Ok(xs) => Ok(Conversion(xs, None))
        case Err(e) => Err(e)
      else Err(InvalidUniform(name))
  }

  /** The values `JsTypeMap` admits for a declared uniform type; a boolean uniform admits none. */
  predicate Accepts(t: Member, v: JsValue) {
    match t
    case Scalar => v.Num?
    case Vector2 => v.List? || (v.Point? && v.x.Some? && v.y.Some?)
    case Vector3 => v.List? || (v.Point? && v.x.Some? && v.y.Some? && v.z.Some?)
    case Vector4 | Matrix2 | Matrix3 | Matrix4 => v.List?
    case Sampler => v.Tex?
    case Boolean => false
  }

  /**
   * A value of the declared type is never rejected: a number is `[v]`, an
   * array the array, a point its coordinates without a `NaN`, and a texture
   * for a sampler uniform of the constructed index map is the sampler's
   * index, with the texture recorded at it.
   */
  lemma ConvertAccepted(u: TypeMap, name: string, i: nat, v: JsValue)
    requires DistinctKeys(u) && i < |u| && u[i].0 == name
    requires Accepts(u[i].1, v)
    ensures var r := Convert(u, Indexes(u), name, v);
            r.Ok? &&
            (v.Num? ==> r.value.values == [W.Real(v.n)]) &&
            (v.List? ==> r.value.values == Reals(v.items)) &&
            (v.Point? && u[i].1 == Vector2 ==> r.value.values == [W.Real(v.x.value), W.Real(v.y.value)]) &&
            (v.Point? && u[i].1 == Vector3 ==> r.value.values == [W.Real(v.x.value), W.Real(v.y.value), W.Real(v.z.value)]) &&
            (v.Tex? ==> var j := SamplerCount(u[..i]);
                        r.value.values == [W.Real(j as real)] && r.value.recorded == Some((Some(j), v.texture)))
  {
    DeclaredTypeAt(u, i);
    if v.Tex? {
      ConvertTexture(u, name, i, v);
    } else if v.Point? {
      ConvertPoint(u, name, u[i].1, v);
    }
  }

  /** A texture for a sampler uniform of the constructed index map becomes the sampler's index and is recorded there. */
  lemma ConvertTexture(u: TypeMap, name: string, i: nat, v: JsValue)
    requires DistinctKeys(u) && i < |u| && u[i].0 == name && u[i].1 == Sampler
    requires v.Tex?
    ensures var j := SamplerCount(u[..i]);
            Convert(u, Indexes(u), name, v) == Ok(Conversion([W.Real(j as real)], Some((Some(j), v.texture))))
  {
    IndexOfSampler(u, i);
  }

  /** A point for a `vec2` or `vec3` uniform becomes its first two or three coordinates. */
  lemma ConvertPoint(u: TypeMap, name: string, t: Type, v: JsValue)
    requires DeclaredType(u, name) == Some(t)
    requires (t == Vector2 || t == Vector3) && Accepts(t, v) && v.Point?
    ensures t == Vector2 ==> Convert(u, Indexes(u), name, v) == Ok(Conversion([W.Real(v.x.value), W.Real(v.y.value)], None))
    ensures t == Vector3 ==> Convert(u, Indexes(u), name, v) == Ok(Conversion([W.Real(v.x.value), W.Real(v.y.value), W.Real(v.z.value)], None))
  {
    if t == Vector2 {
      assert Axes(v)[..2] == [W.Real(v.x.value), W.Real(v.y.value)];
    } else {
      assert Axes(v)[..3] == [W.Real(v.x.value), W.Real(v.y.value), W.Real(v.z.value)];
    }
  }

  lemma {:induction false} DeclaredTypeAt(u: TypeMap, i: nat)
    requires DistinctKeys(u) && i < |u|
    ensures var t: Type := u[i].1; DeclaredType(u, u[i].0) == Some(t)
  {
    if i > 0 {
      assert DistinctKeys(u[1..]);
      assert u[1..][i - 1] == u[i];
      DeclaredTypeAt(u[1..], i - 1);
    }
  }

  /** What `setUniforms` needs of its command: the uniform types, the index map and the linked program. */
  datatype UniformContext = UniformContext(
    uniforms: TypeMap,
    indexes: seq<(string, nat)>,
    program: W.Handle,
    active: seq<string>)     // the uniforms the linked program has

  /** `Program.setUniform(name, value)`: one upload call inside a `program(this)` scope; a name the program lacks is skipped. */
  function UniformCall(ctx: UniformContext, name: string, values: seq<W.Number>, st: L.GlState): L.GlState {
    if name in ctx.active then
      L.RunSteps([L.Cached(SC.Program(Some(ctx.program)))], L.Leaf([W.Uniform(name, values)], W.Returned(0)), st).1
    else st
  }

  /** `textureInstances.set(index, texture)` when a texture was recorded. */
  function Record(instances: Instances, c: Conversion): Instances {
    if c.recorded.Some? then Objects.Put(instances, InstanceKey, c.recorded.value) else instances
  }

  /**
   * The `for … in` loop of `setUniforms`: entry by entry, convert, record,
   * upload. The first entry that throws ends the loop; what the entries
   * before it did stays done.
   */
  function UniformsRun(ctx: UniformContext, data: Item, instances: Instances, st: L.GlState): (Option<Error>, Instances, L.GlState)
    decreases |data|
  {
    if |data| == 0 then (None, instances, st)
    else
      var (e, inst, st1) := UniformsRun(ctx, data[..|data| - 1], instances, st);
      if e.Some? then (e, inst, st1)
      else
        var (name, v) := data[|data| - 1];
        match Convert(ctx.uniforms, ctx.indexes, name, v)
        case Err(err) => (Some(err), inst, st1)
        case Ok(c) => (None, Record(inst, c), UniformCall(ctx, name, c.values, st1))
  }

  lemma {:induction false} UniformsSticky(ctx: UniformContext, data: Item, instances: Instances, st: L.GlState, n: nat)
    requires n <= |data|
    requires UniformsRun(ctx, data[..n], instances, st).0.Some?
    ensures UniformsRun(ctx, data, instances, st) == UniformsRun(ctx, data[..n], instances, st)
    decreases |data| - n
  {
    if n < |data| {
      assert data[..n + 1][..n] == data[..n];
      UniformsSticky(ctx, data, instances, st, n + 1);
    } else {
      assert data[..n] == data;
    }
  }

  /**
   * Whether it ends normally or throws, `setUniforms` leaves the settings
   * cache as it found it and only appends calls; the texture map keeps one
   * entry per index.
   */
  lemma {:induction false} UniformsRestore(ctx: UniformContext, data: Item, instances: Instances, st: L.GlState)
    requires Objects.DistinctKeys(instances, InstanceKey)
    ensures var r := UniformsRun(ctx, data, instances, st);
            r.2.cache == st.cache && st.log <= r.2.log && r.2.serial == st.serial &&
            Objects.DistinctKeys(r.1, InstanceKey)
    decreases |data|
  {
    if |data| > 0 {
      var (e, inst, st1) := UniformsRun(ctx, data[..|data| - 1], instances, st);
      UniformsRestore(ctx, data[..|data| - 1], instances, st);
      if e.None? {
        var (name, v) := data[|data| - 1];
        match Convert(ctx.uniforms, ctx.indexes, name, v)
        case Err(_) =>
        case Ok(c) =>
          if c.recorded.Some? {
            Objects.PutKeepsDistinct(inst, InstanceKey, c.recorded.value);
          }
          if name in ctx.active {
            L.StepsRestore([L.Cached(SC.Program(Some(ctx.program)))], L.Leaf([W.Uniform(name, c.values)], W.Returned(0)), st1);
            SerialKept(SC.Program(Some(ctx.program)), [W.Uniform(name, c.values)], st1);
          }
      }
    }
  }

  lemma SerialKept(s: L.Setting, calls: seq<W.Call>, st: L.GlState)
    requires !s.TextureUnit?
    ensures L.RunSteps([L.Cached(s)], L.Leaf(calls, W.Returned(0)), st).1.serial == st.serial
  {
    L.CachedScope(s, calls, W.Returned(0), st);
  }

  /**
   * A texture passed for a uniform is recorded at that uniform's index,
   * unless a later entry records another texture at the same index.
   */
  lemma {:induction false} TextureRecorded(ctx: UniformContext, data: Item, instances: Instances, st: L.GlState, j: nat)
    requires UniformsRun(ctx, data, instances, st).0.None?
    requires j < |data| && data[j].1.Tex?
    requires forall l :: j < l < |data| && data[l].1.Tex? ==> IndexOf(ctx.indexes, data[l].0) != IndexOf(ctx.indexes, data[j].0)
    ensures var key := IndexOf(ctx.indexes, data[j].0);
            Objects.Get(UniformsRun(ctx, data, instances, st).1, InstanceKey, key) == Some((key, data[j].1.texture))
    decreases |data|
  {
    var n := |data| - 1;
    var p := data[..n];
    var key := IndexOf(ctx.indexes, data[j].0);
    var (e, inst, st1) := UniformsRun(ctx, p, instances, st);
    assert e.None?;
    var (name, v) := data[n];
    var c := Convert(ctx.uniforms, ctx.indexes, name, v).value;
    if c.recorded.Some? {
      Objects.PutGet(inst, InstanceKey, c.recorded.value, key);
    }
    if j < n {
      assert p[j] == data[j];
      TextureRecorded(ctx, p, instances, st, j);
    }
  }

  /**
   * Through `draw`'s list: after `setUniforms` passed texture `t` for a
   * uniform whose index is `k < 16`, and no later entry took index `k`,
   * unit `k` is given `t`.
   */
  lemma TextureDrawn(ctx: UniformContext, data: Item, instances: Instances, st: L.GlState, j: nat, k: nat)
    requires Objects.DistinctKeys(instances, InstanceKey)
    requires UniformsRun(ctx, data, instances, st).0.None?
    requires j < |data| && data[j].1.Tex?
    requires IndexOf(ctx.indexes, data[j].0) == Some(k) && k < 16
    requires forall l :: j < l < |data| && data[l].1.Tex? ==> IndexOf(ctx.indexes, data[l].0) != Some(k)
    ensures Slots(UniformsRun(ctx, data, instances, st).1)[k] == Some(data[j].1.texture)
  {
    TextureRecorded(ctx, data, instances, st, j);
    UniformsRestore(ctx, data, instances, st);
    SlotsAt(UniformsRun(ctx, data, instances, st).1, k);
  }

  // ---------------------------------------------------------------------------
  // Buffers (`ArrayBuffer` and `ElementsBuffer` of src/webgl.ts)

  /** `bufferData` inside the scope of a buffer binding. */
  function Upload(scope: L.Setting, target: W.BufferTarget, data: seq<W.Number>, st: L.GlState): L.GlState {
    L.RunSteps([L.Cached(scope)], L.Leaf([W.BufferData(target, data)], W.Returned(0)), st).1
  }

  /** `ArrayBuffer.setContent`: the data goes to `ARRAY_BUFFER` with the buffer bound there. */
  function ArrayUpload(h: W.Handle, data: seq<W.Number>, st: L.GlState): L.GlState {
    Upload(SC.ArrayBuffer(Some(h)), W.ArrayTarget, data, st)
  }

  /**
   * `new Uint16Array(data)`: each index becomes the whole number in 0..2^16-1
   * congruent to it modulo 2^16, so an index already in range is kept.
   */
  function Indices(data: seq<int>): (r: seq<W.Number>)
    ensures |r| == |data|
    ensures forall j :: 0 <= j < |data| ==>
              r[j].Real? && r[j].r == r[j].r.Floor as real &&
              0 <= r[j].r.Floor < 0x1_0000 && (data[j] - r[j].r.Floor) % 0x1_0000 == 0
    ensures forall j :: 0 <= j < |data| && 0 <= data[j] < 0x1_0000 ==> r[j] == W.Real(data[j] as real)
  {
    seq(|data|, j requires 0 <= j < |data| => W.Real((data[j] % 0x1_0000) as real))
  }

  /** `ElementsBuffer.setContent` as written: the binding is `ELEMENT_ARRAY_BUFFER`, the upload `ARRAY_BUFFER`. */
  function ElementsUploadAsWritten(h: W.Handle, data: seq<int>, st: L.GlState): L.GlState {
    Upload(SC.ElementsBuffer(Some(h)), W.ArrayTarget, Indices(data), st)
  }

  /** `ElementsBuffer.setContent` as intended (and as src/elements-buffer.ts does it): both are `ELEMENT_ARRAY_BUFFER`. */
  function ElementsUpload(h: W.Handle, data: seq<int>, st: L.GlState): L.GlState {
    Upload(SC.ElementsBuffer(Some(h)), W.ElementsTarget, Indices(data), st)
  }

  /** The buffer the first `bufferData` of `calls` fills: the one bound to its target at that point. */
  function Receiver(calls: seq<W.Call>, arrayBound: Option<W.Handle>, elementsBound: Option<W.Handle>): Option<Option<W.Handle>>
    decreases |calls|
  {
    if |calls| == 0 then None
    else
      match calls[0]
      case BindBuffer(target, b) =>
        if target == W.ArrayTarget then Receiver(calls[1..], b, elementsBound) else Receiver(calls[1..], arrayBound, b)
      case BufferData(target, _) => Some(if target == W.ArrayTarget then arrayBound else elementsBound)
      case _ => Receiver(calls[1..], arrayBound, elementsBound)
  }

  /** The calls an upload makes: `bufferData` alone when the buffer is bound already, else inside a binding and its restoration. */
  function Appended(scope: L.Setting, target: W.BufferTarget, data: seq<W.Number>, c: L.Cache): seq<W.Call>
    requires scope.ArrayBuffer? || scope.ElementsBuffer?
  {
    var up := W.BufferData(target, data);
    if L.Read(c, scope) == scope then [up] else SC.DirectCalls(scope) + [up] + SC.DirectCalls(L.Read(c, scope))
  }

  lemma UploadLog(scope: L.Setting, target: W.BufferTarget, data: seq<W.Number>, st: L.GlState)
    requires scope.ArrayBuffer? || scope.ElementsBuffer?
    ensures var r := Upload(scope, target, data, st);
            r.cache == st.cache && r.serial == st.serial && r.log == st.log + Appended(scope, target, data, st.cache) &&
            r.log[|st.log|..] == Appended(scope, target, data, st.cache)
  {
    L.CachedScope(scope, [W.BufferData(target, data)], W.Returned(0), st);
    L.ReadWrite(st.cache, scope);
  }

  lemma ReceiverAfterBind(t: W.BufferTarget, b: Option<W.Handle>, up: W.Call, rest: seq<W.Call>,
                          arrayBound: Option<W.Handle>, elementsBound: Option<W.Handle>)
    requires up.BufferData?
    ensures Receiver([W.BindBuffer(t, b), up] + rest, arrayBound, elementsBound) ==
              if t == W.ArrayTarget then Receiver([up], b, elementsBound) else Receiver([up], arrayBound, b)
  {
    var calls := [W.BindBuffer(t, b), up] + rest;
    assert calls[1..][0] == up;
  }

  lemma ReceiverOfUpload(up: W.Call, rest: seq<W.Call>, arrayBound: Option<W.Handle>, elementsBound: Option<W.Handle>)
    requires up.BufferData?
    ensures Receiver([up] + rest, arrayBound, elementsBound) == Some(if up.target == W.ArrayTarget then arrayBound else elementsBound)
  {
    assert ([up] + rest)[0] == up;
  }

  /** An upload inside the binding of its own target fills the buffer bound, and the binding is restored. */
  lemma UploadReaches(scope: L.Setting, target: W.BufferTarget, data: seq<W.Number>, st: L.GlState)
    requires (scope.ArrayBuffer? && target == W.ArrayTarget) || (scope.ElementsBuffer? && target == W.ElementsTarget)
    ensures var r := Upload(scope, target, data, st);
            r.cache == st.cache && st.log <= r.log &&
            Receiver(r.log[|st.log|..], st.cache.bindings.arrayBuffer, st.cache.bindings.elementsBuffer) == Some(scope.buffer)
  {
    UploadLog(scope, target, data, st);
    AppendedReaches(scope, target, data, st.cache);
  }

  lemma AppendedReaches(scope: L.Setting, target: W.BufferTarget, data: seq<W.Number>, c: L.Cache)
    requires (scope.ArrayBuffer? && target == W.ArrayTarget) || (scope.ElementsBuffer? && target == W.ElementsTarget)
    ensures Receiver(Appended(scope, target, data, c), c.bindings.arrayBuffer, c.bindings.elementsBuffer) == Some(scope.buffer)
  {
    var up := W.BufferData(target, data);
    var b := c.bindings;
    var back := SC.DirectCalls(L.Read(c, scope));
    ReceiverOfUpload(up, [], b.arrayBuffer, b.elementsBuffer);
    assert [up] + [] == [up];
    if scope.ArrayBuffer? {
      ReceiverOfUpload(up, [], scope.buffer, b.elementsBuffer);
      ReceiverAfterBind(W.ArrayTarget, scope.buffer, up, back, b.arrayBuffer, b.elementsBuffer);
    } else {
      ReceiverOfUpload(up, [], b.arrayBuffer, scope.buffer);
      ReceiverAfterBind(W.ElementsTarget, scope.buffer, up, back, b.arrayBuffer, b.elementsBuffer);
    }
  }

  /** An array buffer's content reaches that buffer, and the binding is restored. */
  lemma ArrayUploadReaches(h: W.Handle, data: seq<W.Number>, st: L.GlState)
    ensures var r := ArrayUpload(h, data, st);
            r.cache == st.cache && st.log <= r.log &&
            Receiver(r.log[|st.log|..], st.cache.bindings.arrayBuffer, st.cache.bindings.elementsBuffer) == Some(Some(h))
  {
    UploadReaches(SC.ArrayBuffer(Some(h)), W.ArrayTarget, data, st);
  }

  /** The intended element upload reaches the elements buffer whatever is bound. */
  lemma ElementsUploadReaches(h: W.Handle, data: seq<int>, st: L.GlState)
    ensures var r := ElementsUpload(h, data, st);
            r.cache == st.cache && st.log <= r.log &&
            Receiver(r.log[|st.log|..], st.cache.bindings.arrayBuffer, st.cache.bindings.elementsBuffer) == Some(Some(h))
  {
    UploadReaches(SC.ElementsBuffer(Some(h)), W.ElementsTarget, Indices(data), st);
  }

  /**
   * As written, the element indexes go to whichever buffer is bound to
   * `ARRAY_BUFFER`, and to no buffer at all when none is, as on a fresh
   * context: the elements buffer stays empty.
   */
  lemma ElementsUploadMisses(h: W.Handle, data: seq<int>, st: L.GlState)
    ensures st.log <= ElementsUploadAsWritten(h, data, st).log
    ensures var r := ElementsUploadAsWritten(h, data, st);
            Receiver(r.log[|st.log|..], st.cache.bindings.arrayBuffer, st.cache.bindings.elementsBuffer) == Some(st.cache.bindings.arrayBuffer)
    ensures st.cache.bindings.arrayBuffer.None? ==>
              Receiver(ElementsUploadAsWritten(h, data, st).log[|st.log|..], None, st.cache.bindings.elementsBuffer) != Some(Some(h))
  {
    UploadMisses(SC.ElementsBuffer(Some(h)), Indices(data), st);
  }

  lemma UploadMisses(scope: L.Setting, data: seq<W.Number>, st: L.GlState)
    requires scope.ElementsBuffer?
    ensures var r := Upload(scope, W.ArrayTarget, data, st);
            st.log <= r.log &&
            Receiver(r.log[|st.log|..], st.cache.bindings.arrayBuffer, st.cache.bindings.elementsBuffer) == Some(st.cache.bindings.arrayBuffer)
  {
    UploadLog(scope, W.ArrayTarget, data, st);
    AppendedMisses(scope, data, st.cache);
  }

  lemma AppendedMisses(scope: L.Setting, data: seq<W.Number>, c: L.Cache)
    requires scope.ElementsBuffer?
    ensures Receiver(Appended(scope, W.ArrayTarget, data, c), c.bindings.arrayBuffer, c.bindings.elementsBuffer) == Some(c.bindings.arrayBuffer)
  {
    var up := W.BufferData(W.ArrayTarget, data);
    var b := c.bindings;
    var back := SC.DirectCalls(L.Read(c, scope));
    ReceiverOfUpload(up, [], b.arrayBuffer, b.elementsBuffer);
    ReceiverOfUpload(up, [], b.arrayBuffer, scope.buffer);
    ReceiverAfterBind(W.ElementsTarget, scope.buffer, up, back, b.arrayBuffer, b.elementsBuffer);
    assert [up] + [] == [up];
  }

  /** `ArrayBuffer` of src/webgl.ts: a GPU buffer and the number of floats last stored in it. */
  class ArrayBuffer {
    const handle: W.Handle
    var length: nat

    constructor (handle: W.Handle)
      ensures this.handle == handle && length == 0
    {
      this.handle := handle;
      length := 0;
    }

    method SetContent(gl: L.Gl, data: seq<W.Number>)
      modifies this, gl
      ensures length == |data|
      ensures gl.State() == ArrayUpload(handle, data, old(gl.State()))
    {
      length := |data|;
      var _ := gl.Apply([L.Cached(SC.ArrayBuffer(Some(handle)))], L.Leaf([W.BufferData(W.ArrayTarget, data)], W.Returned(0)));
    }
  }

  /** `ElementsBuffer` of src/webgl.ts: bound to `ELEMENT_ARRAY_BUFFER`, its upload goes to `ARRAY_BUFFER` as the code is written. */
  class ElementsBuffer {
    const handle: W.Handle
    var length: nat

    constructor (handle: W.Handle)
      ensures this.handle == handle && length == 0
    {
      this.handle := handle;
      length := 0;
    }

    method SetContent(gl: L.Gl, data: seq<int>)
      modifies this, gl
      ensures length == |data|
      ensures gl.State() == ElementsUploadAsWritten(handle, data, old(gl.State()))
    {
      length := |data|;
      var _ := gl.Apply([L.Cached(SC.ElementsBuffer(Some(handle)))], L.Leaf([W.BufferData(W.ArrayTarget, Indices(data))], W.Returned(0)));
    }
  }

  // ---------------------------------------------------------------------------
  // Attribute pointers (src/command.ts:46-63)

  /** The `layout.forEach` of `setAttribute` calls; an attribute type without a component count throws and ends it. */
  function PointersRun(attributes: seq<L.ActiveAttribute>, buffer: W.Handle, layout: seq<T.LayoutItem>, st: L.GlState): (W.Outcome, L.GlState)
    decreases |layout|
  {
    if |layout| == 0 then (W.Returned(0), st)
    else
      var (o, st1) := PointersRun(attributes, buffer, layout[..|layout| - 1], st);
      if o.Threw? then (o, st1)
      else
        var a := layout[|layout| - 1];
        L.SetAttribute(attributes, a.name, buffer, a.stride, a.offset, st1)
  }

  lemma {:induction false} PointersSticky(attributes: seq<L.ActiveAttribute>, buffer: W.Handle, layout: seq<T.LayoutItem>, st: L.GlState, n: nat)
    requires n <= |layout|
    requires PointersRun(attributes, buffer, layout[..n], st).0.Threw?
    ensures PointersRun(attributes, buffer, layout, st) == PointersRun(attributes, buffer, layout[..n], st)
    decreases |layout| - n
  {
    if n < |layout| {
      assert layout[..n + 1][..n] == layout[..n];
      PointersSticky(attributes, buffer, layout, st, n + 1);
    } else {
      assert layout[..n] == layout;
    }
  }

  /** Setting the pointers leaves the settings cache as it was, whether or not a type throws. */
  lemma {:induction false} PointersRestore(attributes: seq<L.ActiveAttribute>, buffer: W.Handle, layout: seq<T.LayoutItem>, st: L.GlState)
    ensures var r := PointersRun(attributes, buffer, layout, st);
            r.1.cache == st.cache && st.log <= r.1.log && r.1.serial == st.serial
    decreases |layout|
  {
    if |layout| > 0 {
      var (o, st1) := PointersRun(attributes, buffer, layout[..|layout| - 1], st);
      PointersRestore(attributes, buffer, layout[..|layout| - 1], st);
      var a := layout[|layout| - 1];
      L.SetAttributeCalls(attributes, a.name, buffer, a.stride, a.offset, st1);
    }
  }

  // ---------------------------------------------------------------------------
  // `draw` (src/command.ts:170-239)

  /** The default of `instancesCount` and `verticesCount`: the buffer length over the stride, or null for a zero stride. */
  function DefaultCount(length: nat, stride: nat): (r: Option<int>)
    ensures r.None? <==> stride == 0
    ensures r.Some? ==> r.value * stride <= length < (r.value + 1) * stride
  {
    if stride == 0 then None else Some(length / stride)
  }

  /** A buffer filled with `n` records of `stride` floats yields the count `n`. */
  lemma DefaultCountOfRecords(stride: nat, n: nat)
    requires stride > 0
    ensures DefaultCount(stride * n, stride) == Some(n)
  {
    var q := (stride * n) / stride;
    assert q * stride <= n * stride < (q + 1) * stride;
    MulMonotone(q + 1, n, stride);
    MulMonotone(n + 1, q, stride);
  }

  lemma MulMonotone(x: int, y: int, s: nat)
    ensures x <= y ==> x * s <= y * s
  {
    if x <= y {
      assert y * s - x * s == (y - x) * s;
    }
  }

  /** The four native draw calls. */
  datatype DrawCall =
    | InstancedElements(elements: int, instances: int)
    | InstancedArrays(vertices: int, instances: int)
    | Elements(elements: int)
    | Arrays(vertices: int)

  /**
   * The dispatch rule, first match wins: instanced elements, instanced
   * arrays, elements, arrays (for a truthy vertex count); with none of them
   * `draw` throws.
   */
  function Dispatch(instances: Option<int>, vertices: Option<int>, elements: int): (r: Option<DrawCall>)
    ensures instances.Some? && elements != 0 ==> r == Some(InstancedElements(elements, instances.value))
    ensures instances.Some? && elements == 0 && vertices.Some? ==> r == Some(InstancedArrays(vertices.value, instances.value))
    ensures instances.None? && elements != 0 ==> r == Some(Elements(elements))
    ensures instances.None? && elements == 0 && vertices.Some? && vertices.value != 0 ==> r == Some(Arrays(vertices.value))
    ensures r.None? <==> elements == 0 && (vertices.None? || (instances.None? && vertices.value == 0))
  {
    if instances.Some? && elements != 0 then Some(InstancedElements(elements, instances.value))
    else if instances.Some? && vertices.Some? then Some(InstancedArrays(vertices.value, instances.value))
    else if elements != 0 then Some(Elements(elements))
    else if vertices.Some? && vertices.value != 0 then Some(Arrays(vertices.value))
    else None
  }

  /**
   * With the default counts: a command without instance fields never draws
   * instanced, one with instance fields always does unless it has neither
   * elements nor attribute fields, and a draw without elements and without
   * instance fields throws exactly when there is not one whole vertex.
   */
  lemma DefaultDispatch(instancesLength: nat, instancesStride: nat, attributesLength: nat, attributesStride: nat, elements: int)
    ensures var r := Dispatch(DefaultCount(instancesLength, instancesStride), DefaultCount(attributesLength, attributesStride), elements);
            (r.Some? && (r.value.InstancedElements? || r.value.InstancedArrays?)) <==>
              instancesStride != 0 && (elements != 0 || attributesStride != 0)
    ensures instancesStride == 0 && elements == 0 ==>
              (Dispatch(DefaultCount(instancesLength, instancesStride), DefaultCount(attributesLength, attributesStride), elements).None? <==>
                 attributesStride == 0 || attributesLength < attributesStride)
  {
  }

  /** The callback of `draw`: an element draw binds the elements buffer around it; no rule matching throws. */
  function DrawBody(call: Option<DrawCall>, elementsBuffer: W.Handle): L.Body {
    var bind := [L.Cached(SC.ElementsBuffer(Some(elementsBuffer)))];
    match call
    case None => L.Leaf([], W.Threw("Invalid draw dataset"))
    case Some(InstancedElements(e, i)) => L.Within(bind, L.Leaf([W.DrawElementsInstanced(e, i)], W.Returned(0)))
    case Some(InstancedArrays(v, i)) => L.Leaf([W.DrawArraysInstanced(v, i)], W.Returned(0))
    case Some(Elements(e)) => L.Within(bind, L.Leaf([W.DrawElements(e)], W.Returned(0)))
    case Some(Arrays(v)) => L.Leaf([W.DrawArrays(v)], W.Returned(0))
  }

  /** `Object.keys(program.attributes)` mapped to locations: every active attribute is enabled. */
  function EnabledLocations(attributes: seq<L.ActiveAttribute>): (r: seq<nat>)
    ensures |r| == |attributes| && forall i :: 0 <= i < |attributes| ==> r[i] == attributes[i].location
  {
    seq(|attributes|, i requires 0 <= i < |attributes| => attributes[i].location)
  }

  /** The locations of the instance fields, in layout order; a field the program does not use is filtered out. */
  function InstancedLocations(attributes: seq<L.ActiveAttribute>, layout: seq<T.LayoutItem>): seq<nat>
    decreases |layout|
  {
    if |layout| == 0 then []
    else
      (match Objects.Get(attributes, L.AttributeName, layout[0].name)
       case Some(a) => [a.location]
       case None => [])
      + InstancedLocations(attributes, layout[1..])
  }

  /** The chain `draw` applies: the program, both attribute sets, then the sixteen texture units. */
  function DrawSteps(program: W.Handle, enabled: seq<nat>, instanced: seq<nat>, slots: seq<Option<W.Texture>>): seq<L.Step>
    requires |slots| == 16
  {
    [L.Cached(SC.Program(Some(program))), L.Diffed(L.Enabled, enabled), L.Diffed(L.Instanced, instanced)]
    + seq(16, i requires 0 <= i < 16 => L.Cached(SC.TextureUnit(i, slots[i])))
  }

  lemma UnitSteps(prefix: seq<L.Step>, slots: seq<Option<W.Texture>>, steps: seq<L.Step>)
    requires |slots| == 16
    requires |steps| == |prefix| + 16 && steps[..|prefix|] == prefix
    requires forall i :: 0 <= i < 16 ==> steps[|prefix| + i] == L.Cached(SC.TextureUnit(i, if i >= |slots| then None else slots[i]))
    ensures steps == prefix + seq(16, i requires 0 <= i < 16 => L.Cached(SC.TextureUnit(i, slots[i])))
  {
    var units := seq(16, i requires 0 <= i < 16 => L.Cached(SC.TextureUnit(i, slots[i])));
    assert steps[|prefix|..] == units by {
      forall i | 0 <= i < 16
        ensures steps[|prefix|..][i] == units[i]
      {
        assert steps[|prefix|..][i] == steps[|prefix| + i];
      }
    }
    assert steps == steps[..|prefix|] + steps[|prefix|..];
  }

  /**
   * Every draw leaves the settings cache as it found it, only appends
   * calls, and ends normally exactly when the dispatch rule picked a call;
   * otherwise it throws `Invalid draw dataset` after restoring everything.
   */
  lemma DrawEnds(program: W.Handle, enabled: seq<nat>, instanced: seq<nat>, slots: seq<Option<W.Texture>>,
                 call: Option<DrawCall>, elementsBuffer: W.Handle, st: L.GlState)
    requires |slots| == 16
    ensures var r := L.RunSteps(DrawSteps(program, enabled, instanced, slots), DrawBody(call, elementsBuffer), st);
            r.1.cache == st.cache && st.log <= r.1.log &&
            r.0 == if call.None? then W.Threw("Invalid draw dataset") else W.Returned(0)
  {
    L.StepsRestore(DrawSteps(program, enabled, instanced, slots), DrawBody(call, elementsBuffer), st);
  }

  /** An argument of `draw` that may be left out (`None`), taking its default. */
  function Argument<X>(given: Option<X>, default: X): X {
    if given.Some? then given.value else default
  }

  // ---------------------------------------------------------------------------
  // The command

  class Command {
    const gl: L.Gl
    const uniforms: TypeMap
    const program: W.Handle
    const programAttributes: seq<L.ActiveAttribute>
    const programUniforms: seq<string>
    const attributes: ArrayBuffer
    const instances: ArrayBuffer
    const elements: ElementsBuffer
    const attributesStride: nat
    const attributesLayout: seq<T.LayoutItem>
    const instancesStride: nat
    const instancesLayout: seq<T.LayoutItem>
    var textureInstances: Instances
    var textureIndexes: seq<(string, nat)>

    /**
     * The fields of the constructor (src/command.ts:31-44): the program and
     * the three buffers come from the context, the strides and layouts from the
     * source's type maps.
     */
    constructor (gl: L.Gl, source: S.ProgramSource, program: W.Handle, programAttributes: seq<L.ActiveAttribute>,
                 programUniforms: seq<string>, attributesBuffer: W.Handle, instancesBuffer: W.Handle, elementsBuffer: W.Handle)
      ensures this.gl == gl && uniforms == source.uniforms && this.program == program
      ensures this.programAttributes == programAttributes && this.programUniforms == programUniforms
      ensures fresh(attributes) && fresh(instances) && fresh(elements)
      ensures attributes.handle == attributesBuffer && instances.handle == instancesBuffer && elements.handle == elementsBuffer
      ensures attributes.length == 0 && instances.length == 0 && elements.length == 0
      ensures attributesStride == T.StrideOf(Fields(source.attributes)) && attributesLayout == T.Layout(Fields(source.attributes))
      ensures instancesStride == T.StrideOf(Fields(source.instances)) && instancesLayout == T.Layout(Fields(source.instances))
      ensures textureInstances == [] && textureIndexes == []
    {
      this.gl := gl;
      uniforms := source.uniforms;
      this.program := program;
      this.programAttributes := programAttributes;
      this.programUniforms := programUniforms;
      attributes := new ArrayBuffer(attributesBuffer);
      instances := new ArrayBuffer(instancesBuffer);
      elements := new ElementsBuffer(elementsBuffer);
      var s := T.Stride(Fields(source.attributes));
      attributesStride := s;
      attributesLayout := T.Layout(Fields(source.attributes));
      s := T.Stride(Fields(source.instances));
      instancesStride := s;
      instancesLayout := T.Layout(Fields(source.instances));
      textureInstances := [];
      textureIndexes := [];
    }

    /**
     * `new Command(gl, primitivesType, source)`: the fields, the pointer of
     * every attribute field and then of every instance field, then the
     * texture indexes. An attribute type without a component count throws
     * out of the constructor; no command is made.
     */
    static method New(gl: L.Gl, source: S.ProgramSource, program: W.Handle, programAttributes: seq<L.ActiveAttribute>,
                      programUniforms: seq<string>, attributesBuffer: W.Handle, instancesBuffer: W.Handle,
                      elementsBuffer: W.Handle) returns (r: Result<Command, string>)
      modifies gl
      ensures var attributesLayout := T.Layout(Fields(source.attributes));
              var instancesLayout := T.Layout(Fields(source.instances));
              var (o1, st1) := PointersRun(programAttributes, attributesBuffer, attributesLayout, old(gl.State()));
              var (o2, st2) := PointersRun(programAttributes, instancesBuffer, instancesLayout, st1);
              if o1.Threw? then r == Err(o1.error) && gl.State() == st1
              else if o2.Threw? then r == Err(o2.error) && gl.State() == st2
              else r.Ok? && fresh(r.value) && gl.State() == st2 &&
                   r.value.gl == gl && r.value.uniforms == source.uniforms && r.value.program == program &&
                   r.value.programAttributes == programAttributes && r.value.programUniforms == programUniforms &&
                   r.value.attributesLayout == attributesLayout && r.value.instancesLayout == instancesLayout &&
                   r.value.attributesStride == T.StrideOf(Fields(source.attributes)) &&
                   r.value.instancesStride == T.StrideOf(Fields(source.instances)) &&
                   r.value.attributes.handle == attributesBuffer && r.value.instances.handle == instancesBuffer &&
                   r.value.elements.handle == elementsBuffer &&
                   r.value.attributes.length == 0 && r.value.instances.length == 0 && r.value.elements.length == 0 &&
                   r.value.textureInstances == [] && r.value.textureIndexes == Indexes(source.uniforms)
    {
      var c := new Command(gl, source, program, programAttributes, programUniforms, attributesBuffer, instancesBuffer, elementsBuffer);
      var o := c.SetPointers(c.attributesLayout, attributesBuffer);
      if o.Threw? {
        return Err(o.error);
      }
      o := c.SetPointers(c.instancesLayout, instancesBuffer);
      if o.Threw? {
        return Err(o.error);
      }
      c.AssignIndexes();
      r := Ok(c);
    }

    /** One `forEach` of `program.setAttribute(a.name, buffer, a.stride, a.offset)`. */
    method SetPointers(layout: seq<T.LayoutItem>, buffer: W.Handle) returns (o: W.Outcome)
      modifies gl
      ensures (o, gl.State()) == PointersRun(programAttributes, buffer, layout, old(gl.State()))
    {
      o := W.Returned(0);
      for l := 0 to |layout|
        invariant (o, gl.State()) == PointersRun(programAttributes, buffer, layout[..l], old(gl.State()))
        invariant o.Returned?
      {
        assert layout[..l + 1][..l] == layout[..l];
        var a := layout[l];
        o := gl.SetAttributeOf(programAttributes, a.name, buffer, a.stride, a.offset);
        if o.Threw? {
          PointersSticky(programAttributes, buffer, layout, old(gl.State()), l + 1);
          return;
        }
      }
      assert layout[..|layout|] == layout;
    }

    /** The `for … in source.uniforms` loop: each sampler is set to the map's current size. */
    method AssignIndexes()
      modifies this
      ensures textureIndexes == Indexes(uniforms)
      ensures textureInstances == old(textureInstances)
    {
      textureIndexes := [];
      for i := 0 to |uniforms|
        invariant textureIndexes == Indexes(uniforms[..i])
        invariant textureInstances == old(textureInstances)
      {
        assert uniforms[..i + 1][..i] == uniforms[..i];
        var (name, t) := uniforms[i];
        if t == Sampler {
          var entry: (string, nat) := (name, |textureIndexes|);
          textureIndexes := Objects.Put(textureIndexes, IndexKey, entry);
        }
      }
      assert uniforms[..|uniforms|] == uniforms;
    }

    /** `setAttributes(items)`: pack the records, then store them in the attributes buffer; a record that throws stores nothing. */
    method SetAttributes(items: seq<Item>) returns (e: Option<Error>)
      modifies attributes, gl
      ensures e.Some? <==> PreparedData(attributesStride, attributesLayout, items).Err?
      ensures e.Some? ==> e.value == PreparedData(attributesStride, attributesLayout, items).error &&
                          attributes.length == old(attributes.length) && gl.State() == old(gl.State())
      ensures e.None? ==> attributes.length == attributesStride * |items| &&
                          gl.State() == ArrayUpload(attributes.handle, PreparedData(attributesStride, attributesLayout, items).value, old(gl.State()))
    {
      var data := PrepareData(attributesStride, attributesLayout, items);
      if data.Err? {
        return Some(data.error);
      }
      attributes.SetContent(gl, data.value[..]);
      e := None;
    }

    /** `setInstances(items)`, the same for the instances buffer. */
    method SetInstances(items: seq<Item>) returns (e: Option<Error>)
      modifies instances, gl
      ensures e.Some? <==> PreparedData(instancesStride, instancesLayout, items).Err?
      ensures e.Some? ==> e.value == PreparedData(instancesStride, instancesLayout, items).error &&
                          instances.length == old(instances.length) && gl.State() == old(gl.State())
      ensures e.None? ==> instances.length == instancesStride * |items| &&
                          gl.State() == ArrayUpload(instances.handle, PreparedData(instancesStride, instancesLayout, items).value, old(gl.State()))
    {
      var data := PrepareData(instancesStride, instancesLayout, items);
      if data.Err? {
        return Some(data.error);
      }
      instances.SetContent(gl, data.value[..]);
      e := None;
    }

    /** `setElements(elements)`. */
    method SetElements(data: seq<int>)
      modifies elements, gl
      ensures elements.length == |data|
      ensures gl.State() == ElementsUploadAsWritten(elements.handle, data, old(gl.State()))
    {
      elements.SetContent(gl, data);
    }

    function Context(): UniformContext
      reads this
    {
      UniformContext(uniforms, textureIndexes, program, programUniforms)
    }

    /** `program.setUniform(name, values)`. */
    method SetUniform(name: string, values: seq<W.Number>)
      modifies gl
      ensures gl.State() == UniformCall(Context(), name, values, old(gl.State()))
    {
      if name in programUniforms {
        var _ := gl.Apply([L.Cached(SC.Program(Some(program)))], L.Leaf([W.Uniform(name, values)], W.Returned(0)));
      }
    }

    /** `setUniforms(data)`: entry by entry; the first value that throws ends it, with the earlier entries applied. */
    method SetUniforms(data: Item) returns (e: Option<Error>)
      modifies this, gl
      ensures textureIndexes == old(textureIndexes)
      ensures (e, textureInstances, gl.State()) == UniformsRun(Context(), data, old(textureInstances), old(gl.State()))
    {
      ghost var ctx := Context();
      e := None;
      for i := 0 to |data|
        invariant textureIndexes == old(textureIndexes) && Context() == ctx
        invariant (e, textureInstances, gl.State()) == UniformsRun(ctx, data[..i], old(textureInstances), old(gl.State()))
        invariant e.None?
      {
        assert data[..i + 1][..i] == data[..i];
        var (name, value) := data[i];
        var values: seq<W.Number>;
        if value.Num? {
          values := [W.Real(value.n)];
        } else if value.List? {
          values := Reals(value.items);
        } else if value.Tex? {
          var index := IndexOf(textureIndexes, name);
          textureInstances := Objects.Put(textureInstances, InstanceKey, (index, value.texture));
          values := [if index.Some? then W.Real(index.value as real) else W.NaN];
        } else if DeclaredType(uniforms, name) == Some(Vector2) || DeclaredType(uniforms, name) == Some(Vector3) {
          if value.Missing? {
            e := Some(CannotDestructure);
            UniformsSticky(ctx, data, old(textureInstances), old(gl.State()), i + 1);
            return;
          }
          values := Axes(value)[..if DeclaredType(uniforms, name) == Some(Vector2) then 2 else 3];
        } else {
          e := Some(InvalidUniform(name));
          UniformsSticky(ctx, data, old(textureInstances), old(gl.State()), i + 1);
          return;
        }
        SetUniform(name, values);
      }
      assert data[..|data|] == data;
    }

    /** `draw(instancesCount, verticesCount, elementsCount)`: the settings chain around the chosen draw call. */
    method Draw(instancesCount: Option<Option<int>>, verticesCount: Option<Option<int>>, elementsCount: Option<int>) returns (o: W.Outcome)
      modifies gl
      ensures var call := Dispatch(Argument(instancesCount, DefaultCount(instances.length, instancesStride)),
                                   Argument(verticesCount, DefaultCount(attributes.length, attributesStride)),
                                   Argument(elementsCount, elements.length));
              (o, gl.State()) ==
                L.RunSteps(DrawSteps(program, EnabledLocations(programAttributes), InstancedLocations(programAttributes, instancesLayout),
                                     Slots(textureInstances)),
                           DrawBody(call, elements.handle), old(gl.State()))
    {
      var instancesArg := Argument(instancesCount, DefaultCount(instances.length, instancesStride));
      var verticesArg := Argument(verticesCount, DefaultCount(attributes.length, attributesStride));
      var elementsArg := Argument(elementsCount, elements.length);
      var s := L.With(L.Settings([]), SC.Program(Some(program)));
      s := L.EnabledAttributesOf(s, EnabledLocations(programAttributes));
      s := L.InstancedAttributesOf(s, InstancedLocations(programAttributes, instancesLayout));
      var slots := Slots(textureInstances);
      ghost var prefix := s.steps;
      assert prefix == [L.Cached(SC.Program(Some(program))), L.Diffed(L.Enabled, EnabledLocations(programAttributes)),
                        L.Diffed(L.Instanced, InstancedLocations(programAttributes, instancesLayout))];
      s := L.Textures(s, slots);
      UnitSteps(prefix, slots, s.steps);
      o := gl.Apply(s.steps, DrawBody(Dispatch(instancesArg, verticesArg, elementsArg), elements.handle));
    }
  }
}
