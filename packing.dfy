/**
 * The packing of attribute and instance records into one flat float array
 * by `prepareData` of src/command.ts, and the JavaScript values the draw
 * command accepts from its user.
 *
 * A JavaScript value the user passes is a `JsValue`; a record (one item of
 * `setAttributes` or `setInstances`, or the argument of `setUniforms`) is an
 * object, modelled as the sequence of its entries in key order.
 */
module Packing {
  import opened Wrappers
  import W = WebGl
  import T = TypeMaps

  /** The values the core distinguishes: `Point` is any other object, with whichever of `x`, `y`, `z` it has. */
  datatype JsValue =
    | Num(n: real)
    | List(items: seq<real>)
    | Point(x: Option<real>, y: Option<real>, z: Option<real>)
    | Tex(texture: W.Texture)
    | Bool(b: bool)
    | Missing

  type Item = seq<(string, JsValue)>

  function Key(e: (string, JsValue)): string { e.0 }

  /** `item[name]`: a key the object lacks reads as `undefined`. */
  function ValueOf(item: Item, name: string): JsValue {
    if |item| == 0 then Missing
    else if item[0].0 == name then item[0].1
    else ValueOf(item[1..], name)
  }

  datatype Error =
    | Unsupported(field: string)       // `Unsupported attribute '<name>' value: ...`
    | CannotDestructure                // the `TypeError` of `const { x, y } = undefined`
    | InvalidUniform(uniform: string)  // `Invalid value for uniform '<name>', expected ...`

  function Coordinate(p: Option<real>): W.Number {
    if p.Some? then W.Real(p.value) else W.NaN
  }

  /** `const { x, y, z } = value`: a property the value lacks is `undefined`, stored as `NaN`. */
  function Axes(v: JsValue): (r: seq<W.Number>)
    ensures |r| == 3
    ensures !v.Point? ==> r == [W.NaN, W.NaN, W.NaN]
    ensures v.Point? ==>
              (r[0].Real? <==> v.x.Some?) && (r[1].Real? <==> v.y.Some?) && (r[2].Real? <==> v.z.Some?)
    ensures v.Point? && v.x.Some? ==> r[0].r == v.x.value
    ensures v.Point? && v.y.Some? ==> r[1].r == v.y.value
    ensures v.Point? && v.z.Some? ==> r[2].r == v.z.value
  {
    match v
    case Point(x, y, z) => [Coordinate(x), Coordinate(y), Coordinate(z)]
    case _ => [W.NaN, W.NaN, W.NaN]
  }

  /** The first `n` of `x`, `y`, `z`, destructured; destructuring `undefined` throws. */
  function Destructure(v: JsValue, n: nat): (r: Result<seq<W.Number>, Error>)
    requires n <= 3
    ensures r.Err? <==> v.Missing?
    ensures r.Ok? ==> |r.value| == n && forall j :: 0 <= j < n ==> r.value[j] == Axes(v)[j]
  {
    if v.Missing? then Err(CannotDestructure) else Ok(Axes(v)[..n])
  }

  // ---------------------------------------------------------------------------
  // `prepareData` (src/command.ts:72-109)

  function Reals(xs: seq<real>): (r: seq<W.Number>)
    ensures |r| == |xs| && forall j :: 0 <= j < |xs| ==> r[j] == W.Real(xs[j])
  {
    seq(|xs|, j requires 0 <= j < |xs| => W.Real(xs[j]))
  }

  /**
   * The numbers one field of one record writes from its offset on: an array
   * element by element, a number for a one-float field, `x, y` for a
   * two-float field and `x, y, z` for a three-float field; anything else is
   * unsupported.
   */
  function FieldValues(f: T.LayoutItem, v: JsValue): Result<seq<W.Number>, Error> {
    if v.List? then Ok(Reals(v.items))
    else if f.size == 1 && v.Num? then Ok([W.Real(v.n)])
    else if f.size == 2 || f.size == 3 then Destructure(v, f.size)
    else Err(Unsupported(f.name))
  }

  /** The writes `data[offset + j] = xs[j]`. */
  function Run(offset: nat, xs: seq<W.Number>): (r: seq<(nat, W.Number)>)
    ensures |r| == |xs| && forall j :: 0 <= j < |xs| ==> r[j] == (offset + j, xs[j])
  {
    seq(|xs|, j requires 0 <= j < |xs| => (offset + j, xs[j]))
  }

  /** The writes of one record, field by field in layout order, from `base`; the first unsupported field throws. */
  function LayoutWrites(base: nat, layout: seq<T.LayoutItem>, item: Item): Result<seq<(nat, W.Number)>, Error>
    decreases |layout|
  {
    if |layout| == 0 then Ok([])
    else
      var f := layout[|layout| - 1];
      match LayoutWrites(base, layout[..|layout| - 1], item)
      case Err(e) => Err(e)
      case Ok(w) =>
        match FieldValues(f, ValueOf(item, f.name))
        case Err(e) => Err(e)
        case Ok(xs) => Ok(w + Run(base + f.offset, xs))
  }

  /** Where record `i` starts: `stride * i`, written as a sum so the proofs stay linear. */
  function Start(stride: nat, i: nat): (r: nat)
  {
    if i == 0 then 0 else Start(stride, i - 1) + stride
  }

  lemma {:induction false} StartIsProduct(stride: nat, i: nat)
    ensures Start(stride, i) == stride * i
  {
    if i > 0 {
      StartIsProduct(stride, i - 1);
      assert stride * i == stride * (i - 1) + stride;
    }
  }

  /** Record `i` ends where a later record `m` starts or before. */
  lemma {:induction false} StartMonotone(stride: nat, i: nat, m: nat)
    requires i < m
    ensures Start(stride, i) + stride <= Start(stride, m)
  {
    if i + 1 < m {
      StartMonotone(stride, i, m - 1);
    }
  }

  /** The writes of all records, record `i` from `stride * i`. */
  function ItemsWrites(stride: nat, layout: seq<T.LayoutItem>, items: seq<Item>): Result<seq<(nat, W.Number)>, Error>
    decreases |items|
  {
    if |items| == 0 then Ok([])
    else
      var n := |items| - 1;
      match ItemsWrites(stride, layout, items[..n])
      case Err(e) => Err(e)
      case Ok(w) =>
        match LayoutWrites(Start(stride, n), layout, items[n])
        case Err(e) => Err(e)
        case Ok(v) => Ok(w + v)
  }

  function Zeros(n: nat): (r: seq<W.Number>)
    ensures |r| == n && forall k :: 0 <= k < n ==> r[k] == W.Real(0.0)
  {
    seq(n, _ => W.Real(0.0))
  }

  /** A write into a `Float32Array`: one past its end is ignored. */
  function Store(d: seq<W.Number>, write: (nat, W.Number)): (r: seq<W.Number>)
    ensures |r| == |d|
  {
    if write.0 < |d| then d[write.0 := write.1] else d
  }

  /** The writes made in order. */
  function Fill(d: seq<W.Number>, writes: seq<(nat, W.Number)>): (r: seq<W.Number>)
    ensures |r| == |d|
    decreases |writes|
  {
    if |writes| == 0 then d else Store(Fill(d, writes[..|writes| - 1]), writes[|writes| - 1])
  }

  /** `prepareData(stride, layout, items)`: a zeroed array of `stride * items.length` floats, then every write. */
  function PreparedData(stride: nat, layout: seq<T.LayoutItem>, items: seq<Item>): Result<seq<W.Number>, Error> {
    match ItemsWrites(stride, layout, items)
    case Err(e) => Err(e)
    case Ok(w) => Ok(Fill(Zeros(stride * |items|), w))
  }

  /** `data[k] = x` on the typed array. */
  method StoreAt(data: array<W.Number>, k: nat, x: W.Number)
    modifies data
    ensures data[..] == Store(old(data[..]), (k, x))
  {
    if k < data.Length {
      data[k] := x;
    }
  }

  /** The array branch: `for (let j = 0; j < value.length; j++) data[offset + j] = value[j]`. */
  method WriteList(data: array<W.Number>, offset: nat, xs: seq<real>)
    modifies data
    ensures data[..] == Fill(old(data[..]), Run(offset, Reals(xs)))
  {
    ghost var start := data[..];
    for j := 0 to |xs|
      invariant data[..] == Fill(start, Run(offset, Reals(xs[..j])))
    {
      assert Run(offset, Reals(xs[..j + 1]))[..j] == Run(offset, Reals(xs[..j]));
      StoreAt(data, offset + j, W.Real(xs[j]));
    }
    assert xs[..|xs|] == xs;
  }

  /** The object branches: `x, y` or `x, y, z` destructured and stored from `offset`. */
  method WriteAxes(data: array<W.Number>, offset: nat, value: JsValue, n: nat)
    requires n == 2 || n == 3
    requires !value.Missing?
    modifies data
    ensures data[..] == Fill(old(data[..]), Run(offset, Axes(value)[..n]))
  {
    ghost var start := data[..];
    var xs := Axes(value);
    ghost var run := Run(offset, xs[..n]);
    StoreAt(data, offset, xs[0]);
    StoreAt(data, offset + 1, xs[1]);
    FillTwo(start, run[0], run[1]);
    assert run[..2] == [run[0], run[1]];
    if n == 3 {
      StoreAt(data, offset + 2, xs[2]);
      assert run[..3][..2] == run[..2];
    }
    assert run[..n] == run;
  }

  lemma FillTwo(d: seq<W.Number>, a: (nat, W.Number), b: (nat, W.Number))
    ensures Fill(d, [a, b]) == Store(Store(d, a), b)
  {
    assert [a, b][..1] == [a] && [a][..0] == [];
    assert Fill(d, [a]) == Store(Fill(d, []), a);
    assert Fill(d, [a, b]) == Store(Fill(d, [a]), b);
  }

  /** One field of one record (src/command.ts:80-105). */
  method WriteField(data: array<W.Number>, offset: nat, f: T.LayoutItem, value: JsValue) returns (e: Option<Error>)
    modifies data
    ensures FieldValues(f, value).Err? <==> e.Some?
    ensures e.Some? ==> e.value == FieldValues(f, value).error
    ensures FieldValues(f, value).Ok? ==> data[..] == Fill(old(data[..]), Run(offset, FieldValues(f, value).value))
  {
    e := None;
    if value.List? {
      WriteList(data, offset, value.items);
    } else if f.size == 1 && value.Num? {
      assert Run(offset, [W.Real(value.n)])[..0] == [];
      StoreAt(data, offset, W.Real(value.n));
    } else if f.size == 2 || f.size == 3 {
      if value.Missing? {
        e := Some(CannotDestructure);
      } else {
        WriteAxes(data, offset, value, f.size);
      }
    } else {
      e := Some(Unsupported(f.name));
    }
  }

  /** The `layout.forEach` of one record, from `base`; it stops at the first field that throws. */
  method WriteRecord(data: array<W.Number>, base: nat, layout: seq<T.LayoutItem>, item: Item) returns (e: Option<Error>)
    modifies data
    ensures LayoutWrites(base, layout, item).Err? <==> e.Some?
    ensures e.Some? ==> e.value == LayoutWrites(base, layout, item).error
    ensures LayoutWrites(base, layout, item).Ok? ==> data[..] == Fill(old(data[..]), LayoutWrites(base, layout, item).value)
  {
    ghost var start := data[..];
    ghost var v: seq<(nat, W.Number)> := [];
    for l := 0 to |layout|
      invariant LayoutWrites(base, layout[..l], item) == Ok(v)
      invariant data[..] == Fill(start, v)
    {
      var f := layout[l];
      assert layout[..l + 1][..l] == layout[..l];
      e := WriteField(data, base + f.offset, f, ValueOf(item, f.name));
      if e.Some? {
        LayoutWritesSticky(base, layout, item, l + 1);
        return;
      }
      ghost var run := Run(base + f.offset, FieldValues(f, ValueOf(item, f.name)).value);
      FillAppend(start, v, run);
      v := v + run;
    }
    assert layout[..|layout|] == layout;
    e := None;
  }

  /** `prepareData`: the record loop around the field loop, filling a fresh typed array. */
  method PrepareData(stride: nat, layout: seq<T.LayoutItem>, items: seq<Item>) returns (r: Result<array<W.Number>, Error>)
    ensures r.Err? <==> PreparedData(stride, layout, items).Err?
    ensures r.Err? ==> r.error == PreparedData(stride, layout, items).error
    ensures r.Ok? ==> fresh(r.value) && r.value[..] == PreparedData(stride, layout, items).value
  {
    var data := new W.Number[stride * |items|](_ => W.Real(0.0));
    assert data[..] == Zeros(stride * |items|);
    ghost var w: seq<(nat, W.Number)> := [];
    for i := 0 to |items|
      invariant ItemsWrites(stride, layout, items[..i]) == Ok(w)
      invariant data[..] == Fill(Zeros(stride * |items|), w)
    {
      assert items[..i + 1][..i] == items[..i];
      StartIsProduct(stride, i);
      var e := WriteRecord(data, stride * i, layout, items[i]);
      if e.Some? {
        ItemsWritesSticky(stride, layout, items, i + 1);
        assert items[..|items|] == items;
        return Err(e.value);
      }
      ghost var v := LayoutWrites(Start(stride, i), layout, items[i]).value;
      FillAppend(Zeros(stride * |items|), w, v);
      w := w + v;
    }
    assert items[..|items|] == items;
    r := Ok(data);
  }

  lemma {:induction false} FillAppend(d: seq<W.Number>, a: seq<(nat, W.Number)>, b: seq<(nat, W.Number)>)
    ensures Fill(d, a + b) == Fill(Fill(d, a), b)
    decreases |b|
  {
    if |b| == 0 {
      assert a + b == a;
    } else {
      var n := |b| - 1;
      assert (a + b)[..|a + b| - 1] == a + b[..n];
      assert (a + b)[|a + b| - 1] == b[n];
      FillAppend(d, a, b[..n]);
    }
  }

  /** Once a record throws, every longer prefix of the layout throws the same error. */
  lemma {:induction false} LayoutWritesSticky(base: nat, layout: seq<T.LayoutItem>, item: Item, l: nat)
    requires l <= |layout|
    requires LayoutWrites(base, layout[..l], item).Err?
    ensures LayoutWrites(base, layout, item) == LayoutWrites(base, layout[..l], item)
    decreases |layout| - l
  {
    if l < |layout| {
      assert layout[..l + 1][..l] == layout[..l];
      LayoutWritesSticky(base, layout, item, l + 1);
    } else {
      assert layout[..l] == layout;
    }
  }

  lemma {:induction false} ItemsWritesSticky(stride: nat, layout: seq<T.LayoutItem>, items: seq<Item>, i: nat)
    requires i <= |items|
    requires ItemsWrites(stride, layout, items[..i]).Err?
    ensures ItemsWrites(stride, layout, items) == ItemsWrites(stride, layout, items[..i])
    decreases |items| - i
  {
    if i < |items| {
      assert items[..i + 1][..i] == items[..i];
      ItemsWritesSticky(stride, layout, items, i + 1);
    } else {
      assert items[..i] == items;
    }
  }

  /** How many numbers a field of a record writes: none when it throws. */
  function Count(f: T.LayoutItem, v: JsValue): nat {
    match FieldValues(f, v)
    case Ok(xs) => |xs|
    case Err(_) => 0
  }

  /** Every field of one record writes inside it: `offset + count <= stride`. */
  predicate FieldsFit(stride: nat, layout: seq<T.LayoutItem>, item: Item) {
    forall l {:trigger Count(layout[l], ValueOf(item, layout[l].name))} :: 0 <= l < |layout| ==> layout[l].offset + Count(layout[l], ValueOf(item, layout[l].name)) <= stride
  }

  /** Every field of every record writes inside its record. */
  predicate Fits(stride: nat, layout: seq<T.LayoutItem>, items: seq<Item>) {
    forall i {:trigger FieldsFit(stride, layout, items[i])} :: 0 <= i < |items| ==> FieldsFit(stride, layout, items[i])
  }

  /**
   * What position `r` of a record holds once its fields are written: the
   * number of the last field that writes there, 0 where none does.
   */
  function Slot(layout: seq<T.LayoutItem>, item: Item, r: nat): W.Number
    decreases |layout|
  {
    if |layout| == 0 then W.Real(0.0)
    else
      var f := layout[|layout| - 1];
      match FieldValues(f, ValueOf(item, f.name))
      case Ok(xs) =>
        if f.offset <= r < f.offset + |xs| then xs[r - f.offset] else Slot(layout[..|layout| - 1], item, r)
      case Err(_) => Slot(layout[..|layout| - 1], item, r)
  }

  /** What position `k` holds after `writes`, starting from `initial`: the last write to `k`. */
  function LastWrite(writes: seq<(nat, W.Number)>, k: nat, initial: W.Number): W.Number
    decreases |writes|
  {
    if |writes| == 0 then initial
    else if writes[|writes| - 1].0 == k then writes[|writes| - 1].1
    else LastWrite(writes[..|writes| - 1], k, initial)
  }

  /** The writes made in order leave in each position of the array the last value written there. */
  lemma {:induction false} FillPoint(d: seq<W.Number>, writes: seq<(nat, W.Number)>, k: nat)
    requires k < |d|
    ensures Fill(d, writes)[k] == LastWrite(writes, k, d[k])
    decreases |writes|
  {
    if |writes| > 0 {
      FillPoint(d, writes[..|writes| - 1], k);
    }
  }

  lemma {:induction false} LastWriteAppend(a: seq<(nat, W.Number)>, b: seq<(nat, W.Number)>, k: nat, initial: W.Number)
    ensures LastWrite(a + b, k, initial) == LastWrite(b, k, LastWrite(a, k, initial))
    decreases |b|
  {
    if |b| == 0 {
      assert a + b == a;
    } else {
      var n := |b| - 1;
      assert (a + b)[..|a + b| - 1] == a + b[..n];
      assert (a + b)[|a + b| - 1] == b[n];
      LastWriteAppend(a, b[..n], k, initial);
    }
  }

  lemma {:induction false} LastWriteRun(offset: nat, xs: seq<W.Number>, k: nat, initial: W.Number)
    ensures LastWrite(Run(offset, xs), k, initial) == if offset <= k < offset + |xs| then xs[k - offset] else initial
    decreases |xs|
  {
    if |xs| > 0 {
      var n := |xs| - 1;
      assert Run(offset, xs)[..n] == Run(offset, xs[..n]);
      LastWriteRun(offset, xs[..n], k, initial);
    }
  }

  lemma SlotLast(layout: seq<T.LayoutItem>, item: Item, r: nat, xs: seq<W.Number>)
    requires |layout| > 0
    requires FieldValues(layout[|layout| - 1], ValueOf(item, layout[|layout| - 1].name)) == Ok(xs)
    ensures Slot(layout, item, r) ==
              var f := layout[|layout| - 1];
              if f.offset <= r < f.offset + |xs| then xs[r - f.offset] else Slot(layout[..|layout| - 1], item, r)
  {
  }

  /** A record's writes give each of its own positions its slot. */
  lemma {:induction false} LayoutInside(base: nat, layout: seq<T.LayoutItem>, item: Item, w: seq<(nat, W.Number)>, r: nat)
    requires LayoutWrites(base, layout, item) == Ok(w)
    ensures LastWrite(w, base + r, W.Real(0.0)) == Slot(layout, item, r)
    decreases |layout|
  {
    if |layout| == 0 {
      assert w == [];
    } else {
      var n := |layout| - 1;
      var f := layout[n];
      LayoutWritesLast(base, layout, item, w);
      var w' := LayoutWrites(base, layout[..n], item).value;
      var xs := FieldValues(f, ValueOf(item, f.name)).value;
      LayoutInside(base, layout[..n], item, w', r);
      SlotLast(layout, item, r, xs);
      InsideStep(w', base, f.offset, xs, r, Slot(layout[..n], item, r), Slot(layout, item, r));
    }
  }

  /** Appending the run of one field at `base + offset` to writes that give `base + r` its earlier slot gives it its new slot. */
  lemma InsideStep(w: seq<(nat, W.Number)>, base: nat, offset: nat, xs: seq<W.Number>, r: nat, earlier: W.Number, slot: W.Number)
    requires LastWrite(w, base + r, W.Real(0.0)) == earlier
    requires slot == if offset <= r < offset + |xs| then xs[r - offset] else earlier
    ensures LastWrite(w + Run(base + offset, xs), base + r, W.Real(0.0)) == slot
  {
    LastWriteAppend(w, Run(base + offset, xs), base + r, W.Real(0.0));
    LastWriteRun(base + offset, xs, base + r, earlier);
    if offset <= r < offset + |xs| {
      assert base + r - (base + offset) == r - offset;
    }
  }

  /** A record's writes that succeed are those of its earlier fields, then the run of its last field. */
  lemma LayoutWritesLast(base: nat, layout: seq<T.LayoutItem>, item: Item, w: seq<(nat, W.Number)>)
    requires |layout| > 0
    requires LayoutWrites(base, layout, item) == Ok(w)
    ensures var f := layout[|layout| - 1];
            LayoutWrites(base, layout[..|layout| - 1], item).Ok? &&
            FieldValues(f, ValueOf(item, f.name)).Ok? &&
            w == LayoutWrites(base, layout[..|layout| - 1], item).value + Run(base + f.offset, FieldValues(f, ValueOf(item, f.name)).value)
  {
  }

  /** A record whose fields fit writes nothing outside `[base, base + stride)`. */
  lemma {:induction false} LayoutOutside(base: nat, stride: nat, layout: seq<T.LayoutItem>, item: Item, w: seq<(nat, W.Number)>, k: nat, initial: W.Number)
    requires LayoutWrites(base, layout, item) == Ok(w)
    requires FieldsFit(stride, layout, item)
    requires !(base <= k < base + stride)
    ensures LastWrite(w, k, initial) == initial
    decreases |layout|
  {
    if |layout| == 0 {
      assert w == [];
    } else {
      var n := |layout| - 1;
      var prefix := layout[..n];
      var f := layout[n];
      assert FieldsFit(stride, prefix, item) by {
        assert forall l :: 0 <= l < n ==> prefix[l] == layout[l];
      }
      var w' := LayoutWrites(base, prefix, item).value;
      var xs := FieldValues(f, ValueOf(item, f.name)).value;
      assert w == w' + Run(base + f.offset, xs);
      assert f.offset + |xs| <= stride by {
        assert Count(f, ValueOf(item, f.name)) == |xs|;
      }
      LayoutOutside(base, stride, prefix, item, w', k, initial);
      LastWriteAppend(w', Run(base + f.offset, xs), k, initial);
      LastWriteRun(base + f.offset, xs, k, LastWrite(w', k, initial));
    }
  }

  lemma ItemsWritesLast(stride: nat, layout: seq<T.LayoutItem>, items: seq<Item>, n: nat, w: seq<(nat, W.Number)>)
    requires 0 < n <= |items|
    requires ItemsWrites(stride, layout, items[..n]) == Ok(w)
    ensures ItemsWrites(stride, layout, items[..n - 1]).Ok?
    ensures LayoutWrites(Start(stride, n - 1), layout, items[n - 1]).Ok?
    ensures w == ItemsWrites(stride, layout, items[..n - 1]).value + LayoutWrites(Start(stride, n - 1), layout, items[n - 1]).value
  {
    assert items[..n][..n - 1] == items[..n - 1];
    assert items[..n][n - 1] == items[n - 1];
  }

  /** After the first `n` records, nothing is written from `stride * n` on. */
  lemma {:induction false} ItemsUntouched(stride: nat, layout: seq<T.LayoutItem>, items: seq<Item>, n: nat, w: seq<(nat, W.Number)>, k: nat)
    requires n <= |items|
    requires ItemsWrites(stride, layout, items[..n]) == Ok(w)
    requires Fits(stride, layout, items)
    requires Start(stride, n) <= k
    ensures LastWrite(w, k, W.Real(0.0)) == W.Real(0.0)
    decreases n
  {
    if n == 0 {
      assert items[..0] == [];
      assert w == [];
    } else {
      var m := n - 1;
      ItemsWritesLast(stride, layout, items, n, w);
      var w' := ItemsWrites(stride, layout, items[..m]).value;
      var v := LayoutWrites(Start(stride, m), layout, items[m]).value;
      ItemsUntouched(stride, layout, items, m, w', k);
      LastWriteAppend(w', v, k, W.Real(0.0));
      LayoutOutside(Start(stride, m), stride, layout, items[m], v, k, W.Real(0.0));
    }
  }

  /** Position `r` of record `i` holds what record `i`'s own writes put there. */
  lemma {:induction false} ItemsPoint(stride: nat, layout: seq<T.LayoutItem>, items: seq<Item>, n: nat, w: seq<(nat, W.Number)>, i: nat, r: nat)
    requires i < n <= |items| && r < stride
    requires ItemsWrites(stride, layout, items[..n]) == Ok(w)
    requires Fits(stride, layout, items)
    ensures LayoutWrites(Start(stride, i), layout, items[i]).Ok?
    ensures LastWrite(w, Start(stride, i) + r, W.Real(0.0)) ==
              LastWrite(LayoutWrites(Start(stride, i), layout, items[i]).value, Start(stride, i) + r, W.Real(0.0))
    decreases n
  {
    var m := n - 1;
    ItemsWritesLast(stride, layout, items, n, w);
    var w' := ItemsWrites(stride, layout, items[..m]).value;
    var v := LayoutWrites(Start(stride, m), layout, items[m]).value;
    var k := Start(stride, i) + r;
    LastWriteAppend(w', v, k, W.Real(0.0));
    if i < m {
      StartMonotone(stride, i, m);
      ItemsPoint(stride, layout, items, m, w', i, r);
      LayoutOutside(Start(stride, m), stride, layout, items[m], v, k, LastWrite(w', k, W.Real(0.0)));
    } else {
      ItemsUntouched(stride, layout, items, m, w', k);
    }
  }

  /** Record `i`'s own writes, which decide position `r` of record `i`. */
  lemma RecordWrites(stride: nat, layout: seq<T.LayoutItem>, items: seq<Item>, w: seq<(nat, W.Number)>, i: nat, r: nat)
      returns (v: seq<(nat, W.Number)>)
    requires i < |items| && r < stride
    requires ItemsWrites(stride, layout, items) == Ok(w)
    requires Fits(stride, layout, items)
    ensures LayoutWrites(Start(stride, i), layout, items[i]) == Ok(v)
    ensures LastWrite(w, Start(stride, i) + r, W.Real(0.0)) == LastWrite(v, Start(stride, i) + r, W.Real(0.0))
  {
    assert items[..|items|] == items;
    ItemsPoint(stride, layout, items, |items|, w, i, r);
    v := LayoutWrites(Start(stride, i), layout, items[i]).value;
  }

  /** A position that only one record's writes `v` decide holds that record's slot. */
  lemma FilledPoint(z: seq<W.Number>, w: seq<(nat, W.Number)>, v: seq<(nat, W.Number)>, base: nat, layout: seq<T.LayoutItem>, item: Item, r: nat)
    requires LayoutWrites(base, layout, item) == Ok(v)
    requires LastWrite(w, base + r, W.Real(0.0)) == LastWrite(v, base + r, W.Real(0.0))
    requires base + r < |z| && z[base + r] == W.Real(0.0)
    ensures Fill(z, w)[base + r] == Slot(layout, item, r)
  {
    FillPoint(z, w, base + r);
    LayoutInside(base, layout, item, v, r);
  }

  lemma PreparedPoint(stride: nat, layout: seq<T.LayoutItem>, items: seq<Item>, w: seq<(nat, W.Number)>, i: nat, r: nat)
    requires i < |items| && r < stride
    requires ItemsWrites(stride, layout, items) == Ok(w)
    requires Fits(stride, layout, items)
    ensures Start(stride, i) + r < stride * |items|
    ensures Fill(Zeros(stride * |items|), w)[Start(stride, i) + r] == Slot(layout, items[i], r)
  {
    var v := RecordWrites(stride, layout, items, w, i, r);
    var z := Zeros(stride * |items|);
    InsideRecords(stride, |items|, i, r);
    assert z[Start(stride, i) + r] == W.Real(0.0);
    FilledPoint(z, w, v, Start(stride, i), layout, items[i], r);
  }

  /** Position `r` of record `i` lies inside the array of `n` records. */
  lemma InsideRecords(stride: nat, n: nat, i: nat, r: nat)
    requires i < n && r < stride
    ensures Start(stride, i) + r < stride * n
  {
    StartIsProduct(stride, n);
    StartMonotone(stride, i, n);
  }

  /**
   * `prepareData` packs each record at `stride * i` (`Start(stride, i)`):
   * when every field writes inside its record, position `r` of record `i`
   * holds what `Slot` says, and the array holds the `items.length` records
   * and nothing else.
   */
  lemma PreparedAt(stride: nat, layout: seq<T.LayoutItem>, items: seq<Item>, i: nat, r: nat)
    requires Fits(stride, layout, items)
    requires i < |items| && r < stride
    ensures PreparedData(stride, layout, items).Ok? ==>
              |PreparedData(stride, layout, items).value| == stride * |items| &&
              Start(stride, i) + r < stride * |items| &&
              PreparedData(stride, layout, items).value[Start(stride, i) + r] == Slot(layout, items[i], r)
  {
    match ItemsWrites(stride, layout, items)
    case Ok(w) =>
      assert PreparedData(stride, layout, items) == Ok(Fill(Zeros(stride * |items|), w));
      PreparedPoint(stride, layout, items, w, i, r);
    case Err(_) =>
  }

  /** The fields of a layout occupy disjoint ranges, in order. */
  predicate Disjoint(layout: seq<T.LayoutItem>) {
    forall a, b :: 0 <= a < b < |layout| ==> layout[a].offset + layout[a].size <= layout[b].offset
  }

  lemma {:induction false} OffsetsGrow(m: seq<T.Field>, a: nat, b: nat)
    requires a < b < |T.Layout(m)|
    ensures T.Layout(m)[a].offset + T.Layout(m)[a].size <= T.Layout(m)[b].offset
    decreases b
  {
    T.LayoutOffsets(m);
    if a + 1 < b {
      OffsetsGrow(m, a, b - 1);
    }
  }

  /** `TypeMap.layout` gives every field its own range of the record. */
  lemma LayoutDisjoint(m: seq<T.Field>)
    ensures Disjoint(T.Layout(m))
  {
    forall a, b | 0 <= a < b < |T.Layout(m)|
      ensures T.Layout(m)[a].offset + T.Layout(m)[a].size <= T.Layout(m)[b].offset
    {
      OffsetsGrow(m, a, b);
    }
  }

  /** When every later field starts after field `l` ends, the first `size` numbers field `l` writes are what its slots hold. */
  lemma {:induction false} SlotOfField(layout: seq<T.LayoutItem>, item: Item, l: nat, xs: seq<W.Number>, j: nat)
    requires l < |layout|
    requires forall b :: l < b < |layout| ==> layout[l].offset + layout[l].size <= layout[b].offset
    requires FieldValues(layout[l], ValueOf(item, layout[l].name)) == Ok(xs)
    requires j < |xs| && j < layout[l].size
    ensures Slot(layout, item, layout[l].offset + j) == xs[j]
    decreases |layout|
  {
    var n := |layout| - 1;
    var r := layout[l].offset + j;
    var f := layout[n];
    if l < n {
      var prefix := layout[..n];
      assert forall b :: 0 <= b < n ==> prefix[b] == layout[b];
      SlotOfField(prefix, item, l, xs, j);
      assert r < f.offset;
      match FieldValues(f, ValueOf(item, f.name))
      case Ok(ys) =>
        SlotLast(layout, item, r, ys);
      case Err(_) =>
        assert Slot(layout, item, r) == Slot(prefix, item, r);
    } else {
      SlotLast(layout, item, r, xs);
    }
  }

  /** Field `f` with value `v` writes position `r` of its record. */
  predicate WritesAt(f: T.LayoutItem, v: JsValue, r: nat) {
    FieldValues(f, v).Ok? && f.offset <= r < f.offset + |FieldValues(f, v).value|
  }

  /** A position no field writes keeps the 0 of the fresh `Float32Array`. */
  lemma {:induction false} SlotUnwritten(layout: seq<T.LayoutItem>, item: Item, r: nat)
    requires forall l :: 0 <= l < |layout| ==> !WritesAt(layout[l], ValueOf(item, layout[l].name), r)
    ensures Slot(layout, item, r) == W.Real(0.0)
    decreases |layout|
  {
    if |layout| > 0 {
      var n := |layout| - 1;
      assert forall l :: 0 <= l < n ==> layout[..n][l] == layout[l];
      SlotUnwritten(layout[..n], item, r);
      assert !WritesAt(layout[n], ValueOf(item, layout[n].name), r);
    }
  }

  /** A field writes at most `size` numbers when an array given for it has at most `size` elements. */
  lemma CountAtMostSize(f: T.LayoutItem, v: JsValue)
    requires v.List? ==> |v.items| <= f.size
    ensures Count(f, v) <= f.size
  {
  }

  /** Every array given for a field of `m` has at most as many elements as the field has floats. */
  predicate ListsFit(m: seq<T.Field>, items: seq<Item>) {
    forall i, l :: 0 <= i < |items| && 0 <= l < |T.Layout(m)| && ValueOf(items[i], T.Layout(m)[l].name).List? ==>
      |ValueOf(items[i], T.Layout(m)[l].name).items| <= T.Layout(m)[l].size
  }

  lemma LayoutFitsItems(m: seq<T.Field>, items: seq<Item>)
    requires ListsFit(m, items)
    ensures Fits(T.StrideOf(m), T.Layout(m), items)
  {
    var layout := T.Layout(m);
    T.LayoutOffsets(m);
    T.LayoutFits(m);
    forall i | 0 <= i < |items|
      ensures FieldsFit(T.StrideOf(m), layout, items[i])
    {
      forall l | 0 <= l < |layout|
        ensures layout[l].offset + Count(layout[l], ValueOf(items[i], layout[l].name)) <= T.StrideOf(m)
      {
        CountAtMostSize(layout[l], ValueOf(items[i], layout[l].name));
      }
    }
  }

  /** Number `j` of field `l` of record `i`, in a disjoint layout whose fields fit. */
  lemma FieldPoint(stride: nat, layout: seq<T.LayoutItem>, items: seq<Item>, w: seq<(nat, W.Number)>, i: nat, l: nat, xs: seq<W.Number>, j: nat)
    requires Fits(stride, layout, items)
    requires Disjoint(layout)
    requires ItemsWrites(stride, layout, items) == Ok(w)
    requires i < |items| && l < |layout|
    requires FieldValues(layout[l], ValueOf(items[i], layout[l].name)) == Ok(xs)
    requires j < |xs| && j < layout[l].size
    ensures Start(stride, i) + layout[l].offset + j < stride * |items|
    ensures Fill(Zeros(stride * |items|), w)[Start(stride, i) + layout[l].offset + j] == xs[j]
  {
    assert FieldsFit(stride, layout, items[i]);
    assert Count(layout[l], ValueOf(items[i], layout[l].name)) == |xs|;
    SlotOfField(layout, items[i], l, xs, j);
    PreparedPoint(stride, layout, items, w, i, layout[l].offset + j);
  }

  lemma PackedPoint(m: seq<T.Field>, items: seq<Item>, w: seq<(nat, W.Number)>, i: nat, l: nat, j: nat)
    requires ListsFit(m, items)
    requires ItemsWrites(T.StrideOf(m), T.Layout(m), items) == Ok(w)
    requires i < |items| && l < |T.Layout(m)|
    requires FieldValues(T.Layout(m)[l], ValueOf(items[i], T.Layout(m)[l].name)).Ok?
    requires j < |FieldValues(T.Layout(m)[l], ValueOf(items[i], T.Layout(m)[l].name)).value|
    ensures Start(T.StrideOf(m), i) + T.Layout(m)[l].offset + j < T.StrideOf(m) * |items|
    ensures Fill(Zeros(T.StrideOf(m) * |items|), w)[Start(T.StrideOf(m), i) + T.Layout(m)[l].offset + j] ==
              FieldValues(T.Layout(m)[l], ValueOf(items[i], T.Layout(m)[l].name)).value[j]
  {
    var f := T.Layout(m)[l];
    var v := ValueOf(items[i], f.name);
    LayoutFitsItems(m, items);
    CountAtMostSize(f, v);
    LayoutDisjoint(m);
    FieldPoint(T.StrideOf(m), T.Layout(m), items, w, i, l, FieldValues(f, v).value, j);
  }

  /**
   * `setAttributes` and `setInstances` pack with the stride and layout of
   * their type map: when no array is longer than its field, number `j` of
   * field `l` of record `i` lands at `stride * i + offset + j`.
   */
  lemma PackedFields(m: seq<T.Field>, items: seq<Item>, i: nat, l: nat, j: nat)
    requires ListsFit(m, items)
    requires i < |items| && l < |T.Layout(m)|
    requires FieldValues(T.Layout(m)[l], ValueOf(items[i], T.Layout(m)[l].name)).Ok?
    requires j < |FieldValues(T.Layout(m)[l], ValueOf(items[i], T.Layout(m)[l].name)).value|
    ensures PreparedData(T.StrideOf(m), T.Layout(m), items).Ok? ==>
              Start(T.StrideOf(m), i) + T.Layout(m)[l].offset + j < |PreparedData(T.StrideOf(m), T.Layout(m), items).value| &&
              PreparedData(T.StrideOf(m), T.Layout(m), items).value[Start(T.StrideOf(m), i) + T.Layout(m)[l].offset + j] ==
                FieldValues(T.Layout(m)[l], ValueOf(items[i], T.Layout(m)[l].name)).value[j]
  {
    var stride := T.StrideOf(m);
    var layout := T.Layout(m);
    if ItemsWrites(stride, layout, items).Ok? {
      var w := ItemsWrites(stride, layout, items).value;
      PreparedOk(stride, layout, items, w);
      PackedPoint(m, items, w, i, l, j);
    }
  }

  lemma PreparedOk(stride: nat, layout: seq<T.LayoutItem>, items: seq<Item>, w: seq<(nat, W.Number)>)
    requires ItemsWrites(stride, layout, items) == Ok(w)
    ensures PreparedData(stride, layout, items) == Ok(Fill(Zeros(stride * |items|), w))
  {
  }

  /** A record throws exactly when one of its fields does. */
  lemma {:induction false} LayoutWritesErr(base: nat, layout: seq<T.LayoutItem>, item: Item)
    ensures LayoutWrites(base, layout, item).Err? <==>
              exists l :: 0 <= l < |layout| && FieldValues(layout[l], ValueOf(item, layout[l].name)).Err?
    decreases |layout|
  {
    if |layout| > 0 {
      var n := |layout| - 1;
      assert forall l :: 0 <= l < n ==> layout[..n][l] == layout[l];
      LayoutWritesErr(base, layout[..n], item);
    }
  }

  /** `prepareData` throws exactly when some field of some record is unsupported or cannot be destructured. */
  lemma {:induction false} ItemsWritesErr(stride: nat, layout: seq<T.LayoutItem>, items: seq<Item>)
    ensures PreparedData(stride, layout, items).Err? <==>
              exists i, l :: 0 <= i < |items| && 0 <= l < |layout| && FieldValues(layout[l], ValueOf(items[i], layout[l].name)).Err?
  {
    RecordsErr(stride, layout, items);
    forall i | 0 <= i < |items| {
      LayoutWritesErr(Start(stride, i), layout, items[i]);
    }
  }

  /** The records' writes throw exactly when the writes of one record do. */
  lemma RecordsErr(stride: nat, layout: seq<T.LayoutItem>, items: seq<Item>)
    ensures ItemsWrites(stride, layout, items).Err? <==>
              exists i :: 0 <= i < |items| && LayoutWrites(Start(stride, i), layout, items[i]).Err?
  {
    var g := (i: nat, x: Item) => LayoutWrites(Start(stride, i), layout, x);
    ItemsWritesFold(stride, layout, items, g);
    FoldErr(g, items);
    assert forall i :: 0 <= i < |items| ==> g(i, items[i]) == LayoutWrites(Start(stride, i), layout, items[i]);
  }

  /** The first error of the per-record writes `g`, threaded through the records as `prepareData` does. */
  function FoldWrites<X>(g: (nat, Item) -> Result<seq<X>, Error>, items: seq<Item>): (r: Result<seq<X>, Error>)
    decreases |items|
  {
    if |items| == 0 then Ok([])
    else
      var n := |items| - 1;
      match FoldWrites(g, items[..n])
      case Err(e) => Err(e)
      case Ok(w) =>
        match g(n, items[n])
        case Err(e) => Err(e)
        case Ok(v) => Ok(w + v)
  }

  lemma {:induction false} ItemsWritesFold(stride: nat, layout: seq<T.LayoutItem>, items: seq<Item>,
                                           g: (nat, Item) -> Result<seq<(nat, W.Number)>, Error>)
    requires forall i, x :: g(i, x) == LayoutWrites(Start(stride, i), layout, x)
    ensures ItemsWrites(stride, layout, items) == FoldWrites(g, items)
    decreases |items|
  {
    if |items| > 0 {
      ItemsWritesFold(stride, layout, items[..|items| - 1], g);
    }
  }

  lemma {:induction false} FoldErr<X>(g: (nat, Item) -> Result<seq<X>, Error>, items: seq<Item>)
    ensures FoldWrites(g, items).Err? <==> exists i :: 0 <= i < |items| && g(i, items[i]).Err?
    decreases |items|
  {
    if |items| > 0 {
      var n := |items| - 1;
      FoldErr(g, items[..n]);
      if FoldWrites(g, items).Err? {
        if FoldWrites(g, items[..n]).Err? {
          var i :| 0 <= i < n && g(i, items[..n][i]).Err?;
          assert items[..n][i] == items[i];
        }
      } else {
        forall i | 0 <= i < |items|
          ensures !g(i, items[i]).Err?
        {
          if i < n {
            assert items[..n][i] == items[i];
          }
        }
      }
    }
  }
}
