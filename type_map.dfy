/**
 * The `TypeMap` helpers of src/dsl.ts:849-946: the description of a shader's
 * uniforms, attributes or varyings as an object from names to a type, or to
 * a `[type, precision]` pair.
 *
 * A JavaScript object is modelled by the sequence of its fields in key
 * order; an object never holds a key twice, which `DistinctNames` states.
 */
module TypeMaps {
  import opened GlslType
  import opened Glsl

  /** A field's description: a bare type (precision `highp`) or a `[type, precision]` pair. */
  datatype Entry = Plain(t: Member) | Precise(t: Member, p: Precision)

  datatype Field = Field(name: string, entry: Entry)

  /** The keys of a JavaScript object are distinct. */
  predicate DistinctNames(m: seq<Field>) {
    forall i, j :: 0 <= i < j < |m| ==> m[i].name != m[j].name
  }

  function Names(m: seq<Field>): (ns: seq<string>)
    ensures |ns| == |m| && forall i :: 0 <= i < |m| ==> ns[i] == m[i].name
  {
    if |m| == 0 then [] else [m[0].name] + Names(m[1..])
  }

  /** `TypeMap.getType` */
  function GetType(e: Entry): Member {
    e.t
  }

  /** `getType` and `getPrecision` take an entry apart: a bare type comes back from its type alone, a pair from both. */
  lemma EntryParts(e: Entry)
    ensures e.Plain? ==> e == Plain(GetType(e)) && GetPrecision(e) == High
    ensures e.Precise? ==> e == Precise(GetType(e), GetPrecision(e))
  {
  }

  /** `TypeMap.getPrecision`: a bare type means `highp`. */
  function GetPrecision(e: Entry): (p: Precision)
    ensures e.Plain? ==> p == High
    ensures e.Precise? ==> p == e.p
  {
    match e
    case Plain(_) => High
    case Precise(_, p) => p
  }

  /** `TypeMap.withoutPrecision`: the same keys in the same order, each mapped to its bare type. */
  function WithoutPrecision(m: seq<Field>): (r: seq<(string, Member)>)
    ensures |r| == |m|
    ensures forall i :: 0 <= i < |m| ==> r[i] == (m[i].name, GetType(m[i].entry))
  {
    if |m| == 0 then [] else [(m[0].name, GetType(m[0].entry))] + WithoutPrecision(m[1..])
  }

  // ---------------------------------------------------------------- values

  /** One input node per field, as `TypeMap.values(storage, types)` builds them, in key order. */
  function Values(storage: Storage, m: seq<Field>): (r: seq<(string, Node)>)
    ensures |r| == |m|
  {
    seq(|m|, i requires 0 <= i < |m| => (m[i].name, Input(storage, m[i].name, GetType(m[i].entry), GetPrecision(m[i].entry))))
  }

  function NodesOf(vs: seq<(string, Node)>): (ns: seq<Node>)
    ensures |ns| == |vs| && forall i :: 0 <= i < |vs| ==> ns[i] == vs[i].1
  {
    seq(|vs|, i requires 0 <= i < |vs| => vs[i].1)
  }

  /**
   * Each value evaluates to `{type, content: name}` and, against a cache
   * that has not seen its key, appends its declaration line
   * `"<storage> <precision> <type> <name>;\n"` to the global text and
   * nothing to the local text; against a cache that has, it appends nothing.
   */
  lemma ValueDeclaresOnce(storage: Storage, m: seq<Field>, i: nat, keys: set<string>)
    requires i < |m|
    ensures var n := Values(storage, m)[i].1;
            var f := m[i];
            ValueOf(n) == Value(GetType(f.entry), f.name)
            && (InputKey(f.name) !in keys ==>
                  Emit(n, keys) == Effect(StorageName(storage) + " " + PrecisionName(GetPrecision(f.entry)) + " "
                                          + Name(GetType(f.entry)) + " " + f.name + ";\n",
                                          "", keys + {InputKey(f.name)}))
            && (InputKey(f.name) in keys ==> Emit(n, keys) == Nothing(keys))
  {
  }

  /**
   * The once-key of a value is `"types_map_value_" + name` whatever the
   * storage, so a uniform and a varying of the same name, run against one
   * cache, declare only the one that runs first.
   */
  lemma SameNameSharesDeclaration(u: seq<Field>, v: seq<Field>, i: nat, j: nat, keys: set<string>)
    requires i < |u| && j < |v| && u[i].name == v[j].name
    ensures var first := Emit(Values(Uniform, u)[i].1, keys);
            Emit(Values(Varying, v)[j].1, first.keys) == Nothing(first.keys)
  {
  }

  /** The declaration lines of all fields, in key order. */
  function Declarations(storage: Storage, m: seq<Field>): string {
    if |m| == 0 then ""
    else
      var f := m[|m| - 1];
      Declarations(storage, m[..|m| - 1])
        + InputDeclaration(storage, GetPrecision(f.entry), GetType(f.entry), f.name)
  }

  function InputKeys(m: seq<Field>): (ks: set<string>)
    ensures forall k :: k in ks ==> exists i :: 0 <= i < |m| && k == InputKey(m[i].name)
  {
    if |m| == 0 then {} else InputKeys(m[..|m| - 1]) + {InputKey(m[|m| - 1].name)}
  }

  lemma InputKeyInjective(a: string, b: string)
    requires InputKey(a) == InputKey(b)
    ensures a == b
  {
    assert a == InputKey(a)[|"types_map_value_"|..];
    assert b == InputKey(b)[|"types_map_value_"|..];
  }

  /**
   * Running all the values of an object of distinct keys against a fresh
   * cache declares every field once, in key order, and records every key.
   */
  lemma {:induction false} ValuesDeclareAll(storage: Storage, m: seq<Field>)
    requires DistinctNames(m)
    ensures EmitAll(NodesOf(Values(storage, m)), {}) == Effect(Declarations(storage, m), "", InputKeys(m))
    decreases |m|
  {
    if |m| > 0 {
      var n := |m| - 1;
      var init, f := m[..n], m[n];
      var ns := NodesOf(Values(storage, m));
      assert ns[..n] == NodesOf(Values(storage, init));
      ValuesDeclareAll(storage, init);
      LastKeyFresh(m);
      EmitAllSnoc(ns, n, {});
      assert ns[..n + 1] == ns;
      LastDeclares(storage, m, InputKeys(init));
      EmptyConcat("");
    }
  }

  /** In an object of distinct keys, the last field's once-key is none of the earlier fields'. */
  lemma LastKeyFresh(m: seq<Field>)
    requires DistinctNames(m) && |m| > 0
    ensures InputKey(m[|m| - 1].name) !in InputKeys(m[..|m| - 1])
  {
    var init, f := m[..|m| - 1], m[|m| - 1];
    if InputKey(f.name) in InputKeys(init) {
      var i :| 0 <= i < |init| && InputKey(f.name) == InputKey(init[i].name);
      InputKeyInjective(f.name, init[i].name);
      assert false;
    }
  }

  /** The last field's value, against keys without its own, appends its declaration line. */
  lemma LastDeclares(storage: Storage, m: seq<Field>, keys: set<string>)
    requires |m| > 0 && InputKey(m[|m| - 1].name) !in keys
    ensures var f := m[|m| - 1];
            Emit(NodesOf(Values(storage, m))[|m| - 1], keys)
              == Effect(InputDeclaration(storage, GetPrecision(f.entry), GetType(f.entry), f.name), "", keys + {InputKey(f.name)})
  {
  }

  // ---------------------------------------------------------------- stride

  /** The sum of `Type.size` over the fields. */
  function StrideOf(m: seq<Field>): (s: nat)
    ensures |m| <= s <= 4 * |m|
  {
    if |m| == 0 then 0 else Size(GetType(m[0].entry)) + StrideOf(m[1..])
  }

  /** `TypeMap.stride`: the `for`-loop accumulation of field sizes. */
  method Stride(m: seq<Field>) returns (r: nat)
    ensures r == StrideOf(m)
  {
    r := 0;
    var i := 0;
    while i < |m|
      invariant 0 <= i <= |m|
      invariant r + StrideOf(m[i..]) == StrideOf(m)
    {
      assert m[i..][1..] == m[i + 1..];
      r := r + Size(GetType(m[i].entry));
      i := i + 1;
    }
  }

  lemma {:induction false} StrideSplit(m: seq<Field>, k: nat)
    requires k <= |m|
    ensures StrideOf(m[..k]) + StrideOf(m[k..]) == StrideOf(m)
    decreases k
  {
    if k > 0 {
      StrideSplit(m[1..], k - 1);
      assert m[..k][1..] == m[1..][..k - 1];
      assert m[1..][k - 1..] == m[k..];
    }
  }

  // ---------------------------------------------------------------- sorting

  /**
   * `Array.prototype.sort` with no comparator on strings: lexicographic
   * order on characters, a proper prefix first.
   */
  predicate LexLe(a: string, b: string) {
    |a| == 0 || (|b| > 0 && (a[0] < b[0] || (a[0] == b[0] && LexLe(a[1..], b[1..]))))
  }

  lemma {:induction false} LexLeTotal(a: string, b: string)
    ensures LexLe(a, b) || LexLe(b, a)
  {
    if |a| > 0 && |b| > 0 && a[0] == b[0] {
      LexLeTotal(a[1..], b[1..]);
    }
  }

  lemma {:induction false} LexLeTransitive(a: string, b: string, c: string)
    requires LexLe(a, b) && LexLe(b, c)
    ensures LexLe(a, c)
  {
    if |a| > 0 && a[0] == b[0] && b[0] == c[0] {
      LexLeTransitive(a[1..], b[1..], c[1..]);
    }
  }

  lemma {:induction false} LexLeAntisymmetric(a: string, b: string)
    requires LexLe(a, b) && LexLe(b, a)
    ensures a == b
  {
    if |a| > 0 {
      LexLeAntisymmetric(a[1..], b[1..]);
      assert a == [a[0]] + a[1..];
      assert b == [b[0]] + b[1..];
    }
  }

  predicate SortedByName(m: seq<Field>) {
    forall i, j :: 0 <= i < j < |m| ==> LexLe(m[i].name, m[j].name)
  }

  /** Puts a field before the first field whose name is not below its own. */
  function Insert(f: Field, m: seq<Field>): (r: seq<Field>)
    ensures |r| == |m| + 1
  {
    if |m| == 0 || LexLe(f.name, m[0].name) then [f] + m
    else [m[0]] + Insert(f, m[1..])
  }

  lemma {:induction false} InsertPermutes(f: Field, m: seq<Field>)
    ensures multiset(Insert(f, m)) == multiset(m) + multiset{f}
    ensures StrideOf(Insert(f, m)) == Size(GetType(f.entry)) + StrideOf(m)
  {
    if |m| > 0 && !LexLe(f.name, m[0].name) {
      InsertPermutes(f, m[1..]);
      assert m == [m[0]] + m[1..];
    }
  }

  lemma {:induction false} InsertPermutesNames(f: Field, m: seq<Field>)
    ensures multiset(Names(Insert(f, m))) == multiset(Names(m)) + multiset{f.name}
  {
    if |m| == 0 || LexLe(f.name, m[0].name) {
      assert ([f] + m)[1..] == m;
    } else {
      InsertPermutesNames(f, m[1..]);
      assert ([m[0]] + Insert(f, m[1..]))[1..] == Insert(f, m[1..]);
    }
  }

  lemma {:induction false} InsertSorted(f: Field, m: seq<Field>)
    requires SortedByName(m)
    ensures SortedByName(Insert(f, m))
  {
    var r := Insert(f, m);
    if |m| == 0 {
    } else if LexLe(f.name, m[0].name) {
      forall j | 0 < j < |r|
        ensures LexLe(f.name, r[j].name)
      {
        if j > 1 { LexLeTransitive(f.name, m[0].name, m[j - 1].name); }
      }
    } else {
      LexLeTotal(f.name, m[0].name);
      var rest := Insert(f, m[1..]);
      InsertSorted(f, m[1..]);
      InsertPermutes(f, m[1..]);
      forall j | 0 <= j < |rest|
        ensures LexLe(m[0].name, rest[j].name)
      {
        assert rest[j] in multiset(m[1..]) + multiset{f};
        if rest[j] != f {
          var i :| 0 <= i < |m[1..]| && m[1..][i] == rest[j];
          assert m[i + 1] == rest[j];
        }
      }
    }
  }

  /** Insertion sort by name. */
  function SortByName(m: seq<Field>): (r: seq<Field>)
    ensures |r| == |m|
  {
    if |m| == 0 then [] else Insert(m[0], SortByName(m[1..]))
  }

  lemma {:induction false} SortByNameSorted(m: seq<Field>)
    ensures SortedByName(SortByName(m))
  {
    if |m| > 0 {
      SortByNameSorted(m[1..]);
      InsertSorted(m[0], SortByName(m[1..]));
    }
  }

  /** The sort is a permutation of its input, and so keeps the stride. */
  lemma {:induction false} SortByNamePermutes(m: seq<Field>)
    ensures multiset(SortByName(m)) == multiset(m)
    ensures StrideOf(SortByName(m)) == StrideOf(m)
  {
    if |m| > 0 {
      SortByNamePermutes(m[1..]);
      InsertPermutes(m[0], SortByName(m[1..]));
      assert m == [m[0]] + m[1..];
    }
  }

  lemma {:induction false} SortByNamePermutesNames(m: seq<Field>)
    ensures multiset(Names(SortByName(m))) == multiset(Names(m))
  {
    if |m| > 0 {
      SortByNamePermutesNames(m[1..]);
      InsertPermutesNames(m[0], SortByName(m[1..]));
    }
  }

  // ---------------------------------------------------------------- layout

  datatype LayoutItem = LayoutItem(name: string, size: nat, stride: nat, offset: nat)

  /** The `reduce` of `TypeMap.layout`: each offset is the previous offset plus the previous size. */
  function Items(fs: seq<Field>, stride: nat, offset: nat): (r: seq<LayoutItem>)
    ensures |r| == |fs|
  {
    if |fs| == 0 then []
    else [LayoutItem(fs[0].name, Size(GetType(fs[0].entry)), stride, offset)]
         + Items(fs[1..], stride, offset + Size(GetType(fs[0].entry)))
  }

  /** Item `k` sits after the sizes of the fields before it. */
  lemma {:induction false} ItemsAt(fs: seq<Field>, stride: nat, offset: nat, k: nat)
    requires k < |fs|
    ensures Items(fs, stride, offset)[k]
            == LayoutItem(fs[k].name, Size(GetType(fs[k].entry)), stride, offset + StrideOf(fs[..k]))
    decreases k
  {
    if k > 0 {
      ItemsAt(fs[1..], stride, offset + Size(GetType(fs[0].entry)), k - 1);
      assert fs[..k][1..] == fs[1..][..k - 1];
    }
  }

  /**
   * `TypeMap.layout`: the fields sorted by name, each with its size, the
   * full stride and its offset. The source sorts the keys and looks each
   * one up again; since the keys of an object are distinct that is the same
   * as sorting the fields by name.
   */
  function Layout(m: seq<Field>): (r: seq<LayoutItem>)
    ensures |r| == |m|
  {
    Items(SortByName(m), StrideOf(m), 0)
  }

  function ItemNames(r: seq<LayoutItem>): (ns: seq<string>)
    ensures |ns| == |r| && forall i :: 0 <= i < |r| ==> ns[i] == r[i].name
  {
    seq(|r|, i requires 0 <= i < |r| => r[i].name)
  }

  /** Offsets start at 0 and accumulate the sizes; every item carries the whole stride. */
  lemma LayoutOffsets(m: seq<Field>)
    ensures |Layout(m)| > 0 ==> Layout(m)[0].offset == 0
    ensures forall k :: 0 < k < |Layout(m)| ==> Layout(m)[k].offset == Layout(m)[k - 1].offset + Layout(m)[k - 1].size
    ensures forall k :: 0 <= k < |Layout(m)| ==> Layout(m)[k].stride == StrideOf(m)
  {
    var fs := SortByName(m);
    var r := Layout(m);
    if |r| > 0 {
      ItemsAt(fs, StrideOf(m), 0, 0);
    }
    forall k | 0 < k < |r|
      ensures r[k].offset == r[k - 1].offset + r[k - 1].size
    {
      ItemsAt(fs, StrideOf(m), 0, k);
      ItemsAt(fs, StrideOf(m), 0, k - 1);
      StrideSplit(fs[..k], k - 1);
      assert fs[..k][..k - 1] == fs[..k - 1];
      assert fs[..k][k - 1..] == [fs[k - 1]];
    }
    forall k | 0 <= k < |r|
      ensures r[k].stride == StrideOf(m)
    {
      ItemsAt(fs, StrideOf(m), 0, k);
    }
  }

  /** Every item fits in the record: `offset + size <= stride`. */
  lemma LayoutFits(m: seq<Field>)
    ensures forall k :: 0 <= k < |Layout(m)| ==> Layout(m)[k].offset + Layout(m)[k].size <= Layout(m)[k].stride
  {
    var fs := SortByName(m);
    var r := Layout(m);
    SortByNamePermutes(m);
    forall k | 0 <= k < |r|
      ensures r[k].offset + r[k].size <= r[k].stride
    {
      ItemsAt(fs, StrideOf(m), 0, k);
      StrideSplit(fs, k);
      assert fs[k..][0] == fs[k];
    }
  }

  /** The names of the items are those of the sorted fields. */
  lemma LayoutNames(m: seq<Field>)
    ensures ItemNames(Layout(m)) == Names(SortByName(m))
  {
    var fs := SortByName(m);
    forall k | 0 <= k < |fs|
      ensures Layout(m)[k].name == fs[k].name
    {
      ItemsAt(fs, StrideOf(m), 0, k);
    }
  }

  /** The items come sorted by name and hold exactly the object's keys. */
  lemma LayoutSorted(m: seq<Field>)
    ensures forall j, k :: 0 <= j < k < |Layout(m)| ==> LexLe(Layout(m)[j].name, Layout(m)[k].name)
    ensures multiset(ItemNames(Layout(m))) == multiset(Names(m))
  {
    LayoutNames(m);
    SortByNameSorted(m);
    SortByNamePermutesNames(m);
  }

  /** Each item's size is `Type.size` of the type its name has in the object. */
  lemma LayoutSizes(m: seq<Field>)
    ensures forall k :: 0 <= k < |Layout(m)| ==>
              exists i :: 0 <= i < |m| && m[i].name == Layout(m)[k].name && Layout(m)[k].size == Size(GetType(m[i].entry))
  {
    var fs := SortByName(m);
    var r := Layout(m);
    SortByNamePermutes(m);
    forall k | 0 <= k < |r|
      ensures exists i :: 0 <= i < |m| && m[i].name == r[k].name && r[k].size == Size(GetType(m[i].entry))
    {
      ItemsAt(fs, StrideOf(m), 0, k);
      assert fs[k] in multiset(m);
      var i :| 0 <= i < |m| && m[i] == fs[k];
    }
  }

  /** With distinct keys no name appears twice in the layout, so the sorted names strictly increase. */
  lemma LayoutNamesDistinct(m: seq<Field>)
    requires DistinctNames(m)
    ensures forall j, k :: 0 <= j < k < |Layout(m)| ==> Layout(m)[j].name != Layout(m)[k].name
  {
    var ns := ItemNames(Layout(m));
    LayoutSorted(m);
    forall j, k | 0 <= j < k < |ns|
      ensures ns[j] != ns[k]
    {
      if ns[j] == ns[k] {
        DistinctCount(m, ns[j]);
        PairCount(ns, j, k);
        assert false;
      }
    }
  }

  lemma {:induction false} DistinctCount(m: seq<Field>, x: string)
    requires DistinctNames(m)
    ensures multiset(Names(m))[x] <= 1
    decreases |m|
  {
    if |m| > 0 {
      DistinctCount(m[1..], x);
      if m[0].name == x {
        assert x !in Names(m[1..]);
      }
    }
  }

  lemma PairCount(s: seq<string>, j: nat, k: nat)
    requires j < k < |s| && s[j] == s[k]
    ensures multiset(s)[s[j]] >= 2
  {
    assert s == s[..j] + [s[j]] + s[j + 1..k] + [s[k]] + s[k + 1..];
  }
}
