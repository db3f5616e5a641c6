/**
 * The expression graph of the shader DSL (class `Glsl`, src/dsl.ts:194-848).
 *
 * A source `Glsl` object is a closure from a builder to a value. Its value
 * never depends on the builder, only what it appends to the builder does, so
 * a node is modelled by an abstract syntax tree together with two functions:
 * `ValueOf`, the `{ type, content }` pair it returns, and `Emit`, the text it
 * appends and the cache keys it records when run against a builder whose
 * cache holds a given set of keys. `GetValue` runs a node against a real
 * `GlslBuilder` and is proved to do exactly what those two functions say.
 */
module Glsl {
  import opened GlslType
  import opened GlslBuild

  datatype Value = Value(ty: Type, content: string)

  /** The storage qualifier an input node declares (`TypeMap.values`). */
  datatype Storage = Uniform | Attribute | Varying

  function StorageName(s: Storage): string {
    match s
    case Uniform => "uniform"
    case Attribute => "attribute"
    case Varying => "varying"
  }

  /** The result-type callback handed to `Glsl.call`. */
  datatype TypeRule =
    | First          // `([t]) => t`, `types => types[0]`
    | Fixed(t: Type) // `() => Type.X`
    | Arith          // add, sub, div
    | Product        // mul

  datatype Node =
    | Literal(value: Value)
      // `new Glsl(() => value)`: numbers, booleans and built-in variables
    | Input(storage: Storage, name: string, ty: Type, precision: Precision)
      // a node made by `TypeMap.values`
    | Call(name: string, args: seq<Node>, rule: TypeRule)
      // `Glsl.call(name, args, rule)`
    | Take(vector: Node, indexes: seq<int>)
      // `take(i1, ..., ik)`
    | Cat(left: Node, right: Node)
      // `left.cat(right)`
    | Mem(id: nat, precision: Precision, inner: Node)
      // `inner.mem(precision)`, created when the id counter stood at `id`
    | Cond(id: nat, precision: Precision, condition: Node, whenTrue: Node, whenFalse: Node)
      // `condition.cond(precision, whenTrue, whenFalse)`

  /** What running a node appends to a builder and leaves in its cache. */
  datatype Effect = Effect(global: string, local: string, keys: set<string>)

  // ---------------------------------------------------------------- text

  function Digit(d: nat): (c: char)
    requires d < 10
    ensures '0' <= c <= '9'
  {
    "0123456789"[d]
  }

  /** Decimal rendering of a counter value, as a template literal prints it. */
  function NatToString(n: nat): (s: string)
    ensures |s| > 0
    ensures forall i :: 0 <= i < |s| ==> '0' <= s[i] <= '9'
    ensures |s| > 1 ==> s[0] != '0'
    decreases n
  {
    if n < 10 then [Digit(n)] else NatToString(n / 10) + [Digit(n % 10)]
  }

  /** The number a string of decimal digits denotes, most significant digit first. */
  function DecimalValue(s: string): int
  {
    if |s| == 0 then 0 else 10 * DecimalValue(s[..|s| - 1]) + (s[|s| - 1] as int - '0' as int)
  }

  /** The counter's decimal text reads back as the counter. */
  lemma {:induction false} NatToStringRoundTrip(n: nat)
    ensures DecimalValue(NatToString(n)) == n
    decreases n
  {
    var s := NatToString(n);
    if n >= 10 {
      NatToStringRoundTrip(n / 10);
      assert s[..|s| - 1] == NatToString(n / 10);
      assert s[|s| - 1] == Digit(n % 10);
      DigitValue(n % 10);
    } else {
      DigitValue(n);
    }
  }

  lemma DigitValue(d: nat)
    requires d < 10
    ensures Digit(d) as int - '0' as int == d
  {
  }

  /** Distinct counter values give distinct texts. */
  lemma NatToStringInjective(a: nat, b: nat)
    ensures NatToString(a) == NatToString(b) ==> a == b
  {
    NatToStringRoundTrip(a);
    NatToStringRoundTrip(b);
  }

  /** Distinct ids give distinct `memN` and `condN` names, which never coincide with each other. */
  lemma KeysDistinct(a: nat, b: nat)
    ensures MemKey(a) == MemKey(b) ==> a == b
    ensures CondKey(a) == CondKey(b) ==> a == b
    ensures MemKey(a) != CondKey(b)
  {
    if MemKey(a) == MemKey(b) {
      assert NatToString(a) == MemKey(a)[3..] == MemKey(b)[3..] == NatToString(b);
      NatToStringInjective(a, b);
    }
    if CondKey(a) == CondKey(b) {
      assert NatToString(a) == CondKey(a)[4..] == CondKey(b)[4..] == NatToString(b);
      NatToStringInjective(a, b);
    }
    assert MemKey(a)[0] == 'm' && CondKey(b)[0] == 'c';
  }

  function MemKey(id: nat): string { "mem" + NatToString(id) }

  function CondKey(id: nat): string { "cond" + NatToString(id) }

  /** The cache key of an input declaration; it does not include the storage class. */
  function InputKey(name: string): string { "types_map_value_" + name }

  /** The operator names: a call name that is a substring of this string renders infix. */
  const Operators: string := "==+-*/<><=>=!&&||"

  predicate OccursAt(s: string, sub: string, i: int) {
    0 <= i <= |s| - |sub| && s[i..i + |sub|] == sub
  }

  /** `s.indexOf(sub) !== -1`: `sub` occurs in `s` at some position. */
  predicate Contains(s: string, sub: string) {
    exists i :: 0 <= i <= |s| - |sub| && OccursAt(s, sub, i)
  }

  predicate IsOperator(name: string) {
    Contains(Operators, name)
  }

  /** `values.join(", ")`. */
  function Join(parts: seq<string>): (r: string)
    ensures |parts| == 1 ==> r == parts[0]
  {
    if |parts| == 0 then ""
    else if |parts| == 1 then parts[0]
    else Join(parts[..|parts| - 1]) + ", " + parts[|parts| - 1]
  }

  /** The content of a call: infix for an operator with two arguments, prefix otherwise. */
  function CallContent(name: string, contents: seq<string>): string {
    if |contents| == 2 && IsOperator(name) then
      "((" + contents[0] + ") " + name + " (" + contents[1] + "))"
    else
      name + "(" + Join(contents) + ")"
  }

  /** `types[i]`, `undefined` past the end. */
  function TypeAt(types: seq<Type>, i: nat): Type {
    if i < |types| then types[i] else Undefined
  }

  function ResultType(rule: TypeRule, types: seq<Type>): Type {
    match rule
    case First => TypeAt(types, 0)
    case Fixed(t) => t
    case Arith => ArithType(TypeAt(types, 0), TypeAt(types, 1))
    case Product => MulType(TypeAt(types, 0), TypeAt(types, 1))
  }

  /** `"xyzw".charAt(i)`: empty outside 0..3. */
  function Component(i: int): string {
    if 0 <= i < 4 then ["xyzw"[i]] else ""
  }

  function Swizzle(indexes: seq<int>): string {
    if |indexes| == 0 then "" else Swizzle(indexes[..|indexes| - 1]) + Component(indexes[|indexes| - 1])
  }

  function InputDeclaration(storage: Storage, precision: Precision, t: Type, name: string): string {
    StorageName(storage) + " " + PrecisionName(precision) + " " + Name(t) + " " + name + ";\n"
  }

  function MemLine(precision: Precision, v: Value, key: string): string {
    PrecisionName(precision) + " " + Name(v.ty) + " " + key + " = " + v.content + ";\n"
  }

  /** The if/else block a conditional appends to its parent's local text. */
  function CondBlock(precision: Precision, key: string, condition: Value, t: Value, tLocal: string,
                     f: Value, fLocal: string): string
  {
    (if t.ty != Boolean then PrecisionName(precision) + " " else "") + Name(t.ty) + " " + key + ";\n"
    + "if (" + condition.content + ") {\n"
    + tLocal
    + key + " = " + t.content + ";\n"
    + "} else {\n"
    + fLocal
    + key + " = " + f.content + ";\n"
    + "}\n"
  }

  // ---------------------------------------------------------------- values

  /** The value a node evaluates to, whatever the builder. */
  function ValueOf(n: Node): Value
    decreases n
  {
    match n
    case Literal(v) => v
    case Input(_, name, t, _) => Value(t, name)
    case Call(name, args, rule) =>
      var vs := ValuesOf(args);
      Value(ResultType(rule, Types(vs)), CallContent(name, Contents(vs)))
    case Take(v, indexes) =>
      Value(if |indexes| == 1 then Scalar else Vector(|indexes|),
            "(" + ValueOf(v).content + ")." + Swizzle(indexes))
    case Cat(a, b) =>
      var rt := CatType(ValueOf(a).ty, ValueOf(b).ty);
      Value(rt, Name(rt) + "(" + ValueOf(a).content + ", " + ValueOf(b).content + ")")
    case Mem(id, _, inner) => Value(ValueOf(inner).ty, MemKey(id))
    case Cond(id, _, _, t, _) => Value(ValueOf(t).ty, CondKey(id))
  }

  function ValuesOf(ns: seq<Node>): (vs: seq<Value>)
    ensures |vs| == |ns|
    decreases ns
  {
    if |ns| == 0 then [] else ValuesOf(ns[..|ns| - 1]) + [ValueOf(ns[|ns| - 1])]
  }

  function Types(vs: seq<Value>): (ts: seq<Type>)
    ensures |ts| == |vs| && forall i :: 0 <= i < |vs| ==> ts[i] == vs[i].ty
  {
    seq(|vs|, i requires 0 <= i < |vs| => vs[i].ty)
  }

  function Contents(vs: seq<Value>): (cs: seq<string>)
    ensures |cs| == |vs| && forall i :: 0 <= i < |vs| ==> cs[i] == vs[i].content
  {
    seq(|vs|, i requires 0 <= i < |vs| => vs[i].content)
  }

  lemma {:induction false} ValuesOfAt(ns: seq<Node>, i: nat)
    requires i < |ns|
    ensures ValuesOf(ns)[i] == ValueOf(ns[i])
    decreases |ns|
  {
    if i < |ns| - 1 {
      ValuesOfAt(ns[..|ns| - 1], i);
    }
  }

  // ---------------------------------------------------------------- effects

  function Seq(e1: Effect, e2: Effect): Effect {
    Effect(e1.global + e2.global, e1.local + e2.local, e2.keys)
  }

  function Nothing(keys: set<string>): Effect {
    Effect("", "", keys)
  }

  /**
   * What `n.getValue(builder)` appends to the builder's global and local text
   * and which keys the shared cache holds afterwards, given the keys it held
   * before.
   */
  function Emit(n: Node, keys: set<string>): Effect
    decreases n, 1
  {
    match n
    case Literal(_) => Nothing(keys)
    case Input(storage, name, t, precision) =>
      if InputKey(name) in keys then Nothing(keys)
      else Effect(InputDeclaration(storage, precision, t, name), "", keys + {InputKey(name)})
    case Call(_, args, _) => EmitAll(args, keys)
    case Take(v, _) => Emit(v, keys)
    case Cat(a, b) =>
      var ea := Emit(a, keys);
      Seq(ea, Emit(b, ea.keys))
    case Mem(id, precision, inner) =>
      var e := Emit(inner, keys);
      if MemKey(id) in e.keys then e
      else Effect(e.global, e.local + MemLine(precision, ValueOf(inner), MemKey(id)), e.keys + {MemKey(id)})
    case Cond(id, precision, c, t, f) =>
      if CondKey(id) in keys then Nothing(keys) else FirstCondEffect(id, precision, c, t, f, keys)
  }

  function FirstCondEffect(id: nat, precision: Precision, c: Node, t: Node, f: Node, keys: set<string>): Effect
    decreases Cond(id, precision, c, t, f), 0
  {
    // each branch runs against a child builder: its own text, the shared cache
    var et := Emit(t, keys);
    var ef := Emit(f, et.keys);
    // the condition runs against the parent builder itself
    var ec := Emit(c, ef.keys);
    CondEffect(CondKey(id), precision, ValueOf(c), ValueOf(t), ValueOf(f), et, ef, ec)
  }

  /**
   * A conditional's first run: the condition's own text, then the branch
   * globals, and one if/else block holding the branch locals.
   */
  function CondEffect(key: string, precision: Precision, vc: Value, vt: Value, vf: Value,
                      et: Effect, ef: Effect, ec: Effect): Effect
  {
    Effect(ec.global + et.global + ef.global,
           ec.local + CondBlock(precision, key, vc, vt, et.local, vf, ef.local),
           ec.keys + {key})
  }

  /** The arguments of a call run left to right against the same builder. */
  function EmitAll(ns: seq<Node>, keys: set<string>): Effect
    decreases ns, 2
  {
    if |ns| == 0 then Nothing(keys)
    else
      var e := EmitAll(ns[..|ns| - 1], keys);
      Seq(e, Emit(ns[|ns| - 1], e.keys))
  }

  /**
   * A node is done against a set of keys when running it again appends
   * nothing: every input, memoized value and conditional it reaches has
   * already been recorded.
   */
  predicate Done(n: Node, keys: set<string>)
    decreases n
  {
    match n
    case Literal(_) => true
    case Input(_, name, _, _) => InputKey(name) in keys
    case Call(_, args, _) => AllDone(args, keys)
    case Take(v, _) => Done(v, keys)
    case Cat(a, b) => Done(a, keys) && Done(b, keys)
    case Mem(id, _, inner) => MemKey(id) in keys && Done(inner, keys)
    case Cond(id, _, _, _, _) => CondKey(id) in keys
  }

  predicate AllDone(ns: seq<Node>, keys: set<string>)
    decreases ns
  {
    |ns| == 0 || (AllDone(ns[..|ns| - 1], keys) && Done(ns[|ns| - 1], keys))
  }

  /** Running a node only ever adds keys to the cache. */
  lemma {:induction false} EmitGrows(n: Node, keys: set<string>)
    ensures keys <= Emit(n, keys).keys
    decreases n, 0
  {
    match n
    case Literal(_) =>
    case Input(_, _, _, _) =>
    case Call(_, args, _) => EmitAllGrows(args, keys);
    case Take(v, _) => EmitGrows(v, keys);
    case Cat(a, b) =>
      EmitGrows(a, keys);
      EmitGrows(b, Emit(a, keys).keys);
    case Mem(_, _, inner) => EmitGrows(inner, keys);
    case Cond(id, _, c, t, f) =>
      if CondKey(id) !in keys {
        EmitGrows(t, keys);
        EmitGrows(f, Emit(t, keys).keys);
        EmitGrows(c, Emit(f, Emit(t, keys).keys).keys);
      }
  }

  lemma {:induction false} EmitAllGrows(ns: seq<Node>, keys: set<string>)
    ensures keys <= EmitAll(ns, keys).keys
    decreases ns, 1
  {
    if |ns| > 0 {
      EmitAllGrows(ns[..|ns| - 1], keys);
      EmitGrows(ns[|ns| - 1], EmitAll(ns[..|ns| - 1], keys).keys);
    }
  }

  /** Recording more keys keeps a node done. */
  lemma {:induction false} DoneMonotone(n: Node, keys: set<string>, more: set<string>)
    requires Done(n, keys) && keys <= more
    ensures Done(n, more)
    decreases n, 0
  {
    match n
    case Literal(_) =>
    case Input(_, _, _, _) =>
    case Call(_, args, _) => AllDoneMonotone(args, keys, more);
    case Take(v, _) => DoneMonotone(v, keys, more);
    case Cat(a, b) =>
      DoneMonotone(a, keys, more);
      DoneMonotone(b, keys, more);
    case Mem(_, _, inner) => DoneMonotone(inner, keys, more);
    case Cond(_, _, _, _, _) =>
  }

  lemma {:induction false} AllDoneMonotone(ns: seq<Node>, keys: set<string>, more: set<string>)
    requires AllDone(ns, keys) && keys <= more
    ensures AllDone(ns, more)
    decreases ns, 1
  {
    if |ns| > 0 {
      AllDoneMonotone(ns[..|ns| - 1], keys, more);
      DoneMonotone(ns[|ns| - 1], keys, more);
    }
  }

  /** A done node appends nothing and records nothing. */
  lemma {:induction false} DoneEmitsNothing(n: Node, keys: set<string>)
    requires Done(n, keys)
    ensures Emit(n, keys) == Nothing(keys)
    decreases n, 0
  {
    match n
    case Literal(_) =>
    case Input(_, _, _, _) =>
    case Call(_, args, _) => AllDoneEmitsNothing(args, keys);
    case Take(v, _) => DoneEmitsNothing(v, keys);
    case Cat(a, b) =>
      DoneEmitsNothing(a, keys);
      DoneEmitsNothing(b, keys);
    case Mem(_, _, inner) => DoneEmitsNothing(inner, keys);
    case Cond(_, _, _, _, _) =>
  }

  lemma {:induction false} AllDoneEmitsNothing(ns: seq<Node>, keys: set<string>)
    requires AllDone(ns, keys)
    ensures EmitAll(ns, keys) == Nothing(keys)
    decreases ns, 1
  {
    if |ns| > 0 {
      AllDoneEmitsNothing(ns[..|ns| - 1], keys);
      DoneEmitsNothing(ns[|ns| - 1], keys);
    }
  }

  /** After a node has run against a cache, it is done against that cache. */
  lemma {:induction false} EmitMakesDone(n: Node, keys: set<string>)
    ensures Done(n, Emit(n, keys).keys)
    decreases n, 0
  {
    match n
    case Literal(_) =>
    case Input(_, _, _, _) =>
    case Call(_, args, _) => EmitAllMakesDone(args, keys);
    case Take(v, _) => EmitMakesDone(v, keys);
    case Cat(a, b) =>
      var ka := Emit(a, keys).keys;
      EmitMakesDone(a, keys);
      EmitGrows(b, ka);
      DoneMonotone(a, ka, Emit(b, ka).keys);
      EmitMakesDone(b, ka);
    case Mem(_, _, inner) =>
      EmitMakesDone(inner, keys);
      DoneMonotone(inner, Emit(inner, keys).keys, Emit(n, keys).keys);
    case Cond(_, _, _, _, _) =>
  }

  lemma {:induction false} EmitAllMakesDone(ns: seq<Node>, keys: set<string>)
    ensures AllDone(ns, EmitAll(ns, keys).keys)
    decreases ns, 1
  {
    if |ns| > 0 {
      var init := ns[..|ns| - 1];
      var k := EmitAll(init, keys).keys;
      EmitAllMakesDone(init, keys);
      EmitGrows(ns[|ns| - 1], k);
      AllDoneMonotone(init, k, Emit(ns[|ns| - 1], k).keys);
      EmitMakesDone(ns[|ns| - 1], k);
    }
  }

  /**
   * Node memoization: running a node a second time against a builder that
   * shares the cache (the same builder, a child, or a parent) appends nothing,
   * so a memoized value or conditional is emitted at most once per cache.
   */
  lemma RunTwiceEmitsOnce(n: Node, keys: set<string>)
    ensures Emit(n, Emit(n, keys).keys) == Nothing(Emit(n, keys).keys)
  {
    EmitMakesDone(n, keys);
    DoneEmitsNothing(n, Emit(n, keys).keys);
  }

  /** The same for any node run in between: memoization survives other work on the cache. */
  lemma RunAgainLaterEmitsNothing(n: Node, keys: set<string>, later: set<string>)
    requires Emit(n, keys).keys <= later
    ensures Emit(n, later) == Nothing(later)
  {
    EmitMakesDone(n, keys);
    DoneMonotone(n, Emit(n, keys).keys, later);
    DoneEmitsNothing(n, later);
  }

  /**
   * The first run of a memoized value appends exactly one local
   * declaration, after whatever its inner expression appends, and records its key.
   */
  lemma MemFirstRun(id: nat, precision: Precision, inner: Node, keys: set<string>)
    requires MemKey(id) !in Emit(inner, keys).keys
    ensures var e := Emit(inner, keys);
            Emit(Mem(id, precision, inner), keys)
              == Effect(e.global, e.local + MemLine(precision, ValueOf(inner), MemKey(id)), e.keys + {MemKey(id)})
    ensures ValueOf(Mem(id, precision, inner)) == Value(ValueOf(inner).ty, MemKey(id))
  {
  }

  // ---------------------------------------------------------------- building nodes

  /** An argument of `val`, `cat` and the calls that accept plain numbers. */
  datatype Arg =
    | Number(text: string)   // a JavaScript number, by the text `toString()` gives it
    | Flag(b: bool)          // a boolean, accepted by `val` alone
    | Expr(node: Node)

  /** `val(number)`: the number's text, with `.0` added unless it already has a `.` or an `e`. */
  function Numeral(text: string): (r: string)
    ensures '.' in r || 'e' in r
    ensures ('.' in text || 'e' in text) ==> r == text
    ensures !('.' in text || 'e' in text) ==> r == text + ".0"
  {
    if '.' in text || 'e' in text then text else text + ".0"
  }

  /**
   * `val` of one argument: a `Glsl` is returned itself, a number becomes a
   * float literal that reads as its own text, and a boolean a `bool` that
   * reads 1 or 0.
   */
  function Single(a: Arg): (n: Node)
    ensures a.Expr? ==> n == a.node
    ensures a.Number? ==> var v := ValueOf(n);
              v.ty == Scalar && ('.' in v.content || 'e' in v.content) &&
              |a.text| <= |v.content| && v.content[..|a.text|] == a.text &&
              (v.content == a.text <==> '.' in a.text || 'e' in a.text)
    ensures a.Flag? ==> var v := ValueOf(n);
              v.ty == Boolean && (v.content == "1" <==> a.b) && (v.content == "0" <==> !a.b)
  {
    match a
    case Number(text) => Literal(Value(Scalar, Numeral(text)))
    case Flag(b) => Literal(Value(Boolean, if b then "1" else "0"))
    case Expr(node) => node
  }

  /** `values.reduce((r, v) => r.cat(v))`. */
  function CatAll(ns: seq<Node>): Node
    requires |ns| > 0
  {
    if |ns| == 1 then ns[0] else Cat(CatAll(ns[..|ns| - 1]), ns[|ns| - 1])
  }

  /**
   * The argument lists `val` accepts: at least one argument, and a boolean
   * only alone or among arguments that include a number (the overloads take
   * booleans alone; a boolean reaching `cat` in the no-number path would not
   * be a `Glsl`).
   */
  predicate ValAccepts(args: seq<Arg>) {
    |args| >= 1
    && (|args| > 1 && (exists i :: 0 <= i < |args| && args[i].Flag?) ==>
          exists i :: 0 <= i < |args| && args[i].Number?)
  }

  /**
   * `Glsl.val(...values)`: one argument is wrapped on its own; several are
   * each wrapped (when some is a number, by the recursive call on the mapped
   * list) and then concatenated from the left.
   */
  function Val(args: seq<Arg>): (n: Node)
    requires ValAccepts(args)
    ensures |args| == 1 ==> n == Single(args[0])
    ensures |args| >= 2 && Sized(args) ==>
              ValueOf(n).ty == (if ArgSizes(args) <= 4 then Numeric(ArgSizes(args)) else Undefined)
    ensures |args| >= 2 && !Sized(args) ==> ValueOf(n).ty == Undefined
  {
    if |args| == 1 then Single(args[0])
    else
      SinglesType(args, Singles(args));
      CatAll(Singles(args))
  }

  /** `values.map(v => Glsl.val(v))`. */
  function Singles(args: seq<Arg>): (ns: seq<Node>)
    ensures |ns| == |args|
    ensures forall i :: 0 <= i < |args| ==> ns[i] == Single(args[i])
  {
    seq(|args|, i requires 0 <= i < |args| => Single(args[i]))
  }

  /** Every `Glsl` argument has a type with a size. */
  predicate Sized(args: seq<Arg>) {
    forall i :: 0 <= i < |args| && args[i].Expr? ==> ValueOf(args[i].node).ty != Undefined
  }

  /** The component counts of the arguments, summed: one for a number or a boolean. */
  function ArgSizes(args: seq<Arg>): int
    requires Sized(args)
  {
    if |args| == 0 then 0
    else
      var last := args[|args| - 1];
      ArgSizes(args[..|args| - 1]) + (if last.Expr? then Size(ValueOf(last.node).ty) else 1)
  }

  lemma SinglesType(args: seq<Arg>, ns: seq<Node>)
    requires |args| >= 2 && |ns| == |args|
    requires forall i :: 0 <= i < |args| ==> ns[i] == Single(args[i])
    ensures Sized(args) ==>
              ValueOf(CatAll(ns)).ty == (if ArgSizes(args) <= 4 then Numeric(ArgSizes(args)) else Undefined)
    ensures !Sized(args) ==> ValueOf(CatAll(ns)).ty == Undefined
  {
    if Sized(args) {
      forall i | 0 <= i < |ns|
        ensures ValueOf(ns[i]).ty != Undefined
      {
        assert ns[i] == Single(args[i]);
      }
      CatAllType(ns);
      SizesAgree(args, ns);
    } else {
      var i :| 0 <= i < |args| && args[i].Expr? && ValueOf(args[i].node).ty == Undefined;
      assert ValueOf(ns[i]).ty == Undefined;
      CatAllUndefined(ns, i);
    }
  }

  lemma {:induction false} SizesAgree(args: seq<Arg>, ns: seq<Node>)
    requires |ns| == |args| && Sized(args)
    requires forall i :: 0 <= i < |args| ==> ns[i] == Single(args[i])
    requires forall i :: 0 <= i < |ns| ==> ValueOf(ns[i]).ty != Undefined
    ensures SizeSum(ns) == ArgSizes(args)
  {
    if |args| > 0 {
      var k := |args| - 1;
      assert Sized(args[..k]) by {
        forall i | 0 <= i < k && args[..k][i].Expr?
          ensures ValueOf(args[..k][i].node).ty != Undefined
        {
          assert args[..k][i] == args[i];
        }
      }
      SizesAgree(args[..k], ns[..k]);
      assert ns[k] == Single(args[k]);
    }
  }

  /** A concatenation with an operand of no size has no size. */
  lemma {:induction false} CatAllUndefined(ns: seq<Node>, i: int)
    requires 0 <= i < |ns| && ValueOf(ns[i]).ty == Undefined
    ensures ValueOf(CatAll(ns)).ty == Undefined
  {
    if |ns| > 1 && i < |ns| - 1 {
      var init := ns[..|ns| - 1];
      assert init[i] == ns[i];
      CatAllUndefined(init, i);
    }
  }

  /** An operand of the arithmetic and comparison methods: a `Glsl` or a number, never a boolean. */
  type NumArg = a: Arg | !a.Flag? witness Number("0")

  function Operand(a: NumArg): Node {
    Single(a)
  }

  function Unary(name: string, x: Node): Node { Call(name, [x], First) }

  /** `ceil` as written: the method is bound to the `floor` built-in. */
  function CeilAsWritten(x: Node): Node { Unary("floor", x) }

  /** `ceil` as its name promises: the GLSL `ceil` built-in. */
  function Ceil(x: Node): Node { Unary("ceil", x) }

  function Not(x: Node): Node { Unary("!", x) }

  function Add(a: Node, b: NumArg): Node { Call("+", [a, Operand(b)], Arith) }

  function Sub(a: Node, b: NumArg): Node { Call("-", [a, Operand(b)], Arith) }

  function Div(a: Node, b: NumArg): Node { Call("/", [a, Operand(b)], Arith) }

  function Mul(a: Node, b: NumArg): Node { Call("*", [a, Operand(b)], Product) }

  /** `round` is `add(0.5).floor()`. */
  function Round(x: Node): Node { Unary("floor", Add(x, Number("0.5"))) }

  /** The comparison operators made by `Glsl.bool`. */
  datatype Comparison = Lt | Gt | Lte | Gte | Eq | Neq

  function ComparisonName(c: Comparison): string {
    match c
    case Lt => "<"
    case Gt => ">"
    case Lte => "<="
    case Gte => ">="
    case Eq => "=="
    case Neq => "!="
  }

  function Compare(c: Comparison, a: Node, b: NumArg): Node {
    Call(ComparisonName(c), [a, Operand(b)], Fixed(Boolean))
  }

  function And(a: Node, b: Node): Node { Call("&&", [a, b], Fixed(Boolean)) }

  function Or(a: Node, b: Node): Node { Call("||", [a, b], Fixed(Boolean)) }

  /** `x.smoothstep(edge1, edge2)` passes the edges first. */
  function Smoothstep(x: Node, edge1: NumArg, edge2: NumArg): Node {
    Call("smoothstep", [Operand(edge1), Operand(edge2), x], First)
  }

  function Vec(k: nat, x: Node): Node { Call("vec" + NatToString(k), [x], Fixed(Vector(k))) }

  /** `x()`, `y()`, `z()`, `w()` and their `r`, `g`, `b`, `a` aliases. */
  function Component1(v: Node, i: int): Node { Take(v, [i]) }

  /** `cat` with a number right operand wraps it with `val` first. */
  function CatWith(a: Node, b: NumArg): Node { Cat(a, Operand(b)) }

  function BuiltIn(t: Type, name: string): Node { Literal(Value(t, name)) }

  // ---------------------------------------------------------------- rendering facts

  lemma OperatorNames()
    ensures IsOperator("+") && IsOperator("-") && IsOperator("*") && IsOperator("/")
    ensures IsOperator("<") && IsOperator(">") && IsOperator("<=") && IsOperator(">=")
    ensures IsOperator("==") && IsOperator("&&") && IsOperator("||") && IsOperator("!")
  {
    var s := Operators;
    assert OccursAt(s, "==", 0);
    assert OccursAt(s, "+", 2);
    assert OccursAt(s, "-", 3);
    assert OccursAt(s, "*", 4);
    assert OccursAt(s, "/", 5);
    assert OccursAt(s, "<", 6);
    assert OccursAt(s, ">", 7);
    assert OccursAt(s, "<=", 8);
    assert OccursAt(s, ">=", 10);
    assert OccursAt(s, "!", 12);
    assert OccursAt(s, "&&", 13);
    assert OccursAt(s, "||", 15);
  }

  /** `!=` is not a substring of the operator names, so `neq` renders as a prefix call. */
  lemma NotEqualIsNotOperator()
    ensures !IsOperator("!=")
  {
    var s := Operators;
    forall i | 0 <= i <= |s| - 2
      ensures !OccursAt(s, "!=", i)
    {
      assert s[i..i + 2][0] == s[i] && s[i..i + 2][1] == s[i + 1];
      assert i == 0 || i == 1 || i == 2 || i == 3 || i == 4 || i == 5 || i == 6 || i == 7
          || i == 8 || i == 9 || i == 10 || i == 11 || i == 12 || i == 13 || i == 14 || i == 15;
    }
  }

  /** Two-argument operator calls render infix, each operand in its own parentheses. */
  lemma {:induction false} BinaryOperatorContent(name: string, a: Node, b: Node, rule: TypeRule)
    requires IsOperator(name)
    ensures ValueOf(Call(name, [a, b], rule)).content
            == "((" + ValueOf(a).content + ") " + name + " (" + ValueOf(b).content + "))"
  {
    ValuesOfAt([a, b], 0);
    ValuesOfAt([a, b], 1);
  }

  lemma {:induction false} AddContent(a: Node, b: NumArg)
    ensures ValueOf(Add(a, b)).content
            == "((" + ValueOf(a).content + ") + (" + ValueOf(Operand(b)).content + "))"
    ensures ValueOf(Add(a, b)).ty == ArithType(ValueOf(a).ty, ValueOf(Operand(b)).ty)
  {
    OperatorNames();
    BinaryOperatorContent("+", a, Operand(b), Arith);
    ValuesOfAt([a, Operand(b)], 0);
    ValuesOfAt([a, Operand(b)], 1);
  }

  lemma {:induction false} MulRule(a: Node, b: NumArg)
    ensures ValueOf(Mul(a, b)).ty == MulType(ValueOf(a).ty, ValueOf(Operand(b)).ty)
    ensures ValueOf(Mul(a, b)).content
            == "((" + ValueOf(a).content + ") * (" + ValueOf(Operand(b)).content + "))"
  {
    OperatorNames();
    BinaryOperatorContent("*", a, Operand(b), Product);
    ValuesOfAt([a, Operand(b)], 0);
    ValuesOfAt([a, Operand(b)], 1);
  }

  /**
   * `neq` names `!=`, which the substring test does not recognise, so its
   * content is a function-call form `!=(a, b)` rather than an infix comparison.
   */
  lemma {:induction false} NotEqualContent(a: Node, b: NumArg)
    ensures ValueOf(Compare(Neq, a, b))
            == Value(Boolean, "!=" + "(" + ValueOf(a).content + ", " + ValueOf(Operand(b)).content + ")")
  {
    NotEqualIsNotOperator();
    assert ComparisonName(Neq) == "!=";
    PrefixPair("!=", a, Operand(b), Boolean);
  }

  lemma {:induction false} SubContent(a: Node, b: NumArg)
    ensures ValueOf(Sub(a, b))
            == Value(ArithType(ValueOf(a).ty, ValueOf(Operand(b)).ty),
                     "((" + ValueOf(a).content + ") " + "-" + " (" + ValueOf(Operand(b)).content + "))")
  {
    OperatorNames();
    InfixPair("-", a, Operand(b), Arith);
  }

  lemma {:induction false} DivContent(a: Node, b: NumArg)
    ensures ValueOf(Div(a, b))
            == Value(ArithType(ValueOf(a).ty, ValueOf(Operand(b)).ty),
                     "((" + ValueOf(a).content + ") " + "/" + " (" + ValueOf(Operand(b)).content + "))")
  {
    OperatorNames();
    InfixPair("/", a, Operand(b), Arith);
  }

  /** `lt`, `gt`, `lte`, `gte` and `eq` render infix and are `bool`; `neq` is the prefix form of `NotEqualContent`. */
  lemma {:induction false} CompareContent(c: Comparison, a: Node, b: NumArg)
    ensures c != Neq ==>
              ValueOf(Compare(c, a, b))
              == Value(Boolean, "((" + ValueOf(a).content + ") " + ComparisonName(c) + " (" + ValueOf(Operand(b)).content + "))")
    ensures ValueOf(Compare(c, a, b)).ty == Boolean
  {
    OperatorNames();
    if c != Neq {
      InfixPair(ComparisonName(c), a, Operand(b), Fixed(Boolean));
    } else {
      NotEqualContent(a, b);
    }
  }

  /** `and` renders infix and is `bool`. */
  lemma {:induction false} AndContent(a: Node, b: Node)
    ensures ValueOf(And(a, b)) == Value(Boolean, "((" + ValueOf(a).content + ") " + "&&" + " (" + ValueOf(b).content + "))")
  {
    OperatorNames();
    assert And(a, b) == Call("&&", [a, b], Fixed(Boolean));
    InfixPair("&&", a, b, Fixed(Boolean));
  }

  /** `or` renders infix and is `bool`. */
  lemma {:induction false} OrContent(a: Node, b: Node)
    ensures ValueOf(Or(a, b)) == Value(Boolean, "((" + ValueOf(a).content + ") " + "||" + " (" + ValueOf(b).content + "))")
  {
    OperatorNames();
    assert Or(a, b) == Call("||", [a, b], Fixed(Boolean));
    InfixPair("||", a, b, Fixed(Boolean));
  }

  /** A two-argument call whose name is an operator renders as `((a) name (b))`, with the rule's type. */
  lemma {:induction false} InfixPair(name: string, a: Node, b: Node, rule: TypeRule)
    requires IsOperator(name)
    ensures ValueOf(Call(name, [a, b], rule))
            == Value(ResultType(rule, [ValueOf(a).ty, ValueOf(b).ty]),
                     "((" + ValueOf(a).content + ") " + name + " (" + ValueOf(b).content + "))")
  {
    TwoValues(a, b);
    InfixPairValues(name, ValuesOf([a, b]), rule);
  }

  lemma TwoValues(a: Node, b: Node)
    ensures ValuesOf([a, b]) == [ValueOf(a), ValueOf(b)]
  {
    ValuesOfAt([a, b], 0);
    ValuesOfAt([a, b], 1);
  }

  lemma InfixPairValues(name: string, vs: seq<Value>, rule: TypeRule)
    requires IsOperator(name) && |vs| == 2
    ensures Value(ResultType(rule, Types(vs)), CallContent(name, Contents(vs)))
            == Value(ResultType(rule, [vs[0].ty, vs[1].ty]), "((" + vs[0].content + ") " + name + " (" + vs[1].content + "))")
  {
    assert Types(vs) == [vs[0].ty, vs[1].ty];
  }

  /** `not` is the prefix call `!(x)`, keeping the operand's type. */
  lemma NotContent(x: Node)
    ensures ValueOf(Not(x)) == Value(ValueOf(x).ty, "!(" + ValueOf(x).content + ")")
  {
    UnaryContent("!", x);
  }

  /** `x.smoothstep(e1, e2)` renders `smoothstep(e1, e2, x)` and takes the type of its first argument, `e1`. */
  lemma {:induction false} SmoothstepContent(x: Node, edge1: NumArg, edge2: NumArg)
    ensures var e1, e2 := ValueOf(Operand(edge1)), ValueOf(Operand(edge2));
            ValueOf(Smoothstep(x, edge1, edge2))
            == Value(e1.ty, "smoothstep" + "(" + e1.content + ", " + e2.content + ", " + ValueOf(x).content + ")")
  {
    var p, q := Operand(edge1), Operand(edge2);
    assert Smoothstep(x, edge1, edge2) == Call("smoothstep", [p, q, x], First);
    FirstOfThree("smoothstep", p, q, x);
  }

  /** A three-argument call typed by its first argument renders as `name(a, b, c)`. */
  lemma {:induction false} FirstOfThree(name: string, a: Node, b: Node, c: Node)
    ensures ValueOf(Call(name, [a, b, c], First))
            == Value(ValueOf(a).ty, name + "(" + ValueOf(a).content + ", " + ValueOf(b).content + ", " + ValueOf(c).content + ")")
  {
    ThreeValues(a, b, c);
    FirstOfThreeValues(name, ValuesOf([a, b, c]));
  }

  lemma FirstOfThreeValues(name: string, vs: seq<Value>)
    requires |vs| == 3
    ensures Value(ResultType(First, Types(vs)), CallContent(name, Contents(vs)))
            == Value(vs[0].ty, name + "(" + vs[0].content + ", " + vs[1].content + ", " + vs[2].content + ")")
  {
    assert Contents(vs) == [vs[0].content, vs[1].content, vs[2].content];
    JoinThree(vs[0].content, vs[1].content, vs[2].content);
  }

  lemma ThreeValues(a: Node, b: Node, c: Node)
    ensures ValuesOf([a, b, c]) == [ValueOf(a), ValueOf(b), ValueOf(c)]
  {
    ValuesOfAt([a, b, c], 0);
    ValuesOfAt([a, b, c], 1);
    ValuesOfAt([a, b, c], 2);
  }

  lemma JoinThree(p: string, q: string, r: string)
    ensures Join([p, q, r]) == p + ", " + q + ", " + r
  {
    assert [p, q, r][..2] == [p, q];
    assert [p, q][..1] == [p];
  }

  /** `vec2()`, `vec3()` and `vec4()` of a scalar: a vector of that size rendering `vecN(x)`. */
  lemma {:induction false} VecContent(k: nat, x: Node)
    requires 2 <= k <= 4
    ensures var v := ValueOf(Vec(k, x));
            IsVector(v.ty) && Size(v.ty) == k && v.ty == Vector(k) &&
            v.content == "vec" + [Digit(k)] + "(" + ValueOf(x).content + ")"
  {
    ValuesOfAt([x], 0);
    assert Contents(ValuesOf([x])) == [ValueOf(x).content];
    assert NatToString(k) == [Digit(k)];
  }

  /**
   * `take(i1, ..., ik)` with one to four indexes into a vector: a scalar for
   * one index, a vector of `k` components otherwise, rendering `(v).` and
   * one letter of `xyzw` per index.
   */
  lemma TakeContent(v: Node, indexes: seq<int>)
    requires 1 <= |indexes| <= 4
    requires forall j :: 0 <= j < |indexes| ==> 0 <= indexes[j] < 4
    ensures var r := ValueOf(Take(v, indexes));
            var c := ValueOf(v).content;
            var k := |indexes|;
            r.ty != Undefined && Size(r.ty) == k && (k == 1 <==> r.ty == Scalar) &&
            |r.content| == |c| + 3 + k && r.content[..|c| + 3] == "(" + c + ")." &&
            forall j :: 0 <= j < k ==> r.content[|c| + 3 + j] == "xyzw"[indexes[j]]
  {
    var c := ValueOf(v).content;
    SwizzleLetters(indexes);
    var r := ValueOf(Take(v, indexes));
    assert r.content == ("(" + c + ").") + Swizzle(indexes);
  }

  lemma {:induction false} SwizzleLetters(indexes: seq<int>)
    requires forall j :: 0 <= j < |indexes| ==> 0 <= indexes[j] < 4
    ensures |Swizzle(indexes)| == |indexes|
    ensures forall j :: 0 <= j < |indexes| ==> Swizzle(indexes)[j] == "xyzw"[indexes[j]]
  {
    if |indexes| > 0 {
      var n := |indexes| - 1;
      SwizzleLetters(indexes[..n]);
      assert Component(indexes[n]) == ["xyzw"[indexes[n]]];
    }
  }

  /** `x()`, `y()`, `z()`, `w()` (and `r()` … `a()`): component `i` of a vector, a scalar rendering `(v).x` and so on. */
  lemma Component1Content(v: Node, i: int)
    requires 0 <= i < 4
    ensures ValueOf(Component1(v, i)) == Value(Scalar, "(" + ValueOf(v).content + ")." + ["xyzw"[i]])
  {
    assert Swizzle([i]) == Component(i) by {
      assert [i][..0] == [];
    }
  }

  /**
   * `cat` with a number: the number is wrapped by `val` first, so it joins as
   * a float literal of size one; with a `Glsl` it is the plain concatenation.
   */
  lemma CatWithContent(a: Node, b: NumArg)
    ensures b.Expr? ==> CatWith(a, b) == Cat(a, b.node)
    ensures b.Number? ==>
              var t := CatType(ValueOf(a).ty, Scalar);
              ValueOf(CatWith(a, b)) == Value(t, Name(t) + "(" + ValueOf(a).content + ", " + Numeral(b.text) + ")")
    ensures b.Number? && ValueOf(a).ty != Undefined && Size(ValueOf(a).ty) <= 3 ==>
              IsVector(ValueOf(CatWith(a, b)).ty) && Size(ValueOf(CatWith(a, b)).ty) == Size(ValueOf(a).ty) + 1
  {
  }

  /** A two-argument call whose name is no operator renders as `name(a, b)`. */
  lemma {:induction false} PrefixPair(name: string, a: Node, b: Node, t: Type)
    requires !IsOperator(name)
    ensures ValueOf(Call(name, [a, b], Fixed(t))) == Value(t, name + "(" + ValueOf(a).content + ", " + ValueOf(b).content + ")")
  {
    ValuesOfAt([a, b], 0);
    ValuesOfAt([a, b], 1);
    assert Contents(ValuesOf([a, b])) == [ValueOf(a).content, ValueOf(b).content];
  }

  /** A one-argument call is a prefix call, even for an operator name such as `!`. */
  lemma {:induction false} UnaryContent(name: string, x: Node)
    ensures ValueOf(Unary(name, x)) == Value(ValueOf(x).ty, name + "(" + ValueOf(x).content + ")")
  {
    ValuesOfAt([x], 0);
    assert Contents(ValuesOf([x])) == [ValueOf(x).content];
  }

  /** `ceil` as written renders `floor`, never `ceil`. */
  lemma CeilRendersFloor(x: Node)
    ensures ValueOf(CeilAsWritten(x)) == Value(ValueOf(x).ty, "floor(" + ValueOf(x).content + ")")
    ensures ValueOf(CeilAsWritten(x)).content != "ceil(" + ValueOf(x).content + ")"
  {
    UnaryContent("floor", x);
    assert ValueOf(CeilAsWritten(x)).content[1] == 'l';
  }

  /** The corrected `ceil` keeps its operand's type and renders the `ceil` built-in around it. */
  lemma CeilRendersCeil(x: Node)
    ensures ValueOf(Ceil(x)) == Value(ValueOf(x).ty, "ceil(" + ValueOf(x).content + ")")
  {
    UnaryContent("ceil", x);
  }

  /** `round(x)` is `floor` of `x + 0.5`, with the number written `0.5`. */
  lemma RoundContent(x: Node)
    ensures ValueOf(Round(x)) == Value(ArithType(ValueOf(x).ty, Scalar), "floor(" + ValueOf(Add(x, Number("0.5"))).content + ")")
    ensures ValueOf(Add(x, Number("0.5"))).content
            == "((" + ValueOf(x).content + ") + (" + ValueOf(Operand(Number("0.5"))).content + "))"
    ensures ValueOf(Operand(Number("0.5"))) == Value(Scalar, "0.5")
  {
    RoundIsFloorOfSum(x);
    AddContent(x, Number("0.5"));
    HalfLiteral();
  }

  lemma RoundIsFloorOfSum(x: Node)
    ensures var sum := ValueOf(Add(x, Number("0.5")));
            ValueOf(Round(x)) == Value(sum.ty, "floor(" + sum.content + ")")
  {
    UnaryContent("floor", Add(x, Number("0.5")));
  }

  /** The literal `0.5` already has a decimal point, so `val` keeps its text. */
  lemma HalfLiteral()
    ensures ValueOf(Operand(Number("0.5"))) == Value(Scalar, "0.5")
  {
    assert "0.5"[1] == '.';
    assert Numeral("0.5") == "0.5";
  }

  /**
   * A value built by `val` from operands whose types have sizes adds those
   * sizes: a scalar or vector type while the total is at most four,
   * `undefined` beyond, since no check rejects it.
   */
  lemma {:induction false} CatAllType(ns: seq<Node>)
    requires |ns| >= 2
    requires forall i :: 0 <= i < |ns| ==> ValueOf(ns[i]).ty != Undefined
    ensures var total := SizeSum(ns);
            ValueOf(CatAll(ns)).ty == (if total <= 4 then Numeric(total) else Undefined)
  {
    var init, last := ns[..|ns| - 1], ns[|ns| - 1];
    assert forall i :: 0 <= i < |init| ==> init[i] == ns[i];
    var tl := ValueOf(last).ty;
    assert CatAll(ns) == Cat(CatAll(init), last);
    assert SizeSum(ns) == SizeSum(init) + Size(tl);
    if |ns| == 2 {
      assert init == [ns[0]] && CatAll(init) == ns[0];
      assert SizeSum(init) == Size(ValueOf(ns[0]).ty) by {
        assert init[..0] == [];
      }
    } else {
      CatAllType(init);
      var t := ValueOf(CatAll(init)).ty;
      if SizeSum(init) <= 4 {
        assert t != Undefined && Size(t) == SizeSum(init);
      } else {
        assert t == Undefined;
      }
    }
  }

  function SizeSum(ns: seq<Node>): (r: int)
    requires forall i :: 0 <= i < |ns| ==> ValueOf(ns[i]).ty != Undefined
    ensures r >= |ns|
  {
    if |ns| == 0 then 0 else SizeSum(ns[..|ns| - 1]) + Size(ValueOf(ns[|ns| - 1]).ty)
  }

  /** `val(1, 2)` is `vec2(1.0, 2.0)`. */
  lemma ValOfTwoNumbers()
    ensures ValueOf(Val([Number("1"), Number("2")])) == Value(Vector2, "vec2(1.0, 2.0)")
  {
    var one, two := Single(Number("1")), Single(Number("2"));
    ValTwoShape(one, two);
    SmallNumerals();
    CatValue(one, two, Value(Scalar, "1.0"), Value(Scalar, "2.0"), Vector2);
    PairText();
  }

  lemma ValTwoShape(one: Node, two: Node)
    requires one == Single(Number("1")) && two == Single(Number("2"))
    ensures Val([Number("1"), Number("2")]) == Cat(one, two)
  {
    var args := [Number("1"), Number("2")];
    assert args[0].Number?;
    ValSeveral(args, [one, two]);
    CatAllTwo(one, two);
  }

  /** With several arguments, `val` concatenates their wrapped forms. */
  lemma ValSeveral(args: seq<Arg>, ns: seq<Node>)
    requires ValAccepts(args) && |args| >= 2
    requires |ns| == |args| && forall i :: 0 <= i < |args| ==> ns[i] == Single(args[i])
    ensures Val(args) == CatAll(ns)
  {
    assert Singles(args) == ns;
  }

  /**
   * `val(a1, ..., an)` for n >= 2 in full: the `cat` of the fold of the first
   * n - 1 wrapped arguments with the last wrapped argument, so its text is
   * `<type>(<fold>, <last>)` and its type that of their concatenation.
   */
  lemma ValContent(args: seq<Arg>)
    requires ValAccepts(args) && |args| >= 2
    ensures var n := |args|;
            var rest, last := ValueOf(CatAll(Singles(args[..n - 1]))), ValueOf(Single(args[n - 1]));
            var t := CatType(rest.ty, last.ty);
            ValueOf(Val(args)) == Value(t, Name(t) + "(" + rest.content + ", " + last.content + ")")
  {
    ValSeveral(args, Singles(args));
    FoldContent(args);
  }

  /** The fold of the wrapped arguments, split at the last one. */
  lemma FoldContent(args: seq<Arg>)
    requires |args| >= 2
    ensures var n := |args|;
            var rest, last := ValueOf(CatAll(Singles(args[..n - 1]))), ValueOf(Single(args[n - 1]));
            var t := CatType(rest.ty, last.ty);
            ValueOf(CatAll(Singles(args))) == Value(t, Name(t) + "(" + rest.content + ", " + last.content + ")")
  {
    SinglesSplit(args);
    CatAllSplit(Singles(args[..|args| - 1]), Single(args[|args| - 1]));
  }

  lemma SinglesSplit(args: seq<Arg>)
    requires |args| >= 1
    ensures Singles(args) == Singles(args[..|args| - 1]) + [Single(args[|args| - 1])]
  {
  }

  /** A fold of two or more nodes is the `cat` of the fold of all but the last with the last. */
  lemma CatAllSplit(init: seq<Node>, last: Node)
    requires |init| >= 1
    ensures var a, b := ValueOf(CatAll(init)), ValueOf(last);
            var t := CatType(a.ty, b.ty);
            ValueOf(CatAll(init + [last])) == Value(t, Name(t) + "(" + a.content + ", " + b.content + ")")
  {
    var ns := init + [last];
    assert ns[..|ns| - 1] == init;
    assert CatAll(ns) == Cat(CatAll(init), last);
    CatValue(CatAll(init), last, ValueOf(CatAll(init)), ValueOf(last), CatType(ValueOf(CatAll(init)).ty, ValueOf(last).ty));
  }

  lemma CatAllTwo(one: Node, two: Node)
    ensures CatAll([one, two]) == Cat(one, two)
  {
    assert [one, two][..1] == [one];
  }

  lemma CatAllThree(one: Node, two: Node, three: Node)
    ensures CatAll([one, two, three]) == Cat(Cat(one, two), three)
  {
    assert [one, two, three][..2] == [one, two];
    CatAllTwo(one, two);
  }

  lemma ValThreeShape(one: Node, two: Node, three: Node)
    requires one == Single(Number("1")) && two == Single(Number("2")) && three == Single(Number("3"))
    ensures Val([Number("1"), Number("2"), Number("3")]) == Cat(Cat(one, two), three)
  {
    var args := [Number("1"), Number("2"), Number("3")];
    assert args[0].Number?;
    ValSeveral(args, [one, two, three]);
    CatAllThree(one, two, three);
  }

  /** `val(1, 2, 3)` nests the concatenations from the left: `vec3(vec2(1.0, 2.0), 3.0)`. */
  lemma ValOfThreeNumbers()
    ensures ValueOf(Val([Number("1"), Number("2"), Number("3")])) == Value(Vector3, "vec3(vec2(1.0, 2.0), 3.0)")
  {
    var one, two, three := Single(Number("1")), Single(Number("2")), Single(Number("3"));
    ValThreeShape(one, two, three);
    SmallNumerals();
    CatValue(one, two, Value(Scalar, "1.0"), Value(Scalar, "2.0"), Vector2);
    PairText();
    CatValue(Cat(one, two), three, Value(Vector2, "vec2(1.0, 2.0)"), Value(Scalar, "3.0"), Vector3);
    TripleText();
  }

  lemma CatValue(a: Node, b: Node, va: Value, vb: Value, t: Type)
    requires ValueOf(a) == va && ValueOf(b) == vb && CatType(va.ty, vb.ty) == t
    ensures ValueOf(Cat(a, b)) == Value(t, Name(t) + "(" + va.content + ", " + vb.content + ")")
  {
  }

  lemma SmallNumerals()
    ensures ValueOf(Single(Number("1"))) == Value(Scalar, "1.0")
    ensures ValueOf(Single(Number("2"))) == Value(Scalar, "2.0")
    ensures ValueOf(Single(Number("3"))) == Value(Scalar, "3.0")
  {
    assert Numeral("1") == "1.0";
    assert Numeral("2") == "2.0";
    assert Numeral("3") == "3.0";
  }

  lemma PairText()
    ensures CatType(Scalar, Scalar) == Vector2
    ensures Name(Vector2) + "(" + "1.0" + ", " + "2.0" + ")" == "vec2(1.0, 2.0)"
  {
  }

  lemma TripleText()
    ensures CatType(Vector2, Scalar) == Vector3
    ensures Name(Vector3) + "(" + "vec2(1.0, 2.0)" + ", " + "3.0" + ")" == "vec3(vec2(1.0, 2.0), 3.0)"
  {
  }

  // ---------------------------------------------------------------- running against a builder

  lemma ValuesOfSnoc(ns: seq<Node>, i: nat)
    requires i < |ns|
    ensures ValuesOf(ns[..i + 1]) == ValuesOf(ns[..i]) + [ValueOf(ns[i])]
  {
    assert ns[..i + 1][..i] == ns[..i];
  }

  lemma EmitAllSnoc(ns: seq<Node>, i: nat, keys: set<string>)
    requires i < |ns|
    ensures var e := EmitAll(ns[..i], keys);
            EmitAll(ns[..i + 1], keys) == Seq(e, Emit(ns[i], e.keys))
  {
    assert ns[..i + 1][..i] == ns[..i];
  }

  lemma SeqText(g0: string, l0: string, e1: Effect, e2: Effect)
    ensures g0 + e1.global + e2.global == g0 + Seq(e1, e2).global
    ensures l0 + e1.local + e2.local == l0 + Seq(e1, e2).local
  {
  }

  lemma EmptyConcat(x: string)
    ensures "" + x == x
  {
  }

  lemma EmptySuffix(x: string)
    ensures x + "" == x
  {
  }

  lemma Assoc(a: string, x: string, y: string)
    ensures a + x + y == a + (x + y)
  {
  }

  lemma Assoc3(a: string, x: string, y: string, z: string)
    ensures a + x + y + z == a + (x + y + z)
  {
  }

  /** The effect `Emit` describes has taken place on a builder. */
  ghost predicate Emitted(b: GlslBuilder, g0: string, l0: string, e: Effect)
    reads b, b.cache
  {
    b.global == g0 + e.global && b.local == l0 + e.local && b.cache.keys == e.keys
  }

  /**
   * `n.getValue(builder)`: returns the node's value and appends to the
   * builder and its shared cache exactly what `Emit` describes.
   */
  method GetValue(n: Node, b: GlslBuilder) returns (v: Value)
    modifies b, b.cache
    ensures v == ValueOf(n)
    ensures Emitted(b, old(b.global), old(b.local), Emit(n, old(b.cache.keys)))
    decreases n, 3
  {
    match n
    case Literal(value) =>
      v := value;
    case Input(storage, name, t, precision) =>
      if !b.cache.Has(InputKey(name)) {
        b.AddGlobal(InputDeclaration(storage, precision, t, name));
        b.cache.Remember(InputKey(name));
      }
      v := Value(t, name);
    case Call(name, args, rule) =>
      v := GetCallValue(name, args, rule, b);
    case Take(vector, indexes) =>
      var x := GetValue(vector, b);
      v := Value(if |indexes| == 1 then Scalar else Vector(|indexes|), "(" + x.content + ")." + Swizzle(indexes));
    case Cat(left, right) =>
      var x := GetValue(left, b);
      ghost var e := Emit(left, old(b.cache.keys));
      var y := GetValue(right, b);
      SeqText(old(b.global), old(b.local), e, Emit(right, e.keys));
      var rt := CatType(x.ty, y.ty);
      v := Value(rt, Name(rt) + "(" + x.content + ", " + y.content + ")");
    case Mem(id, precision, inner) =>
      var x := GetValue(inner, b);
      if !b.cache.Has(MemKey(id)) {
        Assoc(old(b.local), Emit(inner, old(b.cache.keys)).local, MemLine(precision, x, MemKey(id)));
        b.AddLocal(MemLine(precision, x, MemKey(id)));
        b.cache.Remember(MemKey(id));
      }
      v := Value(x.ty, MemKey(id));
    case Cond(id, precision, condition, whenTrue, whenFalse) =>
      v := GetCondValue(id, precision, condition, whenTrue, whenFalse, b);
  }

  /** Runs nodes against the builder left to right, as `Glsl.call` does with its arguments. */
  method GetValues(ns: seq<Node>, b: GlslBuilder) returns (values: seq<Value>)
    modifies b, b.cache
    ensures values == ValuesOf(ns)
    ensures Emitted(b, old(b.global), old(b.local), EmitAll(ns, old(b.cache.keys)))
    decreases ns, 1
  {
    values := [];
    var i := 0;
    while i < |ns|
      invariant 0 <= i <= |ns|
      invariant values == ValuesOf(ns[..i])
      invariant Emitted(b, old(b.global), old(b.local), EmitAll(ns[..i], old(b.cache.keys)))
    {
      ghost var e := EmitAll(ns[..i], old(b.cache.keys));
      var x := GetValue(ns[i], b);
      ValuesOfSnoc(ns, i);
      EmitAllSnoc(ns, i, old(b.cache.keys));
      SeqText(old(b.global), old(b.local), e, Emit(ns[i], e.keys));
      values := values + [x];
      i := i + 1;
    }
    assert ns[..|ns|] == ns;
  }

  /** `Glsl.call`: the arguments' values combined by the call's name and type rule. */
  method GetCallValue(name: string, args: seq<Node>, rule: TypeRule, b: GlslBuilder) returns (v: Value)
    modifies b, b.cache
    ensures v == ValueOf(Call(name, args, rule))
    ensures Emitted(b, old(b.global), old(b.local), EmitAll(args, old(b.cache.keys)))
    decreases Call(name, args, rule), 0
  {
    var values := GetValues(args, b);
    v := Value(ResultType(rule, Types(values)), CallContent(name, Contents(values)));
  }

  /** Runs one branch of a conditional against a fresh child of `b`. */
  method RunBranch(n: Node, b: GlslBuilder) returns (child: GlslBuilder, v: Value)
    modifies b.cache
    ensures fresh(child) && child.cache == b.cache
    ensures v == ValueOf(n)
    ensures var e := Emit(n, old(b.cache.keys));
            child.global == e.global && child.local == e.local && b.cache.keys == e.keys
    decreases n, 4
  {
    child := b.Child();
    v := GetValue(n, child);
    EmptyConcat(Emit(n, old(b.cache.keys)).global);
    EmptyConcat(Emit(n, old(b.cache.keys)).local);
  }

  /**
   * The three evaluations of a conditional's first run: the true branch and
   * then the false branch against child builders, then the condition
   * against the builder itself.
   */
  method RunCondParts(id: nat, precision: Precision, condition: Node, whenTrue: Node, whenFalse: Node, b: GlslBuilder)
    returns (trueBuilder: GlslBuilder, t: Value, falseBuilder: GlslBuilder, f: Value, c: Value)
    modifies b, b.cache
    ensures fresh(trueBuilder) && fresh(falseBuilder)
    ensures t == ValueOf(whenTrue) && f == ValueOf(whenFalse) && c == ValueOf(condition)
    ensures var et := Emit(whenTrue, old(b.cache.keys));
            var ef := Emit(whenFalse, et.keys);
            var ec := Emit(condition, ef.keys);
            trueBuilder.global == et.global && trueBuilder.local == et.local
            && falseBuilder.global == ef.global && falseBuilder.local == ef.local
            && Emitted(b, old(b.global), old(b.local), ec)
    decreases Cond(id, precision, condition, whenTrue, whenFalse), 0
  {
    ghost var parent := Cond(id, precision, condition, whenTrue, whenFalse);
    assert whenTrue < parent && whenFalse < parent && condition < parent;
    trueBuilder, t := RunBranch(whenTrue, b);
    falseBuilder, f := RunBranch(whenFalse, b);
    c := GetValue(condition, b);
  }

  /** Splices the branches' text and the if/else block into the builder and remembers the key. */
  method Splice(key: string, precision: Precision, c: Value, t: Value, trueBuilder: GlslBuilder,
                f: Value, falseBuilder: GlslBuilder, b: GlslBuilder)
    requires trueBuilder != b && falseBuilder != b
    modifies b, b.cache
    ensures b.global == old(b.global) + trueBuilder.global + falseBuilder.global
    ensures b.local == old(b.local) + CondBlock(precision, key, c, t, trueBuilder.local, f, falseBuilder.local)
    ensures b.cache.keys == old(b.cache.keys) + {key}
  {
    var block := CondBlock(precision, key, c, t, trueBuilder.local, f, falseBuilder.local);
    b.AddGlobal(trueBuilder.global);
    b.AddGlobal(falseBuilder.global);
    b.AddLocal(block);
    b.cache.Remember(key);
  }

  /**
   * `cond`: on the first run against a cache, the branches run against child
   * builders, the condition against the builder itself, and the branch text
   * is spliced into one if/else block.
   */
  method GetCondValue(id: nat, precision: Precision, condition: Node, whenTrue: Node, whenFalse: Node,
                      b: GlslBuilder) returns (v: Value)
    modifies b, b.cache
    ensures v == Value(ValueOf(whenTrue).ty, CondKey(id))
    ensures CondKey(id) in old(b.cache.keys) ==> Emitted(b, old(b.global), old(b.local), Nothing(old(b.cache.keys)))
    ensures CondKey(id) !in old(b.cache.keys) ==>
              Emitted(b, old(b.global), old(b.local), FirstCondEffect(id, precision, condition, whenTrue, whenFalse, old(b.cache.keys)))
    decreases Cond(id, precision, condition, whenTrue, whenFalse), 2
  {
    if !b.cache.Has(CondKey(id)) {
      FirstCond(id, precision, condition, whenTrue, whenFalse, b);
    } else {
      EmptySuffix(b.global);
      EmptySuffix(b.local);
    }
    // the source keeps the true branch's type in the closure from the first run
    v := Value(ValueOf(whenTrue).ty, CondKey(id));
  }

  /** A conditional's first run against a cache: the effect `FirstCondEffect` describes. */
  method FirstCond(id: nat, precision: Precision, condition: Node, whenTrue: Node, whenFalse: Node, b: GlslBuilder)
    modifies b, b.cache
    ensures Emitted(b, old(b.global), old(b.local), FirstCondEffect(id, precision, condition, whenTrue, whenFalse, old(b.cache.keys)))
    decreases Cond(id, precision, condition, whenTrue, whenFalse), 1
  {
    ghost var et := Emit(whenTrue, old(b.cache.keys));
    ghost var ef := Emit(whenFalse, et.keys);
    ghost var ec := Emit(condition, ef.keys);
    var trueBuilder, t, falseBuilder, f, c := RunCondParts(id, precision, condition, whenTrue, whenFalse, b);
    Splice(CondKey(id), precision, c, t, trueBuilder, f, falseBuilder, b);
    SpliceIsCondEffect(old(b.global), old(b.local), b.global, b.local, b.cache.keys,
                       CondKey(id), precision, c, t, f, et, ef, ec);
  }

  /** Text appended piece by piece after the condition's own text is the text `CondEffect` appends. */
  lemma SpliceIsCondEffect(g0: string, l0: string, g: string, l: string, keys: set<string>,
                           key: string, precision: Precision, vc: Value, vt: Value, vf: Value,
                           et: Effect, ef: Effect, ec: Effect)
    requires g == g0 + ec.global + et.global + ef.global
    requires l == l0 + ec.local + CondBlock(precision, key, vc, vt, et.local, vf, ef.local)
    requires keys == ec.keys + {key}
    ensures var e := CondEffect(key, precision, vc, vt, vf, et, ef, ec);
            g == g0 + e.global && l == l0 + e.local && keys == e.keys
  {
    Assoc3(g0, ec.global, et.global, ef.global);
    Assoc(l0, ec.local, CondBlock(precision, key, vc, vt, et.local, vf, ef.local));
  }

  /** The process-wide `id()` counter that names memoized values and conditionals. */
  class IdSequence {
    var next: nat

    constructor ()
      ensures next == 0
    {
      next := 0;
    }

    /** `id()`: the current value, then one more. */
    method Id() returns (id: nat)
      modifies this
      ensures id == old(next) && next == old(next) + 1
    {
      id := next;
      next := next + 1;
    }

    /** `inner.mem(precision)`: the name is fixed when the node is built. */
    method MakeMem(inner: Node, precision: Precision) returns (m: Node)
      modifies this
      ensures m == Mem(old(next), precision, inner) && next == old(next) + 1
      ensures ValueOf(m) == Value(ValueOf(inner).ty, MemKey(old(next)))
    {
      var id := Id();
      m := Mem(id, precision, inner);
    }

    /** `condition.cond(precision, whenTrue, whenFalse)`. */
    method MakeCond(condition: Node, precision: Precision, whenTrue: Node, whenFalse: Node) returns (c: Node)
      modifies this
      ensures c == Cond(old(next), precision, condition, whenTrue, whenFalse) && next == old(next) + 1
      ensures ValueOf(c) == Value(ValueOf(whenTrue).ty, CondKey(old(next)))
    {
      var id := Id();
      c := Cond(id, precision, condition, whenTrue, whenFalse);
    }
  }
}
