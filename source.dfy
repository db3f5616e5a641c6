/**
 * `source()` (src/dsl.ts:1023-1098): the vertex and fragment shader texts
 * assembled from a program description.
 *
 * The description's `vertex` and `fragment` callbacks are user code that
 * builds DSL nodes from its inputs; building a memoized value or a
 * conditional draws a name from the process-wide id counter, so each
 * callback is modelled as a function of its inputs and of the counter's
 * value, returning its outputs and the counter's new value.
 */
module Sources {
  import opened Wrappers
  import opened GlslType
  import opened GlslBuild
  import opened Glsl
  import opened TypeMaps
  import opened Objects

  /** An object of DSL values, keys in order. */
  type Inputs = seq<(string, Node)>

  function InputName(p: (string, Node)): string { p.0 }

  function FieldName(f: Field): string { f.name }

  /** `SourceConfig`: absent `instances` and `varyings` are empty objects. */
  datatype Config = Config(
    uniforms: seq<Field>,
    attributes: seq<Field>,
    instances: seq<Field>,
    varyings: seq<Field>,
    vertex: (Inputs, nat) -> (Inputs, nat),     // outputs, `gl_Position` among them
    fragment: (Inputs, nat) -> (Node, nat))     // the `gl_FragColor` output

  /** `ProgramSource`: the two texts and the precision-stripped type maps. */
  datatype ProgramSource = ProgramSource(
    vertex: string,
    fragment: string,
    uniforms: seq<(string, Member)>,
    attributes: seq<(string, Member)>,
    instances: seq<(string, Member)>)

  /**
   * The variables every fragment shader reads besides its uniforms and
   * varyings, as written: `gl_PointCoord` is given the content of
   * `gl_FragCoord`.
   */
  const FragmentBuiltInsAsWritten: Inputs := [
    ("gl_FragCoord", Literal(Value(Vector4, "gl_FragCoord"))),
    ("gl_PointCoord", Literal(Value(Vector2, "gl_FragCoord"))),
    ("gl_FrontFacing", Literal(Value(Boolean, "gl_FrontFacing")))]

  /** The built-in variables with `gl_PointCoord` reading the point coordinate, as its type and name intend. */
  const FragmentBuiltIns: Inputs := [
    ("gl_FragCoord", Literal(Value(Vector4, "gl_FragCoord"))),
    ("gl_PointCoord", Literal(Value(Vector2, "gl_PointCoord"))),
    ("gl_FrontFacing", Literal(Value(Boolean, "gl_FrontFacing")))]

  /** Each built-in renders its own name, except `gl_PointCoord` as written, which renders a four-component variable under a two-component type. */
  lemma BuiltInsRenderTheirNames()
    ensures forall i :: 0 <= i < 3 ==> ValueOf(FragmentBuiltIns[i].1).content == FragmentBuiltIns[i].0
    ensures FragmentBuiltInsAsWritten[1].0 == "gl_PointCoord"
    ensures ValueOf(FragmentBuiltInsAsWritten[1].1) == Value(Vector2, "gl_FragCoord")
    ensures ValueOf(FragmentBuiltInsAsWritten[1].1).content != FragmentBuiltInsAsWritten[1].0
  {
    assert ValueOf(FragmentBuiltInsAsWritten[1].1).content[4] != FragmentBuiltInsAsWritten[1].0[4];
  }

  function UniformValues(c: Config): Inputs { Values(Uniform, c.uniforms) }

  /** Instances are declared as attributes, merged into the attributes object. */
  function AttributeValues(c: Config): Inputs { Values(Attribute, Spread(c.attributes, c.instances, FieldName)) }

  function VaryingValues(c: Config): Inputs { Values(Varying, c.varyings) }

  function VertexInputs(c: Config): Inputs { Spread(UniformValues(c), AttributeValues(c), InputName) }

  /** The fragment callback's inputs over a given list of built-ins, spread last. */
  function FragmentInputsOver(c: Config, builtIns: Inputs): Inputs {
    Spread(Spread(UniformValues(c), VaryingValues(c), InputName), builtIns, InputName)
  }

  /** The inputs `source` hands the fragment callback: the built-ins as written. */
  function FragmentInputs(c: Config): Inputs {
    FragmentInputsOver(c, FragmentBuiltInsAsWritten)
  }

  /** One `name = content;` line per output, in key order. */
  function Assignments(outputs: Inputs, values: seq<Value>): string
    requires |values| == |outputs|
  {
    if |outputs| == 0 then ""
    else
      var n := |outputs| - 1;
      Assignments(outputs[..n], values[..n]) + outputs[n].0 + " = " + values[n].content + ";\n"
  }

  /** A shader's text: the global declarations, then `main` holding the local text and the assignments. */
  function MainText(e: Effect, assignments: string): string {
    e.global + "void main() {\n" + e.local + assignments + "}\n"
  }

  /** The varyings run first against the vertex builder's fresh cache. */
  function VaryingsEffect(c: Config): Effect {
    EmitAll(NodesOf(VaryingValues(c)), {})
  }

  /** Then the outputs of the vertex callback, in key order, against the same builder. */
  function OutputsEffect(c: Config, outputs: Inputs): Effect {
    EmitAll(NodesOf(outputs), VaryingsEffect(c).keys)
  }

  function VertexText(c: Config, outputs: Inputs): string {
    MainText(Seq(VaryingsEffect(c), OutputsEffect(c, outputs)),
             Assignments(outputs, ValuesOf(NodesOf(outputs))))
  }

  function FragmentText(color: Node): string {
    MainText(Emit(color, {}), "gl_FragColor = " + ValueOf(color).content + ";\n")
  }

  /** What `source(c)` returns when the id counter stands at `counter`, and the counter's new value. */
  function SourceOf(c: Config, counter: nat): (ProgramSource, nat) {
    var (outputs, afterVertex) := c.vertex(VertexInputs(c), counter);
    var (color, afterFragment) := c.fragment(FragmentInputs(c), afterVertex);
    (ProgramSource(VertexText(c, outputs), FragmentText(color),
                   WithoutPrecision(c.uniforms), WithoutPrecision(c.attributes), WithoutPrecision(c.instances)),
     afterFragment)
  }

  /**
   * The vertex half of `source`: the outputs run in key order against the
   * builder the varyings were declared in, and the text is assembled.
   */
  method AssembleVertex(c: Config, outputs: Inputs, b: GlslBuilder) returns (text: string)
    requires Emitted(b, "", "", VaryingsEffect(c))
    modifies b, b.cache
    ensures text == VertexText(c, outputs)
    ensures b.cache.keys == OutputsEffect(c, outputs).keys
  {
    ghost var declared := VaryingsEffect(c);
    ghost var evaluated := OutputsEffect(c, outputs);
    var values := GetValues(NodesOf(outputs), b);
    EmptyConcat(declared.global);
    EmptyConcat(declared.local);
    assert b.global == Seq(declared, evaluated).global;
    assert b.local == Seq(declared, evaluated).local;
    text := b.global + "void main() {\n" + b.local + Assignments(outputs, values) + "}\n";
  }

  /** The fragment half of `source`: the colour runs against a builder of its own. */
  method AssembleFragment(color: Node) returns (text: string)
    ensures text == FragmentText(color)
  {
    var b := new GlslBuilder();
    var v := GetValue(color, b);
    EmptyConcat(Emit(color, {}).global);
    EmptyConcat(Emit(color, {}).local);
    text := b.global + "void main() {\n" + b.local + "gl_FragColor = " + v.content + ";\n" + "}\n";
  }

  /** `source(c)`, run against the id counter. */
  method Source(c: Config, ids: IdSequence) returns (p: ProgramSource)
    modifies ids
    ensures (p, ids.next) == SourceOf(c, old(ids.next))
  {
    var uniforms := UniformValues(c);
    var attributes := AttributeValues(c);
    var varyings := VaryingValues(c);

    var vertexBuilder := new GlslBuilder();
    var declared := GetValues(NodesOf(varyings), vertexBuilder);
    EmptyConcat(VaryingsEffect(c).global);
    EmptyConcat(VaryingsEffect(c).local);
    var vertexOutput := c.vertex(Spread(uniforms, attributes, InputName), ids.next);
    ids.next := vertexOutput.1;   // the ids the callback drew
    var vertexSource := AssembleVertex(c, vertexOutput.0, vertexBuilder);

    // the source runs the varyings again, against the vertex builder
    var again := GetValues(NodesOf(varyings), vertexBuilder);
    var fragmentOutput := c.fragment(Spread(Spread(uniforms, varyings, InputName), FragmentBuiltInsAsWritten, InputName),
                                     ids.next);
    ids.next := fragmentOutput.1;
    var fragmentSource := AssembleFragment(fragmentOutput.0);

    p := ProgramSource(vertexSource, fragmentSource,
                       WithoutPrecision(c.uniforms), WithoutPrecision(c.attributes), WithoutPrecision(c.instances));
  }

  // ---------------------------------------------------------------- properties

  /**
   * With distinct varying names, the vertex text starts with one
   * `varying` declaration per varying, in key order, before any output is
   * evaluated.
   */
  lemma VaryingsDeclaredFirst(c: Config, counter: nat)
    requires DistinctNames(c.varyings)
    ensures var vertex := SourceOf(c, counter).0.vertex;
            var decls := Declarations(Varying, c.varyings);
            |decls| <= |vertex| && vertex[..|decls|] == decls
  {
    var outputs := c.vertex(VertexInputs(c), counter).0;
    assert SourceOf(c, counter).0.vertex == VertexText(c, outputs);
    VertexTextStartsWithVaryings(c, outputs);
  }

  lemma VertexTextStartsWithVaryings(c: Config, outputs: Inputs)
    requires DistinctNames(c.varyings)
    ensures var decls := Declarations(Varying, c.varyings);
            |decls| <= |VertexText(c, outputs)| && VertexText(c, outputs)[..|decls|] == decls
  {
    ValuesDeclareAll(Varying, c.varyings);
    var e := Seq(VaryingsEffect(c), OutputsEffect(c, outputs));
    var decls := Declarations(Varying, c.varyings);
    MainTextStartsWithGlobal(e, Assignments(outputs, ValuesOf(NodesOf(outputs))));
    assert e.global == decls + OutputsEffect(c, outputs).global;
    assert e.global[..|decls|] == decls;
  }

  lemma MainTextStartsWithGlobal(e: Effect, assignments: string)
    ensures |e.global| <= |MainText(e, assignments)|
    ensures MainText(e, assignments)[..|e.global|] == e.global
  {
    var g := e.global;
    var m := MainText(e, assignments);
    assert m == g + ("void main() {\n" + e.local + assignments + "}\n");
  }

  /**
   * The second pass over the varyings, against the vertex builder after the
   * vertex outputs ran, appends nothing: every varying is already declared.
   */
  lemma SecondVaryingPassIsNoOp(c: Config, outputs: Inputs)
    ensures var keys := OutputsEffect(c, outputs).keys;
            EmitAll(NodesOf(VaryingValues(c)), keys) == Nothing(keys)
  {
    var vs := NodesOf(VaryingValues(c));
    EmitAllMakesDone(vs, {});
    EmitAllGrows(NodesOf(outputs), VaryingsEffect(c).keys);
    AllDoneMonotone(vs, VaryingsEffect(c).keys, OutputsEffect(c, outputs).keys);
    AllDoneEmitsNothing(vs, OutputsEffect(c, outputs).keys);
  }

  /**
   * The fragment text gets its own builder, so it declares a varying or a
   * uniform only when its colour reaches it: a colour that reads no input
   * gives a fragment text with no declaration at all.
   */
  lemma FragmentDeclaresOnlyWhatItReads(c: Config, counter: nat)
    requires c.fragment(FragmentInputs(c), c.vertex(VertexInputs(c), counter).1).0.Literal?
    ensures var color := c.fragment(FragmentInputs(c), c.vertex(VertexInputs(c), counter).1).0;
            SourceOf(c, counter).0.fragment
              == "void main() {\n" + "gl_FragColor = " + color.value.content + ";\n" + "}\n"
  {
    var color := c.fragment(FragmentInputs(c), c.vertex(VertexInputs(c), counter).1).0;
    assert SourceOf(c, counter).0.fragment == FragmentText(color);
    LiteralFragmentText(color.value);
  }

  lemma LiteralFragmentText(v: Value)
    ensures FragmentText(Literal(v)) == "void main() {\n" + "gl_FragColor = " + v.content + ";\n" + "}\n"
  {
    EmptyConcat("void main() {\n");
    assert "void main() {\n" + "" == "void main() {\n";
  }

  /** Spread last, a list of the three built-in names hides any uniform or varying of the same name. */
  lemma BuiltInsSpreadLast(c: Config, b: Inputs)
    requires |b| == 3 && b[0].0 == "gl_FragCoord" && b[1].0 == "gl_PointCoord" && b[2].0 == "gl_FrontFacing"
    ensures Get(FragmentInputsOver(c, b), InputName, "gl_FragCoord") == Some(b[0])
    ensures Get(FragmentInputsOver(c, b), InputName, "gl_PointCoord") == Some(b[1])
    ensures Get(FragmentInputsOver(c, b), InputName, "gl_FrontFacing") == Some(b[2])
  {
    assert DistinctKeys(b, InputName) by {
      assert InputName(b[0]) != InputName(b[1]) by { assert b[0].0[3] != b[1].0[3]; }
      assert InputName(b[0]) != InputName(b[2]) by { assert b[0].0[5] != b[2].0[5]; }
      assert InputName(b[1]) != InputName(b[2]) by { assert b[1].0[3] != b[2].0[3]; }
    }
    var a := Spread(UniformValues(c), VaryingValues(c), InputName);
    SpreadGet(a, b, InputName, "gl_PointCoord");
    SpreadGet(a, b, InputName, "gl_FragCoord");
    SpreadGet(a, b, InputName, "gl_FrontFacing");
    assert InputName(b[1]) == "gl_PointCoord";
    assert InputName(b[0]) == "gl_FragCoord";
    assert InputName(b[2]) == "gl_FrontFacing";
  }

  /**
   * The fragment callback of `source` sees the built-in variables over any
   * uniform or varying of the same name, and its `gl_PointCoord` is a
   * `vec2` whose content is `gl_FragCoord`.
   */
  lemma FragmentBuiltInsWin(c: Config)
    ensures Get(FragmentInputs(c), InputName, "gl_PointCoord") == Some(FragmentBuiltInsAsWritten[1])
    ensures ValueOf(FragmentBuiltInsAsWritten[1].1) == Value(Vector2, "gl_FragCoord")
    ensures Get(FragmentInputs(c), InputName, "gl_FragCoord") == Some(FragmentBuiltInsAsWritten[0])
    ensures Get(FragmentInputs(c), InputName, "gl_FrontFacing") == Some(FragmentBuiltInsAsWritten[2])
  {
    BuiltInsSpreadLast(c, FragmentBuiltInsAsWritten);
  }

  /** Over the corrected built-ins, the callback's `gl_PointCoord` reads the point coordinate. */
  lemma IntendedBuiltInsWin(c: Config)
    ensures Get(FragmentInputsOver(c, FragmentBuiltIns), InputName, "gl_PointCoord") == Some(FragmentBuiltIns[1])
    ensures ValueOf(FragmentBuiltIns[1].1) == Value(Vector2, "gl_PointCoord")
    ensures Get(FragmentInputsOver(c, FragmentBuiltIns), InputName, "gl_FragCoord") == Some(FragmentBuiltIns[0])
    ensures Get(FragmentInputsOver(c, FragmentBuiltIns), InputName, "gl_FrontFacing") == Some(FragmentBuiltIns[2])
  {
    BuiltInsSpreadLast(c, FragmentBuiltIns);
  }

  /** A fragment callback whose colour is its `gl_PointCoord` input. */
  function PointCoordColor(inputs: Inputs, counter: nat): (Node, nat) {
    var e := Get(inputs, InputName, "gl_PointCoord");
    (if e.Some? then e.value.1 else Literal(Value(Vector4, "c")), counter)
  }

  /** As written, a colour that reads `gl_PointCoord` renders `gl_FragCoord` in the fragment text. */
  lemma PointCoordRendersFragCoord(uniforms: seq<Field>, attributes: seq<Field>, instances: seq<Field>,
                                   varyings: seq<Field>, vertex: (Inputs, nat) -> (Inputs, nat), counter: nat)
    ensures var c := Config(uniforms, attributes, instances, varyings, vertex, PointCoordColor);
            SourceOf(c, counter).0.fragment == "void main() {\n" + "gl_FragColor = " + "gl_FragCoord" + ";\n" + "}\n"
  {
    var c := Config(uniforms, attributes, instances, varyings, vertex, PointCoordColor);
    FragmentBuiltInsWin(c);
    var color := PointCoordColor(FragmentInputs(c), vertex(VertexInputs(c), counter).1).0;
    assert color == Literal(Value(Vector2, "gl_FragCoord"));
    assert SourceOf(c, counter).0.fragment == FragmentText(color);
    LiteralFragmentText(Value(Vector2, "gl_FragCoord"));
  }

  /**
   * The vertex callback reads an attribute over a uniform of the same
   * name, and an instance field over an attribute of the same name.
   */
  lemma VertexInputsPreferAttributes(c: Config, name: string)
    requires DistinctNames(c.attributes) && DistinctNames(c.instances)
    ensures HasKey(AttributeValues(c), InputName, name) ==>
              Get(VertexInputs(c), InputName, name) == Get(AttributeValues(c), InputName, name)
    ensures !HasKey(AttributeValues(c), InputName, name) ==>
              Get(VertexInputs(c), InputName, name) == Get(UniformValues(c), InputName, name)
  {
    var merged := Spread(c.attributes, c.instances, FieldName);
    assert DistinctKeys(c.attributes, FieldName);
    SpreadKeepsDistinct(c.attributes, c.instances, FieldName);
    assert DistinctKeys(AttributeValues(c), InputName) by {
      forall i, j | 0 <= i < j < |merged|
        ensures InputName(AttributeValues(c)[i]) != InputName(AttributeValues(c)[j])
      {
        assert FieldName(merged[i]) != FieldName(merged[j]);
      }
    }
    SpreadGet(UniformValues(c), AttributeValues(c), InputName, name);
  }

  /** A vertex callback that memoizes its position under a fresh id. */
  function MemoizedPosition(inputs: Inputs, counter: nat): (Inputs, nat) {
    ([("gl_Position", Mem(counter, High, Literal(Value(Vector4, "p"))))], counter + 1)
  }

  function ConstantColor(inputs: Inputs, counter: nat): (Node, nat) {
    (Literal(Value(Vector4, "c")), counter)
  }

  /** The vertex text of the memoized-position program, built when the counter stands at `n`. */
  lemma MemoizedVertexText(n: nat)
    ensures var c := Config([], [], [], [], MemoizedPosition, ConstantColor);
            SourceOf(c, n).0.vertex
              == ("void main() {\n" + MemLine(High, Value(Vector4, "p"), MemKey(n)))
                 + (Assignments(MemoizedPosition([], n).0, [Value(Vector4, MemKey(n))]) + "}\n")
  {
    var c := Config([], [], [], [], MemoizedPosition, ConstantColor);
    var outputs := MemoizedPosition(VertexInputs(c), n).0;
    var position := Mem(n, High, Literal(Value(Vector4, "p")));
    assert NodesOf(outputs) == [position];
    assert VaryingsEffect(c) == Nothing({});
    assert EmitAll([position], {}) == Seq(Nothing({}), Emit(position, {})) by {
      assert [position][..0] == [];
    }
    var line := MemLine(High, Value(Vector4, "p"), MemKey(n));
    assert Emit(position, {}) == Effect("", line, {MemKey(n)});
    var e := Seq(VaryingsEffect(c), OutputsEffect(c, outputs));
    assert e.global == "" && e.local == line;
    assert ValuesOf(NodesOf(outputs)) == [Value(Vector4, MemKey(n))];
    var rest := Assignments(outputs, ValuesOf(NodesOf(outputs))) + "}\n";
    assert VertexText(c, outputs) == ("void main() {\n" + line) + rest by {
      EmptyConcat("void main() {\n");
    }
    assert SourceOf(c, n).0.vertex == VertexText(c, outputs);
  }

  /** In that text, the memoized name's digit sits right after `void main() {\nhighp vec4 mem`. */
  lemma MemoizedVertex(n: nat)
    requires n < 10
    ensures var c := Config([], [], [], [], MemoizedPosition, ConstantColor);
            SourceOf(c, n).0.vertex[|"void main() {\nhighp vec4 mem"|] == Digit(n)
  {
    MemoizedVertexText(n);
    var line := MemLine(High, Value(Vector4, "p"), MemKey(n));
    var rest := Assignments(MemoizedPosition([], n).0, [Value(Vector4, MemKey(n))]) + "}\n";
    var key := MemKey(n);
    assert key == "mem" + [Digit(n)] && key[3] == Digit(n);
    var head := "highp" + " " + "vec4" + " ";
    assert |head| == 11;
    assert line == head + key + (" = " + "p" + ";\n");
    assert line[14] == key[3];
    assert (("void main() {\n" + line) + rest)[28] == line[14];
  }

  /**
   * Ids come from a process-wide counter, so `source()` called twice on the
   * same description need not give the same text: here the memoized
   * position is `mem0` in one run and `mem1` in the next.
   */
  lemma SourceDependsOnCounter()
    ensures var c := Config([], [], [], [], MemoizedPosition, ConstantColor);
            SourceOf(c, 0).0.vertex != SourceOf(c, 1).0.vertex
  {
    MemoizedVertex(0);
    MemoizedVertex(1);
  }
}
