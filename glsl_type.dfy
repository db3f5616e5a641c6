/**
 * The GLSL value types of the shader DSL (src/dsl.ts, `Type` and `Precision`)
 * and the result-type rules its operators use.
 */
module GlslType {

  /**
   * The nine members of the `Type` enum, plus `Undefined`: the JavaScript
   * `undefined` that `Type.numeric` and `Type.vector` return outside their
   * cases, which a concatenation of more than four components carries as its
   * type (no check rejects it).
   */
  datatype Type =
    | Scalar | Vector2 | Matrix2 | Vector3 | Matrix3 | Vector4 | Matrix4
    | Boolean | Sampler
    | Undefined

  /** A type that a user can declare in a type map: an enum member. */
  type Member = t: Type | t != Undefined witness Scalar

  datatype Precision = High | Medium | Low

  /** The GLSL spelling of a type (the enum's string value). */
  function Name(t: Type): (r: string)
    ensures |r| > 0
  {
    match t
    case Scalar => "float"
    case Vector2 => "vec2"
    case Matrix2 => "mat2"
    case Vector3 => "vec3"
    case Matrix3 => "mat3"
    case Vector4 => "vec4"
    case Matrix4 => "mat4"
    case Boolean => "bool"
    case Sampler => "sampler2D"
    case Undefined => "undefined"
  }

  function PrecisionName(p: Precision): (r: string)
    ensures |r| > 0
  {
    match p
    case High => "highp"
    case Medium => "mediump"
    case Low => "lowp"
  }

  /** Distinct types are spelled differently, so GLSL text identifies the type. */
  lemma NameInjective(t1: Type, t2: Type)
    requires Name(t1) == Name(t2)
    ensures t1 == t2
  {
  }

  predicate IsVector(t: Type) {
    t == Vector2 || t == Vector3 || t == Vector4
  }

  predicate IsMatrix(t: Type) {
    t == Matrix2 || t == Matrix3 || t == Matrix4
  }

  /** Number of components along one dimension (`Type.size`). */
  function Size(t: Member): (r: nat)
    ensures 1 <= r <= 4
    ensures r == 1 <==> t in {Scalar, Boolean, Sampler}
  {
    match t
    case Boolean | Scalar | Sampler => 1
    case Vector2 | Matrix2 => 2
    case Vector3 | Matrix3 => 3
    case Vector4 | Matrix4 => 4
  }

  /** `Type.vector`: the vector type with `n` components. */
  function Vector(n: int): (r: Type)
    ensures 2 <= n <= 4 ==> IsVector(r) && Size(r) == n
    ensures !(2 <= n <= 4) <==> r == Undefined
  {
    if n == 2 then Vector2 else if n == 3 then Vector3 else if n == 4 then Vector4 else Undefined
  }

  /** The square matrix type of a dimension (used only to state the product rule). */
  function Matrix(n: int): (r: Type)
    ensures 2 <= n <= 4 ==> IsMatrix(r) && Size(r) == n
  {
    if n == 2 then Matrix2 else if n == 3 then Matrix3 else if n == 4 then Matrix4 else Undefined
  }

  /** `Type.numeric`: the scalar or vector type with `n` components. */
  function Numeric(n: int): (r: Type)
    ensures 1 <= n <= 4 ==> r != Undefined && (r == Scalar || IsVector(r)) && Size(r) == n
    ensures !(1 <= n <= 4) <==> r == Undefined
  {
    if n == 1 then Scalar else Vector(n)
  }

  /**
   * The component count of a type as `Type.size` computes it for any runtime
   * value: `undefined` for `Undefined`.
   */
  function SizeOf(t: Type): (r: int)
    ensures t != Undefined ==> r == Size(t)
    ensures t == Undefined ==> r < 0
  {
    if t == Undefined then -1 else Size(t)
  }

  /**
   * The type of a concatenation (`cat`): the numeric type whose size is the sum
   * of the operand sizes, `undefined` once the sum leaves 1..4 or an operand
   * has no size.
   */
  function CatType(t1: Type, t2: Type): (r: Type)
    ensures t1 != Undefined && t2 != Undefined && Size(t1) + Size(t2) <= 4
            ==> r != Undefined && Size(r) == Size(t1) + Size(t2) && IsVector(r)
    ensures (t1 == Undefined || t2 == Undefined || Size(t1) + Size(t2) > 4) ==> r == Undefined
  {
    if t1 == Undefined || t2 == Undefined then Undefined else Numeric(Size(t1) + Size(t2))
  }

  /** Result type of `add`, `sub` and `div`: a scalar left operand takes the right one's type. */
  function ArithType(t1: Type, t2: Type): (r: Type)
    ensures r == t1 || r == t2
    ensures r == t2 <== t1 == Scalar
    ensures t1 != Scalar ==> r == t1
  {
    if t1 == Scalar then t2 else t1
  }

  /** Result type of `mul` (the rule in src/dsl.ts:475-487). */
  function MulType(t1: Type, t2: Type): (r: Type)
    ensures r == t1 || r == t2
    ensures t1 == Scalar ==> r == t2
    ensures t2 == Scalar ==> r == t1
    ensures t1 == t2 ==> r == t1
    ensures IsVector(t1) != IsVector(t2) && t1 != Scalar && t2 != Scalar ==> IsVector(r)
  {
    if t1 == Scalar || t1 == t2 then t2
    else if t2 == Scalar then t1
    else if IsVector(t1) then t1
    else if IsVector(t2) then t2
    else t1
  }

  /** A vector or matrix type is recovered from its size. */
  lemma SizeDeterminesShape(t: Member)
    ensures IsVector(t) ==> Vector(Size(t)) == t
    ensures IsMatrix(t) ==> Matrix(Size(t)) == t
  {
  }

  /** The products GLSL defines between a square matrix and a vector give that vector type. */
  lemma MulTypeMatrixVector(n: int)
    requires 2 <= n <= 4
    ensures MulType(Matrix(n), Vector(n)) == Vector(n)
    ensures MulType(Vector(n), Matrix(n)) == Vector(n)
  {
  }
}
