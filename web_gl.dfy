/**
 * The WebGL vocabulary shared by the two settings caches and the draw
 * command: the enumerations of src/webgl-enums.ts with their numeric codes,
 * the GPU objects the caches bind (modelled by identity only) and the calls
 * made on the native context, which the model records in a log instead of
 * performing them.
 *
 * The codes of the standard constants are those of the WebGL 1.0
 * specification (the same as OpenGL ES 2.0); src/webgl-consts.ts, which
 * spells them out in the repository, is not part of this model.
 */
module WebGl {
  import opened Wrappers

  datatype FaceCulling = Front | Back | FrontAndBack

  datatype BlendEquation = Add | Sub | RSub | Min | Max

  datatype DepthFunction = Never | Less | Equal | LEqual | Greater | NotEqual | GEqual | Always

  datatype BlendFunction =
    | Zero | One | SrcColor | OneMinusSrcColor | DstColor | OneMinusDstColor
    | SrcAlpha | OneMinusSrcAlpha | DstAlpha | OneMinusDstAlpha | SrcAlphaSaturate

  datatype PixelFormat = Rgba | Rgb | Alpha

  /** The enum value of a blend equation; `Min` and `Max` are written as literals in the source. */
  function BlendEquationCode(e: BlendEquation): int {
    match e
    case Add => 0x8006
    case Sub => 0x800A
    case RSub => 0x800B
    case Min => 0x8007
    case Max => 0x8008
  }

  function PixelFormatCode(f: PixelFormat): int {
    match f
    case Rgba => 0x1908
    case Rgb => 0x1907
    case Alpha => 0x1906
  }

  /**
   * `PixelFormat.getChannelsCount`: a `switch` on the numeric value of the
   * format. A number that is no member of the enum falls through the switch
   * and the function returns `undefined`, here `None`.
   */
  function ChannelsCount(code: int): (r: Option<nat>)
    ensures r.Some? <==> exists f :: PixelFormatCode(f) == code
  {
    if code == PixelFormatCode(Rgb) then Some(3)
    else if code == PixelFormatCode(Rgba) then Some(4)
    else if code == PixelFormatCode(Alpha) then Some(1)
    else None
  }

  /** The switch covers every member: the count is defined on each one, and it is 1, 3 or 4. */
  lemma ChannelsCountTotal(f: PixelFormat)
    ensures ChannelsCount(PixelFormatCode(f)).Some?
    ensures ChannelsCount(PixelFormatCode(f)).value in {1, 3, 4}
    ensures f == Rgb ==> ChannelsCount(PixelFormatCode(f)) == Some(3)
    ensures f == Rgba ==> ChannelsCount(PixelFormatCode(f)) == Some(4)
    ensures f == Alpha ==> ChannelsCount(PixelFormatCode(f)) == Some(1)
  {
  }

  /** Distinct members have distinct codes, so comparing codes is comparing members. */
  lemma CodesDistinct()
    ensures forall e1, e2 :: BlendEquationCode(e1) == BlendEquationCode(e2) ==> e1 == e2
    ensures forall f1, f2 :: PixelFormatCode(f1) == PixelFormatCode(f2) ==> f1 == f2
  {
  }

  /** `TEXTURE0`: `activeTexture(i)` selects unit `TEXTURE0 + i`. */
  const Texture0: int := 0x84C0

  /**
   * A GPU object (buffer, program, texture, render or frame buffer), compared
   * by identity as `===` compares the wrapper objects. Objects the caller made
   * are `Given`; the frame buffers that `renderTarget` makes are `Created`,
   * numbered by the context, so they differ from every object made before.
   */
  datatype Handle = Given(id: nat) | Created(serial: nat)

  datatype Texture = Texture(handle: Handle, width: int, height: int)

  /** `AttributePointer` of src/settings.ts: the five fields `attribute` compares. */
  datatype AttributePointer = AttributePointer(buffer: Handle, dataType: int, stride: int, offset: int, divisor: int)

  datatype Rect = Rect(x: int, y: int, width: int, height: int)

  /**
   * A number the core hands to the GL: a value, or `NaN`, which is what a
   * typed array stores for `undefined`. Floating-point rounding is not
   * modelled.
   */
  datatype Number = Real(r: real) | NaN

  /** Float-valued settings are compared by equality only. */
  datatype Color = Color(r: real, g: real, b: real, a: real)

  datatype Capability = BlendCap | CullFaceCap | ScissorTestCap | DepthTestCap

  datatype BufferTarget = ArrayTarget | ElementsTarget

  /**
   * The component count passed to `vertexAttribPointer`: derived from the
   * pointer's data type in src/settings.ts (by `AttributeDataType.getSizeInFloats`
   * of src/enums.ts, which is not part of this model), a number in src/webgl.ts.
   */
  datatype Components = SizeOf(dataType: int) | Count(n: nat)

  /** A call on the native context, in the order the core makes them. */
  datatype Call =
    | Enable(cap: Capability)
    | Disable(cap: Capability)
    | CullFace(mode: FaceCulling)
    | Viewport(rect: Rect)
    | Scissor(rect: Rect)
    | ClearDepth(depth: real)
    | LineWidth(width: real)
    | BlendEquationSeparate(rgb: BlendEquation, alpha: BlendEquation)
    | BlendFuncSeparate(srcRgb: BlendFunction, dstRgb: BlendFunction, srcAlpha: BlendFunction, dstAlpha: BlendFunction)
    | DepthFunc(depthFunction: DepthFunction)
    | ClearColor(color: Color)
    | ActiveTexture(unitCode: int)
    | BindTexture(boundTexture: Option<Handle>)
    | BindBuffer(target: BufferTarget, boundBuffer: Option<Handle>)
    | UseProgram(usedProgram: Option<Handle>)
    | BindRenderbuffer(boundRenderBuffer: Option<Handle>)
    | BindFramebuffer(boundFrameBuffer: Option<Handle>)
    | EnableVertexAttribArray(location: nat)
    | DisableVertexAttribArray(location: nat)
    | VertexAttribPointer(location: nat, components: Components, stride: int, offset: int)
    | VertexAttribDivisor(location: nat, divisor: int)
    | CreateFramebuffer(createdFrameBuffer: Handle)
    | FramebufferTexture2D(attachedTexture: Handle)
    | DeleteFramebuffer(deletedFrameBuffer: Handle)
    | DrawArrays(count: int)
    | DrawElements(count: int)
    | DrawArraysInstanced(count: int, instances: int)
    | DrawElementsInstanced(count: int, instances: int)
    | Uniform(name: string, value: seq<Number>)
    | BufferData(target: BufferTarget, data: seq<Number>)
    | User(event: nat)

  /** How a callback ends: it returns a value, or it throws. */
  datatype Outcome = Returned(value: int) | Threw(error: string)
}
