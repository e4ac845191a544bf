// The enumeration <-> GL code tables of the OpenGL ES 2 interface
// (GLInterfaceEmbedded_JOGL_ES2_Actual).  Each ToGL is total; each FromGL is
// partial and refuses a code that is not in its table.  The ensures of every
// FromGL and the RoundTrip lemma beside it make each pair a bijection between
// the enumeration and the codes in its table.

module ES2Conversions {
  import opened Wrappers
  import opened GLConstants

  /** The blend equations OpenGL ES 2 offers. */
  datatype BlendEquationEmbedded =
    | BlendEquationAdd
    | BlendEquationReverseSubtract
    | BlendEquationSubtract

  function BlendEquationEmbeddedToGL(e: BlendEquationEmbedded): int
  {
    match e
    case BlendEquationAdd => GL_FUNC_ADD
    case BlendEquationReverseSubtract => GL_FUNC_REVERSE_SUBTRACT
    case BlendEquationSubtract => GL_FUNC_SUBTRACT
  }

  /** A code outside the table is refused: the source throws UnreachableCodeException. */
  function BlendEquationEmbeddedFromGL(code: int): (r: Option<BlendEquationEmbedded>)
    ensures r.Some? ==> BlendEquationEmbeddedToGL(r.value) == code
    ensures r.None? ==> forall e: BlendEquationEmbedded :: BlendEquationEmbeddedToGL(e) != code
  {
    if code == GL_FUNC_ADD then Some(BlendEquationEmbedded.BlendEquationAdd)
    else if code == GL_FUNC_REVERSE_SUBTRACT then Some(BlendEquationEmbedded.BlendEquationReverseSubtract)
    else if code == GL_FUNC_SUBTRACT then Some(BlendEquationEmbedded.BlendEquationSubtract)
    else None
  }

  lemma BlendEquationEmbeddedRoundTrip(e: BlendEquationEmbedded)
    ensures BlendEquationEmbeddedFromGL(BlendEquationEmbeddedToGL(e)) == Some(e)
  {
  }

  /** Blend factors. */
  datatype BlendFunction =
    | BlendConstantAlpha
    | BlendConstantColor
    | BlendDestinationAlpha
    | BlendDestinationColor
    | BlendOne
    | BlendOneMinusConstantAlpha
    | BlendOneMinusConstantColor
    | BlendOneMinusDestinationAlpha
    | BlendOneMinusDestinationColor
    | BlendOneMinusSourceAlpha
    | BlendOneMinusSourceColor
    | BlendSourceAlpha
    | BlendSourceColor
    | BlendSourceAlphaSaturate
    | BlendZero

  function BlendFunctionToGL(e: BlendFunction): int
  {
    match e
    case BlendConstantAlpha => GL_CONSTANT_ALPHA
    case BlendConstantColor => GL_CONSTANT_COLOR
    case BlendDestinationAlpha => GL_DST_ALPHA
    case BlendDestinationColor => GL_DST_COLOR
    case BlendOne => GL_ONE
    case BlendOneMinusConstantAlpha => GL_ONE_MINUS_CONSTANT_ALPHA
    case BlendOneMinusConstantColor => GL_ONE_MINUS_CONSTANT_COLOR
    case BlendOneMinusDestinationAlpha => GL_ONE_MINUS_DST_ALPHA
    case BlendOneMinusDestinationColor => GL_ONE_MINUS_DST_COLOR
    case BlendOneMinusSourceAlpha => GL_ONE_MINUS_SRC_ALPHA
    case BlendOneMinusSourceColor => GL_ONE_MINUS_SRC_COLOR
    case BlendSourceAlpha => GL_SRC_ALPHA
    case BlendSourceColor => GL_SRC_COLOR
    case BlendSourceAlphaSaturate => GL_SRC_ALPHA_SATURATE
    case BlendZero => GL_ZERO
  }

  /** A code outside the table is refused: the source throws UnreachableCodeException. */
  function BlendFunctionFromGL(code: int): (r: Option<BlendFunction>)
    ensures r.Some? ==> BlendFunctionToGL(r.value) == code
    ensures r.None? ==> forall e: BlendFunction :: BlendFunctionToGL(e) != code
  {
    if code == GL_CONSTANT_ALPHA then Some(BlendFunction.BlendConstantAlpha)
    else if code == GL_CONSTANT_COLOR then Some(BlendFunction.BlendConstantColor)
    else if code == GL_DST_ALPHA then Some(BlendFunction.BlendDestinationAlpha)
    else if code == GL_DST_COLOR then Some(BlendFunction.BlendDestinationColor)
    else if code == GL_ONE then Some(BlendFunction.BlendOne)
    else if code == GL_ONE_MINUS_CONSTANT_ALPHA then Some(BlendFunction.BlendOneMinusConstantAlpha)
    else if code == GL_ONE_MINUS_CONSTANT_COLOR then Some(BlendFunction.BlendOneMinusConstantColor)
    else if code == GL_ONE_MINUS_DST_ALPHA then Some(BlendFunction.BlendOneMinusDestinationAlpha)
    else if code == GL_ONE_MINUS_DST_COLOR then Some(BlendFunction.BlendOneMinusDestinationColor)
    else if code == GL_ONE_MINUS_SRC_ALPHA then Some(BlendFunction.BlendOneMinusSourceAlpha)
    else if code == GL_ONE_MINUS_SRC_COLOR then Some(BlendFunction.BlendOneMinusSourceColor)
    else if code == GL_SRC_ALPHA then Some(BlendFunction.BlendSourceAlpha)
    else if code == GL_SRC_COLOR then Some(BlendFunction.BlendSourceColor)
    else if code == GL_SRC_ALPHA_SATURATE then Some(BlendFunction.BlendSourceAlphaSaturate)
    else if code == GL_ZERO then Some(BlendFunction.BlendZero)
    else None
  }

  lemma BlendFunctionRoundTrip(e: BlendFunction)
    ensures BlendFunctionFromGL(BlendFunctionToGL(e)) == Some(e)
  {
  }

  /** Depth comparison functions. */
  datatype DepthFunction =
    | DepthAlways
    | DepthEqual
    | DepthGreaterThan
    | DepthGreaterThanOrEqual
    | DepthLessThan
    | DepthLessThanOrEqual
    | DepthNever
    | DepthNotEqual

  function DepthFunctionToGL(e: DepthFunction): int
  {
    match e
    case DepthAlways => GL_ALWAYS
    case DepthEqual => GL_EQUAL
    case DepthGreaterThan => GL_GREATER
    case DepthGreaterThanOrEqual => GL_GEQUAL
    case DepthLessThan => GL_LESS
    case DepthLessThanOrEqual => GL_LEQUAL
    case DepthNever => GL_NEVER
    case DepthNotEqual => GL_NOTEQUAL
  }

  /** A code outside the table is refused: the source throws UnreachableCodeException. */
  function DepthFunctionFromGL(code: int): (r: Option<DepthFunction>)
    ensures r.Some? ==> DepthFunctionToGL(r.value) == code
    ensures r.None? ==> forall e: DepthFunction :: DepthFunctionToGL(e) != code
  {
    if code == GL_ALWAYS then Some(DepthFunction.DepthAlways)
    else if code == GL_EQUAL then Some(DepthFunction.DepthEqual)
    else if code == GL_GREATER then Some(DepthFunction.DepthGreaterThan)
    else if code == GL_GEQUAL then Some(DepthFunction.DepthGreaterThanOrEqual)
    else if code == GL_LESS then Some(DepthFunction.DepthLessThan)
    else if code == GL_LEQUAL then Some(DepthFunction.DepthLessThanOrEqual)
    else if code == GL_NEVER then Some(DepthFunction.DepthNever)
    else if code == GL_NOTEQUAL then Some(DepthFunction.DepthNotEqual)
    else None
  }

  lemma DepthFunctionRoundTrip(e: DepthFunction)
    ensures DepthFunctionFromGL(DepthFunctionToGL(e)) == Some(e)
  {
  }

  /** Face selections for culling. */
  datatype FaceSelection =
    | FaceBack
    | FaceFront
    | FaceFrontAndBack

  function FaceSelectionToGL(e: FaceSelection): int
  {
    match e
    case FaceBack => GL_BACK
    case FaceFront => GL_FRONT
    case FaceFrontAndBack => GL_FRONT_AND_BACK
  }

  /** A code outside the table is refused: the source throws UnreachableCodeException. */
  function FaceSelectionFromGL(code: int): (r: Option<FaceSelection>)
    ensures r.Some? ==> FaceSelectionToGL(r.value) == code
    ensures r.None? ==> forall e: FaceSelection :: FaceSelectionToGL(e) != code
  {
    if code == GL_BACK then Some(FaceSelection.FaceBack)
    else if code == GL_FRONT then Some(FaceSelection.FaceFront)
    else if code == GL_FRONT_AND_BACK then Some(FaceSelection.FaceFrontAndBack)
    else None
  }

  lemma FaceSelectionRoundTrip(e: FaceSelection)
    ensures FaceSelectionFromGL(FaceSelectionToGL(e)) == Some(e)
  {
  }

  /** Front-face winding orders. */
  datatype FaceWindingOrder =
    | FrontFaceClockwise
    | FrontFaceCounterClockwise

  function FaceWindingOrderToGL(e: FaceWindingOrder): int
  {
    match e
    case FrontFaceClockwise => GL_CW
    case FrontFaceCounterClockwise => GL_CCW
  }

  /** A code outside the table is refused: the source throws UnreachableCodeException. */
  function FaceWindingOrderFromGL(code: int): (r: Option<FaceWindingOrder>)
    ensures r.Some? ==> FaceWindingOrderToGL(r.value) == code
    ensures r.None? ==> forall e: FaceWindingOrder :: FaceWindingOrderToGL(e) != code
  {
    if code == GL_CW then Some(FaceWindingOrder.FrontFaceClockwise)
    else if code == GL_CCW then Some(FaceWindingOrder.FrontFaceCounterClockwise)
    else None
  }

  lemma FaceWindingOrderRoundTrip(e: FaceWindingOrder)
    ensures FaceWindingOrderFromGL(FaceWindingOrderToGL(e)) == Some(e)
  {
  }

  /** Primitive kinds drawn from index buffers. */
  datatype Primitive =
    | PrimitiveLines
    | PrimitiveLineLoop
    | PrimitivePoints
    | PrimitiveTriangles
    | PrimitiveTriangleStrip

  function PrimitiveToGL(e: Primitive): int
  {
    match e
    case PrimitiveLines => GL_LINES
    case PrimitiveLineLoop => GL_LINE_LOOP
    case PrimitivePoints => GL_POINTS
    case PrimitiveTriangles => GL_TRIANGLES
    case PrimitiveTriangleStrip => GL_TRIANGLE_STRIP
  }

  /** A code outside the table is refused: the source throws UnreachableCodeException. */
  function PrimitiveFromGL(code: int): (r: Option<Primitive>)
    ensures r.Some? ==> PrimitiveToGL(r.value) == code
    ensures r.None? ==> forall e: Primitive :: PrimitiveToGL(e) != code
  {
    if code == GL_LINES then Some(Primitive.PrimitiveLines)
    else if code == GL_LINE_LOOP then Some(Primitive.PrimitiveLineLoop)
    else if code == GL_POINTS then Some(Primitive.PrimitivePoints)
    else if code == GL_TRIANGLES then Some(Primitive.PrimitiveTriangles)
    else if code == GL_TRIANGLE_STRIP then Some(Primitive.PrimitiveTriangleStrip)
    else None
  }

  lemma PrimitiveRoundTrip(e: Primitive)
    ensures PrimitiveFromGL(PrimitiveToGL(e)) == Some(e)
  {
  }

  /** Scalar component types of the embedded interface (no DOUBLE). */
  datatype ScalarType =
    | TypeByte
    | TypeUnsignedByte
    | TypeShort
    | TypeUnsignedShort
    | TypeInt
    | TypeUnsignedInt
    | TypeFloat

  function ScalarTypeToGL(e: ScalarType): int
  {
    match e
    case TypeByte => GL_BYTE
    case TypeUnsignedByte => GL_UNSIGNED_BYTE
    case TypeShort => GL_SHORT
    case TypeUnsignedShort => GL_UNSIGNED_SHORT
    case TypeInt => GL_INT
    case TypeUnsignedInt => GL_UNSIGNED_INT
    case TypeFloat => GL_FLOAT
  }

  /** A code outside the table is refused: the source throws UnreachableCodeException. */
  function ScalarTypeFromGL(code: int): (r: Option<ScalarType>)
    ensures r.Some? ==> ScalarTypeToGL(r.value) == code
    ensures r.None? ==> forall e: ScalarType :: ScalarTypeToGL(e) != code
  {
    if code == GL_BYTE then Some(ScalarType.TypeByte)
    else if code == GL_UNSIGNED_BYTE then Some(ScalarType.TypeUnsignedByte)
    else if code == GL_SHORT then Some(ScalarType.TypeShort)
    else if code == GL_UNSIGNED_SHORT then Some(ScalarType.TypeUnsignedShort)
    else if code == GL_INT then Some(ScalarType.TypeInt)
    else if code == GL_UNSIGNED_INT then Some(ScalarType.TypeUnsignedInt)
    else if code == GL_FLOAT then Some(ScalarType.TypeFloat)
    else None
  }

  lemma ScalarTypeRoundTrip(e: ScalarType)
    ensures ScalarTypeFromGL(ScalarTypeToGL(e)) == Some(e)
  {
  }

  /** Texture magnification and minification filters. */
  datatype TextureFilter =
    | TextureFilterLinear
    | TextureFilterNearest

  function TextureFilterToGL(e: TextureFilter): int
  {
    match e
    case TextureFilterLinear => GL_LINEAR
    case TextureFilterNearest => GL_NEAREST
  }

  /** A code outside the table is refused: the source throws UnreachableCodeException. */
  function TextureFilterFromGL(code: int): (r: Option<TextureFilter>)
    ensures r.Some? ==> TextureFilterToGL(r.value) == code
    ensures r.None? ==> forall e: TextureFilter :: TextureFilterToGL(e) != code
  {
    if code == GL_LINEAR then Some(TextureFilter.TextureFilterLinear)
    else if code == GL_NEAREST then Some(TextureFilter.TextureFilterNearest)
    else None
  }

  lemma TextureFilterRoundTrip(e: TextureFilter)
    ensures TextureFilterFromGL(TextureFilterToGL(e)) == Some(e)
  {
  }

  /** Texture wrapping modes of the embedded interface (no CLAMP_TO_BORDER). */
  datatype TextureWrap =
    | TextureWrapClampToEdge
    | TextureWrapRepeat
    | TextureWrapRepeatMirrored

  function TextureWrapToGL(e: TextureWrap): int
  {
    match e
    case TextureWrapClampToEdge => GL_CLAMP_TO_EDGE
    case TextureWrapRepeat => GL_REPEAT
    case TextureWrapRepeatMirrored => GL_MIRRORED_REPEAT
  }

  /** A code outside the table is refused: the source throws UnreachableCodeException. */
  function TextureWrapFromGL(code: int): (r: Option<TextureWrap>)
    ensures r.Some? ==> TextureWrapToGL(r.value) == code
    ensures r.None? ==> forall e: TextureWrap :: TextureWrapToGL(e) != code
  {
    if code == GL_CLAMP_TO_EDGE then Some(TextureWrap.TextureWrapClampToEdge)
    else if code == GL_REPEAT then Some(TextureWrap.TextureWrapRepeat)
    else if code == GL_MIRRORED_REPEAT then Some(TextureWrap.TextureWrapRepeatMirrored)
    else None
  }

  lemma TextureWrapRoundTrip(e: TextureWrap)
    ensures TextureWrapFromGL(TextureWrapToGL(e)) == Some(e)
  {
  }

  /** GLSL ES uniform and attribute types. */
  datatype GLSLType =
    | TypeBoolean
    | TypeBooleanVector2
    | TypeBooleanVector3
    | TypeBooleanVector4
    | TypeFloat
    | TypeFloatMatrix2
    | TypeFloatMatrix3
    | TypeFloatMatrix4
    | TypeFloatVector2
    | TypeFloatVector3
    | TypeFloatVector4
    | TypeInteger
    | TypeIntegerVector2
    | TypeIntegerVector3
    | TypeIntegerVector4
    | TypeSampler2D
    | TypeSampler2DShadow
    | TypeSampler3D
    | TypeSamplerCube

  function GLSLTypeToGL(e: GLSLType): int
  {
    match e
    case TypeBoolean => GL_BOOL
    case TypeBooleanVector2 => GL_BOOL_VEC2
    case TypeBooleanVector3 => GL_BOOL_VEC3
    case TypeBooleanVector4 => GL_BOOL_VEC4
    case TypeFloat => GL_FLOAT
    case TypeFloatMatrix2 => GL_FLOAT_MAT2
    case TypeFloatMatrix3 => GL_FLOAT_MAT3
    case TypeFloatMatrix4 => GL_FLOAT_MAT4
    case TypeFloatVector2 => GL_FLOAT_VEC2
    case TypeFloatVector3 => GL_FLOAT_VEC3
    case TypeFloatVector4 => GL_FLOAT_VEC4
    case TypeInteger => GL_INT
    case TypeIntegerVector2 => GL_INT_VEC2
    case TypeIntegerVector3 => GL_INT_VEC3
    case TypeIntegerVector4 => GL_INT_VEC4
    case TypeSampler2D => GL_SAMPLER_2D
    case TypeSampler2DShadow => GL_SAMPLER_2D_SHADOW
    case TypeSampler3D => GL_SAMPLER_3D
    case TypeSamplerCube => GL_SAMPLER_CUBE
  }

  /** A code outside the table is refused: the source throws UnreachableCodeException. */
  function GLSLTypeFromGL(code: int): (r: Option<GLSLType>)
    ensures r.Some? ==> GLSLTypeToGL(r.value) == code
    ensures r.None? ==> forall e: GLSLType :: GLSLTypeToGL(e) != code
  {
    if code == GL_BOOL then Some(GLSLType.TypeBoolean)
    else if code == GL_BOOL_VEC2 then Some(GLSLType.TypeBooleanVector2)
    else if code == GL_BOOL_VEC3 then Some(GLSLType.TypeBooleanVector3)
    else if code == GL_BOOL_VEC4 then Some(GLSLType.TypeBooleanVector4)
    else if code == GL_FLOAT then Some(GLSLType.TypeFloat)
    else if code == GL_FLOAT_MAT2 then Some(GLSLType.TypeFloatMatrix2)
    else if code == GL_FLOAT_MAT3 then Some(GLSLType.TypeFloatMatrix3)
    else if code == GL_FLOAT_MAT4 then Some(GLSLType.TypeFloatMatrix4)
    else if code == GL_FLOAT_VEC2 then Some(GLSLType.TypeFloatVector2)
    else if code == GL_FLOAT_VEC3 then Some(GLSLType.TypeFloatVector3)
    else if code == GL_FLOAT_VEC4 then Some(GLSLType.TypeFloatVector4)
    else if code == GL_INT then Some(GLSLType.TypeInteger)
    else if code == GL_INT_VEC2 then Some(GLSLType.TypeIntegerVector2)
    else if code == GL_INT_VEC3 then Some(GLSLType.TypeIntegerVector3)
    else if code == GL_INT_VEC4 then Some(GLSLType.TypeIntegerVector4)
    else if code == GL_SAMPLER_2D then Some(GLSLType.TypeSampler2D)
    else if code == GL_SAMPLER_2D_SHADOW then Some(GLSLType.TypeSampler2DShadow)
    else if code == GL_SAMPLER_3D then Some(GLSLType.TypeSampler3D)
    else if code == GL_SAMPLER_CUBE then Some(GLSLType.TypeSamplerCube)
    else None
  }

  lemma GLSLTypeRoundTrip(e: GLSLType)
    ensures GLSLTypeFromGL(GLSLTypeToGL(e)) == Some(e)
  {
  }

  /** Unsigned index types. */
  datatype UnsignedType =
    | TypeUnsignedByte
    | TypeUnsignedShort
    | TypeUnsignedInt

  function UnsignedTypeToGL(e: UnsignedType): int
  {
    match e
    case TypeUnsignedByte => GL_UNSIGNED_BYTE
    case TypeUnsignedShort => GL_UNSIGNED_SHORT
    case TypeUnsignedInt => GL_UNSIGNED_INT
  }

  /** A code outside the table is refused: the source throws UnreachableCodeException. */
  function UnsignedTypeFromGL(code: int): (r: Option<UnsignedType>)
    ensures r.Some? ==> UnsignedTypeToGL(r.value) == code
    ensures r.None? ==> forall e: UnsignedType :: UnsignedTypeToGL(e) != code
  {
    if code == GL_UNSIGNED_BYTE then Some(UnsignedType.TypeUnsignedByte)
    else if code == GL_UNSIGNED_SHORT then Some(UnsignedType.TypeUnsignedShort)
    else if code == GL_UNSIGNED_INT then Some(UnsignedType.TypeUnsignedInt)
    else None
  }

  lemma UnsignedTypeRoundTrip(e: UnsignedType)
    ensures UnsignedTypeFromGL(UnsignedTypeToGL(e)) == Some(e)
  {
  }

  /** Buffer usage hints OpenGL ES 2 offers. */
  datatype UsageHintEmbedded =
    | UsageDynamicDraw
    | UsageStaticDraw
    | UsageStreamDraw

  function UsageHintEmbeddedToGL(e: UsageHintEmbedded): int
  {
    match e
    case UsageDynamicDraw => GL_DYNAMIC_DRAW
    case UsageStaticDraw => GL_STATIC_DRAW
    case UsageStreamDraw => GL_STREAM_DRAW
  }

  /** A code outside the table is refused: the source throws UnreachableCodeException. */
  function UsageHintEmbeddedFromGL(code: int): (r: Option<UsageHintEmbedded>)
    ensures r.Some? ==> UsageHintEmbeddedToGL(r.value) == code
    ensures r.None? ==> forall e: UsageHintEmbedded :: UsageHintEmbeddedToGL(e) != code
  {
    if code == GL_DYNAMIC_DRAW then Some(UsageHintEmbedded.UsageDynamicDraw)
    else if code == GL_STATIC_DRAW then Some(UsageHintEmbedded.UsageStaticDraw)
    else if code == GL_STREAM_DRAW then Some(UsageHintEmbedded.UsageStreamDraw)
    else None
  }

  lemma UsageHintEmbeddedRoundTrip(e: UsageHintEmbedded)
    ensures UsageHintEmbeddedFromGL(UsageHintEmbeddedToGL(e)) == Some(e)
  {
  }
}
