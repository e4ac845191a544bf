// The enumeration <-> GL code tables of the OpenGL 3 interface
// (GLInterfaceJOGL30) that differ from the embedded ones.  Its blend-factor,
// depth, face, winding, primitive, filter and unsigned-type tables are the same
// as the embedded interface's and are taken from ES2Conversions.

module GL3Conversions {
  import opened Wrappers
  import opened GLConstants

  /** The blend equations of desktop OpenGL 3, including MIN and MAX. */
  datatype BlendEquation =
    | BlendEquationAdd
    | BlendEquationMaximum
    | BlendEquationMinimum
    | BlendEquationReverseSubtract
    | BlendEquationSubtract

  function BlendEquationToGL(e: BlendEquation): int
  {
    match e
    case BlendEquationAdd => GL_FUNC_ADD
    case BlendEquationMaximum => GL_MAX
    case BlendEquationMinimum => GL_MIN
    case BlendEquationReverseSubtract => GL_FUNC_REVERSE_SUBTRACT
    case BlendEquationSubtract => GL_FUNC_SUBTRACT
  }

  /** A code outside the table is refused: the source throws an "unreachable code" AssertionError. */
  function BlendEquationFromGL(code: int): (r: Option<BlendEquation>)
    ensures r.Some? ==> BlendEquationToGL(r.value) == code
    ensures r.None? ==> forall e: BlendEquation :: BlendEquationToGL(e) != code
  {
    if code == GL_FUNC_ADD then Some(BlendEquation.BlendEquationAdd)
    else if code == GL_MAX then Some(BlendEquation.BlendEquationMaximum)
    else if code == GL_MIN then Some(BlendEquation.BlendEquationMinimum)
    else if code == GL_FUNC_REVERSE_SUBTRACT then Some(BlendEquation.BlendEquationReverseSubtract)
    else if code == GL_FUNC_SUBTRACT then Some(BlendEquation.BlendEquationSubtract)
    else None
  }

  lemma BlendEquationRoundTrip(e: BlendEquation)
    ensures BlendEquationFromGL(BlendEquationToGL(e)) == Some(e)
  {
  }

  /** The sixteen framebuffer logic operations. */
  datatype LogicOperation =
    | LogicXor
    | LogicSet
    | LogicOrReverse
    | LogicOrInverted
    | LogicOr
    | LogicNoOp
    | LogicNor
    | LogicNand
    | LogicInvert
    | LogicEquiv
    | LogicCopyInverted
    | LogicCopy
    | LogicClear
    | LogicAndReverse
    | LogicAndInverted
    | LogicAnd

  function LogicOperationToGL(e: LogicOperation): int
  {
    match e
    case LogicXor => GL_XOR
    case LogicSet => GL_SET
    case LogicOrReverse => GL_OR_REVERSE
    case LogicOrInverted => GL_OR_INVERTED
    case LogicOr => GL_OR
    case LogicNoOp => GL_NOOP
    case LogicNor => GL_NOR
    case LogicNand => GL_NAND
    case LogicInvert => GL_INVERT
    case LogicEquiv => GL_EQUIV
    case LogicCopyInverted => GL_COPY_INVERTED
    case LogicCopy => GL_COPY
    case LogicClear => GL_CLEAR
    case LogicAndReverse => GL_AND_REVERSE
    case LogicAndInverted => GL_AND_INVERTED
    case LogicAnd => GL_AND
  }

  /** A code outside the table is refused: the source throws an "unreachable code" AssertionError. */
  function LogicOperationFromGL(code: int): (r: Option<LogicOperation>)
    ensures r.Some? ==> LogicOperationToGL(r.value) == code
    ensures r.None? ==> forall e: LogicOperation :: LogicOperationToGL(e) != code
  {
    if code == GL_XOR then Some(LogicOperation.LogicXor)
    else if code == GL_SET then Some(LogicOperation.LogicSet)
    else if code == GL_OR_REVERSE then Some(LogicOperation.LogicOrReverse)
    else if code == GL_OR_INVERTED then Some(LogicOperation.LogicOrInverted)
    else if code == GL_OR then Some(LogicOperation.LogicOr)
    else if code == GL_NOOP then Some(LogicOperation.LogicNoOp)
    else if code == GL_NOR then Some(LogicOperation.LogicNor)
    else if code == GL_NAND then Some(LogicOperation.LogicNand)
    else if code == GL_INVERT then Some(LogicOperation.LogicInvert)
    else if code == GL_EQUIV then Some(LogicOperation.LogicEquiv)
    else if code == GL_COPY_INVERTED then Some(LogicOperation.LogicCopyInverted)
    else if code == GL_COPY then Some(LogicOperation.LogicCopy)
    else if code == GL_CLEAR then Some(LogicOperation.LogicClear)
    else if code == GL_AND_REVERSE then Some(LogicOperation.LogicAndReverse)
    else if code == GL_AND_INVERTED then Some(LogicOperation.LogicAndInverted)
    else if code == GL_AND then Some(LogicOperation.LogicAnd)
    else None
  }

  lemma LogicOperationRoundTrip(e: LogicOperation)
    ensures LogicOperationFromGL(LogicOperationToGL(e)) == Some(e)
  {
  }

  /** Polygon rasterisation modes. */
  datatype PolygonMode =
    | PolygonFill
    | PolygonLines
    | PolygonPoints

  function PolygonModeToGL(e: PolygonMode): int
  {
    match e
    case PolygonFill => GL_FILL
    case PolygonLines => GL_LINE
    case PolygonPoints => GL_POINT
  }

  /** A code outside the table is refused: the source throws an "unreachable code" AssertionError. */
  function PolygonModeFromGL(code: int): (r: Option<PolygonMode>)
    ensures r.Some? ==> PolygonModeToGL(r.value) == code
    ensures r.None? ==> forall e: PolygonMode :: PolygonModeToGL(e) != code
  {
    if code == GL_FILL then Some(PolygonMode.PolygonFill)
    else if code == GL_LINE then Some(PolygonMode.PolygonLines)
    else if code == GL_POINT then Some(PolygonMode.PolygonPoints)
    else None
  }

  lemma PolygonModeRoundTrip(e: PolygonMode)
    ensures PolygonModeFromGL(PolygonModeToGL(e)) == Some(e)
  {
  }

  /** Scalar component types, including DOUBLE. */
  datatype ScalarType =
    | TypeByte
    | TypeUnsignedByte
    | TypeShort
    | TypeUnsignedShort
    | TypeInt
    | TypeUnsignedInt
    | TypeFloat
    | TypeDouble

  function ScalarTypeToGL(e: ScalarType): int
  {
    match e
    case TypeByte => GL_BYTE
    case TypeUnsignedByte => GL_UNSIGNED_BYTE
    case TypeShort => GL_SHORT
    case TypeUnsignedShort => GL_UNSIGNED_SHORT
    case TypeInt => GL_INT
    case TypeUnsignedInt => GL_UNSIGNED_INT
    case TypeFloat => GL_FLOAT
    case TypeDouble => GL_DOUBLE
  }

  /** A code outside the table is refused: the source throws an "unreachable code" AssertionError. */
  function ScalarTypeFromGL(code: int): (r: Option<ScalarType>)
    ensures r.Some? ==> ScalarTypeToGL(r.value) == code
    ensures r.None? ==> forall e: ScalarType :: ScalarTypeToGL(e) != code
  {
    if code == GL_BYTE then Some(ScalarType.TypeByte)
    else if code == GL_UNSIGNED_BYTE then Some(ScalarType.TypeUnsignedByte)
    else if code == GL_SHORT then Some(ScalarType.TypeShort)
    else if code == GL_UNSIGNED_SHORT then Some(ScalarType.TypeUnsignedShort)
    else if code == GL_INT then Some(ScalarType.TypeInt)
    else if code == GL_UNSIGNED_INT then Some(ScalarType.TypeUnsignedInt)
    else if code == GL_FLOAT then Some(ScalarType.TypeFloat)
    else if code == GL_DOUBLE then Some(ScalarType.TypeDouble)
    else None
  }

  lemma ScalarTypeRoundTrip(e: ScalarType)
    ensures ScalarTypeFromGL(ScalarTypeToGL(e)) == Some(e)
  {
  }

  /** Texture wrapping modes, including CLAMP_TO_BORDER. */
  datatype TextureWrap =
    | TextureWrapClampToBorder
    | TextureWrapClampToEdge
    | TextureWrapRepeat
    | TextureWrapRepeatMirrored

  function TextureWrapToGL(e: TextureWrap): int
  {
    match e
    case TextureWrapClampToBorder => GL_CLAMP_TO_BORDER
    case TextureWrapClampToEdge => GL_CLAMP_TO_EDGE
    case TextureWrapRepeat => GL_REPEAT
    case TextureWrapRepeatMirrored => GL_MIRRORED_REPEAT
  }

  /** A code outside the table is refused: the source throws an "unreachable code" AssertionError. */
  function TextureWrapFromGL(code: int): (r: Option<TextureWrap>)
    ensures r.Some? ==> TextureWrapToGL(r.value) == code
    ensures r.None? ==> forall e: TextureWrap :: TextureWrapToGL(e) != code
  {
    if code == GL_CLAMP_TO_BORDER then Some(TextureWrap.TextureWrapClampToBorder)
    else if code == GL_CLAMP_TO_EDGE then Some(TextureWrap.TextureWrapClampToEdge)
    else if code == GL_REPEAT then Some(TextureWrap.TextureWrapRepeat)
    else if code == GL_MIRRORED_REPEAT then Some(TextureWrap.TextureWrapRepeatMirrored)
    else None
  }

  lemma TextureWrapRoundTrip(e: TextureWrap)
    ensures TextureWrapFromGL(TextureWrapToGL(e)) == Some(e)
  {
  }

  /** GLSL uniform and attribute types, including the non-square matrices and 1D samplers. */
  datatype GLSLType =
    | TypeBoolean
    | TypeBooleanVector2
    | TypeBooleanVector3
    | TypeBooleanVector4
    | TypeFloat
    | TypeFloatMatrix2
    | TypeFloatMatrix2x3
    | TypeFloatMatrix2x4
    | TypeFloatMatrix3
    | TypeFloatMatrix3x2
    | TypeFloatMatrix3x4
    | TypeFloatMatrix4
    | TypeFloatMatrix4x2
    | TypeFloatMatrix4x3
    | TypeFloatVector2
    | TypeFloatVector3
    | TypeFloatVector4
    | TypeInteger
    | TypeIntegerVector2
    | TypeIntegerVector3
    | TypeIntegerVector4
    | TypeSampler1D
    | TypeSampler1DShadow
    | TypeSampler2D
    | TypeSampler2DShadow
    | TypeSampler3D
    | TypeSamplerCube

  function GLSLTypeToGL(e: GLSLType): int
  {
    match e
    case TypeBoolean => GL_BOOL
    case TypeBooleanVector2 => GL_BOOL_VEC2
    case TypeBooleanVector3 => GL_BOOL_VEC3
    case TypeBooleanVector4 => GL_BOOL_VEC4
    case TypeFloat => GL_FLOAT
    case TypeFloatMatrix2 => GL_FLOAT_MAT2
    case TypeFloatMatrix2x3 => GL_FLOAT_MAT2x3
    case TypeFloatMatrix2x4 => GL_FLOAT_MAT2x4
    case TypeFloatMatrix3 => GL_FLOAT_MAT3
    case TypeFloatMatrix3x2 => GL_FLOAT_MAT3x2
    case TypeFloatMatrix3x4 => GL_FLOAT_MAT3x4
    case TypeFloatMatrix4 => GL_FLOAT_MAT4
    case TypeFloatMatrix4x2 => GL_FLOAT_MAT4x2
    case TypeFloatMatrix4x3 => GL_FLOAT_MAT4x3
    case TypeFloatVector2 => GL_FLOAT_VEC2
    case TypeFloatVector3 => GL_FLOAT_VEC3
    case TypeFloatVector4 => GL_FLOAT_VEC4
    case TypeInteger => GL_INT
    case TypeIntegerVector2 => GL_INT_VEC2
    case TypeIntegerVector3 => GL_INT_VEC3
    case TypeIntegerVector4 => GL_INT_VEC4
    case TypeSampler1D => GL_SAMPLER_1D
    case TypeSampler1DShadow => GL_SAMPLER_1D_SHADOW
    case TypeSampler2D => GL_SAMPLER_2D
    case TypeSampler2DShadow => GL_SAMPLER_2D_SHADOW
    case TypeSampler3D => GL_SAMPLER_3D
    case TypeSamplerCube => GL_SAMPLER_CUBE
  }

  /** A code outside the table is refused: the source throws an "unreachable code" AssertionError. */
  function GLSLTypeFromGL(code: int): (r: Option<GLSLType>)
    ensures r.Some? ==> GLSLTypeToGL(r.value) == code
    ensures r.None? ==> forall e: GLSLType :: GLSLTypeToGL(e) != code
  {
    if code == GL_BOOL then Some(GLSLType.TypeBoolean)
    else if code == GL_BOOL_VEC2 then Some(GLSLType.TypeBooleanVector2)
    else if code == GL_BOOL_VEC3 then Some(GLSLType.TypeBooleanVector3)
    else if code == GL_BOOL_VEC4 then Some(GLSLType.TypeBooleanVector4)
    else if code == GL_FLOAT then Some(GLSLType.TypeFloat)
    else if code == GL_FLOAT_MAT2 then Some(GLSLType.TypeFloatMatrix2)
    else if code == GL_FLOAT_MAT2x3 then Some(GLSLType.TypeFloatMatrix2x3)
    else if code == GL_FLOAT_MAT2x4 then Some(GLSLType.TypeFloatMatrix2x4)
    else if code == GL_FLOAT_MAT3 then Some(GLSLType.TypeFloatMatrix3)
    else if code == GL_FLOAT_MAT3x2 then Some(GLSLType.TypeFloatMatrix3x2)
    else if code == GL_FLOAT_MAT3x4 then Some(GLSLType.TypeFloatMatrix3x4)
    else if code == GL_FLOAT_MAT4 then Some(GLSLType.TypeFloatMatrix4)
    else if code == GL_FLOAT_MAT4x2 then Some(GLSLType.TypeFloatMatrix4x2)
    else if code == GL_FLOAT_MAT4x3 then Some(GLSLType.TypeFloatMatrix4x3)
    else if code == GL_FLOAT_VEC2 then Some(GLSLType.TypeFloatVector2)
    else if code == GL_FLOAT_VEC3 then Some(GLSLType.TypeFloatVector3)
    else if code == GL_FLOAT_VEC4 then Some(GLSLType.TypeFloatVector4)
    else if code == GL_INT then Some(GLSLType.TypeInteger)
    else if code == GL_INT_VEC2 then Some(GLSLType.TypeIntegerVector2)
    else if code == GL_INT_VEC3 then Some(GLSLType.TypeIntegerVector3)
    else if code == GL_INT_VEC4 then Some(GLSLType.TypeIntegerVector4)
    else if code == GL_SAMPLER_1D then Some(GLSLType.TypeSampler1D)
    else if code == GL_SAMPLER_1D_SHADOW then Some(GLSLType.TypeSampler1DShadow)
    else if code == GL_SAMPLER_2D then Some(GLSLType.TypeSampler2D)
    else if code == GL_SAMPLER_2D_SHADOW then Some(GLSLType.TypeSampler2DShadow)
    else if code == GL_SAMPLER_3D then Some(GLSLType.TypeSampler3D)
    else if code == GL_SAMPLER_CUBE then Some(GLSLType.TypeSamplerCube)
    else None
  }

  lemma GLSLTypeRoundTrip(e: GLSLType)
    ensures GLSLTypeFromGL(GLSLTypeToGL(e)) == Some(e)
  {
  }

  /** The nine buffer usage hints. */
  datatype UsageHint =
    | UsageDynamicCopy
    | UsageDynamicDraw
    | UsageDynamicRead
    | UsageStaticCopy
    | UsageStaticDraw
    | UsageStaticRead
    | UsageStreamCopy
    | UsageStreamDraw
    | UsageStreamRead

  function UsageHintToGL(e: UsageHint): int
  {
    match e
    case UsageDynamicCopy => GL_DYNAMIC_COPY
    case UsageDynamicDraw => GL_DYNAMIC_DRAW
    case UsageDynamicRead => GL_DYNAMIC_READ
    case UsageStaticCopy => GL_STATIC_COPY
    case UsageStaticDraw => GL_STATIC_DRAW
    case UsageStaticRead => GL_STATIC_READ
    case UsageStreamCopy => GL_STREAM_COPY
    case UsageStreamDraw => GL_STREAM_DRAW
    case UsageStreamRead => GL_STREAM_READ
  }

  /** A code outside the table is refused: the source throws an "unreachable code" AssertionError. */
  function UsageHintFromGL(code: int): (r: Option<UsageHint>)
    ensures r.Some? ==> UsageHintToGL(r.value) == code
    ensures r.None? ==> forall e: UsageHint :: UsageHintToGL(e) != code
  {
    if code == GL_DYNAMIC_COPY then Some(UsageHint.UsageDynamicCopy)
    else if code == GL_DYNAMIC_DRAW then Some(UsageHint.UsageDynamicDraw)
    else if code == GL_DYNAMIC_READ then Some(UsageHint.UsageDynamicRead)
    else if code == GL_STATIC_COPY then Some(UsageHint.UsageStaticCopy)
    else if code == GL_STATIC_DRAW then Some(UsageHint.UsageStaticDraw)
    else if code == GL_STATIC_READ then Some(UsageHint.UsageStaticRead)
    else if code == GL_STREAM_COPY then Some(UsageHint.UsageStreamCopy)
    else if code == GL_STREAM_DRAW then Some(UsageHint.UsageStreamDraw)
    else if code == GL_STREAM_READ then Some(UsageHint.UsageStreamRead)
    else None
  }

  lemma UsageHintRoundTrip(e: UsageHint)
    ensures UsageHintFromGL(UsageHintToGL(e)) == Some(e)
  {
  }
}
