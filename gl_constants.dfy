// The OpenGL enumerants the bindings translate to and from.  The values are
// those of the Khronos headers; the model relies only on their being distinct
// within each conversion table.

module GLConstants {

  const GL_NO_ERROR: int := 0

  // blend equations
  const GL_FUNC_ADD: int := 0x8006
  const GL_MIN: int := 0x8007
  const GL_MAX: int := 0x8008
  const GL_FUNC_SUBTRACT: int := 0x800A
  const GL_FUNC_REVERSE_SUBTRACT: int := 0x800B

  // blend factors
  const GL_ZERO: int := 0
  const GL_ONE: int := 1
  const GL_SRC_COLOR: int := 0x0300
  const GL_ONE_MINUS_SRC_COLOR: int := 0x0301
  const GL_SRC_ALPHA: int := 0x0302
  const GL_ONE_MINUS_SRC_ALPHA: int := 0x0303
  const GL_DST_ALPHA: int := 0x0304
  const GL_ONE_MINUS_DST_ALPHA: int := 0x0305
  const GL_DST_COLOR: int := 0x0306
  const GL_ONE_MINUS_DST_COLOR: int := 0x0307
  const GL_SRC_ALPHA_SATURATE: int := 0x0308
  const GL_CONSTANT_COLOR: int := 0x8001
  const GL_ONE_MINUS_CONSTANT_COLOR: int := 0x8002
  const GL_CONSTANT_ALPHA: int := 0x8003
  const GL_ONE_MINUS_CONSTANT_ALPHA: int := 0x8004

  // depth functions
  const GL_NEVER: int := 0x0200
  const GL_LESS: int := 0x0201
  const GL_EQUAL: int := 0x0202
  const GL_LEQUAL: int := 0x0203
  const GL_GREATER: int := 0x0204
  const GL_NOTEQUAL: int := 0x0205
  const GL_GEQUAL: int := 0x0206
  const GL_ALWAYS: int := 0x0207

  // faces and winding
  const GL_FRONT: int := 0x0404
  const GL_BACK: int := 0x0405
  const GL_FRONT_AND_BACK: int := 0x0408
  const GL_CW: int := 0x0900
  const GL_CCW: int := 0x0901

  // primitives
  const GL_POINTS: int := 0
  const GL_LINES: int := 1
  const GL_LINE_LOOP: int := 2
  const GL_TRIANGLES: int := 4
  const GL_TRIANGLE_STRIP: int := 5

  // scalar types
  const GL_BYTE: int := 0x1400
  const GL_UNSIGNED_BYTE: int := 0x1401
  const GL_SHORT: int := 0x1402
  const GL_UNSIGNED_SHORT: int := 0x1403
  const GL_INT: int := 0x1404
  const GL_UNSIGNED_INT: int := 0x1405
  const GL_FLOAT: int := 0x1406
  const GL_DOUBLE: int := 0x140A

  // logic operations
  const GL_CLEAR: int := 0x1500
  const GL_AND: int := 0x1501
  const GL_AND_REVERSE: int := 0x1502
  const GL_COPY: int := 0x1503
  const GL_AND_INVERTED: int := 0x1504
  const GL_NOOP: int := 0x1505
  const GL_XOR: int := 0x1506
  const GL_OR: int := 0x1507
  const GL_NOR: int := 0x1508
  const GL_EQUIV: int := 0x1509
  const GL_INVERT: int := 0x150A
  const GL_OR_REVERSE: int := 0x150B
  const GL_COPY_INVERTED: int := 0x150C
  const GL_OR_INVERTED: int := 0x150D
  const GL_NAND: int := 0x150E
  const GL_SET: int := 0x150F

  // polygon modes
  const GL_POINT: int := 0x1B00
  const GL_LINE: int := 0x1B01
  const GL_FILL: int := 0x1B02

  // texture filters and wrapping
  const GL_NEAREST: int := 0x2600
  const GL_LINEAR: int := 0x2601
  const GL_REPEAT: int := 0x2901
  const GL_CLAMP_TO_BORDER: int := 0x812D
  const GL_CLAMP_TO_EDGE: int := 0x812F
  const GL_MIRRORED_REPEAT: int := 0x8370

  // buffer usage hints
  const GL_STREAM_DRAW: int := 0x88E0
  const GL_STREAM_READ: int := 0x88E1
  const GL_STREAM_COPY: int := 0x88E2
  const GL_STATIC_DRAW: int := 0x88E4
  const GL_STATIC_READ: int := 0x88E5
  const GL_STATIC_COPY: int := 0x88E6
  const GL_DYNAMIC_DRAW: int := 0x88E8
  const GL_DYNAMIC_READ: int := 0x88E9
  const GL_DYNAMIC_COPY: int := 0x88EA

  // GLSL uniform and attribute types
  const GL_FLOAT_VEC2: int := 0x8B50
  const GL_FLOAT_VEC3: int := 0x8B51
  const GL_FLOAT_VEC4: int := 0x8B52
  const GL_INT_VEC2: int := 0x8B53
  const GL_INT_VEC3: int := 0x8B54
  const GL_INT_VEC4: int := 0x8B55
  const GL_BOOL: int := 0x8B56
  const GL_BOOL_VEC2: int := 0x8B57
  const GL_BOOL_VEC3: int := 0x8B58
  const GL_BOOL_VEC4: int := 0x8B59
  const GL_FLOAT_MAT2: int := 0x8B5A
  const GL_FLOAT_MAT3: int := 0x8B5B
  const GL_FLOAT_MAT4: int := 0x8B5C
  const GL_SAMPLER_1D: int := 0x8B5D
  const GL_SAMPLER_2D: int := 0x8B5E
  const GL_SAMPLER_3D: int := 0x8B5F
  const GL_SAMPLER_CUBE: int := 0x8B60
  const GL_SAMPLER_1D_SHADOW: int := 0x8B61
  const GL_SAMPLER_2D_SHADOW: int := 0x8B62
  const GL_FLOAT_MAT2x3: int := 0x8B65
  const GL_FLOAT_MAT2x4: int := 0x8B66
  const GL_FLOAT_MAT3x2: int := 0x8B67
  const GL_FLOAT_MAT3x4: int := 0x8B68
  const GL_FLOAT_MAT4x2: int := 0x8B69
  const GL_FLOAT_MAT4x3: int := 0x8B6A

  // framebuffers
  const GL_FRAMEBUFFER_COMPLETE: int := 0x8CD5
  const GL_FRAMEBUFFER: int := 0x8D40
  const GL_RENDERBUFFER: int := 0x8D41
  const GL_COLOR_ATTACHMENT0: int := 0x8CE0
  const GL_DEPTH_ATTACHMENT: int := 0x8D00
  const GL_STENCIL_ATTACHMENT: int := 0x8D20
  const GL_DEPTH_STENCIL_ATTACHMENT: int := 0x821A
  const GL_TEXTURE_2D: int := 0x0DE1

  // buffer targets
  const GL_ARRAY_BUFFER: int := 0x8892
  const GL_ELEMENT_ARRAY_BUFFER: int := 0x8893
  const GL_PIXEL_UNPACK_BUFFER: int := 0x88EC

  // capabilities
  const GL_BLEND: int := 0x0BE2
  const GL_LINE_SMOOTH: int := 0x0B20
}
