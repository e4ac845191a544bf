// Buffer allocation: the preconditions, the index-type choice and the byte
// counts of the array, index and pixel-unpack buffer allocators.  The driver
// is reduced to the name glGenBuffers produces and the error code glGetError
// reports; the GL calls an allocation makes are returned as a trace.

module Buffers {
  import opened Wrappers
  import opened GLConstants
  import E = ES2Conversions
  import G = GL3Conversions

  const LONG_MIN: int := -0x8000_0000_0000_0000
  const LONG_MAX: int := 0x7FFF_FFFF_FFFF_FFFF
  const TWO_TO_64: int := 0x1_0000_0000_0000_0000

  predicate IsLong(x: int)
  {
    LONG_MIN <= x <= LONG_MAX
  }

  /** Two's-complement reduction of an exact product to a Java long. */
  function Wrap64(x: int): (r: int)
    ensures IsLong(r)
    ensures (x - r) % TWO_TO_64 == 0
    ensures IsLong(x) ==> r == x
  {
    (x - LONG_MIN) % TWO_TO_64 + LONG_MIN
  }

  /** Java's `a * b` on two longs. */
  function LongMul(a: int, b: int): int
  {
    Wrap64(a * b)
  }

  /** A product that fits in a long is computed exactly. */
  lemma LongMulExact(a: int, b: int)
    requires IsLong(a * b)
    ensures LongMul(a, b) == a * b
  {
  }

  /** The product can wrap: 2^62 elements of 4 bytes each come to 0 bytes. */
  lemma LongMulWraps()
    ensures LongMul(0x4000_0000_0000_0000, 4) == 0
  {
  }

  // ---------------------------------------------------------------------
  // Index types

  /** Bytes per index of each unsigned index type. */
  function UnsignedSize(t: E.UnsignedType): (n: nat)
    ensures n == 1 || n == 2 || n == 4
  {
    match t
    case TypeUnsignedByte => 1
    case TypeUnsignedShort => 2
    case TypeUnsignedInt => 4
  }

  /** The largest index a type can hold. */
  function UnsignedMax(t: E.UnsignedType): nat
  {
    match t
    case TypeUnsignedByte => 0xff
    case TypeUnsignedShort => 0xffff
    case TypeUnsignedInt => 0xffff_ffff
  }

  /** t is the narrowest index type whose maximum value is at least
      `interval`, or the widest type when none is. */
  predicate SmallestCovering(t: E.UnsignedType, interval: int)
  {
    (interval <= UnsignedMax(t) || t == E.UnsignedType.TypeUnsignedInt)
    && forall u: E.UnsignedType :: UnsignedSize(u) < UnsignedSize(t) ==> UnsignedMax(u) < interval
  }

  /** At most one type is the smallest covering one. */
  lemma SmallestCoveringUnique(t1: E.UnsignedType, t2: E.UnsignedType, interval: int)
    requires SmallestCovering(t1, interval) && SmallestCovering(t2, interval)
    ensures t1 == t2
  {
    assert t1 != t2 ==> UnsignedSize(t1) < UnsignedSize(t2) || UnsignedSize(t2) < UnsignedSize(t1);
  }

  /** The thresholds 0xff and 0xffff the allocators compare against. */
  lemma SmallestCoveringThresholds(t: E.UnsignedType, interval: int)
    requires SmallestCovering(t, interval)
    ensures t == E.UnsignedType.TypeUnsignedByte <==> interval <= 0xff
    ensures t == E.UnsignedType.TypeUnsignedShort <==> 0xff < interval <= 0xffff
    ensures t == E.UnsignedType.TypeUnsignedInt <==> 0xffff < interval
  {
    assert UnsignedSize(E.UnsignedType.TypeUnsignedByte) < UnsignedSize(E.UnsignedType.TypeUnsignedShort);
    assert UnsignedSize(E.UnsignedType.TypeUnsignedShort) < UnsignedSize(E.UnsignedType.TypeUnsignedInt);
  }

  /** The index type the allocators pick for an array buffer whose range
      holds `interval` elements: byte, widened to short above 0xff and to int
      above 0xffff. */
  method IndexTypeFor(interval: int) returns (t: E.UnsignedType)
    ensures SmallestCovering(t, interval)
  {
    t := E.UnsignedType.TypeUnsignedByte;
    if interval > 0xff {
      t := E.UnsignedType.TypeUnsignedShort;
    }
    if interval > 0xffff {
      t := E.UnsignedType.TypeUnsignedInt;
    }
  }

  // ---------------------------------------------------------------------
  // Buffers and the GL calls that allocate them

  /** An array buffer of `elements` elements of `elementSize` bytes; its
      index range is [0, elements - 1]. */
  datatype ArrayBuffer = ArrayBuffer(name: int, elements: int, elementSize: int, deleted: bool)

  /** An index buffer whose index range is [lower, upper]. */
  datatype IndexBuffer = IndexBuffer(name: int, lower: int, upper: int, indexType: E.UnsignedType)

  datatype PixelUnpackBuffer =
    PixelUnpackBuffer(name: int, elements: int, elementType: G.ScalarType, elementValues: int)

  /** The number of values an inclusive range holds. */
  function Interval(lower: int, upper: int): int
  {
    upper - lower + 1
  }

  function ArrayBufferInterval(b: ArrayBuffer): (n: int)
    ensures n == b.elements
  {
    Interval(0, b.elements - 1)
  }

  datatype BufferCall =
    | GenBuffer
    | BindBuffer(target: int, name: int)
    | BufferData(target: int, bytes: int, usage: int)

  /** The three calls that create a buffer of `bytes` bytes. */
  function AllocationCalls(target: int, name: int, bytes: int, usage: int): seq<BufferCall>
  {
    [GenBuffer, BindBuffer(target, name), BufferData(target, bytes, usage)]
  }

  lemma IndexBytesExact(indices: int, t: E.UnsignedType)
    requires 1 <= indices <= INT_MAX
    ensures LongMul(indices, UnsignedSize(t)) == indices * UnsignedSize(t)
  {
    assert indices * UnsignedSize(t) <= INT_MAX * 4;
    LongMulExact(indices, UnsignedSize(t));
  }

  /** indexBufferAllocateType: `indices` must lie in [1, Integer.MAX_VALUE];
      the buffer holds indices * sizeof(t) bytes and the index range
      [0, indices - 1].  `glError` is the code the error checks report. */
  method IndexBufferAllocateType(t: E.UnsignedType, indices: int, name: int, glError: int)
    returns (r: Result<IndexBuffer>, calls: seq<BufferCall>)
    ensures !(1 <= indices <= INT_MAX) ==> r == Err(ConstraintError("Index count range")) && calls == []
    ensures 1 <= indices <= INT_MAX ==>
      calls == AllocationCalls(GL_ELEMENT_ARRAY_BUFFER, name, indices * UnsignedSize(t), GL_STREAM_DRAW)
    ensures r.Ok? <==> 1 <= indices <= INT_MAX && glError == GL_NO_ERROR
    ensures r.Ok? ==> r.value.name == name && r.value.indexType == t && r.value.lower == 0
                      && Interval(r.value.lower, r.value.upper) == indices
    ensures r.Err? && 1 <= indices <= INT_MAX ==> r.error == GLException(glError)
  {
    if !(1 <= indices <= INT_MAX) {
      return Err(ConstraintError("Index count range")), [];
    }
    var size := UnsignedSize(t);
    var bytesTotal := LongMul(indices, size);
    IndexBytesExact(indices, t);
    calls := AllocationCalls(GL_ELEMENT_ARRAY_BUFFER, name, bytesTotal, GL_STREAM_DRAW);
    if glError != GL_NO_ERROR {
      return Err(GLException(glError)), calls;
    }
    r := Ok(IndexBuffer(name, 0, indices - 1, t));
  }

  /** indexBufferAllocate of the ES2 backends: a live array buffer and a
      valid index count, then the narrowest index type for the array
      buffer's range, then indexBufferAllocateType. */
  method IndexBufferAllocate(buffer: ArrayBuffer, indices: int, name: int, glError: int)
    returns (r: Result<IndexBuffer>, calls: seq<BufferCall>)
    ensures buffer.deleted ==> r == Err(ConstraintError("Array buffer not deleted")) && calls == []
    ensures r.Ok? <==> !buffer.deleted && 1 <= indices <= INT_MAX && glError == GL_NO_ERROR
    ensures r.Ok? ==> SmallestCovering(r.value.indexType, buffer.elements)
                      && r.value.lower == 0 && Interval(r.value.lower, r.value.upper) == indices
    ensures !buffer.deleted && 1 <= indices <= INT_MAX ==>
      |calls| == 3 && calls[2].BufferData? && calls[2].target == GL_ELEMENT_ARRAY_BUFFER
      && exists t: E.UnsignedType :: SmallestCovering(t, buffer.elements)
                                     && calls[2].bytes == indices * UnsignedSize(t)
  {
    if buffer.deleted {
      return Err(ConstraintError("Array buffer not deleted")), [];
    }
    if !(1 <= indices <= INT_MAX) {
      return Err(ConstraintError("Index count range")), [];
    }
    var t := IndexTypeFor(ArrayBufferInterval(buffer));
    r, calls := IndexBufferAllocateType(t, indices, name, glError);
  }

  /** indexBufferAllocate of the OpenGL 3 interface: the same thresholds on
      the array buffer's element count, choosing the pair (type, bytes per
      index) in one step. */
  method IndexBufferAllocateGL3(buffer: ArrayBuffer, indices: int, name: int, glError: int)
    returns (r: Result<IndexBuffer>, calls: seq<BufferCall>)
    ensures buffer.deleted ==> r == Err(ConstraintError("Array buffer not deleted")) && calls == []
    ensures r.Ok? <==> !buffer.deleted && 1 <= indices <= INT_MAX && glError == GL_NO_ERROR
    ensures r.Ok? ==> SmallestCovering(r.value.indexType, buffer.elements)
                      && r.value.lower == 0 && Interval(r.value.lower, r.value.upper) == indices
    ensures !buffer.deleted && 1 <= indices <= INT_MAX ==>
      |calls| == 3 && calls[2].BufferData? && calls[2].target == GL_ELEMENT_ARRAY_BUFFER
      && exists t: E.UnsignedType :: SmallestCovering(t, buffer.elements)
                                     && calls[2].bytes == indices * UnsignedSize(t)
  {
    if buffer.deleted {
      return Err(ConstraintError("Array buffer not deleted")), [];
    }
    if !(1 <= indices <= INT_MAX) {
      return Err(ConstraintError("Index count range")), [];
    }
    var t := E.UnsignedType.TypeUnsignedByte;
    var size := 1;
    if buffer.elements > 0xff {
      t := E.UnsignedType.TypeUnsignedShort;
      size := 2;
    }
    if buffer.elements > 0xffff {
      t := E.UnsignedType.TypeUnsignedInt;
      size := 4;
    }
    assert size == UnsignedSize(t);
    var bytes := LongMul(indices, size);
    IndexBytesExact(indices, t);
    calls := AllocationCalls(GL_ELEMENT_ARRAY_BUFFER, name, bytes, GL_STREAM_DRAW);
    if glError != GL_NO_ERROR {
      return Err(GLException(glError)), calls;
    }
    r := Ok(IndexBuffer(name, 0, indices - 1, t));
  }

  /** arrayBufferAllocate: `elements` must lie in [1, Long.MAX_VALUE]; the
      buffer is given elements * elementSize bytes, computed as a Java long
      (see LongMulWraps), with the usage code `usage`. */
  method ArrayBufferAllocate(elements: int, elementSize: int, usage: int, name: int, glError: int)
    returns (r: Result<ArrayBuffer>, calls: seq<BufferCall>)
    requires IsLong(elementSize)
    ensures !(1 <= elements <= LONG_MAX) ==> r == Err(ConstraintError("Buffer elements")) && calls == []
    ensures 1 <= elements <= LONG_MAX ==>
      calls == AllocationCalls(GL_ARRAY_BUFFER, name, LongMul(elements, elementSize), usage)
    ensures r.Ok? <==> 1 <= elements <= LONG_MAX && glError == GL_NO_ERROR
    ensures r.Ok? ==> r.value == ArrayBuffer(name, elements, elementSize, false)
                      && ArrayBufferInterval(r.value) == elements
    ensures r.Err? && 1 <= elements <= LONG_MAX ==> r.error == GLException(glError)
  {
    if !(1 <= elements <= LONG_MAX) {
      return Err(ConstraintError("Buffer elements")), [];
    }
    var bytesTotal := LongMul(elements, elementSize);
    calls := AllocationCalls(GL_ARRAY_BUFFER, name, bytesTotal, usage);
    if glError != GL_NO_ERROR {
      return Err(GLException(glError)), calls;
    }
    r := Ok(ArrayBuffer(name, elements, elementSize, false));
  }

  /** An array buffer that is not too large gets exactly elements *
      elementSize bytes. */
  lemma ArrayBufferBytesExact(elements: int, elementSize: int)
    requires IsLong(elements * elementSize)
    ensures LongMul(elements, elementSize) == elements * elementSize
  {
    LongMulExact(elements, elementSize);
  }

  /** Bytes per value of each scalar type. */
  function ScalarSize(t: G.ScalarType): (n: nat)
    ensures 1 <= n <= 8
  {
    match t
    case TypeByte => 1
    case TypeUnsignedByte => 1
    case TypeShort => 2
    case TypeUnsignedShort => 2
    case TypeInt => 4
    case TypeUnsignedInt => 4
    case TypeFloat => 4
    case TypeDouble => 8
  }

  /** pixelUnpackBufferAllocate: both counts must lie in [1, Long.MAX_VALUE];
      the byte count is (elementValues * sizeof(t)) * elements as Java longs.
      The usage hint is required but the buffer is always created with
      STREAM_DRAW. */
  method PixelUnpackBufferAllocate(elements: int, t: G.ScalarType, elementValues: int,
                                   hint: G.UsageHint, name: int, glError: int)
    returns (r: Result<PixelUnpackBuffer>, calls: seq<BufferCall>)
    ensures !(1 <= elements <= LONG_MAX) ==> r == Err(ConstraintError("Element count")) && calls == []
    ensures 1 <= elements <= LONG_MAX && !(1 <= elementValues <= LONG_MAX) ==>
      r == Err(ConstraintError("Element values")) && calls == []
    ensures r.Ok? <==> 1 <= elements <= LONG_MAX && 1 <= elementValues <= LONG_MAX && glError == GL_NO_ERROR
    ensures r.Ok? ==> r.value == PixelUnpackBuffer(name, elements, t, elementValues)
    ensures 1 <= elements <= LONG_MAX && 1 <= elementValues <= LONG_MAX ==>
      calls == AllocationCalls(GL_PIXEL_UNPACK_BUFFER, name,
                               LongMul(LongMul(elementValues, ScalarSize(t)), elements), GL_STREAM_DRAW)
    ensures r.Err? && 1 <= elements <= LONG_MAX && 1 <= elementValues <= LONG_MAX ==>
      r.error == GLException(glError)
  {
    if !(1 <= elements <= LONG_MAX) {
      return Err(ConstraintError("Element count")), [];
    }
    if !(1 <= elementValues <= LONG_MAX) {
      return Err(ConstraintError("Element values")), [];
    }
    var bytes := LongMul(LongMul(elementValues, ScalarSize(t)), elements);
    calls := AllocationCalls(GL_PIXEL_UNPACK_BUFFER, name, bytes, GL_STREAM_DRAW);
    if glError != GL_NO_ERROR {
      return Err(GLException(glError)), calls;
    }
    r := Ok(PixelUnpackBuffer(name, elements, t, elementValues));
  }

  /** When the product fits, the pixel-unpack byte count is the plain
      product of the three factors. */
  lemma PixelUnpackBytesExact(elements: int, t: G.ScalarType, elementValues: int)
    requires 1 <= elements && 1 <= elementValues
    requires elementValues * ScalarSize(t) * elements <= LONG_MAX
    ensures LongMul(LongMul(elementValues, ScalarSize(t)), elements)
            == elementValues * ScalarSize(t) * elements
  {
    var s := ScalarSize(t);
    assert elementValues * s <= elementValues * s * elements by {
      assert elementValues * s >= 1;
      MulMonotone(elementValues * s, elements);
    }
    LongMulExact(elementValues, s);
    LongMulExact(elementValues * s, elements);
  }

  lemma MulMonotone(a: int, b: int)
    requires a >= 1 && b >= 1
    ensures a <= a * b
  {
    assert a * b == a + a * (b - 1);
  }
}
