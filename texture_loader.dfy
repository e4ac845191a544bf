// The pixel side of the ImageIO texture loader (TextureLoaderImageIO):
// reading an image bottom row first, extracting ARGB components, writing the
// texels of a texture update, checking cube map faces, and the load paths that
// tie inference, allocation and writing together.  Images arrive decoded: the
// decoding and every GL call are outside the model, and a GL call that can
// fail is represented by the error code it reports.

module TextureLoaderImageIO {
  import opened Wrappers
  import opened TextureFormats
  import Limits

  /** A decoded image: `pixels` holds getRGB(x, y) at index y * width + x, with
      y = 0 the top row (Java2D's convention). */
  datatype Image = Image(width: nat, height: nat, kind: ImageType,
                         alphaPremultiplied: bool, pixels: seq<bv32>)

  predicate WellFormed(img: Image)
  {
    // BufferedImage reports its sides as Java ints
    && img.width <= INT_MAX && img.height <= INT_MAX
    && |img.pixels| == img.width * img.height
  }

  lemma PixelIndexInRange(width: nat, height: nat, x: nat, y: nat)
    requires x < width && y < height
    ensures y * width + x < width * height
  {
    calc {
      y * width + x;
    <
      y * width + width;
    ==
      (y + 1) * width;
    <=
      { assert y + 1 <= height; }
      height * width;
    }
  }

  /** The image pixel at column x, row y from the top. */
  function GetRGB(img: Image, x: nat, y: nat): bv32
    requires WellFormed(img) && x < img.width && y < img.height
  {
    PixelIndexInRange(img.width, img.height, x, y);
    img.pixels[y * img.width + x]
  }

  /** The image row that OpenGL row y (counted from the bottom) reads. */
  function FlipRow(height: nat, y: nat): (r: nat)
    requires y < height
    ensures r < height
  {
    height - 1 - y
  }

  /** The flip is an involution of [0, height), hence a bijection of it. */
  lemma FlipRowInvolution(height: nat, y: nat)
    requires y < height
    ensures FlipRow(height, FlipRow(height, y)) == y
  {
  }

  /** The pixel at (x, y) with OpenGL's bottom-left origin. */
  function ARGBAsOpenGL(img: Image, x: nat, y: nat): bv32
    requires WellFormed(img) && x < img.width && y < img.height
  {
    GetRGB(img, x, FlipRow(img.height, y))
  }

  /** OpenGL row 0 is the last image row and the last OpenGL row is the first
      image row. */
  lemma OpenGLRowsAreFlipped(img: Image, x: nat)
    requires WellFormed(img) && x < img.width && img.height > 0
    ensures ARGBAsOpenGL(img, x, 0) == GetRGB(img, x, img.height - 1)
    ensures ARGBAsOpenGL(img, x, img.height - 1) == GetRGB(img, x, 0)
  {
  }

  // Component extraction.  Java computes (argb >> k) & 0xFF on the signed
  // int; after the mask that is byte k/8 of the unsigned word, which is what
  // the division and remainder below compute.

  function Alpha(argb: bv32): (c: nat)
    ensures c < 256
  {
    (argb as int / 0x100_0000) % 256
  }

  function Red(argb: bv32): (c: nat)
    ensures c < 256
  {
    (argb as int / 0x1_0000) % 256
  }

  function Green(argb: bv32): (c: nat)
    ensures c < 256
  {
    (argb as int / 0x100) % 256
  }

  function Blue(argb: bv32): (c: nat)
    ensures c < 256
    ensures (argb as int - c) % 256 == 0
  {
    argb as int % 256
  }

  /** The four components are the four bytes of the ARGB word, alpha the
      highest: weighted by 2^24, 2^16, 2^8 and 1 they give the word back, and
      since each is below 256 no other four components do. */
  lemma {:induction false} ComponentsRecompose(argb: bv32)
    ensures argb as int == Alpha(argb) * 0x100_0000 + Red(argb) * 0x1_0000
                           + Green(argb) * 0x100 + Blue(argb)
  {
    Base256Digits(argb as int);
  }

  lemma Base256Digits(n: int)
    requires 0 <= n < 0x1_0000_0000
    ensures n == ((n / 0x100_0000) % 256) * 0x100_0000 + ((n / 0x1_0000) % 256) * 0x1_0000
                 + ((n / 0x100) % 256) * 0x100 + n % 256
  {
  }

  /** One texel as a writer puts it into the update cursor, as 8-bit
      components in the order the cursor receives them.  The scaling by
      1/256 and the products of the premultiplying writer are not modelled. */
  datatype Texel =
    | Texel1(r: nat)
    | Texel2(r: nat, g: nat)
    | Texel3(r: nat, g: nat, b: nat)
    | Texel4(r: nat, g: nat, b: nat, a: nat)
    | Texel4Premultiplied(r: nat, g: nat, b: nat, a: nat)

  /** The five writers write1f, write2f, write3f, write4f and
      write4fPremultiplied. */
  datatype Writer = Write1f | Write2f | Write3f | Write4f | Write4fPremultiplied

  function WriterComponents(w: Writer): nat
  {
    match w
    case Write1f => 1
    case Write2f => 2
    case Write3f => 3
    case Write4f | Write4fPremultiplied => 4
  }

  predicate WrittenBy(w: Writer, t: Texel)
  {
    match w
    case Write1f => t.Texel1?
    case Write2f => t.Texel2?
    case Write3f => t.Texel3?
    case Write4f => t.Texel4?
    case Write4fPremultiplied => t.Texel4Premultiplied?
  }

  /** The texel a writer produces for one ARGB pixel: red first, alpha last. */
  function TexelOf(w: Writer, argb: bv32): (t: Texel)
    ensures WrittenBy(w, t)
  {
    match w
    case Write1f => Texel1(Red(argb))
    case Write2f => Texel2(Red(argb), Green(argb))
    case Write3f => Texel3(Red(argb), Green(argb), Blue(argb))
    case Write4f => Texel4(Red(argb), Green(argb), Blue(argb), Alpha(argb))
    case Write4fPremultiplied =>
      Texel4Premultiplied(Red(argb), Green(argb), Blue(argb), Alpha(argb))
  }

  /** The first n texels of OpenGL row y. */
  function Row(img: Image, w: Writer, y: nat, n: nat): (r: seq<Texel>)
    requires WellFormed(img) && y < img.height && n <= img.width
    ensures |r| == n
    ensures forall t :: t in r ==> WrittenBy(w, t)
  {
    if n == 0 then [] else Row(img, w, y, n - 1) + [TexelOf(w, ARGBAsOpenGL(img, n - 1, y))]
  }

  /** The texels of OpenGL rows 0 .. n-1, bottom row first. */
  function Rows(img: Image, w: Writer, n: nat): (r: seq<Texel>)
    requires WellFormed(img) && n <= img.height
    ensures |r| == n * img.width
    ensures forall t :: t in r ==> WrittenBy(w, t)
  {
    if n == 0 then []
    else
      var r := Rows(img, w, n - 1) + Row(img, w, n - 1, img.width);
      assert |r| == (n - 1) * img.width + img.width == n * img.width;
      r
  }

  /** Everything a writer puts into the cursor for a whole image. */
  function Texels(img: Image, w: Writer): seq<Texel>
    requires WellFormed(img)
  {
    Rows(img, w, img.height)
  }

  lemma {:induction false} RowAt(img: Image, w: Writer, y: nat, n: nat, x: nat)
    requires WellFormed(img) && y < img.height && x < n <= img.width
    ensures Row(img, w, y, n)[x] == TexelOf(w, ARGBAsOpenGL(img, x, y))
  {
    if x < n - 1 {
      RowAt(img, w, y, n - 1, x);
    }
  }

  lemma {:induction false} RowsAt(img: Image, w: Writer, n: nat, x: nat, y: nat)
    requires WellFormed(img) && n <= img.height && x < img.width && y < n
    ensures y * img.width + x < |Rows(img, w, n)|
    ensures Rows(img, w, n)[y * img.width + x] == TexelOf(w, ARGBAsOpenGL(img, x, y))
  {
    PixelIndexInRange(img.width, n, x, y);
    var prefix := Rows(img, w, n - 1);
    assert |prefix| == (n - 1) * img.width;
    if y < n - 1 {
      PixelIndexInRange(img.width, n - 1, x, y);
      RowsAt(img, w, n - 1, x, y);
    } else {
      assert y * img.width + x - |prefix| == x;
      RowAt(img, w, n - 1, img.width, x);
    }
  }

  /** A writer emits exactly width * height texels, rows bottom-up (y outer)
      and columns left to right (x inner). */
  lemma TexelsLayout(img: Image, w: Writer, x: nat, y: nat)
    requires WellFormed(img) && x < img.width && y < img.height
    ensures |Texels(img, w)| == img.width * img.height
    ensures Texels(img, w)[y * img.width + x] == TexelOf(w, ARGBAsOpenGL(img, x, y))
  {
    RowsAt(img, w, img.height, x, y);
  }

  /** The nested loops of the writers, pushing into the update cursor. */
  method WriteTexels(img: Image, w: Writer) returns (out: seq<Texel>)
    requires WellFormed(img)
    ensures out == Texels(img, w)
  {
    out := [];
    var y: nat := 0;
    while y < img.height
      invariant y <= img.height
      invariant out == Rows(img, w, y)
    {
      var x: nat := 0;
      while x < img.width
        invariant x <= img.width
        invariant out == Rows(img, w, y) + Row(img, w, y, x)
      {
        var argb := ARGBAsOpenGL(img, x, y);
        out := out + [TexelOf(w, argb)];
        x := x + 1;
      }
      y := y + 1;
    }
  }

  /** The writer chosen for a texture format: by component count, with the
      premultiplying writer exactly when premultiplication is requested and
      the image is not already premultiplied; none for depth+stencil. */
  function WriterFor(f: TextureFormat, premultiply: bool, alreadyPremultiplied: bool): (r: Option<Writer>)
    ensures r.None? <==> f == Depth24Stencil8
    ensures r.Some? ==> WriterComponents(r.value) == ChannelCount(f)
    ensures r == Some(Write4fPremultiplied)
      <==> (ChannelCount(f) == 4 && premultiply && !alreadyPremultiplied)
  {
    var n := ChannelCount(f);
    if n == 4 then
      if premultiply && !alreadyPremultiplied then Some(Write4fPremultiplied) else Some(Write4f)
    else if n == 3 then Some(Write3f)
    else if n == 2 then Some(Write2f)
    else if n == 1 then Some(Write1f)
    else None
  }

  /** A custom image is converted to a 4-byte ABGR image of the same size.
      The colour conversion itself is outside the model: the ARGB values are
      kept. */
  function CustomToRGBA(img: Image): (c: Image)
    ensures c.kind == FourByteAbgr && !c.alphaPremultiplied
    ensures c.width == img.width && c.height == img.height && c.pixels == img.pixels
  {
    Image(img.width, img.height, FourByteAbgr, false, img.pixels)
  }

  /** The image the writers read: custom images are converted first. */
  function WrittenImage(img: Image): Image
  {
    if img.kind == Custom then CustomToRGBA(img) else img
  }

  /** What writeImageDataWithConversionToTexture puts into an update of type
      `dataType` when asked for format `f`. */
  function ConvertedTexels(premultiply: bool, img: Image, dataType: TextureFormat,
                           f: TextureFormat): (r: Result<seq<Texel>>)
    requires WellFormed(img)
    ensures f != dataType ==> r == Err(TypeError)
    ensures f == dataType && f == Depth24Stencil8 ==> r == Err(UnreachableCode)
    ensures r.Ok? <==> f == dataType && f != Depth24Stencil8
    ensures r.Ok? ==> |r.value| == img.width * img.height
    ensures r.Ok? ==> forall t :: t in r.value ==>
              WrittenBy(WriterFor(f, premultiply, WrittenImage(img).alphaPremultiplied).value, t)
  {
    if f != dataType then Err(TypeError)
    else
      var w := WriterFor(f, premultiply, WrittenImage(img).alphaPremultiplied);
      if w.None? then Err(UnreachableCode) else Ok(Texels(WrittenImage(img), w.value))
  }

  /** Each texel written for a four-component format is premultiplied exactly
      when premultiplication was requested and the image (after conversion)
      is not premultiplied already. */
  lemma PremultipliedWriterChoice(premultiply: bool, img: Image, f: TextureFormat, i: nat)
    requires WellFormed(img) && ChannelCount(f) == 4
    requires i < img.width * img.height
    ensures ConvertedTexels(premultiply, img, f, f).Ok?
    ensures ConvertedTexels(premultiply, img, f, f).value[i].Texel4Premultiplied?
      <==> premultiply && !WrittenImage(img).alphaPremultiplied
  {
    var w := WriterFor(f, premultiply, WrittenImage(img).alphaPremultiplied).value;
    var ts := ConvertedTexels(premultiply, img, f, f).value;
    assert ts[i] in ts;
    assert WrittenBy(w, ts[i]);
  }

  /** The API flavours a loader dispatches on. */
  datatype Api = GL2 | GL3 | GLES2 | GLES3

  /** The format inferred for an image on each flavour. */
  function InferredFormat(api: Api, k: ImageType): TextureFormat
  {
    match api
    case GL2 => InferTextureTypeGL2(k)
    case GL3 | GLES3 => InferTextureTypeGLES3(k)
    case GLES2 => InferTextureTypeES2(k)
  }

  /** The 2D allocator each flavour uses. */
  function Allocate2D(api: Api, f: TextureFormat, width: int, height: int): Result<Texture2D>
  {
    match api
    case GL2 => AllocateTexture2DGL2ES3(f, width, height)
    case GL3 | GLES3 => AllocateTexture2DGL3ES3(f, width, height)
    case GLES2 => AllocateTexture2DES2(f, width, height)
  }

  /** The cube allocator each flavour uses. */
  function AllocateCube(api: Api, f: TextureFormat, size: int): Result<TextureCube>
  {
    match api
    case GL2 => AllocateTextureCubeGL2ES3(f, size)
    case GL3 | GLES3 => AllocateTextureCubeGL3ES3(f, size)
    case GLES2 => AllocateTextureCubeGLES2(f, size)
  }

  /** The whole 2D allocation of a load: the loader's format switch (a format
      the flavour has no allocator for is unreachable), then the GL
      interface's texture2DStaticAllocate, which refuses a side below 2 (width
      first) and fails with the GL error its allocation reports. */
  function Texture2DAllocation(api: Api, f: TextureFormat, width: nat, height: nat,
                               allocError: int): (r: Result<Texture2D>)
    requires width <= INT_MAX && height <= INT_MAX
    ensures r.Ok? <==> Allocate2D(api, f, width, height).Ok? && width >= 2 && height >= 2
                       && allocError == 0
    ensures r.Ok? ==> r.value == Texture2D(f, width, height)
    ensures Allocate2D(api, f, width, height).Err? ==> r == Err(UnreachableCode)
    ensures Allocate2D(api, f, width, height).Ok? && width < 2 ==>
              r == Err(ConstraintError("Width"))
    ensures Allocate2D(api, f, width, height).Ok? && width >= 2 && height < 2 ==>
              r == Err(ConstraintError("Height"))
    ensures Allocate2D(api, f, width, height).Ok? && width >= 2 && height >= 2 && allocError != 0 ==>
              r == Err(GLException(allocError))
  {
    var texture := Allocate2D(api, f, width, height);
    if texture.Err? then texture
    else
      match Limits.Texture2DSizeCheck(width, height)
      case Fail(e) => Err(e)
      case Pass => if allocError != 0 then Err(GLException(allocError)) else texture
  }

  /** The whole cube allocation of a load: the format switch, then
      textureCubeStaticAllocate, which refuses a side below 2 and fails with
      the GL error its allocation reports. */
  function TextureCubeAllocation(api: Api, f: TextureFormat, size: nat,
                                 allocError: int): (r: Result<TextureCube>)
    requires size <= INT_MAX
    ensures r.Ok? <==> AllocateCube(api, f, size).Ok? && size >= 2 && allocError == 0
    ensures r.Ok? ==> r.value == TextureCube(f, size)
    ensures AllocateCube(api, f, size).Err? ==> r == Err(UnreachableCode)
    ensures AllocateCube(api, f, size).Ok? && size < 2 ==> r == Err(ConstraintError("Size"))
    ensures AllocateCube(api, f, size).Ok? && size >= 2 && allocError != 0 ==>
              r == Err(GLException(allocError))
  {
    var texture := AllocateCube(api, f, size);
    if texture.Err? then texture
    else
      match Limits.TextureCubeSizeCheck(size)
      case Fail(e) => Err(e)
      case Pass => if allocError != 0 then Err(GLException(allocError)) else texture
  }

  /** Whether the format inferred on a flavour can be allocated there. */
  lemma InferredAllocation(api: Api, k: ImageType, width: int, height: int)
    ensures Allocate2D(api, InferredFormat(api, k), width, height).Ok?
      <==> match api
           case GL2 => true
           case GL3 | GLES3 => !IsPackedImage(k)
           case GLES2 => k != Custom
    ensures AllocateCube(api, InferredFormat(api, k), width).Ok?
      <==> match api
           case GL2 => true
           case GL3 | GLES3 => !IsPackedImage(k)
           case GLES2 => k != Custom
  {
    InferredGL2AlwaysAllocates(k, width, height);
    InferredGLES3Allocation(k, width, height);
    InferredES2Allocation(k, width, height);
  }

  // Cube maps.

  datatype CubeFace = PositiveZ | NegativeZ | PositiveY | NegativeY | PositiveX | NegativeX

  /** One value per cube face. */
  datatype Cube<T> = Cube(positiveZ: T, negativeZ: T, positiveY: T, negativeY: T,
                          positiveX: T, negativeX: T)

  /** The faces in the order the loader checks and uploads them. */
  function FaceAt(i: nat): CubeFace
    requires i < 6
  {
    [PositiveZ, NegativeZ, PositiveY, NegativeY, PositiveX, NegativeX][i]
  }

  function Face<T>(c: Cube<T>, i: nat): T
    requires i < 6
  {
    match FaceAt(i)
    case PositiveZ => c.positiveZ
    case NegativeZ => c.negativeZ
    case PositiveY => c.positiveY
    case NegativeY => c.negativeY
    case PositiveX => c.positiveX
    case NegativeX => c.negativeX
  }

  lemma FacesInOrder<T>(c: Cube<T>)
    ensures Face(c, 0) == c.positiveZ && Face(c, 1) == c.negativeZ
    ensures Face(c, 2) == c.positiveY && Face(c, 3) == c.negativeY
    ensures Face(c, 4) == c.positiveX && Face(c, 5) == c.negativeX
  {
  }

  predicate SameSize(a: Image, b: Image)
  {
    a.width == b.width && a.height == b.height
  }

  /** checkSizeMatch: widths are compared before heights. */
  function CheckSizeMatch(x: Image, y: Image, i: nat): (r: Outcome)
    ensures r.Pass? <==> SameSize(x, y)
    ensures r == Fail(ParameterError(WidthMismatch(i))) <==> x.width != y.width
    ensures r == Fail(ParameterError(HeightMismatch(i)))
      <==> (x.width == y.width && x.height != y.height)
  {
    if x.width != y.width then Fail(ParameterError(WidthMismatch(i)))
    else if x.height != y.height then Fail(ParameterError(HeightMismatch(i)))
    else Pass
  }

  function AndThen(first: Outcome, next: Outcome): Outcome
  {
    if first.Fail? then first else next
  }

  /** checkCubeImageSizes: the positive Z face must be square and every other
      face, in the order -Z, +Y, -Y, +X, -X, must match it. */
  function CheckCubeImageSizes(c: Cube<Image>): (r: Outcome)
    ensures r.Pass? <==> (c.positiveZ.width == c.positiveZ.height
                          && forall i :: 0 <= i < 6 ==> SameSize(Face(c, i), c.positiveZ))
    ensures r == Fail(ParameterError(NotSquare)) <==> c.positiveZ.width != c.positiveZ.height
    ensures r.Fail? ==> r.error.ParameterError?
    ensures r.Fail? && r.error.ParameterError? && r.error.problem.WidthMismatch? ==>
              var k := r.error.problem.face;
              1 <= k < 6 && Face(c, k).width != c.positiveZ.width
              && forall j :: 0 <= j < k ==> SameSize(Face(c, j), c.positiveZ)
    ensures r.Fail? && r.error.ParameterError? && r.error.problem.HeightMismatch? ==>
              var k := r.error.problem.face;
              1 <= k < 6 && Face(c, k).width == c.positiveZ.width
              && Face(c, k).height != c.positiveZ.height
              && forall j :: 0 <= j < k ==> SameSize(Face(c, j), c.positiveZ)
  {
    FacesInOrder(c);
    var z := c.positiveZ;
    if z.width != z.height then Fail(ParameterError(NotSquare))
    else
      AndThen(CheckSizeMatch(z, c.negativeZ, 1),
      AndThen(CheckSizeMatch(z, c.positiveY, 2),
      AndThen(CheckSizeMatch(z, c.negativeY, 3),
      AndThen(CheckSizeMatch(z, c.positiveX, 4),
              CheckSizeMatch(z, c.negativeX, 5)))))
  }

  datatype Handedness = LeftHanded | RightHanded

  /** The texture operations the loader issues after allocation. */
  datatype TextureCall =
    | Update2D(data: seq<Texel>)
    | Delete2D
    | UpdateCubeFace(hand: Handedness, face: CubeFace, data: seq<Texel>)
    | DeleteCube

  /** The image loader; `premultiplyAlpha` is fixed when it is built. */
  class TextureLoader {
    const premultiplyAlpha: bool

    /** newTextureLoader (false) and newTextureLoaderWithAlphaPremultiplication
        (true). */
    constructor (premultiply: bool)
      ensures premultiplyAlpha == premultiply
    {
      premultiplyAlpha := premultiply;
    }

    /** writeImageDataWithConversionToTexture: refuses a format that is not
        the update's, converts a custom image and retries, otherwise runs the
        writer chosen by WriterFor. */
    method WriteImageDataWithConversionToTexture(img: Image, dataType: TextureFormat,
                                                 f: TextureFormat)
      returns (r: Result<seq<Texel>>)
      requires WellFormed(img)
      ensures r == ConvertedTexels(premultiplyAlpha, img, dataType, f)
      decreases if img.kind == Custom then 1 else 0
    {
      if f != dataType {
        return Err(TypeError);
      }
      if img.kind == Custom {
        r := WriteImageDataWithConversionToTexture(CustomToRGBA(img), dataType, f);
        return;
      }
      var w := WriterFor(f, premultiplyAlpha, img.alphaPremultiplied);
      if w.None? {
        return Err(UnreachableCode);
      }
      var out := WriteTexels(img, w.value);
      r := Ok(out);
    }

    /** load2DStaticSpecificImage_ES2 / _GL2ES3 / _GL3ES3: allocate, write,
        upload; the texture is deleted when writing or uploading fails, while
        a failed allocation (outside the try) propagates as it is.
        `allocError` and `updateError` are the errors the GL allocation and
        the GL upload report (0 for none). */
    method Load2DStaticSpecificImage(api: Api, f: TextureFormat, img: Image,
                                     allocError: int, updateError: int)
      returns (r: Result<Texture2D>, calls: seq<TextureCall>)
      requires WellFormed(img)
      ensures r.Ok? <==> (Allocate2D(api, f, img.width, img.height).Ok?
                          && img.width >= 2 && img.height >= 2 && allocError == 0
                          && updateError == 0)
      ensures r.Ok? ==> r.value == Texture2D(f, img.width, img.height)
                        && calls == [Update2D(ConvertedTexels(premultiplyAlpha, img, f, f).value)]
      ensures Texture2DAllocation(api, f, img.width, img.height, allocError).Err? ==>
                r == Err(Texture2DAllocation(api, f, img.width, img.height, allocError).error)
                && calls == []
      ensures r.Err? && Texture2DAllocation(api, f, img.width, img.height, allocError).Ok? ==>
                r == Err(GLException(updateError)) && |calls| == 2 && calls[1] == Delete2D
    {
      var texture := Texture2DAllocation(api, f, img.width, img.height, allocError);
      if texture.Err? {
        return Err(texture.error), [];
      }
      var data := WriteImageDataWithConversionToTexture(img, texture.value.format, f);
      if data.Err? {
        // the allocators accept no format without a writer
        assert false;
      }
      calls := [Update2D(data.value)];
      if updateError != 0 {
        return Err(GLException(updateError)), calls + [Delete2D];
      }
      r := Ok(texture.value);
    }

    /** load2DStaticInferred: infer the format for the flavour, then load. */
    method Load2DStaticInferred(api: Api, img: Image, allocError: int, updateError: int)
      returns (r: Result<Texture2D>, calls: seq<TextureCall>)
      requires WellFormed(img)
      ensures r.Ok? ==> r.value == Texture2D(InferredFormat(api, img.kind), img.width, img.height)
      ensures r.Ok? <==> (img.width >= 2 && img.height >= 2 && allocError == 0 && updateError == 0
                          && match api
                             case GL2 => true
                             case GL3 | GLES3 => !IsPackedImage(img.kind)
                             case GLES2 => img.kind != Custom)
      ensures img.width < 2 && Allocate2D(api, InferredFormat(api, img.kind), img.width, img.height).Ok? ==>
                r == Err(ConstraintError("Width")) && calls == []
    {
      var f := InferredFormat(api, img.kind);
      InferredAllocation(api, img.kind, img.width, img.height);
      r, calls := Load2DStaticSpecificImage(api, f, img, allocError, updateError);
    }

    /** Whether face i of a cube upload goes through: its data is written and
        the GL upload reports no error. */
    predicate FaceSucceeds(f: TextureFormat, images: Cube<Image>, errors: Cube<int>, i: nat)
      requires i < 6 && WellFormed(Face(images, i))
    {
      ConvertedTexels(premultiplyAlpha, Face(images, i), f, f).Ok? && Face(errors, i) == 0
    }

    /** The texels written for face i, for a format that has a writer. */
    function FaceTexels(f: TextureFormat, images: Cube<Image>, i: nat): seq<Texel>
      requires i < 6 && WellFormed(Face(images, i)) && f != Depth24Stencil8
    {
      ConvertedTexels(premultiplyAlpha, Face(images, i), f, f).value
    }

    /** The error face i fails with. */
    function FaceError(f: TextureFormat, images: Cube<Image>, errors: Cube<int>, i: nat): Failure
      requires i < 6 && WellFormed(Face(images, i))
    {
      var data := ConvertedTexels(premultiplyAlpha, Face(images, i), f, f);
      if data.Err? then data.error else GLException(Face(errors, i))
    }

    /** cubeUpdateFacesLH / cubeUpdateFacesRH: write and upload the faces in
        the order +Z, -Z, +Y, -Y, +X, -X; on the first failure stop, and when
        it is a GL exception delete the texture before rethrowing (the
        unreachable-code error of a format without a writer is not caught).
        `errors` holds the error each upload reports. */
    method CubeUpdateFaces(hand: Handedness, f: TextureFormat, images: Cube<Image>,
                           errors: Cube<int>)
      returns (r: Outcome, calls: seq<TextureCall>)
      requires forall i :: 0 <= i < 6 ==> WellFormed(Face(images, i))
      ensures r.Pass? <==> forall i :: 0 <= i < 6 ==> FaceSucceeds(f, images, errors, i)
      ensures r.Pass? ==> |calls| == 6 && forall i :: 0 <= i < 6 ==>
                FaceSucceeds(f, images, errors, i)
                && calls[i] == UpdateCubeFace(hand, FaceAt(i), FaceTexels(f, images, i))
      ensures r.Fail? && r.error.GLException? ==>
                0 < |calls| <= 7 && calls[|calls| - 1] == DeleteCube
                && forall j :: 0 <= j < |calls| - 1 ==> calls[j].UpdateCubeFace?
      ensures r.Fail? && !r.error.GLException? ==>
                f == Depth24Stencil8 && r == Fail(UnreachableCode) && calls == []
      ensures r.Fail? ==> exists k :: 0 <= k < 6 && !FaceSucceeds(f, images, errors, k)
                            && r.error == FaceError(f, images, errors, k)
                            && forall j :: 0 <= j < k ==> FaceSucceeds(f, images, errors, j)
    {
      calls := [];
      if f == Depth24Stencil8 {
        // writing the first face already throws, before any upload
        assert !FaceSucceeds(f, images, errors, 0);
        return Fail(UnreachableCode), calls;
      }
      var i: nat := 0;
      while i < 6
        invariant i <= 6 && |calls| == i
        invariant forall j :: 0 <= j < i ==>
                    FaceSucceeds(f, images, errors, j)
                    && calls[j] == UpdateCubeFace(hand, FaceAt(j), FaceTexels(f, images, j))
      {
        var data := WriteImageDataWithConversionToTexture(Face(images, i), f, f);
        calls := calls + [UpdateCubeFace(hand, FaceAt(i), data.value)];
        if Face(errors, i) != 0 {
          assert !FaceSucceeds(f, images, errors, i);
          return Fail(GLException(Face(errors, i))), calls + [DeleteCube];
        }
        i := i + 1;
      }
      r := Pass;
    }

    /** loadCube{LH,RH}StaticSpecificImage{GL2ES3,GL3ES3,GLES2}: check the face
        sizes, allocate a cube of the positive Z width, upload the faces.
        `allocError` is the error the GL allocation reports. */
    method LoadCubeStaticSpecificImage(api: Api, hand: Handedness, f: TextureFormat,
                                       images: Cube<Image>, allocError: int, errors: Cube<int>)
      returns (r: Result<TextureCube>, calls: seq<TextureCall>)
      requires WellFormed(images.positiveZ)
      requires forall i :: 0 <= i < 6 ==> WellFormed(Face(images, i))
      ensures CheckCubeImageSizes(images).Fail? ==>
                r == Err(CheckCubeImageSizes(images).error) && calls == []
      ensures CheckCubeImageSizes(images).Pass?
              && TextureCubeAllocation(api, f, images.positiveZ.width, allocError).Err? ==>
                r == Err(TextureCubeAllocation(api, f, images.positiveZ.width, allocError).error)
                && calls == []
      ensures r.Ok? <==> (CheckCubeImageSizes(images).Pass?
                          && AllocateCube(api, f, images.positiveZ.width).Ok?
                          && images.positiveZ.width >= 2 && allocError == 0
                          && forall i :: 0 <= i < 6 ==> FaceSucceeds(f, images, errors, i))
      ensures r.Ok? ==> r.value == TextureCube(f, images.positiveZ.width) && |calls| == 6
    {
      var sizes := CheckCubeImageSizes(images);
      if sizes.Fail? {
        return Err(sizes.error), [];
      }
      var texture := TextureCubeAllocation(api, f, images.positiveZ.width, allocError);
      if texture.Err? {
        return Err(texture.error), [];
      }
      var outcome;
      outcome, calls := CubeUpdateFaces(hand, f, images, errors);
      if outcome.Fail? {
        return Err(outcome.error), calls;
      }
      r := Ok(texture.value);
    }

    /** loadCube{LH,RH}StaticInferred: the format is inferred from the
        positive Z face.  Given matching sizes and uploads without error, the
        load succeeds exactly when the inferred format allocates. */
    method LoadCubeStaticInferred(api: Api, hand: Handedness, images: Cube<Image>,
                                  allocError: int, errors: Cube<int>)
      returns (r: Result<TextureCube>, calls: seq<TextureCall>)
      requires WellFormed(images.positiveZ)
      requires forall i :: 0 <= i < 6 ==> WellFormed(Face(images, i))
      ensures r.Ok? ==> r.value.format == InferredFormat(api, images.positiveZ.kind)
      ensures r.Ok? <==> (CheckCubeImageSizes(images).Pass?
                          && images.positiveZ.width >= 2 && allocError == 0
                          && (forall i :: 0 <= i < 6 ==> Face(errors, i) == 0)
                          && match api
                             case GL2 => true
                             case GL3 | GLES3 => !IsPackedImage(images.positiveZ.kind)
                             case GLES2 => images.positiveZ.kind != Custom)
    {
      var f := InferredFormat(api, images.positiveZ.kind);
      InferredAllocation(api, images.positiveZ.kind, images.positiveZ.width, images.positiveZ.width);
      assert ChannelCount(f) > 0;
      assert forall i :: 0 <= i < 6 ==> (FaceSucceeds(f, images, errors, i) <==> Face(errors, i) == 0);
      r, calls := LoadCubeStaticSpecificImage(api, hand, f, images, allocError, errors);
    }
  }
}
