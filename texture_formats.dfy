// Texture formats, image storage types, and the format decisions of the
// ImageIO texture loader (TextureLoaderImageIO): which format is inferred from
// an image, how formats are mapped down to OpenGL ES 2, and which formats each
// allocator accepts.

module TextureFormats {
  import opened Wrappers

  /** The texture formats the loader knows. */
  datatype TextureFormat =
    | Depth24Stencil8 | Depth16 | Depth24 | Depth32F
    | Rgba8 | Rgba4444 | Rgba5551 | Rgba1010102 | Rgba16 | Rgba16F | Rgba16I
    | Rgba16U | Rgba32F | Rgba32I | Rgba32U | Rgba8I | Rgba8U
    | Rgb8 | Rgb565 | Rgb16 | Rgb16F | Rgb16I | Rgb16U | Rgb32F | Rgb32I
    | Rgb32U | Rgb8I | Rgb8U
    | Rg8 | Rg16 | Rg16F | Rg16I | Rg16U | Rg32F | Rg32I | Rg32U | Rg8I | Rg8U
    | R8 | R16 | R16F | R16I | R16U | R32F | R32I | R32U | R8I | R8U

  /** The storage types of a decoded image (BufferedImage.getType()).  Java
      defines exactly these fourteen; the source's "default" branch is only
      reachable through Custom. */
  datatype ImageType =
    | Custom | IntRgb | IntArgb | IntArgbPre | IntBgr | ThreeByteBgr
    | FourByteAbgr | FourByteAbgrPre | UShort565Rgb | UShort555Rgb
    | ByteGray | UShortGray | ByteBinary | ByteIndexed

  /** Number of components the loader writes for a format: 4 for the RGBA
      family, 3 for RGB, 2 for RG, 1 for R and the depth formats, and 0 for
      the depth+stencil format, which has no writer. */
  function ChannelCount(f: TextureFormat): (n: nat)
    ensures n <= 4
    ensures n == 0 <==> f == Depth24Stencil8
  {
    match f
    case Depth24Stencil8 => 0
    case Depth16 | Depth24 | Depth32F => 1
    case Rgba8 | Rgba4444 | Rgba5551 | Rgba1010102 | Rgba16 | Rgba16F | Rgba16I
      | Rgba16U | Rgba32F | Rgba32I | Rgba32U | Rgba8I | Rgba8U => 4
    case Rgb8 | Rgb565 | Rgb16 | Rgb16F | Rgb16I | Rgb16U | Rgb32F | Rgb32I
      | Rgb32U | Rgb8I | Rgb8U => 3
    case Rg8 | Rg16 | Rg16F | Rg16I | Rg16U | Rg32F | Rg32I | Rg32U | Rg8I
      | Rg8U => 2
    case R8 | R16 | R16F | R16I | R16U | R32F | R32I | R32U | R8I | R8U => 1
  }

  /** The formats packed into 16 bits per texel. */
  predicate IsPacked16(f: TextureFormat)
  {
    f == Rgba4444 || f == Rgba5551 || f == Rgb565
  }

  /** The 16-bit unsigned normalised formats. */
  predicate IsNormalised16(f: TextureFormat)
  {
    f == Rgba16 || f == Rgb16 || f == Rg16 || f == R16
  }

  /** The formats OpenGL ES 2 can hold without conversion. */
  predicate IsES2Native(f: TextureFormat)
  {
    IsPacked16(f) || f == Rgba8 || f == Rgb8
  }

  predicate HasAlpha(k: ImageType)
  {
    k == IntArgb || k == IntArgbPre || k == FourByteAbgr || k == FourByteAbgrPre
  }

  predicate IsGray(k: ImageType)
  {
    k == ByteGray || k == ByteBinary || k == UShortGray
  }

  predicate IsPackedImage(k: ImageType)
  {
    k == UShort555Rgb || k == UShort565Rgb
  }

  /** Components an image of the given storage type carries, as the loader
      sees it: four when it has alpha (a custom image is converted to ABGR),
      one when it is gray, three otherwise. */
  function ImageChannels(k: ImageType): nat
  {
    if HasAlpha(k) || k == Custom then 4 else if IsGray(k) then 1 else 3
  }

  /** Format inferred for OpenGL ES 2: packed 16-bit formats, except for a
      custom image, which gets RGBA8. */
  function InferTextureTypeES2(k: ImageType): (f: TextureFormat)
    ensures ChannelCount(f) == (if HasAlpha(k) || k == Custom then 4 else 3)
    ensures IsPacked16(f) <==> k != Custom
    ensures k == Custom ==> f == Rgba8
  {
    match k
    case IntArgbPre | IntArgb | FourByteAbgrPre | FourByteAbgr => Rgba4444
    case UShort555Rgb | UShort565Rgb | ThreeByteBgr | ByteIndexed | IntRgb
      | IntBgr | ByteGray | ByteBinary | UShortGray => Rgb565
    case Custom => Rgba8
  }

  /** Format inferred for OpenGL 2: 8 bits per component, with alpha exactly
      when the image may carry alpha. */
  function InferTextureTypeGL2(k: ImageType): (f: TextureFormat)
    ensures f == Rgba8 || f == Rgb8
    ensures ChannelCount(f) == (if HasAlpha(k) || k == Custom then 4 else 3)
  {
    match k
    case IntArgbPre | IntArgb | FourByteAbgrPre | FourByteAbgr => Rgba8
    case UShort555Rgb | UShort565Rgb | ThreeByteBgr | ByteIndexed | IntRgb
      | IntBgr | ByteGray | ByteBinary | UShortGray => Rgb8
    case Custom => Rgba8
  }

  /** Format inferred for OpenGL 3 and OpenGL ES 3: as many components as the
      image has, packed 16-bit storage kept for the 555 and 565 images. */
  function InferTextureTypeGLES3(k: ImageType): (f: TextureFormat)
    ensures f == Rgba8 || f == Rgb8 || f == Rgb565 || f == R8
    ensures ChannelCount(f) == ImageChannels(k)
    ensures IsPacked16(f) <==> IsPackedImage(k)
  {
    match k
    case IntArgbPre | IntArgb | FourByteAbgrPre | FourByteAbgr => Rgba8
    case UShort555Rgb | UShort565Rgb => Rgb565
    case ThreeByteBgr | ByteIndexed | IntRgb | IntBgr => Rgb8
    case ByteGray | ByteBinary | UShortGray => R8
    case Custom => Rgba8
  }

  /** Maps a format to one OpenGL ES 2 can hold: native formats are kept,
      depth, RG8 and R8 widen to RGB8, RGBA32F narrows to RGBA8, and every
      other format is refused. */
  function TextureTypeES2Map(f: TextureFormat): (r: Result<TextureFormat>)
    ensures r.Ok? ==> IsES2Native(r.value)
    ensures IsES2Native(f) ==> r == Ok(f)
    ensures r.Ok? <==> (IsES2Native(f) || f == Depth16 || f == Depth24
                        || f == Depth32F || f == Rg8 || f == R8 || f == Rgba32F)
    ensures r.Err? ==> r.error == UnreachableCode
  {
    match f
    case Depth16 | Depth24 | Depth32F | Rg8 | R8 => Ok(Rgb8)
    case Rgba32F => Ok(Rgba8)
    case Rgba4444 | Rgba5551 | Rgba8 | Rgb565 | Rgb8 => Ok(f)
    case Depth24Stencil8 | Rgba1010102 | Rgba16 | Rgba16F | Rgba16I | Rgba16U
      | Rgba32I | Rgba32U | Rgba8I | Rgba8U | Rgb16 | Rgb16F | Rgb16I | Rgb16U
      | Rgb32F | Rgb32I | Rgb32U | Rgb8I | Rgb8U | Rg16 | Rg16F | Rg16I | Rg16U
      | Rg32F | Rg32I | Rg32U | Rg8I | Rg8U | R16 | R16F | R16I | R16U | R32F
      | R32I | R32U | R8I | R8U => Err(UnreachableCode)
  }

  lemma TextureTypeES2MapIdempotent(f: TextureFormat)
    requires TextureTypeES2Map(f).Ok?
    ensures TextureTypeES2Map(TextureTypeES2Map(f).value) == TextureTypeES2Map(f)
  {
  }

  /** The ES2 mapping never drops a component: depth, R and RG widen to RGB
      and RGBA32F stays four-component. */
  lemma TextureTypeES2MapKeepsChannels(f: TextureFormat)
    requires TextureTypeES2Map(f).Ok?
    ensures ChannelCount(TextureTypeES2Map(f).value) >= ChannelCount(f)
  {
    match f
    case Depth16 | Depth24 | Depth32F | Rg8 | R8 =>
    case Rgba32F =>
    case _ =>
  }

  /** An allocated two-dimensional texture. */
  datatype Texture2D = Texture2D(format: TextureFormat, width: int, height: int)

  /** An allocated cube map texture: six square faces of side `size`. */
  datatype TextureCube = TextureCube(format: TextureFormat, size: int)

  /** 2D allocation on OpenGL ES 2: only the packed 16-bit formats. */
  function AllocateTexture2DES2(f: TextureFormat, width: int, height: int): (r: Result<Texture2D>)
    ensures r.Ok? <==> IsPacked16(f)
    ensures r.Ok? ==> r.value == Texture2D(f, width, height)
    ensures r.Err? ==> r.error == UnreachableCode
  {
    match f
    case Rgba4444 | Rgba5551 | Rgb565 => Ok(Texture2D(f, width, height))
    case _ => Err(UnreachableCode)
  }

  /** 2D allocation on the OpenGL 2 side of the GL2/ES3 interface. */
  function AllocateTexture2DGL2ES3(f: TextureFormat, width: int, height: int): (r: Result<Texture2D>)
    ensures r.Ok? <==> f == Rgba8 || f == Rgb8
    ensures r.Ok? ==> r.value == Texture2D(f, width, height)
    ensures r.Err? ==> r.error == UnreachableCode
  {
    match f
    case Rgba8 | Rgb8 => Ok(Texture2D(f, width, height))
    case _ => Err(UnreachableCode)
  }

  /** 2D allocation on OpenGL 3 / OpenGL ES 3: every format with a writer
      except the packed 16-bit and the 16-bit normalised ones. */
  function AllocateTexture2DGL3ES3(f: TextureFormat, width: int, height: int): (r: Result<Texture2D>)
    ensures r.Ok? <==> (f != Depth24Stencil8 && !IsPacked16(f) && !IsNormalised16(f))
    ensures r.Ok? ==> r.value == Texture2D(f, width, height)
    ensures r.Err? ==> r.error == UnreachableCode
  {
    match f
    case Depth24Stencil8 => Err(UnreachableCode)
    case Rgba4444 | Rgba5551 | Rgb565 => Err(UnreachableCode)
    case Rgba16 | Rgb16 | Rg16 | R16 => Err(UnreachableCode)
    case Depth16 | Depth24 | Depth32F | Rgba8 | Rgba1010102 | Rgba16F | Rgba16I
      | Rgba16U | Rgba32F | Rgba32I | Rgba32U | Rgba8I | Rgba8U | Rgb8 | Rgb16F
      | Rgb16I | Rgb16U | Rgb32F | Rgb32I | Rgb32U | Rgb8I | Rgb8U | Rg8 | Rg16F
      | Rg16I | Rg16U | Rg32F | Rg32I | Rg32U | Rg8I | Rg8U | R8 | R16F | R16I
      | R16U | R32F | R32I | R32U | R8I | R8U => Ok(Texture2D(f, width, height))
  }

  /** Cube allocation on the OpenGL 2 side of the GL2/ES3 interface. */
  function AllocateTextureCubeGL2ES3(f: TextureFormat, size: int): (r: Result<TextureCube>)
    ensures r.Ok? <==> f == Rgba8 || f == Rgb8
    ensures r.Ok? ==> r.value == TextureCube(f, size)
    ensures r.Err? ==> r.error == UnreachableCode
  {
    match f
    case Rgba8 | Rgb8 => Ok(TextureCube(f, size))
    case _ => Err(UnreachableCode)
  }

  /** Cube allocation on OpenGL 3 / OpenGL ES 3: 8-bit RGBA, RGB and R. */
  function AllocateTextureCubeGL3ES3(f: TextureFormat, size: int): (r: Result<TextureCube>)
    ensures r.Ok? <==> f == Rgba8 || f == Rgb8 || f == R8
    ensures r.Ok? ==> r.value == TextureCube(f, size)
    ensures r.Err? ==> r.error == UnreachableCode
  {
    match f
    case Rgba8 | Rgb8 | R8 => Ok(TextureCube(f, size))
    case _ => Err(UnreachableCode)
  }

  /** Cube allocation on OpenGL ES 2: only the packed 16-bit formats. */
  function AllocateTextureCubeGLES2(f: TextureFormat, size: int): (r: Result<TextureCube>)
    ensures r.Ok? <==> IsPacked16(f)
    ensures r.Ok? ==> r.value == TextureCube(f, size)
    ensures r.Err? ==> r.error == UnreachableCode
  {
    match f
    case Rgba4444 | Rgba5551 | Rgb565 => Ok(TextureCube(f, size))
    case _ => Err(UnreachableCode)
  }

  // What inference and allocation together admit.

  /** On OpenGL 2 every inferred format allocates, as a 2D texture and as a
      cube map. */
  lemma InferredGL2AlwaysAllocates(k: ImageType, width: int, height: int)
    ensures AllocateTexture2DGL2ES3(InferTextureTypeGL2(k), width, height).Ok?
    ensures AllocateTextureCubeGL2ES3(InferTextureTypeGL2(k), width).Ok?
  {
  }

  /** On OpenGL 3 / ES 3 the inferred format allocates unless the image is a
      555 or 565 one: those infer RGB565, which neither allocator takes. */
  lemma InferredGLES3Allocation(k: ImageType, width: int, height: int)
    ensures AllocateTexture2DGL3ES3(InferTextureTypeGLES3(k), width, height).Ok?
      <==> !IsPackedImage(k)
    ensures AllocateTextureCubeGL3ES3(InferTextureTypeGLES3(k), width).Ok?
      <==> !IsPackedImage(k)
  {
  }

  /** On OpenGL ES 2 the inferred format allocates unless the image is a
      custom one, which infers RGBA8. */
  lemma InferredES2Allocation(k: ImageType, width: int, height: int)
    ensures AllocateTexture2DES2(InferTextureTypeES2(k), width, height).Ok? <==> k != Custom
    ensures AllocateTextureCubeGLES2(InferTextureTypeES2(k), width).Ok? <==> k != Custom
  {
  }

  /** Every format the ES2 mapping produces is one that both ES2 allocators
      accept, or is RGBA8 / RGB8. */
  lemma ES2MapLandsInES2Allocators(f: TextureFormat, width: int, height: int)
    requires TextureTypeES2Map(f).Ok?
    ensures AllocateTexture2DES2(TextureTypeES2Map(f).value, width, height).Ok?
      || AllocateTexture2DGL2ES3(TextureTypeES2Map(f).value, width, height).Ok?
  {
  }
}
