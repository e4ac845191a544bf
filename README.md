# jcanephora core, modelled in Dafny

jcanephora is a Java binding layer over OpenGL 3 and OpenGL ES 2. It has three
backends (JOGL against ES2, JOGL against GL3, LWJGL) and an ImageIO texture
loader. This project models the parts of those backends that decide
something:

- **Enumeration tables.** The translation between the library's enumerations
  and GL integer codes (`ES2Conversions`, `GL3Conversions`). Each table is
  proved to be a bijection onto its codes, and unknown codes are refused.
- **Buffers.** Array, index and pixel-unpack buffer allocation (`Buffers`):
  range checks, choice of the smallest index type, and byte counts computed
  in Java `long` arithmetic, wrap-around included.
- **Framebuffers.** Allocation with its attachment loop, deletion, and drawing
  attachments (`Framebuffers`). The ES2 and OpenGL 3 checks are compared with
  each other.
- **Blending.** The blending configuration chain (`Blending`), which forbids
  `SOURCE_ALPHA_SATURATE` as a destination factor on ES2.
- **Lines.** The line-width and line-smoothing state (`LineState`).
- **Shader source.** Reading shader source into per-line strings (`Shaders`),
  with `BufferedReader.readLine` splitting modelled exactly. A round trip with
  the joined text is proved.
- **Limits.** Texture unit and attachment point enumeration, and the size
  constraints of the allocators (`Limits`).
- **Versions.** Parsing of `GL_VERSION` and `GL_SHADING_LANGUAGE_VERSION`, with
  the Mesa 9.1 quirk (`Versions`). `String.replaceFirst`, `StringTokenizer`
  and `Integer.valueOf` are modelled exactly.
- **Texture loading.** The texture loader (`TextureFormats`,
  `TextureLoaderImageIO`), which covers:
  - format inference per GL flavour and the ES2 format mapping;
  - which formats each allocator accepts;
  - the vertical flip, the per-component texel writers, and the choice of
    the premultiplying writer;
  - cube-map face size checking and the upload order.

The GL driver is not modelled. Whatever the driver answers is a parameter of
the operation: `glGetError` codes, generated names, framebuffer status, the
currently bound framebuffer, reported maxima, image pixels. The GL calls an
operation makes are returned as a trace, which the contracts describe.

## Model

| member | source | states |
|---|---|---|
| Wrappers.CheckError | io7m-jcanephora-lwjgl/src/main/java/com/io7m/jcanephora/LWJGL_GLES2Functions.java:311-319 | A non-zero glGetError code becomes a GLException carrying that code, and zero passes; the same check is checkError in GLES2Functions.java (397-406) and JOGL_GLES2Functions.java (413-422). |
| ES2Conversions.BlendEquationEmbeddedFromGL | io7m-jcanephora-jogl/src/main/java/com/io7m/jcanephora/GLInterfaceEmbedded_JOGL_ES2_Actual.java:68-96 | Decoding a GL code for blend equations (ADD, REVERSE_SUBTRACT, SUBTRACT): a decoded value encodes back to the same code, and a code outside the table is refused (the source's UnreachableCodeException). |
| ES2Conversions.BlendEquationEmbeddedRoundTrip | io7m-jcanephora-jogl/src/main/java/com/io7m/jcanephora/GLInterfaceEmbedded_JOGL_ES2_Actual.java:68-96 | Every BlendEquationEmbedded value survives encoding and decoding: the pair is a bijection onto its table. |
| ES2Conversions.BlendFunctionFromGL | io7m-jcanephora-jogl/src/main/java/com/io7m/jcanephora/GLInterfaceEmbedded_JOGL_ES2_Actual.java:98-174 | Decoding a GL code for the 15 blend factors: a decoded value encodes back to the same code, and a code outside the table is refused (the source's UnreachableCodeException). |
| ES2Conversions.BlendFunctionRoundTrip | io7m-jcanephora-jogl/src/main/java/com/io7m/jcanephora/GLInterfaceEmbedded_JOGL_ES2_Actual.java:98-174 | Every BlendFunction value survives encoding and decoding: the pair is a bijection onto its table. |
| ES2Conversions.DepthFunctionFromGL | io7m-jcanephora-jogl/src/main/java/com/io7m/jcanephora/GLInterfaceEmbedded_JOGL_ES2_Actual.java:176-224 | Decoding a GL code for the 8 depth comparison functions: a decoded value encodes back to the same code, and a code outside the table is refused (the source's UnreachableCodeException). |
| ES2Conversions.DepthFunctionRoundTrip | io7m-jcanephora-jogl/src/main/java/com/io7m/jcanephora/GLInterfaceEmbedded_JOGL_ES2_Actual.java:176-224 | Every DepthFunction value survives encoding and decoding: the pair is a bijection onto its table. |
| ES2Conversions.FaceSelectionFromGL | io7m-jcanephora-jogl/src/main/java/com/io7m/jcanephora/GLInterfaceEmbedded_JOGL_ES2_Actual.java:226-254 | Decoding a GL code for face selections (back, front, both): a decoded value encodes back to the same code, and a code outside the table is refused (the source's UnreachableCodeException). |
| ES2Conversions.FaceSelectionRoundTrip | io7m-jcanephora-jogl/src/main/java/com/io7m/jcanephora/GLInterfaceEmbedded_JOGL_ES2_Actual.java:226-254 | Every FaceSelection value survives encoding and decoding: the pair is a bijection onto its table. |
| ES2Conversions.FaceWindingOrderFromGL | io7m-jcanephora-jogl/src/main/java/com/io7m/jcanephora/GLInterfaceEmbedded_JOGL_ES2_Actual.java:256-280 | Decoding a GL code for winding orders (CW, CCW): a decoded value encodes back to the same code, and a code outside the table is refused (the source's UnreachableCodeException). |
| ES2Conversions.FaceWindingOrderRoundTrip | io7m-jcanephora-jogl/src/main/java/com/io7m/jcanephora/GLInterfaceEmbedded_JOGL_ES2_Actual.java:256-280 | Every FaceWindingOrder value survives encoding and decoding: the pair is a bijection onto its table. |
| ES2Conversions.PrimitiveFromGL | io7m-jcanephora-jogl/src/main/java/com/io7m/jcanephora/GLInterfaceEmbedded_JOGL_ES2_Actual.java:282-318 | Decoding a GL code for the primitives (lines, line loop, points, triangles, triangle strip): a decoded value encodes back to the same code, and a code outside the table is refused (the source's UnreachableCodeException). |
| ES2Conversions.PrimitiveRoundTrip | io7m-jcanephora-jogl/src/main/java/com/io7m/jcanephora/GLInterfaceEmbedded_JOGL_ES2_Actual.java:282-318 | Every Primitive value survives encoding and decoding: the pair is a bijection onto its table. |
| ES2Conversions.ScalarTypeFromGL | io7m-jcanephora-jogl/src/main/java/com/io7m/jcanephora/GLInterfaceEmbedded_JOGL_ES2_Actual.java:320-364 | Decoding a GL code for scalar types (byte to float): a decoded value encodes back to the same code, and a code outside the table is refused (the source's UnreachableCodeException). |
| ES2Conversions.ScalarTypeRoundTrip | io7m-jcanephora-jogl/src/main/java/com/io7m/jcanephora/GLInterfaceEmbedded_JOGL_ES2_Actual.java:320-364 | Every ScalarType value survives encoding and decoding: the pair is a bijection onto its table. |
| ES2Conversions.TextureFilterFromGL | io7m-jcanephora-jogl/src/main/java/com/io7m/jcanephora/GLInterfaceEmbedded_JOGL_ES2_Actual.java:437-461 | Decoding a GL code for texture filters (nearest, linear): a decoded value encodes back to the same code, and a code outside the table is refused (the source's UnreachableCodeException). |
| ES2Conversions.TextureFilterRoundTrip | io7m-jcanephora-jogl/src/main/java/com/io7m/jcanephora/GLInterfaceEmbedded_JOGL_ES2_Actual.java:437-461 | Every TextureFilter value survives encoding and decoding: the pair is a bijection onto its table. |
| ES2Conversions.TextureWrapFromGL | io7m-jcanephora-jogl/src/main/java/com/io7m/jcanephora/GLInterfaceEmbedded_JOGL_ES2_Actual.java:506-534 | Decoding a GL code for wrap modes (clamp to edge, mirrored repeat, repeat): a decoded value encodes back to the same code, and a code outside the table is refused (the source's UnreachableCodeException). |
| ES2Conversions.TextureWrapRoundTrip | io7m-jcanephora-jogl/src/main/java/com/io7m/jcanephora/GLInterfaceEmbedded_JOGL_ES2_Actual.java:506-534 | Every TextureWrap value survives encoding and decoding: the pair is a bijection onto its table. |
| ES2Conversions.GLSLTypeFromGL | io7m-jcanephora-jogl/src/main/java/com/io7m/jcanephora/GLInterfaceEmbedded_JOGL_ES2_Actual.java:536-628 | Decoding a GL code for GLSL types (scalars, vectors, square matrices, 2D and cube samplers): a decoded value encodes back to the same code, and a code outside the table is refused (the source's UnreachableCodeException). |
| ES2Conversions.GLSLTypeRoundTrip | io7m-jcanephora-jogl/src/main/java/com/io7m/jcanephora/GLInterfaceEmbedded_JOGL_ES2_Actual.java:536-628 | Every GLSLType value survives encoding and decoding: the pair is a bijection onto its table. |
| ES2Conversions.UnsignedTypeFromGL | io7m-jcanephora-jogl/src/main/java/com/io7m/jcanephora/GLInterfaceEmbedded_JOGL_ES2_Actual.java:630-658 | Decoding a GL code for index types (unsigned byte, short, int): a decoded value encodes back to the same code, and a code outside the table is refused (the source's UnreachableCodeException). |
| ES2Conversions.UnsignedTypeRoundTrip | io7m-jcanephora-jogl/src/main/java/com/io7m/jcanephora/GLInterfaceEmbedded_JOGL_ES2_Actual.java:630-658 | Every UnsignedType value survives encoding and decoding: the pair is a bijection onto its table. |
| ES2Conversions.UsageHintEmbeddedFromGL | io7m-jcanephora-jogl/src/main/java/com/io7m/jcanephora/GLInterfaceEmbedded_JOGL_ES2_Actual.java:660-688 | Decoding a GL code for usage hints (static, dynamic, stream draw): a decoded value encodes back to the same code, and a code outside the table is refused (the source's UnreachableCodeException). |
| ES2Conversions.UsageHintEmbeddedRoundTrip | io7m-jcanephora-jogl/src/main/java/com/io7m/jcanephora/GLInterfaceEmbedded_JOGL_ES2_Actual.java:660-688 | Every UsageHintEmbedded value survives encoding and decoding: the pair is a bijection onto its table. |
| GL3Conversions.BlendEquationFromGL | src/com/io7m/jcanephora/GLInterfaceJOGL30.java:46-84 | Decoding a GL code for blend equations including MAX and MIN: a decoded value encodes back to the same code, and a code outside the table is refused. |
| GL3Conversions.BlendEquationRoundTrip | src/com/io7m/jcanephora/GLInterfaceJOGL30.java:46-84 | Every BlendEquation value survives encoding and decoding. |
| GL3Conversions.LogicOperationFromGL | src/com/io7m/jcanephora/GLInterfaceJOGL30.java:278-360 | Decoding a GL code for all 16 logic operations: a decoded value encodes back to the same code, and a code outside the table is refused. |
| GL3Conversions.LogicOperationRoundTrip | src/com/io7m/jcanephora/GLInterfaceJOGL30.java:278-360 | Every LogicOperation value survives encoding and decoding. |
| GL3Conversions.PolygonModeFromGL | src/com/io7m/jcanephora/GLInterfaceJOGL30.java:362-392 | Decoding a GL code for polygon modes (fill, line, point): a decoded value encodes back to the same code, and a code outside the table is refused. |
| GL3Conversions.PolygonModeRoundTrip | src/com/io7m/jcanephora/GLInterfaceJOGL30.java:362-392 | Every PolygonMode value survives encoding and decoding. |
| GL3Conversions.ScalarTypeFromGL | src/com/io7m/jcanephora/GLInterfaceJOGL30.java:434-484 | Decoding a GL code for scalar types including DOUBLE: a decoded value encodes back to the same code, and a code outside the table is refused. |
| GL3Conversions.ScalarTypeRoundTrip | src/com/io7m/jcanephora/GLInterfaceJOGL30.java:434-484 | Every ScalarType value survives encoding and decoding. |
| GL3Conversions.TextureWrapFromGL | src/com/io7m/jcanephora/GLInterfaceJOGL30.java:550-584 | Decoding a GL code for wrap modes including CLAMP_TO_BORDER: a decoded value encodes back to the same code, and a code outside the table is refused. |
| GL3Conversions.TextureWrapRoundTrip | src/com/io7m/jcanephora/GLInterfaceJOGL30.java:550-584 | Every TextureWrap value survives encoding and decoding. |
| GL3Conversions.GLSLTypeFromGL | src/com/io7m/jcanephora/GLInterfaceJOGL30.java:586-712 | Decoding a GL code for GLSL types including non-square matrices and 1D samplers: a decoded value encodes back to the same code, and a code outside the table is refused. |
| GL3Conversions.GLSLTypeRoundTrip | src/com/io7m/jcanephora/GLInterfaceJOGL30.java:586-712 | Every GLSLType value survives encoding and decoding. |
| GL3Conversions.UsageHintFromGL | src/com/io7m/jcanephora/GLInterfaceJOGL30.java:746-800 | Decoding a GL code for the 9 usage hints: a decoded value encodes back to the same code, and a code outside the table is refused. |
| GL3Conversions.UsageHintRoundTrip | src/com/io7m/jcanephora/GLInterfaceJOGL30.java:746-800 | Every UsageHint value survives encoding and decoding. |
| TextureFormats.ChannelCount | io7m-jcanephora-texload-imageio/src/main/java/com/io7m/jcanephora/texload/imageio/TextureLoaderImageIO.java:4195-4305 | The component count a format is written with is at most 4, and 0 exactly for depth 24 / stencil 8, which has no writer. |
| TextureFormats.InferTextureTypeES2 | io7m-jcanephora-texload-imageio/src/main/java/com/io7m/jcanephora/texload/imageio/TextureLoaderImageIO.java:1331-1360 | ES2 inference picks a packed 16-bit format for every known image type, with 4 components exactly when the image has alpha; a custom image gets RGBA8. |
| TextureFormats.InferTextureTypeGL2 | io7m-jcanephora-texload-imageio/src/main/java/com/io7m/jcanephora/texload/imageio/TextureLoaderImageIO.java:1362-1391 | GL2 inference yields RGBA8 or RGB8, with 4 components exactly when the image has alpha or is custom. |
| TextureFormats.InferTextureTypeGLES3 | io7m-jcanephora-texload-imageio/src/main/java/com/io7m/jcanephora/texload/imageio/TextureLoaderImageIO.java:1393-1428 | GL3/ES3 inference yields RGBA8, RGB8, RGB565 or R8, with as many components as the image carries and a packed format exactly for 555/565 images. |
| TextureFormats.TextureTypeES2Map | io7m-jcanephora-texload-imageio/src/main/java/com/io7m/jcanephora/texload/imageio/TextureLoaderImageIO.java:1451-1517 | ES2-native formats are kept; depth, RG8 and R8 become RGB8 and RGBA32F becomes RGBA8; every other format is refused; the result is always ES2-native. |
| TextureFormats.TextureTypeES2MapIdempotent | io7m-jcanephora-texload-imageio/src/main/java/com/io7m/jcanephora/texload/imageio/TextureLoaderImageIO.java:1451-1517 | Mapping an already mapped format changes nothing. |
| TextureFormats.TextureTypeES2MapKeepsChannels | io7m-jcanephora-texload-imageio/src/main/java/com/io7m/jcanephora/texload/imageio/TextureLoaderImageIO.java:1451-1517 | The ES2 mapping never reduces the component count. |
| TextureFormats.AllocateTexture2DES2 | io7m-jcanephora-texload-imageio/src/main/java/com/io7m/jcanephora/texload/imageio/TextureLoaderImageIO.java:84-176 | The ES2 2D allocator accepts exactly the packed 16-bit formats; all others are unreachable. |
| TextureFormats.AllocateTexture2DGL2ES3 | io7m-jcanephora-texload-imageio/src/main/java/com/io7m/jcanephora/texload/imageio/TextureLoaderImageIO.java:178-259 | The GL2 2D allocator accepts exactly RGBA8 and RGB8. |
| TextureFormats.AllocateTexture2DGL3ES3 | io7m-jcanephora-texload-imageio/src/main/java/com/io7m/jcanephora/texload/imageio/TextureLoaderImageIO.java:261-729 | The GL3/ES3 2D allocator accepts every format except depth 24 / stencil 8, the packed 16-bit ones and the 16-bit normalised ones. |
| TextureFormats.AllocateTextureCubeGL2ES3 | io7m-jcanephora-texload-imageio/src/main/java/com/io7m/jcanephora/texload/imageio/TextureLoaderImageIO.java:731-816 | The GL2 cube allocator accepts exactly RGBA8 and RGB8. |
| TextureFormats.AllocateTextureCubeGL3ES3 | io7m-jcanephora-texload-imageio/src/main/java/com/io7m/jcanephora/texload/imageio/TextureLoaderImageIO.java:818-912 | The GL3/ES3 cube allocator accepts exactly RGBA8, RGB8 and R8. |
| TextureFormats.AllocateTextureCubeGLES2 | io7m-jcanephora-texload-imageio/src/main/java/com/io7m/jcanephora/texload/imageio/TextureLoaderImageIO.java:914-1014 | The ES2 cube allocator accepts exactly the packed 16-bit formats. |
| TextureFormats.InferredGL2AlwaysAllocates | io7m-jcanephora-texload-imageio/src/main/java/com/io7m/jcanephora/texload/imageio/TextureLoaderImageIO.java:1362-1391 | Both GL2 inference results are accepted by both GL2 allocators. |
| TextureFormats.InferredGLES3Allocation | io7m-jcanephora-texload-imageio/src/main/java/com/io7m/jcanephora/texload/imageio/TextureLoaderImageIO.java:1393-1428 | A GL3/ES3 inferred format allocates exactly when the image is not a 555/565 one (RGB565 is not accepted there). |
| TextureFormats.InferredES2Allocation | io7m-jcanephora-texload-imageio/src/main/java/com/io7m/jcanephora/texload/imageio/TextureLoaderImageIO.java:1331-1360 | An ES2 inferred format allocates exactly when the image is not a custom one (RGBA8 is not accepted there). |
| TextureFormats.ES2MapLandsInES2Allocators | io7m-jcanephora-texload-imageio/src/main/java/com/io7m/jcanephora/texload/imageio/TextureLoaderImageIO.java:1451-1517 | Every format the ES2 mapping produces is accepted by the ES2 allocator or is RGBA8/RGB8. |
| TextureLoaderImageIO.FlipRow | io7m-jcanephora-texload-imageio/src/main/java/com/io7m/jcanephora/texload/imageio/TextureLoaderImageIO.java:1322-1329 | The image row read for OpenGL row y lies in [0, height). |
| TextureLoaderImageIO.FlipRowInvolution | io7m-jcanephora-texload-imageio/src/main/java/com/io7m/jcanephora/texload/imageio/TextureLoaderImageIO.java:1322-1329 | Flipping twice gives the row back, so the flip is a bijection of [0, height). |
| TextureLoaderImageIO.OpenGLRowsAreFlipped | io7m-jcanephora-texload-imageio/src/main/java/com/io7m/jcanephora/texload/imageio/TextureLoaderImageIO.java:1322-1329 | OpenGL row 0 is the last image row and the last OpenGL row is the first image row. |
| TextureLoaderImageIO.Alpha | io7m-jcanephora-texload-imageio/src/main/java/com/io7m/jcanephora/texload/imageio/TextureLoaderImageIO.java:1588-1613 | The alpha channel, the highest byte of the ARGB word (`>>24` then masked), lies in [0, 255]; ComponentsRecompose ties it to that byte. |
| TextureLoaderImageIO.Red | io7m-jcanephora-texload-imageio/src/main/java/com/io7m/jcanephora/texload/imageio/TextureLoaderImageIO.java:1588-1613 | The red channel, the second byte of the ARGB word (`>>16` then masked), lies in [0, 255]; ComponentsRecompose ties it to that byte. |
| TextureLoaderImageIO.Green | io7m-jcanephora-texload-imageio/src/main/java/com/io7m/jcanephora/texload/imageio/TextureLoaderImageIO.java:1588-1613 | The green channel, the third byte of the ARGB word (`>>8` then masked), lies in [0, 255]; ComponentsRecompose ties it to that byte. |
| TextureLoaderImageIO.Blue | io7m-jcanephora-texload-imageio/src/main/java/com/io7m/jcanephora/texload/imageio/TextureLoaderImageIO.java:1588-1613 | The blue channel (the low byte of the ARGB word) lies in [0, 255] and differs from the word by a multiple of 256. |
| TextureLoaderImageIO.ComponentsRecompose | io7m-jcanephora-texload-imageio/src/main/java/com/io7m/jcanephora/texload/imageio/TextureLoaderImageIO.java:1588-1613 | Alpha, red, green and blue are the word's four bytes from the highest down: weighted by 2^24, 2^16, 2^8 and 1 they sum to the word, and with each below 256 this fixes every component. |
| TextureLoaderImageIO.TexelOf | io7m-jcanephora-texload-imageio/src/main/java/com/io7m/jcanephora/texload/imageio/TextureLoaderImageIO.java:1519-1653 | Each writer emits the components it is named for, red first and alpha last. |
| TextureLoaderImageIO.TexelsLayout | io7m-jcanephora-texload-imageio/src/main/java/com/io7m/jcanephora/texload/imageio/TextureLoaderImageIO.java:1588-1613 | A writer emits exactly width*height texels, y outer and x inner, texel y*width+x being pixel (x, y) in OpenGL orientation. |
| TextureLoaderImageIO.WriteTexels | io7m-jcanephora-texload-imageio/src/main/java/com/io7m/jcanephora/texload/imageio/TextureLoaderImageIO.java:1519-1653 | The nested y/x loops of write1f..write4fPremultiplied produce exactly the texel sequence Texels describes. |
| TextureLoaderImageIO.WriterFor | io7m-jcanephora-texload-imageio/src/main/java/com/io7m/jcanephora/texload/imageio/TextureLoaderImageIO.java:4241-4305 | The writer is chosen by component count (RGBA 4, RGB 3, RG 2, R and depth 1), none for depth 24 / stencil 8, and the premultiplying writer exactly when premultiplication is on and the image is not premultiplied already. |
| TextureLoaderImageIO.CustomToRGBA | io7m-jcanephora-texload-imageio/src/main/java/com/io7m/jcanephora/texload/imageio/TextureLoaderImageIO.java:1291-1302 | A custom image is converted to a non-premultiplied 4-byte ABGR image of the same size. |
| TextureLoaderImageIO.ConvertedTexels | io7m-jcanephora-texload-imageio/src/main/java/com/io7m/jcanephora/texload/imageio/TextureLoaderImageIO.java:4195-4318 | A type mismatch gives a type error and writes nothing; depth 24 / stencil 8 is unreachable; otherwise width*height texels come out, each in the writer's layout. |
| TextureLoaderImageIO.PremultipliedWriterChoice | io7m-jcanephora-texload-imageio/src/main/java/com/io7m/jcanephora/texload/imageio/TextureLoaderImageIO.java:4241-4253 | For a four-component format every texel is premultiplied exactly when the loader premultiplies and the image is not premultiplied yet. |
| TextureLoaderImageIO.InferredAllocation | io7m-jcanephora-texload-imageio/src/main/java/com/io7m/jcanephora/texload/imageio/TextureLoaderImageIO.java:1882-1974 | On each flavour the inferred format allocates except for custom images on ES2 and 555/565 images on GL3/ES3. |
| TextureLoaderImageIO.FacesInOrder | io7m-jcanephora-texload-imageio/src/main/java/com/io7m/jcanephora/texload/imageio/TextureLoaderImageIO.java:1179-1225 | The faces are visited in the order +Z, -Z, +Y, -Y, +X, -X. |
| TextureLoaderImageIO.CheckSizeMatch | io7m-jcanephora-texload-imageio/src/main/java/com/io7m/jcanephora/texload/imageio/TextureLoaderImageIO.java:1227-1289 | Passes exactly for equal sizes; a width mismatch is reported before a height mismatch. |
| TextureLoaderImageIO.CheckCubeImageSizes | io7m-jcanephora-texload-imageio/src/main/java/com/io7m/jcanephora/texload/imageio/TextureLoaderImageIO.java:1179-1225 | Passes exactly when +Z is square and every other face has its width and height; a non-square +Z is reported first, then the first mismatching face, width before height. |
| TextureLoaderImageIO.TextureLoader.constructor | io7m-jcanephora-texload-imageio/src/main/java/com/io7m/jcanephora/texload/imageio/TextureLoaderImageIO.java:1655-1662 | newTextureLoader and newTextureLoaderWithAlphaPremultiplication fix the premultiplication flag. |
| TextureLoaderImageIO.TextureLoader.WriteImageDataWithConversionToTexture | io7m-jcanephora-texload-imageio/src/main/java/com/io7m/jcanephora/texload/imageio/TextureLoaderImageIO.java:4195-4318 | The texels written are exactly ConvertedTexels for the loader's flag, the image and the two formats. |
| TextureLoaderImageIO.Texture2DAllocation | io7m-jcanephora-jogl/src/main/java/com/io7m/jcanephora/JOGL_GLES2Functions.java:2349-2366 | The format switch refuses an unsupported format as unreachable; then texture2DStaticAllocate refuses a width, then a height, below 2, and fails with the GL error the allocation reports; it succeeds exactly when all three pass. |
| TextureLoaderImageIO.TextureCubeAllocation | io7m-jcanephora-jogl/src/main/java/com/io7m/jcanephora/JOGL_GLES2Functions.java:2576-2592 | The format switch, then textureCubeStaticAllocate's side >= 2 check ("Size"), then the allocation's GL error; it succeeds exactly when all three pass. |
| TextureLoaderImageIO.TextureLoader.Load2DStaticSpecificImage | io7m-jcanephora-texload-imageio/src/main/java/com/io7m/jcanephora/texload/imageio/TextureLoaderImageIO.java:3298-3402 | The texture comes back exactly when the format is accepted, both sides are at least 2 and neither allocation nor upload reports an error. A failed allocation propagates with no upload; a failed upload deletes the texture and becomes a GL exception. |
| TextureLoaderImageIO.TextureLoader.Load2DStaticInferred | io7m-jcanephora-texload-imageio/src/main/java/com/io7m/jcanephora/texload/imageio/TextureLoaderImageIO.java:1882-1974 | The texture has the inferred format. Loading succeeds exactly when both sides are at least 2, allocation and upload report no error, and the format allocates (always on GL2, unless the image is 555/565 on GL3/ES3, unless it is custom on ES2); a width below 2 gives the "Width" constraint error with no GL call. |
| TextureLoaderImageIO.TextureLoader.CubeUpdateFaces | io7m-jcanephora-texload-imageio/src/main/java/com/io7m/jcanephora/texload/imageio/TextureLoaderImageIO.java:1664-1790 | All six faces are uploaded in order when each succeeds; a GL error stops at that face and deletes the cube; a format without a writer fails as unreachable before any upload, without a delete. |
| TextureLoaderImageIO.TextureLoader.LoadCubeStaticSpecificImage | io7m-jcanephora-texload-imageio/src/main/java/com/io7m/jcanephora/texload/imageio/TextureLoaderImageIO.java:3645-3797 | Face sizes are checked before anything is allocated, and a failed allocation propagates with no upload; a cube of the +Z side comes back exactly when the size check passes, the format is accepted, the side is at least 2, and allocation and all six uploads report no error. |
| TextureLoaderImageIO.TextureLoader.LoadCubeStaticInferred | io7m-jcanephora-texload-imageio/src/main/java/com/io7m/jcanephora/texload/imageio/TextureLoaderImageIO.java:3403-3546 | The cube has the format inferred from the +Z image; it succeeds exactly when the face sizes match, the side is at least 2, no allocation or upload error is reported and the inferred format allocates on that flavour. |
| Shaders.FirstTerminator | io7m-jcanephora-jogl/src/main/java/com/io7m/jcanephora/GLInterfaceEmbedded_JOGL_ES2_Actual.java:366-385 | The first line terminator ('\n' or '\r') of a text, or its length when there is none. |
| Shaders.SplitLines | io7m-jcanephora-jogl/src/main/java/com/io7m/jcanephora/GLInterfaceEmbedded_JOGL_ES2_Actual.java:366-385 | readLine's lines: none contains a terminator, and there are none exactly for the empty text. |
| Shaders.SplitJoin | io7m-jcanephora-jogl/src/main/java/com/io7m/jcanephora/GLInterfaceEmbedded_JOGL_ES2_Actual.java:366-385 | Splitting a text of '\n'-terminated lines gives those lines back. |
| Shaders.Terminated | io7m-jcanephora-jogl/src/main/java/com/io7m/jcanephora/GLInterfaceEmbedded_JOGL_ES2_Actual.java:366-385 | Each line gets its '\n' back, line by line. |
| Shaders.ShaderReadSource | io7m-jcanephora-jogl/src/main/java/com/io7m/jcanephora/GLInterfaceEmbedded_JOGL_ES2_Actual.java:366-385 | The lines are the old ones plus every read line with '\n' appended, each length the read line's length plus one, and paired lists stay paired; the same loop is shaderReadSource in JOGL_GLES2Functions.java (2205-2224) and GLES2Functions.java (2185-2204). |
| Shaders.ConcatTerminated | io7m-jcanephora-jogl/src/main/java/com/io7m/jcanephora/GLInterfaceEmbedded_JOGL_ES2_Actual.java:366-385 | Concatenating the terminated lines gives the '\n'-joined text. |
| Shaders.ReadSourceOfJoinedLines | io7m-jcanephora-jogl/src/main/java/com/io7m/jcanephora/GLInterfaceEmbedded_JOGL_ES2_Actual.java:366-385 | A text of '\n'-terminated lines reaches the shader compiler unchanged. |
| Buffers.Wrap64 | io7m-jcanephora-jogl/src/main/java/com/io7m/jcanephora/GLInterfaceEmbedded_JOGL_ES2_Actual.java:750-799 | Java long arithmetic: the result is a long congruent to the exact value modulo 2^64, and equal to it when it fits. |
| Buffers.LongMulExact | io7m-jcanephora-jogl/src/main/java/com/io7m/jcanephora/GLInterfaceEmbedded_JOGL_ES2_Actual.java:750-799 | A byte count whose exact product fits in a long is computed exactly. |
| Buffers.LongMulWraps | io7m-jcanephora-jogl/src/main/java/com/io7m/jcanephora/GLInterfaceEmbedded_JOGL_ES2_Actual.java:750-799 | The elements*size product of arrayBufferAllocate can wrap: 2^62 elements of 4 bytes give 0 bytes. |
| Buffers.UnsignedSize | io7m-jcanephora-jogl/src/main/java/com/io7m/jcanephora/GLInterfaceEmbedded_JOGL_ES2_Actual.java:1903-1950 | An index is 1, 2 or 4 bytes wide. |
| Buffers.SmallestCoveringUnique | io7m-jcanephora-jogl/src/main/java/com/io7m/jcanephora/GLInterfaceEmbedded_JOGL_ES2_Actual.java:1892-1898 | At most one index type is the smallest that covers a range. |
| Buffers.SmallestCoveringThresholds | io7m-jcanephora-jogl/src/main/java/com/io7m/jcanephora/GLInterfaceEmbedded_JOGL_ES2_Actual.java:1892-1898 | Unsigned byte exactly up to 0xff, unsigned short exactly in (0xff, 0xffff], unsigned int above 0xffff. |
| Buffers.IndexTypeFor | io7m-jcanephora-jogl/src/main/java/com/io7m/jcanephora/GLInterfaceEmbedded_JOGL_ES2_Actual.java:1892-1898 | The chosen index type is the smallest covering the interval; the same choice is in LWJGL_GLES2Functions.java (1192-1198), JOGL_GLES2Functions.java (1388-1394) and GLES2Functions.java (1334-1340). |
| Buffers.ArrayBufferInterval | io7m-jcanephora-jogl/src/main/java/com/io7m/jcanephora/GLInterfaceEmbedded_JOGL_ES2_Actual.java:1892-1898 | The range interval of an array buffer is its element count. |
| Buffers.IndexBytesExact | io7m-jcanephora-jogl/src/main/java/com/io7m/jcanephora/GLInterfaceEmbedded_JOGL_ES2_Actual.java:1903-1950 | indices*size never wraps for an int index count. |
| Buffers.IndexBufferAllocateType | io7m-jcanephora-jogl/src/main/java/com/io7m/jcanephora/GLInterfaceEmbedded_JOGL_ES2_Actual.java:1903-1950 | A count outside [1, INT_MAX] is refused before any GL call; otherwise indices*size bytes are allocated for the element array and the buffer records the range [0, indices-1]; a GL error fails it. |
| Buffers.IndexBufferAllocate | io7m-jcanephora-jogl/src/main/java/com/io7m/jcanephora/GLInterfaceEmbedded_JOGL_ES2_Actual.java:1880-1901 | A deleted array buffer is refused; otherwise the index type is the smallest covering the array buffer's interval and indices*size bytes are allocated. |
| Buffers.IndexBufferAllocateGL3 | src/com/io7m/jcanephora/GLInterfaceJOGL30.java:1667-1718 | The OpenGL 3 allocator picks (type, size) together by the same thresholds and allocates indices*size bytes. |
| Buffers.ArrayBufferAllocate | io7m-jcanephora-jogl/src/main/java/com/io7m/jcanephora/GLInterfaceEmbedded_JOGL_ES2_Actual.java:750-799 | elements outside [1, LONG_MAX] is refused; otherwise elements*size bytes (long arithmetic) are allocated with the given usage code. This file and GLInterfaceJOGL30.java (858-893) are the instance usage = STREAM_DRAW; JOGL_GLES2Functions.java (48-100) and LWJGL_GLES2Functions.java (56-106) pass the caller's hint. |
| Buffers.ArrayBufferBytesExact | io7m-jcanephora-jogl/src/main/java/com/io7m/jcanephora/GLInterfaceEmbedded_JOGL_ES2_Actual.java:750-799 | The byte count is the exact product whenever that fits in a long. |
| Buffers.ScalarSize | src/com/io7m/jcanephora/GLInterfaceJOGL30.java:1937-1985 | A scalar is 1 to 8 bytes wide. |
| Buffers.PixelUnpackBufferAllocate | src/com/io7m/jcanephora/GLInterfaceJOGL30.java:1937-1985 | Element count and values per element must each be at least 1; the buffer gets values*sizeof(type)*elements bytes, always with STREAM_DRAW. |
| Buffers.PixelUnpackBytesExact | src/com/io7m/jcanephora/GLInterfaceJOGL30.java:1937-1985 | The pixel-unpack byte count is exact whenever the full product fits in a long. |
| Framebuffers.Framebuffer.constructor | io7m-jcanephora-jogl/src/main/java/com/io7m/jcanephora/GLInterfaceEmbedded_JOGL_ES2_Actual.java:1635-1802 | A new framebuffer has its name and is not deleted. |
| Framebuffers.ES2Step | io7m-jcanephora-jogl/src/main/java/com/io7m/jcanephora/GLInterfaceEmbedded_JOGL_ES2_Actual.java:1658-1762 | Extending the checked prefix by one attachment keeps it acceptable exactly when that attachment fits (index in range and unused, or the first depth+stencil, storage not deleted). |
| Framebuffers.AttachAllES2 | io7m-jcanephora-jogl/src/main/java/com/io7m/jcanephora/GLInterfaceEmbedded_JOGL_ES2_Actual.java:1658-1762 | The attachment loop passes exactly when every index is in [0, max-1], no index repeats, there is at most one depth+stencil and nothing is deleted; on success it makes the attach calls in order and reports whether a colour buffer was seen. |
| Framebuffers.FramebufferAllocate | io7m-jcanephora-jogl/src/main/java/com/io7m/jcanephora/GLInterfaceEmbedded_JOGL_ES2_Actual.java:1635-1802 | The framebuffer is generated first; then an empty list is refused; otherwise it is bound, the attachments checked and attached, a list without colour refused, any status but COMPLETE turned into a GLException, and framebuffer 0 rebound at the end. |
| Framebuffers.AttachAllGL3 | src/com/io7m/jcanephora/GLInterfaceJOGL30.java:1521-1581 | The OpenGL 3 loop passes exactly when every colour index is in [0, max-1] and there is at most one depth+stencil; it stops at the first failing attachment with the calls made so far. |
| Framebuffers.FramebufferAttachStorage | src/com/io7m/jcanephora/GLInterfaceJOGL30.java:1499-1620 | A deleted framebuffer is refused; otherwise it is bound, the attachments checked and attached, and a status other than COMPLETE becomes a GLException. |
| Framebuffers.ES2ChecksSubsumeGL3 | io7m-jcanephora-jogl/src/main/java/com/io7m/jcanephora/GLInterfaceEmbedded_JOGL_ES2_Actual.java:1658-1762 | Every list the ES2 interface accepts is accepted by the OpenGL 3 checks. |
| Framebuffers.GL3ChecksAdmitMore | src/com/io7m/jcanephora/GLInterfaceJOGL30.java:1521-1581 | The OpenGL 3 checks accept duplicate colour indices, a list without colour and deleted storage, all of which the ES2 interface refuses. |
| Framebuffers.FramebufferDelete | io7m-jcanephora-jogl/src/main/java/com/io7m/jcanephora/GLInterfaceEmbedded_JOGL_ES2_Actual.java:1820-1844 | A deleted framebuffer is refused; otherwise it is deleted and marked deleted exactly when no GL error follows; also JOGL_GLES2Functions.java (889-914). |
| Framebuffers.FramebufferDeleteGL3AsWritten | src/com/io7m/jcanephora/GLInterfaceJOGL30.java:1638-1656 | The OpenGL 3 delete checks the flag and deletes, but never marks the framebuffer deleted. |
| Framebuffers.DoubleDeleteGL3AsWritten | src/com/io7m/jcanephora/GLInterfaceJOGL30.java:1638-1656 | As written, deleting the same framebuffer twice passes both times. |
| Framebuffers.DoubleDelete | io7m-jcanephora-jogl/src/main/java/com/io7m/jcanephora/GLInterfaceEmbedded_JOGL_ES2_Actual.java:1820-1844 | With the flag set on deletion, a second delete is refused. |
| Framebuffers.RenderbufferUsesExclusive | io7m-jcanephora-jogl/src/main/java/com/io7m/jcanephora/JOGL_GLES2Functions.java:1060-1254 | A renderbuffer type suits at most one of depth, stencil and depth+stencil attachment. |
| Framebuffers.FramebufferGuard | io7m-jcanephora-jogl/src/main/java/com/io7m/jcanephora/JOGL_GLES2Functions.java:930-940 | Attachment requires a live framebuffer that is the bound one; the deleted check comes first. |
| Framebuffers.FramebufferDrawAttachRenderbuffer | io7m-jcanephora-jogl/src/main/java/com/io7m/jcanephora/JOGL_GLES2Functions.java:924-1254 | Attaching a renderbuffer passes exactly when the framebuffer is live and bound, the renderbuffer live and of a suitable type (depth: depth-renderable, not stencil; stencil: the reverse; depth+stencil: both), and no GL error follows. |
| Framebuffers.FramebufferDrawAttachTexture | io7m-jcanephora-jogl/src/main/java/com/io7m/jcanephora/JOGL_GLES2Functions.java:968-1207 | Attaching a texture passes exactly when the framebuffer is live and bound, the texture live and colour- or depth-renderable as the attachment needs, and no GL error follows. |
| Blending.EnableSeparateWithEquationSeparateES2 | io7m-jcanephora-jogl/src/main/java/com/io7m/jcanephora/GLInterfaceEmbedded_JOGL_ES2_Actual.java:1027-1075 | SOURCE_ALPHA_SATURATE is refused as destination RGB factor, then as destination alpha factor; otherwise blending is on with the given factors and equations; also GLES2Functions.java (308-347). |
| Blending.EnableSeparateES2 | io7m-jcanephora-jogl/src/main/java/com/io7m/jcanephora/GLInterfaceEmbedded_JOGL_ES2_Actual.java:1010-1025 | The separate-factor call is the full call with ADD/ADD. |
| Blending.EnableES2 | io7m-jcanephora-jogl/src/main/java/com/io7m/jcanephora/GLInterfaceEmbedded_JOGL_ES2_Actual.java:997-1008 | blendingEnable(s, d) configures (s, s, d, d) and is refused exactly for a saturating destination. |
| Blending.EnableWithEquationES2 | io7m-jcanephora-jogl/src/main/java/com/io7m/jcanephora/GLInterfaceEmbedded_JOGL_ES2_Actual.java:1077-1091 | One equation for both RGB and alpha, same factor rules. |
| Blending.EnableWithEquationSeparateES2 | io7m-jcanephora-jogl/src/main/java/com/io7m/jcanephora/GLInterfaceEmbedded_JOGL_ES2_Actual.java:1093-1108 | Two equations, factors (s, s, d, d). |
| Blending.EnableES2IsAdditiveWithEquation | io7m-jcanephora-jogl/src/main/java/com/io7m/jcanephora/GLInterfaceEmbedded_JOGL_ES2_Actual.java:997-1091 | blendingEnable is blendingEnableWithEquation with ADD. |
| Blending.SaturateAllowedAsSource | io7m-jcanephora-jogl/src/main/java/com/io7m/jcanephora/GLInterfaceEmbedded_JOGL_ES2_Actual.java:1052-1057 | SOURCE_ALPHA_SATURATE is accepted as a source factor. |
| Blending.EnableSeparateWithEquationSeparateGL3 | src/com/io7m/jcanephora/GLInterfaceJOGL30.java:1126-1159 | The OpenGL 3 full call sets the factors and equations and fails only on a GL error. |
| Blending.EnableSeparateGL3 | src/com/io7m/jcanephora/GLInterfaceJOGL30.java:1109-1124 | The separate-factor call is the full call with ADD/ADD. |
| Blending.EnableGL3 | src/com/io7m/jcanephora/GLInterfaceJOGL30.java:1096-1107 | blendingEnable(s, d) configures (s, s, d, d). |
| Blending.EnableWithEquationGL3AsWritten | src/com/io7m/jcanephora/GLInterfaceJOGL30.java:1161-1175 | As written: factors (s, s, d, d) but always ADD/ADD. |
| Blending.EnableWithEquationGL3AsWrittenIgnoresEquation | src/com/io7m/jcanephora/GLInterfaceJOGL30.java:1161-1175 | Asking for MAX still configures ADD. |
| Blending.EnableWithEquationGL3 | src/com/io7m/jcanephora/GLInterfaceJOGL30.java:1161-1175 | Corrected: the requested equation is used for both RGB and alpha. |
| Blending.EnableWithEquationGL3Corrected | src/com/io7m/jcanephora/GLInterfaceJOGL30.java:1161-1175 | The corrected and the as-written versions agree exactly when the equation is ADD. |
| Blending.EnableWithEquationSeparateGL3 | src/com/io7m/jcanephora/GLInterfaceJOGL30.java:1177-1192 | Two equations, factors (s, s, d, d). |
| Blending.EnableGL3IsSeparate | src/com/io7m/jcanephora/GLInterfaceJOGL30.java:1096-1124 | blendingEnable(s, d) equals blendingEnableSeparate(s, s, d, d). |
| Blending.SaturateDestinationOnlyGL3 | src/com/io7m/jcanephora/GLInterfaceJOGL30.java:1126-1159 | OpenGL 3 accepts a saturating destination, which the ES2 interface refuses. |
| LineState.Lines.constructor | io7m-jcanephora-jogl/src/main/java/com/io7m/jcanephora/GLInterfaceEmbedded_JOGL_ES2_Actual.java:729-741 | The interface starts with smoothing off and the four reported width bounds. |
| LineState.Lines.SetWidth | io7m-jcanephora-jogl/src/main/java/com/io7m/jcanephora/GLInterfaceEmbedded_JOGL_ES2_Actual.java:2019-2041 | The width is checked against the smooth range when smoothing is on and the aliased range otherwise; the flag does not change; also GLInterfaceJOGL30.java (1829-1862) and GLES2Functions.java (1451-1474). |
| LineState.Lines.SmoothingEnable | io7m-jcanephora-jogl/src/main/java/com/io7m/jcanephora/GLInterfaceEmbedded_JOGL_ES2_Actual.java:2063-2070 | GL_LINE_SMOOTH is enabled and the flag set only when the error check passes. |
| LineState.Lines.SmoothingDisable | io7m-jcanephora-jogl/src/main/java/com/io7m/jcanephora/GLInterfaceEmbedded_JOGL_ES2_Actual.java:2054-2061 | GL_LINE_SMOOTH is disabled and the flag cleared only when the error check passes. |
| LineState.EnableThenSetWidth | io7m-jcanephora-jogl/src/main/java/com/io7m/jcanephora/GLES2Functions.java:1451-1494 | After a successful enable a width passes exactly when it is in the smooth range. |
| LineState.FailedEnableKeepsRange | io7m-jcanephora-jogl/src/main/java/com/io7m/jcanephora/GLES2Functions.java:1451-1494 | After a failed enable the aliased range still decides. |
| Limits.ConstrainRange | io7m-jcanephora-jogl/src/main/java/com/io7m/jcanephora/JOGL_GLES2Functions.java:2364-2366 | A value passes exactly when it lies in [lo, hi]; otherwise the named constraint fails. |
| Limits.Texture2DSizeCheck | io7m-jcanephora-jogl/src/main/java/com/io7m/jcanephora/JOGL_GLES2Functions.java:2364-2366 | texture2DStaticAllocate refuses a width or height below 2, width first. |
| Limits.TextureCubeSizeCheck | io7m-jcanephora-jogl/src/main/java/com/io7m/jcanephora/JOGL_GLES2Functions.java:2576-2591 | textureCubeStaticAllocate refuses a side below 2. |
| Limits.RenderbufferSizeCheck | io7m-jcanephora-jogl/src/main/java/com/io7m/jcanephora/JOGL_GLES2Functions.java:2087-2088 | renderbufferAllocate refuses a width or height below 1, width first. |
| Limits.Texture2DSizeStricterThanRenderbuffer | io7m-jcanephora-jogl/src/main/java/com/io7m/jcanephora/JOGL_GLES2Functions.java:2364-2366 | Every size the 2D texture check accepts the renderbuffer check accepts, but 1x1 only the latter. |
| Limits.UnitCount | io7m-jcanephora-lwjgl/src/main/java/com/io7m/jcanephora/LWJGL_GLES2Functions.java:2905-2906 | count = max(1, min(restrict(max), max)): always at least 1, at most max when max >= 1, the restriction itself when it is in [1, max]. |
| Limits.TextureUnitsClamped | io7m-jcanephora-lwjgl/src/main/java/com/io7m/jcanephora/LWJGL_GLES2Functions.java:2887-2921 | The LWJGL unit list has UnitCount entries, unit i having index i. |
| Limits.TextureUnitsArray | io7m-jcanephora-jogl/src/main/java/com/io7m/jcanephora/JOGL_GLES2Functions.java:2819-2845 | The JOGL unit array has exactly max entries, unit i having index i. |
| Limits.AttachmentPointsArray | io7m-jcanephora-jogl/src/main/java/com/io7m/jcanephora/GLES2Functions.java:1288-1317 | The attachment point array has exactly max entries, point i having index i. |
| Limits.AttachmentPointsList | io7m-jcanephora-lwjgl/src/main/java/com/io7m/jcanephora/LWJGL_GLES2Functions.java:1116-1141 | The LWJGL attachment point list has max entries (none for a negative max), point i having index i. |
| Limits.AttachmentPointsInRange | io7m-jcanephora-lwjgl/src/main/java/com/io7m/jcanephora/LWJGL_GLES2Functions.java:1116-1141 | Every offered attachment point index lies in [0, max). |
| Versions.VersionIsES | io7m-jcanephora-lwjgl/src/main/java/com/io7m/jcanephora/LWJGL_GLES2Functions.java:1399-1403 | A version string is ES exactly when it starts with "OpenGL ES". |
| Versions.StripPrefix | io7m-jcanephora-lwjgl/src/main/java/com/io7m/jcanephora/LWJGL_GLES2Functions.java:1387 | The anchored replaceFirst removes the prefix once when present and nothing otherwise. |
| Versions.RunLength | io7m-jcanephora-lwjgl/src/main/java/com/io7m/jcanephora/LWJGL_GLES2Functions.java:1388-1390 | The length of the leading run of non-delimiters. |
| Versions.Tokens | io7m-jcanephora-lwjgl/src/main/java/com/io7m/jcanephora/LWJGL_GLES2Functions.java:1388-1392 | StringTokenizer's tokens are non-empty and contain no delimiter. |
| Versions.TokensHead | io7m-jcanephora-lwjgl/src/main/java/com/io7m/jcanephora/LWJGL_GLES2Functions.java:1388-1392 | A delimiter-free run followed by a delimiter or the end is the next token. |
| Versions.TokensJoin | io7m-jcanephora-lwjgl/src/main/java/com/io7m/jcanephora/LWJGL_GLES2Functions.java:1388-1392 | Tokenising tokens joined by the delimiter gives them back. |
| Versions.ParseInt | io7m-jcanephora-lwjgl/src/main/java/com/io7m/jcanephora/LWJGL_GLES2Functions.java:1393-1396 | Integer.valueOf accepts an optional sign and decimal digits whose value is an int, and throws NumberFormatException otherwise. |
| Versions.ShowValue | io7m-jcanephora-lwjgl/src/main/java/com/io7m/jcanephora/LWJGL_GLES2Functions.java:1393-1396 | The decimal digits of n have value n. |
| Versions.ParseShow | io7m-jcanephora-lwjgl/src/main/java/com/io7m/jcanephora/LWJGL_GLES2Functions.java:1393-1396 | Integer.valueOf reads back the decimal text of every int, negative ones with a '-'. |
| Versions.ParseVersionWith | io7m-jcanephora-lwjgl/src/main/java/com/io7m/jcanephora/LWJGL_GLES2Functions.java:1385-1397 | Fewer than two '.'-tokens is NoSuchElement; on success the major number is the parsed first '.'-token. |
| Versions.ParseVersion | io7m-jcanephora-lwjgl/src/main/java/com/io7m/jcanephora/LWJGL_GLES2Functions.java:1385-1397 | metaParseVersion strips "OpenGL ES ". |
| Versions.ParseSLVersion | io7m-jcanephora-lwjgl/src/main/java/com/io7m/jcanephora/LWJGL_GLES2Functions.java:1371-1383 | metaParseSLVersion strips "OpenGL ES GLSL ES ". |
| Versions.NumberTokens | io7m-jcanephora-lwjgl/src/main/java/com/io7m/jcanephora/LWJGL_GLES2Functions.java:1385-1397 | In "<a>.<b><vendor>" the first '.'-token is a and the first ' '-token of the second is b, whatever '.'s the vendor text holds. |
| Versions.FirstTokenExtends | io7m-jcanephora-lwjgl/src/main/java/com/io7m/jcanephora/LWJGL_GLES2Functions.java:1388-1390 | The second '.'-token is b extended by vendor text that starts with a space. |
| Versions.StripToCore | io7m-jcanephora-lwjgl/src/main/java/com/io7m/jcanephora/LWJGL_GLES2Functions.java:1387 | The prefix is removed when present and nothing is removed from text starting with a digit. |
| Versions.ParseDigits | io7m-jcanephora-lwjgl/src/main/java/com/io7m/jcanephora/LWJGL_GLES2Functions.java:1393-1396 | Plain decimal digits parse to their value. |
| Versions.ParseVersionWithOfDigits | io7m-jcanephora-lwjgl/src/main/java/com/io7m/jcanephora/LWJGL_GLES2Functions.java:1385-1397 | "<a>.<b>" plus vendor text, with or without the prefix, parses to the values of a and b. |
| Versions.ParseVersionWithOfNumbers | io7m-jcanephora-lwjgl/src/main/java/com/io7m/jcanephora/LWJGL_GLES2Functions.java:1385-1397 | The decimal texts of two ints plus vendor text parse back to the two ints. |
| Versions.ParseThreeZero | io7m-jcanephora-lwjgl/src/main/java/com/io7m/jcanephora/LWJGL_GLES2Functions.java:1385-1397 | "3.0" followed by vendor text parses as (3, 0). |
| Versions.ParseMesaVersion | io7m-jcanephora-lwjgl/src/main/java/com/io7m/jcanephora/LWJGL_GLES2Functions.java:1385-1397 | "OpenGL ES 3.0 Mesa 9.1.0" parses as (3, 0). |
| Versions.ParseMesaVersionBare | io7m-jcanephora-lwjgl/src/main/java/com/io7m/jcanephora/LWJGL_GLES2Functions.java:1385-1397 | "3.0 Mesa 9.1.0" parses as (3, 0). |
| Versions.ParseGLSLES300 | io7m-jcanephora-lwjgl/src/main/java/com/io7m/jcanephora/LWJGL_GLES2Functions.java:1371-1383 | "OpenGL ES GLSL ES 3.00" parses as (3, 0). |
| Versions.GetVersion | io7m-jcanephora-lwjgl/src/main/java/com/io7m/jcanephora/LWJGL_GLES2Functions.java:1356-1369 | metaGetVersion succeeds exactly when the GL_VERSION parse does, keeps the whole string, and is ES exactly when the string starts with "OpenGL ES". |
| Versions.GetSLVersion | io7m-jcanephora-lwjgl/src/main/java/com/io7m/jcanephora/LWJGL_GLES2Functions.java:1312-1346 | GLSL ES 1.00 exactly when GL_VERSION is ES major 3 containing "Mesa 9.1." and the shading string is ES; otherwise the parsed shading version with its API and text; a GL_VERSION parse failure propagates. |
| Versions.MesaQuirkApplies | io7m-jcanephora-lwjgl/src/main/java/com/io7m/jcanephora/LWJGL_GLES2Functions.java:1328-1338 | An ES 3.0 GL_VERSION with "Mesa 9.1." at offset 14 and an ES shading string give GLSL ES 1.00. |
| Versions.MesaDowngrade | io7m-jcanephora-lwjgl/src/main/java/com/io7m/jcanephora/LWJGL_GLES2Functions.java:1328-1338 | On "OpenGL ES 3.0 Mesa 9.1.0" the version "OpenGL ES GLSL ES 3.00", which parses as 3.0, is reported as GLSL ES 1.00. |

## Left out

- Logging, `StringBuilder` state, `Log` objects and the `GLStateCache`: they produce no observable result.
- NIO buffers and byte order: texel data is modelled as sequences of component values, not as bytes in a `ByteBuffer`.
- Floating-point conversion of texel components (`/ 256.0`): components are integers in [0, 255]. Line widths are reals compared against the integer bounds the driver reports.
- Colour-space conversion inside `BufferedImage.getRGB` for non-ARGB images: an image is modelled as its ARGB words.
- Context currency, `GLContext` and `GLAutoDrawable` handling, and the thin delegating methods of the backends: they forward to the modelled functions.
- Interface-only files, tests and the other modules of the repository: they hold no behaviour of the core.
- GL errors raised between the calls of one operation are collapsed into a single `glGetError` answer per operation.
- The `glGetString` error checks in the version functions: the strings are parameters.
- The LWJGL usage-hint choice between `usageHintES2ToGL` and `usageHintToGL`: the LWJGL conversion tables are not part of this model, so the usage code is a parameter.
- The duplicate copies of the shared enumeration tables in `GLInterfaceJOGL30.java` that equal the ES2 ones (blend function, depth function, face selection, winding order, primitives, filters, unsigned types): only the tables that differ are modelled again in `GL3Conversions`.
- ToGL-only helpers such as the stencil functions and operations: no decoding direction exists to pair them with.
- Charset decoding in `shaderReadSource`: text is modelled as characters.
- Shaders.ShaderReadSource: lengths are counted in characters (Unicode scalar values), whereas Java's `String.length()` counts UTF-16 units, so a line with a character outside the Basic Multilingual Plane gets a smaller length in the model.
- TextureLoaderImageIO.TexelOf: the premultiplying writers are modelled by which components they emit and in which order; the product of each colour component with alpha is not modelled.
- Versions.ParseInt: digits outside ASCII, which `Integer.valueOf` also accepts, are not modelled.
- Versions.ShadingVersion: the `GLSL_ES_100` constant is modelled as its own constructor rather than as its numbers.
- Buffers.IndexBufferAllocate: `RangeInclusive.getInterval` is taken to be `upper - lower + 1`.
- Limits.TextureUnitsArray and Limits.AttachmentPointsArray require `max >= 0`, because a negative array size throws before anything else happens.
- Limits.RenderbufferSizeCheck: the source gives these constraints no name; the model calls them "Renderbuffer width" and "Renderbuffer height" (and "Index count range" for the index count).
- The `int` byte count that `texture2DStaticAllocate` computes is used only for logging and is not modelled.
- The resource objects (textures, renderbuffers, buffers) are modelled by their names and deleted flags only.
- Observed but not reported as findings:
  - a GL3/ES3 555/565 image infers RGB565, which the GL3/ES3 allocators reject (`TextureFormats.InferredGLES3Allocation`);
  - an ES2 custom image infers RGBA8, which the ES2 allocators reject (`TextureFormats.InferredES2Allocation`);
  - `arrayBufferAllocate` multiplies in `long` arithmetic that can wrap (`Buffers.LongMulWraps`);
  - `pixelUnpackBufferAllocate` ignores its usage hint;
  - `framebufferAllocate` generates the framebuffer before checking that the attachment list is non-empty.

## Findings

| source | as written | input that shows it | evidently intended | confidence | as-written member | corrected member |
|---|---|---|---|---|---|---|
| src/com/io7m/jcanephora/GLInterfaceJOGL30.java:1161-1175 | `blendingEnableWithEquation` passes `BLEND_EQUATION_ADD` for both equations, ignoring its `equation` argument | `equation = BLEND_EQUATION_MAX` configures ADD | use `equation` for RGB and alpha, as the ES2 interface does | not executed | Blending.EnableWithEquationGL3AsWrittenIgnoresEquation | Blending.EnableWithEquationGL3Corrected |
| src/com/io7m/jcanephora/GLInterfaceJOGL30.java:1638-1656 | `framebufferDelete` deletes the GL framebuffer but never marks the object deleted | deleting the same framebuffer twice passes the "not deleted" check both times | mark the framebuffer deleted, as `GLInterfaceEmbedded_JOGL_ES2_Actual.java` does | not executed | Framebuffers.DoubleDeleteGL3AsWritten | Framebuffers.DoubleDelete |
