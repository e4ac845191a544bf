// Blending: the delegation chains of the blendingEnable* operations.  Every
// variant ends in one "separate factors, separate equations" operation that
// enables GL_BLEND and sets the two equations and four factors; the GL state
// it leaves is modelled as the codes it passes to glBlendEquationSeparate and
// glBlendFuncSeparate.  `glError` is the code the error check reports.

module Blending {
  import opened Wrappers
  import opened GLConstants
  import opened ES2Conversions
  import G = GL3Conversions

  /** The blending state a successful call leaves, as GL codes. */
  datatype BlendState = BlendState(
    enabled: bool,
    equationRGB: int, equationAlpha: int,
    sourceRGB: int, destinationRGB: int,
    sourceAlpha: int, destinationAlpha: int)

  /** The state holds the given factors. */
  predicate HasFactors(s: BlendState, srcRGB: BlendFunction, srcAlpha: BlendFunction,
                       dstRGB: BlendFunction, dstAlpha: BlendFunction)
  {
    BlendFunctionFromGL(s.sourceRGB) == Some(srcRGB)
    && BlendFunctionFromGL(s.sourceAlpha) == Some(srcAlpha)
    && BlendFunctionFromGL(s.destinationRGB) == Some(dstRGB)
    && BlendFunctionFromGL(s.destinationAlpha) == Some(dstAlpha)
  }

  // ---------------------------------------------------------------------
  // OpenGL ES 2 (GLInterfaceEmbedded_JOGL_ES2_Actual, GLES2Functions)

  /** blendingEnableSeparateWithEquationSeparateEmbedded: OpenGL ES 2 does not
      allow SOURCE_ALPHA_SATURATE as a destination factor, so it is refused
      for the RGB and for the alpha destination, before any GL call. */
  function EnableSeparateWithEquationSeparateES2(
    srcRGB: BlendFunction, srcAlpha: BlendFunction, dstRGB: BlendFunction, dstAlpha: BlendFunction,
    eqRGB: BlendEquationEmbedded, eqAlpha: BlendEquationEmbedded, glError: int): (r: Result<BlendState>)
    ensures r.Ok? <==> dstRGB != BlendSourceAlphaSaturate && dstAlpha != BlendSourceAlphaSaturate
                       && glError == GL_NO_ERROR
    ensures dstRGB == BlendSourceAlphaSaturate
            ==> r == Err(ConstraintError("Destination RGB factor not SOURCE_ALPHA_SATURATE"))
    ensures dstRGB != BlendSourceAlphaSaturate && dstAlpha == BlendSourceAlphaSaturate
            ==> r == Err(ConstraintError("Destination alpha factor not SOURCE_ALPHA_SATURATE"))
    ensures r.Err? && dstRGB != BlendSourceAlphaSaturate && dstAlpha != BlendSourceAlphaSaturate
            ==> r.error == GLException(glError)
    ensures r.Ok? ==> r.value.enabled && HasFactors(r.value, srcRGB, srcAlpha, dstRGB, dstAlpha)
                      && BlendEquationEmbeddedFromGL(r.value.equationRGB) == Some(eqRGB)
                      && BlendEquationEmbeddedFromGL(r.value.equationAlpha) == Some(eqAlpha)
  {
    BlendFunctionRoundTrip(srcRGB);
    BlendFunctionRoundTrip(srcAlpha);
    BlendFunctionRoundTrip(dstRGB);
    BlendFunctionRoundTrip(dstAlpha);
    BlendEquationEmbeddedRoundTrip(eqRGB);
    BlendEquationEmbeddedRoundTrip(eqAlpha);
    if dstRGB == BlendSourceAlphaSaturate then
      Err(ConstraintError("Destination RGB factor not SOURCE_ALPHA_SATURATE"))
    else if dstAlpha == BlendSourceAlphaSaturate then
      Err(ConstraintError("Destination alpha factor not SOURCE_ALPHA_SATURATE"))
    else if glError != GL_NO_ERROR then
      Err(GLException(glError))
    else
      Ok(BlendState(true,
        BlendEquationEmbeddedToGL(eqRGB), BlendEquationEmbeddedToGL(eqAlpha),
        BlendFunctionToGL(srcRGB), BlendFunctionToGL(dstRGB),
        BlendFunctionToGL(srcAlpha), BlendFunctionToGL(dstAlpha)))
  }

  /** blendingEnableSeparate: separate factors, additive equations. */
  function EnableSeparateES2(srcRGB: BlendFunction, srcAlpha: BlendFunction,
                             dstRGB: BlendFunction, dstAlpha: BlendFunction, glError: int): (r: Result<BlendState>)
    ensures r.Ok? <==> dstRGB != BlendSourceAlphaSaturate && dstAlpha != BlendSourceAlphaSaturate
                       && glError == GL_NO_ERROR
    ensures r.Ok? ==> HasFactors(r.value, srcRGB, srcAlpha, dstRGB, dstAlpha)
                      && r.value.equationRGB == GL_FUNC_ADD && r.value.equationAlpha == GL_FUNC_ADD
  {
    EnableSeparateWithEquationSeparateES2(srcRGB, srcAlpha, dstRGB, dstAlpha,
                                          BlendEquationAdd, BlendEquationAdd, glError)
  }

  /** blendingEnable: one source and one destination factor for RGB and
      alpha, additive equations. */
  function EnableES2(src: BlendFunction, dst: BlendFunction, glError: int): (r: Result<BlendState>)
    ensures r.Ok? <==> dst != BlendSourceAlphaSaturate && glError == GL_NO_ERROR
    ensures r.Ok? ==> HasFactors(r.value, src, src, dst, dst)
                      && r.value.equationRGB == GL_FUNC_ADD && r.value.equationAlpha == GL_FUNC_ADD
  {
    EnableSeparateES2(src, src, dst, dst, glError)
  }

  /** blendingEnableWithEquationEmbedded: one equation for RGB and alpha. */
  function EnableWithEquationES2(src: BlendFunction, dst: BlendFunction, eq: BlendEquationEmbedded,
                                 glError: int): (r: Result<BlendState>)
    ensures r.Ok? <==> dst != BlendSourceAlphaSaturate && glError == GL_NO_ERROR
    ensures r.Ok? ==> HasFactors(r.value, src, src, dst, dst)
                      && BlendEquationEmbeddedFromGL(r.value.equationRGB) == Some(eq)
                      && BlendEquationEmbeddedFromGL(r.value.equationAlpha) == Some(eq)
  {
    EnableSeparateWithEquationSeparateES2(src, src, dst, dst, eq, eq, glError)
  }

  /** blendingEnableWithEquationSeparateEmbedded: shared factors, separate
      equations. */
  function EnableWithEquationSeparateES2(src: BlendFunction, dst: BlendFunction,
                                         eqRGB: BlendEquationEmbedded, eqAlpha: BlendEquationEmbedded,
                                         glError: int): (r: Result<BlendState>)
    ensures r.Ok? <==> dst != BlendSourceAlphaSaturate && glError == GL_NO_ERROR
    ensures r.Ok? ==> HasFactors(r.value, src, src, dst, dst)
                      && BlendEquationEmbeddedFromGL(r.value.equationRGB) == Some(eqRGB)
                      && BlendEquationEmbeddedFromGL(r.value.equationAlpha) == Some(eqAlpha)
  {
    EnableSeparateWithEquationSeparateES2(src, src, dst, dst, eqRGB, eqAlpha, glError)
  }

  /** blendingEnable(s, d) is blendingEnableWithEquation(s, d, ADD), and both
      are the fully separate call with (s, s, d, d, ADD, ADD). */
  lemma EnableES2IsAdditiveWithEquation(src: BlendFunction, dst: BlendFunction, glError: int)
    ensures EnableES2(src, dst, glError) == EnableWithEquationES2(src, dst, BlendEquationAdd, glError)
    ensures EnableES2(src, dst, glError)
            == EnableSeparateWithEquationSeparateES2(src, src, dst, dst, BlendEquationAdd, BlendEquationAdd, glError)
  {
  }

  /** SOURCE_ALPHA_SATURATE is accepted as a source factor. */
  lemma SaturateAllowedAsSource(dst: BlendFunction)
    requires dst != BlendSourceAlphaSaturate
    ensures EnableES2(BlendSourceAlphaSaturate, dst, GL_NO_ERROR).Ok?
  {
  }

  // ---------------------------------------------------------------------
  // OpenGL 3 (GLInterfaceJOGL30)

  /** blendingEnableSeparateWithEquationSeparate: every factor is accepted. */
  function EnableSeparateWithEquationSeparateGL3(
    srcRGB: BlendFunction, srcAlpha: BlendFunction, dstRGB: BlendFunction, dstAlpha: BlendFunction,
    eqRGB: G.BlendEquation, eqAlpha: G.BlendEquation, glError: int): (r: Result<BlendState>)
    ensures r.Ok? <==> glError == GL_NO_ERROR
    ensures r.Err? ==> r.error == GLException(glError)
    ensures r.Ok? ==> r.value.enabled && HasFactors(r.value, srcRGB, srcAlpha, dstRGB, dstAlpha)
                      && G.BlendEquationFromGL(r.value.equationRGB) == Some(eqRGB)
                      && G.BlendEquationFromGL(r.value.equationAlpha) == Some(eqAlpha)
  {
    BlendFunctionRoundTrip(srcRGB);
    BlendFunctionRoundTrip(srcAlpha);
    BlendFunctionRoundTrip(dstRGB);
    BlendFunctionRoundTrip(dstAlpha);
    G.BlendEquationRoundTrip(eqRGB);
    G.BlendEquationRoundTrip(eqAlpha);
    if glError != GL_NO_ERROR then
      Err(GLException(glError))
    else
      Ok(BlendState(true,
        G.BlendEquationToGL(eqRGB), G.BlendEquationToGL(eqAlpha),
        BlendFunctionToGL(srcRGB), BlendFunctionToGL(dstRGB),
        BlendFunctionToGL(srcAlpha), BlendFunctionToGL(dstAlpha)))
  }

  /** blendingEnableSeparate: additive equations. */
  function EnableSeparateGL3(srcRGB: BlendFunction, srcAlpha: BlendFunction,
                             dstRGB: BlendFunction, dstAlpha: BlendFunction, glError: int): (r: Result<BlendState>)
    ensures r.Ok? <==> glError == GL_NO_ERROR
    ensures r.Ok? ==> HasFactors(r.value, srcRGB, srcAlpha, dstRGB, dstAlpha)
                      && r.value.equationRGB == GL_FUNC_ADD && r.value.equationAlpha == GL_FUNC_ADD
  {
    EnableSeparateWithEquationSeparateGL3(srcRGB, srcAlpha, dstRGB, dstAlpha,
                                          G.BlendEquation.BlendEquationAdd, G.BlendEquation.BlendEquationAdd, glError)
  }

  /** blendingEnable: shared factors, additive equations. */
  function EnableGL3(src: BlendFunction, dst: BlendFunction, glError: int): (r: Result<BlendState>)
    ensures r.Ok? <==> glError == GL_NO_ERROR
    ensures r.Ok? ==> HasFactors(r.value, src, src, dst, dst)
                      && r.value.equationRGB == GL_FUNC_ADD && r.value.equationAlpha == GL_FUNC_ADD
  {
    EnableSeparateGL3(src, src, dst, dst, glError)
  }

  /** blendingEnableWithEquation as written: the equation argument is not
      passed on, and both equations are set to ADD. */
  function EnableWithEquationGL3AsWritten(src: BlendFunction, dst: BlendFunction, eq: G.BlendEquation,
                                          glError: int): (r: Result<BlendState>)
    ensures r.Ok? <==> glError == GL_NO_ERROR
    ensures r.Ok? ==> HasFactors(r.value, src, src, dst, dst)
                      && r.value.equationRGB == GL_FUNC_ADD && r.value.equationAlpha == GL_FUNC_ADD
  {
    EnableSeparateWithEquationSeparateGL3(src, src, dst, dst,
                                          G.BlendEquation.BlendEquationAdd, G.BlendEquation.BlendEquationAdd, glError)
  }

  /** As written, asking for MAX still configures ADD. */
  lemma EnableWithEquationGL3AsWrittenIgnoresEquation(src: BlendFunction, dst: BlendFunction)
    ensures var r := EnableWithEquationGL3AsWritten(src, dst, G.BlendEquation.BlendEquationMaximum, GL_NO_ERROR);
            r.Ok? && G.BlendEquationFromGL(r.value.equationRGB) != Some(G.BlendEquation.BlendEquationMaximum)
  {
  }

  /** blendingEnableWithEquation as intended, like its ES2 counterpart: the
      one equation is used for RGB and for alpha. */
  function EnableWithEquationGL3(src: BlendFunction, dst: BlendFunction, eq: G.BlendEquation,
                                 glError: int): (r: Result<BlendState>)
    ensures r.Ok? <==> glError == GL_NO_ERROR
    ensures r.Ok? ==> HasFactors(r.value, src, src, dst, dst)
                      && G.BlendEquationFromGL(r.value.equationRGB) == Some(eq)
                      && G.BlendEquationFromGL(r.value.equationAlpha) == Some(eq)
  {
    EnableSeparateWithEquationSeparateGL3(src, src, dst, dst, eq, eq, glError)
  }

  /** The two versions differ exactly when the equation is not ADD. */
  lemma EnableWithEquationGL3Corrected(src: BlendFunction, dst: BlendFunction, eq: G.BlendEquation)
    ensures EnableWithEquationGL3(src, dst, eq, GL_NO_ERROR) == EnableWithEquationGL3AsWritten(src, dst, eq, GL_NO_ERROR)
            <==> eq == G.BlendEquation.BlendEquationAdd
  {
    var fixed := EnableWithEquationGL3(src, dst, eq, GL_NO_ERROR);
    var written := EnableWithEquationGL3AsWritten(src, dst, eq, GL_NO_ERROR);
    if eq != G.BlendEquation.BlendEquationAdd {
      G.BlendEquationRoundTrip(G.BlendEquation.BlendEquationAdd);
      assert G.BlendEquationFromGL(written.value.equationRGB) == Some(G.BlendEquation.BlendEquationAdd);
      assert G.BlendEquationFromGL(fixed.value.equationRGB) == Some(eq);
    }
  }

  /** blendingEnableWithEquationSeparate: shared factors, separate
      equations. */
  function EnableWithEquationSeparateGL3(src: BlendFunction, dst: BlendFunction,
                                         eqRGB: G.BlendEquation, eqAlpha: G.BlendEquation,
                                         glError: int): (r: Result<BlendState>)
    ensures r.Ok? <==> glError == GL_NO_ERROR
    ensures r.Ok? ==> HasFactors(r.value, src, src, dst, dst)
                      && G.BlendEquationFromGL(r.value.equationRGB) == Some(eqRGB)
                      && G.BlendEquationFromGL(r.value.equationAlpha) == Some(eqAlpha)
  {
    EnableSeparateWithEquationSeparateGL3(src, src, dst, dst, eqRGB, eqAlpha, glError)
  }

  /** blendingEnable(s, d) of the OpenGL 3 interface is the separate call with
      (s, s, d, d) and ADD/ADD. */
  lemma EnableGL3IsSeparate(src: BlendFunction, dst: BlendFunction, glError: int)
    ensures EnableGL3(src, dst, glError) == EnableSeparateGL3(src, src, dst, dst, glError)
    ensures EnableGL3(src, dst, glError)
            == EnableSeparateWithEquationSeparateGL3(src, src, dst, dst,
                 G.BlendEquation.BlendEquationAdd, G.BlendEquation.BlendEquationAdd, glError)
  {
  }

  /** The OpenGL 3 interface accepts the destination SOURCE_ALPHA_SATURATE the
      ES2 interfaces refuse. */
  lemma SaturateDestinationOnlyGL3(src: BlendFunction)
    ensures EnableGL3(src, BlendSourceAlphaSaturate, GL_NO_ERROR).Ok?
    ensures EnableES2(src, BlendSourceAlphaSaturate, GL_NO_ERROR).Err?
  {
  }
}
