// Line rasterisation state: the width ranges the driver reports when the
// interface is created, and the line-smoothing flag that decides which of
// them lineSetWidth checks against.  The same fields and operations appear in
// the ES2 interface, in the OpenGL 3 interface and in the GL state cache of
// the JOGL ES2 functions.

module LineState {
  import opened Wrappers
  import opened GLConstants

  datatype LineCall = SetCapability(capability: int, enable: bool) | LineWidth(width: real)

  class Lines {
    /** Whether GL_LINE_SMOOTH was last enabled through this object. */
    var smoothing: bool
    const aliasedMin: int
    const aliasedMax: int
    const smoothMin: int
    const smoothMax: int
    /** The calls made so far. */
    var calls: seq<LineCall>

    /** The interface starts with smoothing off. */
    constructor(aliasedMin: int, aliasedMax: int, smoothMin: int, smoothMax: int)
      ensures !smoothing && calls == []
      ensures this.aliasedMin == aliasedMin && this.aliasedMax == aliasedMax
      ensures this.smoothMin == smoothMin && this.smoothMax == smoothMax
    {
      smoothing := false;
      this.aliasedMin := aliasedMin;
      this.aliasedMax := aliasedMax;
      this.smoothMin := smoothMin;
      this.smoothMax := smoothMax;
      calls := [];
    }

    /** The widths lineSetWidth accepts in the current smoothing mode. */
    predicate WidthAllowed(w: real)
      reads this
    {
      if smoothing then smoothMin as real <= w <= smoothMax as real
      else aliasedMin as real <= w <= aliasedMax as real
    }

    /** lineSetWidth: the width is checked against the smooth range when
        smoothing is on and against the aliased range otherwise; the flag is
        not changed. */
    method SetWidth(w: real, glError: int) returns (r: Outcome)
      modifies this
      ensures smoothing == old(smoothing)
      ensures r.Pass? <==> old(WidthAllowed(w)) && glError == GL_NO_ERROR
      ensures !old(WidthAllowed(w)) ==>
                calls == old(calls)
                && r == Fail(ConstraintError(if smoothing then "Smooth line width" else "Aliased line width"))
      ensures old(WidthAllowed(w)) ==> calls == old(calls) + [LineWidth(w)] && r == CheckError(glError)
    {
      if smoothing {
        if !(smoothMin as real <= w <= smoothMax as real) {
          return Fail(ConstraintError("Smooth line width"));
        }
      } else {
        if !(aliasedMin as real <= w <= aliasedMax as real) {
          return Fail(ConstraintError("Aliased line width"));
        }
      }
      calls := calls + [LineWidth(w)];
      r := CheckError(glError);
    }

    /** lineSmoothingEnable: GL_LINE_SMOOTH is enabled and the flag is set
        only once the error check has passed. */
    method SmoothingEnable(glError: int) returns (r: Outcome)
      modifies this
      ensures calls == old(calls) + [SetCapability(GL_LINE_SMOOTH, true)]
      ensures r == CheckError(glError)
      ensures smoothing == (if r.Pass? then true else old(smoothing))
    {
      calls := calls + [SetCapability(GL_LINE_SMOOTH, true)];
      r := CheckError(glError);
      if r.Pass? {
        smoothing := true;
      }
    }

    /** lineSmoothingDisable: the mirror image of SmoothingEnable. */
    method SmoothingDisable(glError: int) returns (r: Outcome)
      modifies this
      ensures calls == old(calls) + [SetCapability(GL_LINE_SMOOTH, false)]
      ensures r == CheckError(glError)
      ensures smoothing == (if r.Pass? then false else old(smoothing))
    {
      calls := calls + [SetCapability(GL_LINE_SMOOTH, false)];
      r := CheckError(glError);
      if r.Pass? {
        smoothing := false;
      }
    }
  }

  /** After smoothing is enabled, a width is accepted exactly when it lies in
      the smooth range, whatever the aliased range says. */
  method EnableThenSetWidth(lines: Lines, w: real) returns (enabled: Outcome, widthSet: Outcome)
    modifies lines
    ensures enabled.Pass?
    ensures widthSet.Pass? <==> lines.smoothMin as real <= w <= lines.smoothMax as real
    ensures lines.smoothing
  {
    enabled := lines.SmoothingEnable(GL_NO_ERROR);
    widthSet := lines.SetWidth(w, GL_NO_ERROR);
  }

  /** A failed enable leaves the mode, and so the range lineSetWidth uses,
      as it was. */
  method FailedEnableKeepsRange(lines: Lines, w: real, code: int) returns (enabled: Outcome, widthSet: Outcome)
    requires code != GL_NO_ERROR && !lines.smoothing
    modifies lines
    ensures enabled == Fail(GLException(code))
    ensures widthSet.Pass? <==> lines.aliasedMin as real <= w <= lines.aliasedMax as real
  {
    enabled := lines.SmoothingEnable(code);
    widthSet := lines.SetWidth(w, GL_NO_ERROR);
  }
}
