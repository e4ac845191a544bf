// Option and Result carriers for the Java exceptions of the bindings.

module Wrappers {

  datatype Option<T> = None | Some(value: T)

  /** The range of a Java int. */
  const INT_MIN: int := -0x8000_0000
  const INT_MAX: int := 0x7FFF_FFFF

  predicate IsInt(x: int)
  {
    INT_MIN <= x <= INT_MAX
  }

  /** The exceptions the modelled operations throw.  A ConstraintError carries
      the name of the violated constraint, a GLException the error code the
      driver reported, UnreachableCode stands for UnreachableCodeException and
      for the AssertionError("unreachable code") of the older interface. */
  datatype Failure =
    | ConstraintError(constraint: string)
    | GLException(code: int)
    | UnreachableCode
    | TypeError
    | ParameterError(problem: SizeProblem)
    | NumberFormat
    | NoSuchElement

  /** Which image size check of a cube map failed.  Faces are numbered in the
      order the sizes are compared: 0 = +Z, 1 = -Z, 2 = +Y, 3 = -Y, 4 = +X,
      5 = -X. */
  datatype SizeProblem =
    | NotSquare
    | WidthMismatch(face: nat)
    | HeightMismatch(face: nat)

  datatype Result<T> = Ok(value: T) | Err(error: Failure)

  /** The outcome of a void operation that may throw. */
  datatype Outcome = Pass | Fail(error: Failure)

  /** checkError: a non-zero glGetError code becomes a GLException carrying
      that code; zero means no error. */
  function CheckError(code: int): (r: Outcome)
    ensures r.Pass? <==> code == 0
    ensures r.Fail? ==> r.error == GLException(code)
  {
    if code != 0 then Fail(GLException(code)) else Pass
  }
}
