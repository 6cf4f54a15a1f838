/** The few pieces of the Java platform the model needs: null as an optional
    value, thrown exceptions as a failure value, and the fixed-width integers. */
module Lang {

  /** A Java reference that may be null. */
  datatype Option<+T> = None | Some(value: T) {
    function GetOr(default: T): (r: T)
      ensures Some? ==> r == value
      ensures None? ==> r == default
    {
      match this
      case Some(v) => v
      case None => default
    }
  }

  /** The outcome of a Java call: a returned value or a thrown exception. */
  datatype Result<+R> = Success(value: R) | Failure(error: Exception)

  /** The exceptions the modelled code throws. */
  datatype Exception =
    | NullPointerException
    | IllegalArgumentException
    | IndexOutOfBoundsException

  const INT_MIN: int := -0x8000_0000
  const INT_MAX: int := 0x7fff_ffff      // Integer.MAX_VALUE
  const LONG_MIN: int := -0x8000_0000_0000_0000
  const LONG_MAX: int := 0x7fff_ffff_ffff_ffff

  /** Java `int`. */
  type int32 = x: int | INT_MIN <= x <= INT_MAX

  /** Java `long`. */
  type int64 = x: int | LONG_MIN <= x <= LONG_MAX
}
