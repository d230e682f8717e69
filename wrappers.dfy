/** Optional values and fallible results, used where the source returns
    null or throws. */
module Wrappers {

  datatype Option<+T> = None | Some(value: T) {
    /** The value, or `default` when there is none (Swift's `??`). */
    function GetOr(default: T): T {
      if Some? then value else default
    }
  }

  datatype Result<+T, +E> = Success(value: T) | Failure(error: E)
}

/** The argument checks that Kotlin's `require(v in 0..255)` performs, and
    the IllegalArgumentException a failed check throws. */
module Checks {

  /** The argument whose check failed. */
  datatype Param = RedParam | GreenParam | BlueParam | BrightnessParam

  datatype IllegalArgument = OutOfRange(param: Param, value: int)

  predicate InByteRange(v: int) {
    0 <= v <= 255
  }
}
