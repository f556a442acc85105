/** Shared result and error types. Python exceptions raised by the modelled
    code become `Err` values; `None` arguments become `Option`. */
module Common {

  datatype Option<T> = None | Some(value: T)

  /** The exceptions the modelled code can raise. */
  datatype Error =
    | NonPositiveSections   // numpy's array_split: "number sections must be larger than 0."
    | ShapeMismatch         // a boolean mask whose shape differs from the data it indexes
    | MaskTooManyDims       // BinaryMask: "mask cannot be more than 3d"
    | IndexOutOfRange       // IndexError from a list or array access
    | UnsupportedDtype      // convert_sh_to_sf: "Only `float32` and `float64` should be used."
    | NegativeSampleCount   // random_sample / rand: "negative dimensions are not allowed"
    | OperandsNotBroadcastable  // `mask *= mask_any` with shapes that do not broadcast to the mask's
    | NotAnInteger          // array_split's `int(indices_or_sections)` on `None`: TypeError

  datatype Result<T> = Ok(value: T) | Err(error: Error)

  /** A positive count, such as the number of CPUs the machine reports. */
  type Pos = n: nat | n >= 1 witness 1

  /** `min(a, b)` */
  function Min(a: int, b: int): int
  {
    if a <= b then a else b
  }
}
