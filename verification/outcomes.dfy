/** Error kinds raised by the rateable mixin, and the small wrappers that carry
    them: an `Option` for Ruby's `nil`-or-value and a `Result` for a call that
    either succeeds or raises one of the mixin's exceptions. */
module Outcomes {

  /** One constructor per exception class of the mixin
      (all subclasses of `DmIsRateableException`). */
  datatype Error =
    | RatingDisabled
    | AnonymousRatingDisabled
    | TogglableRatingDisabled
    | TogglableAnonymousRatingDisabled
    | ImpossibleRatingType
    | ImpossibleRatingValue

  /** A value or Ruby's `nil`. */
  datatype Option<+T> = None | Some(value: T)

  /** The outcome of a call that may raise: `Ok` with its result, or `Err`
      with the kind of exception raised. */
  datatype Result<+T> = Ok(value: T) | Err(error: Error)
}
