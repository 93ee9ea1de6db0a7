/** Values shared by every layer of the user lifecycle: an optional value,
    the two failures the lifecycle signals, and a result carrying either. */
module Common {

  datatype Option<+T> = None | Some(value: T)

  /** The two conditions the lifecycle signals; everything else (mail or
      store outages) is outside the model. */
  datatype Error =
    | ResourceNotFound             // no record, or a record the lookup may not show
    | CertificationCodeNotMatched  // the presented code differs from the stored one

  datatype Result<+T> = Success(value: T) | Failure(error: Error)
}
