/** Failure-carrying results shared by the pipeline modules. */
module Outcomes {

  datatype Option<+T> = None | Some(value: T)

  /** The failures the prediction path can raise. */
  datatype Error =
    | KeyError(key: int)      // a tier index missing from a lookup table
    | TransformFailure        // the scaler returned a subvector of the wrong width

  datatype Result<+T> = Success(value: T) | Failure(error: Error)
}
