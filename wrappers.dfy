/** Option and Result, used for missing readings and for the analyzer's error path. */
module Wrappers {
  datatype Option<T> = None | Some(value: T)

  /** The failures that the analysis pipeline can report to its caller. */
  datatype Error =
    | InsufficientData(count: nat, required: int)  // fewer readings than min_data_points
    | NoValidReadings                             // every reading is missing
    | DegenerateRegression                        // a least-squares fit over fewer than two points

  datatype Result<T> = Ok(value: T) | Err(error: Error)
}
