/** Failure values of the inference driver.

    Every way the driver can stop with an exception is one constructor of
    `Error`, so that the model reproduces the failures instead of ruling
    them out with preconditions. */
module Outcomes {

  datatype Error =
    | NoDecodedOutput      // raw_output is still None when extraction starts
    | EmptySequenceIndex   // indexing element 0 or -1 of an empty token row
    | MalformedOutput      // unequal numbers of start- and end-of-audio markers
    | EmptyConcatenate     // np.concatenate called with an empty list
    | ShapeMismatch        // np.concatenate over rows of different widths
    | ZeroDivision         // integer division by a batch size of zero
    | TeacherForcingLength // the stage-2 model did not return exactly 7 tokens per row

  datatype Option<+T> = None | Some(value: T)

  datatype Result<+T> = Ok(value: T) | Err(error: Error)
}
