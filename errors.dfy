/** The exceptions raised by the normalization driver and its mask helpers. */
module Errors {

  datatype Error =
    | NotImplementedError            // orientation LAS requested with no reference image
    | ReferenceNotFound(path: string) // ValueError: the resolved template is not an existing file
    | NonBinaryMask                  // ValueError: create_cfm got non-binary data without global_mask
    | RetriesExhausted(retries: int) // RuntimeError: every settings file failed
    | ShapeMismatch                  // raised by the array library when two images do not share a grid
}
