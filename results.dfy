/** Error outcomes shared by the user-space code. The Go code wraps every
    error in a package-specific message; the model keeps only which failure
    happened, not its text. */
module Results {

  /** Why a decoding step failed. */
  datatype Error =
    | ShortBuffer(pos: nat, width: nat)   // a utils reader ran past the end of the data
    | ShortHeader(size: nat)              // binary.Read found fewer bytes than the header
    | MissingEvent(key: int)              // the event id is not a key of the event table
    | NoParams                            // parseParams was given an event without params
    | SliceOutOfRange(pos: nat, len: nat) // a slice expression past the end of the data
    | CallbackFailed(msg: string)         // a parameter's formatting callback returned an error
    | ReadersFailed(cause: Error)         // creating the map readers failed
    | AttachFailed(cause: Error)          // attaching a probe to its hook failed

  datatype Result<+T> = Ok(value: T) | Err(error: Error)

  datatype Option<+T> = None | Some(value: T)
}
