/** Option and Result, used where the source returns NULL or throws. */
module Wrappers {

  datatype Option<+T> = None | Some(value: T)

  /** The exceptions the program throws (declared in its global header). */
  datatype Error =
    | AlreadyInitialized   // EALREADY_INITIALIZED
    | AssertFailed         // EASSERT
    | DeviceError          // EDEVICE
    | GeneralError         // EGENERAL
    | InvalidParameter     // EINVALID_PARAMETER

  datatype Result<+T> = Ok(value: T) | Err(error: Error)
}
