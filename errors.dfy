/** Failure values of the key-state engine, and the optional and fallible
    wrappers the other modules return. */
module Errors {

  datatype Option<+T> = None | Some(value: T)

  /** Every way `run` and its helpers can fail. Each corresponds to one
      early return in src/windows.rs. */
  datatype Error =
    | NoScanCode(vk: int)      // "Failed to get a scan code"
    | ExitKeyIsFastKey         // "The exit key cannot be a fast key"
    | InitializeFailed         // "Failed to initialize": the table cell was already set
    | ConfigurationMissing     // "Failed to get the configuration": the table cell is empty
    | ModuleHandleFailed       // GetModuleHandleW returned an error
    | HookInstallFailed        // SetWindowsHookExW returned an error

  datatype Result<+T> = Ok(value: T) | Err(error: Error)
}
