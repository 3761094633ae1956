/** Failure-carrying values shared by the other modules. */
module Basics {

  datatype Option<T> = None | Some(value: T)

  /** The outcome of a step that either yields a value or stops the whole
      run with a process exit code. */
  datatype Result<T> = Ok(value: T) | Fail(code: int)

  /** Exit codes of the updater. */
  const ExitConflict := 2      // a staging or backup directory already exists
  const ExitNoGetter := 3      // no getter has the plugin's get_type
  const ExitBadName := 4       // no working name can be derived from the locator
}
