/** Failure-compatible outcome of one step of the build script. Every failure of
    the script is a panic that aborts the whole build; the model carries it as
    an `Err` value instead, naming what failed. */
module Results {

  /** Why the build stops. */
  datatype BuildError =
    | MalformedPattern(pattern: string)    // `glob(..).unwrap()` on a bad pattern
    | UnreadableEntry(pattern: string)     // `cpp_file.unwrap()` on an entry glob could not read
    | CompileFailed(library: string)       // `cc::Build::compile` failed for this archive
    | GenerationFailed                     // `bindgen::Builder::generate` failed
    | WriteFailed(bindingsFile: string)    // writing the generated bindings failed
    | CleanupFailed(bindingsFile: string)  // removing a stale bindings file failed

  datatype Result<+T> = Ok(value: T) | Err(error: BuildError) {

    predicate IsFailure() {
      Err?
    }

    function PropagateFailure<U>(): Result<U>
      requires Err?
    {
      Err(error)
    }

    function Extract(): T
      requires Ok?
    {
      value
    }
  }
}
