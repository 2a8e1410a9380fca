/** Failure-compatible wrappers, and the exceptions that can escape from building
    the job queue or its next job. */
module Outcomes {

  datatype Option<+T> = None | Some(value: T)

  /** The .NET exceptions that abort construction of the job queue or a call to NextJob.
      (A failed brokerage lookup is caught inside NextJob and so has no case here.) */
  datatype Exception =
      /** A configuration value that cannot be converted to the type the reader asks for
          (FormatException or OverflowException from the conversion). */
    | InvalidConfigValue(key: string, text: string)
      /** `algorithm-language` names no member of the Language enumeration (ArgumentException). */
    | UnknownLanguage(text: string)
      /** A Python algorithm whose file does not exist (FileNotFoundException). */
    | FileNotFound(path: string)
      /** A non-empty `parameters` setting that does not deserialize to a string map. */
    | InvalidParameters(text: string)
      /** The algorithm file could not be read: any exception `File.ReadAllBytes` throws. */
    | ReadFailure(path: string)

  datatype Result<+T> = Success(value: T) | Failure(error: Exception) {
    predicate IsFailure() {
      Failure?
    }

    function PropagateFailure<U>(): Result<U>
      requires Failure?
    {
      Failure(error)
    }

    function Extract(): T
      requires Success?
    {
      value
    }
  }
}
