/** Failure-carrying return types used in place of Java's Optional and exceptions. */
module Wrappers {

  /** Java's Optional: a present value or absence. */
  datatype Option<+T> = None | Some(value: T)

  /** A value, or the error that a Java method would have thrown instead. */
  datatype Result<+T, +E> = Ok(value: T) | Err(error: E)

  /** The outcome of a check that returns nothing on success and throws on failure. */
  datatype Outcome<+E> = Pass | Fail(error: E)
}

/** The two failures the cabinet can signal. */
module CabinetErrors {

  datatype CabinetError =
    | InvalidSize(size: string)     // IllegalArgumentException from FileSize.validateSize
    | DuplicatedFolder(name: string) // DuplicatedFolderException from FileCabinet.findFolderByName
}
