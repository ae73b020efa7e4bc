/** The ways a pipeline script stops: each constructor is one Python exception
    the modelled code can raise, with the value that caused it. */
module Errors {

  datatype Error =
    | ConfoundsNotFound(path: string)        // ValueError raised by pull_regressors
    | UnknownKey(key: string)                // KeyError from a dictionary lookup
    | MissingColumns(names: seq<string>)     // KeyError from selecting absent columns
    | FileNotFound(path: string)             // read_csv / nib.load of an absent file
    | EmptyGlob(pattern: string)             // IndexError from glob(pattern)[0]
    | NotAnInt(text: string)                 // ValueError from int(text)
    | TypeMismatch(column: string)           // TypeError adding text to a number
    | UnpackMismatch(expected: nat, got: nat) // ValueError unpacking a row
    | AssertionFailed                        // a failed `assert`
    | UnboundName(name: string)              // NameError on a name never bound
    | IndexOutOfRange(index: nat)            // IndexError indexing a list that is too short
    | LibraryError(callee: string)           // raised inside a library call on inputs it rejects

  datatype Result<+T> = Ok(value: T) | Err(error: Error)
}
