/** The exceptions the client raises, folded into one datatype, and the
    Option/Result wrappers the model uses in place of `None` and `raise`. */
module Errors {

  datatype Option<+T> = None | Some(value: T)

  /** The subclasses of CommandError (src/cmdlib/errors.py). */
  datatype CommandErrorKind =
    | Generic                 // CommandError itself
    | Flag                    // FlagError
    | NotFound                // CommandNotFound
    | AlreadyRegistered       // CommandAlreadyRegistered
    | NotProvided             // CommandNotProvided

  /** Everything an operation of the core can raise: the command hierarchy
      and the three Python built-in exceptions the core lets escape. */
  datatype Error =
    | CommandError(kind: CommandErrorKind)
    | ValueError
    | IndexError
    | KeyError

  datatype Result<+T> = Ok(value: T) | Err(error: Error)

  const FlagError: Error := CommandError(Flag)
  const CommandNotFound: Error := CommandError(NotFound)
  const CommandAlreadyRegistered: Error := CommandError(AlreadyRegistered)
  const PlainCommandError: Error := CommandError(Generic)
}
