/** Go `error` values of the core. */
module Errors {

  /** Most errors of the core are plain messages (errors.New, or the text of a panic);
      ErrEventDataNotRegistered is a sentinel that callers compare by identity, so it
      is a variant of its own. */
  datatype Error = Error(message: string) | EventDataNotRegistered

  /** The error a TestAggregate returns for a TestCommand whose content is "error". */
  const CommandError := Error("command error")

  /** The error a test aggregate returns for a command of a type it does not handle. */
  const CouldNotHandleCommand := Error("couldn't handle command")
}
