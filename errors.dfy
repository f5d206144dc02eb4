/** The Python exceptions the emulator core raises, and the wrappers that carry
    them back to the caller instead of unwinding. */
module Errors {

  /** Why a `ValueError` was raised. */
  datatype ValueReason =
    | RomTooShort      // the ROM image ends before the cartridge-type byte
    | UnsupportedType  // the cartridge-type byte has no registered class
    | ByteOutOfRange   // a value outside 0..255 stored into a bytearray

  datatype Error =
    | KeyError                        // address outside a device window; opcode without a table entry
    | IndexError                      // index outside a bytearray or list
    | TypeError                       // item assignment on a device that has no `__setitem__`
    | ValueError(reason: ValueReason)
    | RegistrationError(id: int)      // a cartridge class claims an id that is already taken

  /** The value of an expression, or the exception it raised. */
  datatype Result<+T> = Ok(value: T) | Err(error: Error) {
    predicate IsFailure() { Err? }

    function PropagateFailure<U>(): Result<U>
      requires Err?
    {
      Err(error)
    }

    function Extract(): T
      requires Ok?
    {
      value
    }
  }

  /** Completion of a statement that returns nothing: normal, or by an exception. */
  datatype Outcome = Pass | Fail(error: Error) {
    predicate IsFailure() { Fail? }

    function PropagateFailure(): Outcome
      requires Fail?
    {
      this
    }
  }
}
