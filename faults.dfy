/** Failure signals of the encoder compiler.

    The Go code signals every fatal condition with `panic`; the entry point
    recovers the panics whose value is an `error` and re-raises the rest.
    Here a panic is a value: `Fault` names the string panics (and the one
    runtime panic the disassembler can hit), `Status` is what a generation
    step ends with.
 */
module Faults {

  /** One constructor per panic message of the compiler. */
  datatype Fault =
    | IntRange      // "value exceeds 56-bit integer range"
    | AddressRange  // "pointer exceeds 56-bit address space"
    | TooLong       // "program too long"
    | TooDeep       // "type nesting too deep"
    | Unreachable   // "unreachable": a type kind the generator does not handle
    | IndexRange    // runtime index out of range (a branch operand outside the label table)

  /** A value, or the panic raised while computing it. */
  datatype Result<T> = Success(value: T) | Failure(fault: Fault) {
    predicate IsFailure() {
      Failure?
    }

    function PropagateFailure<U>(): Result<U>
      requires Failure?
    {
      Failure(fault)
    }

    function Extract(): T
      requires Success?
    {
      value
    }
  }

  /** How a generation step ended: normally, with a string panic (re-raised by
      the entry point), or with an `error` value (returned by the entry point). */
  datatype Status = Done | Panicked(fault: Fault) | Errored(err: string) {
    predicate IsFailure() {
      !Done?
    }

    function PropagateFailure(): Status
      requires IsFailure()
    {
      this
    }
  }
}
