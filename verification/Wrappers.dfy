/** Failure-compatible result types shared by the whole project. */
module Wrappers {

  datatype Option<+T> = None | Some(value: T)

  /** The outcome of running code on a machine.  `OutOfMemory` is the allocator
      giving up; `Trap` covers every other way of getting stuck: a trap the ABI
      asks for, an access outside allocated memory, a misaligned access, a bad
      free, or an operand of the wrong type. */
  datatype Outcome<+T> = Ok(value: T) | OutOfMemory | Trap {
    predicate IsFailure() {
      !Ok?
    }

    function PropagateFailure<U>(): Outcome<U>
      requires IsFailure()
    {
      if OutOfMemory? then OutOfMemory else Trap
    }

    function Extract(): T
      requires !IsFailure()
    {
      value
    }
  }
}
