/** Small failure-compatible wrappers shared by the assembler and the simulator models.
    A Python exception is modelled as an `Err` carrying the text `str(e)` would give. */
module Base {

  datatype Option<+T> = None | Some(value: T) {
    predicate IsFailure() { None? }
    function PropagateFailure<U>(): Option<U> requires None? { None }
    function Extract(): T requires Some? { value }
  }

  datatype Result<+T> = Ok(value: T) | Err(msg: string) {
    predicate IsFailure() { Err? }
    function PropagateFailure<U>(): Result<U> requires Err? { Err(msg) }
    function Extract(): T requires Ok? { value }
  }
}
