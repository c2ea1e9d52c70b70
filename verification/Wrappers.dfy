/** The result types and the one number function shared by every module of the model. */
module Wrappers {

  datatype Option<+T> = None | Some(value: T)

  /** `Err` stands for a raised Python exception. */
  datatype Result<+T, +E> = Ok(value: T) | Err(error: E)

  /** A raised exception: one of the framework's own, with its code, or any other. */
  datatype Exn = Sovereign(code: string, message: string) | Foreign(kind: string, message: string)

  /** `wrap_unexpected`: every failure gets a code. */
  function Wrapped(e: Exn): (r: Exn)
    ensures r.Sovereign? && (e.Sovereign? ==> r == e) && (e.Foreign? ==> r.code == "SA_SYS_UNEXPECTED")
  {
    if e.Sovereign? then e else Sovereign("SA_SYS_UNEXPECTED", "unexpected " + e.kind + ": " + e.message)
  }

  function Max(a: int, b: int): int { if a < b then b else a }
}
