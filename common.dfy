/** Definitions shared by the server and the client models. */
module Common {

  /** A value that may be absent: JavaScript's `undefined`. */
  datatype Option<T> = None | Some(value: T)

  /** The identity of a loaded audio buffer. */
  type BufferId = nat

  /** `Math.abs`. */
  function Abs(x: real): (r: real)
    ensures 0.0 <= r && (r == x || r == -x)
  {
    if x < 0.0 then -x else x
  }
}
