// What q_push and q_next mean on the sequence of queued values.
module Fifo {

  function Append<T>(q: seq<T>, x: T): seq<T> {
    q + [x]
  }

  // q_next on an empty queue yields the null value and changes nothing.
  function Head<T>(q: seq<T>, nil: T): T {
    if q == [] then nil else q[0]
  }

  function Rest<T>(q: seq<T>): seq<T> {
    if q == [] then [] else q[1..]
  }
}
