/**
  A buffered Go channel seen from the sending side: a bounded FIFO whose
  `items` are the values sent and not yet received, oldest first. A send on a
  full channel blocks the sender; here that is the precondition of `Send`.
 */
module Channel {

  datatype Chan<T> = Chan(items: seq<T>, cap: nat) {

    /** The buffer never holds more than its capacity. */
    predicate Valid() {
      |items| <= cap
    }

    /** A send would block. */
    predicate Full() {
      |items| >= cap
    }

    /** Sending appends at the tail and keeps the capacity. */
    function Send(x: T): (c: Chan<T>)
      requires !Full()
      ensures c.Valid()
      ensures c.cap == cap
      ensures |c.items| == |items| + 1
      ensures c.items[..|items|] == items
      ensures c.items[|items|] == x
    {
      Chan(items + [x], cap)
    }
  }

  /** `make(chan T, cap)`: an empty buffer of the given capacity. */
  function Make<T>(cap: nat): (c: Chan<T>)
    ensures c.Valid() && c.items == [] && c.cap == cap
  {
    Chan([], cap)
  }
}
