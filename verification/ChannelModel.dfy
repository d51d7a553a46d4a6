/**
 The state of one `Channel` and its operations as functions. The class `Channel` is proved against
 them, and the server's step machine is built from them.
 */
module ChannelModel {

  /**
   Where the single reader coroutine of a channel is. `Window` is the moment between releasing the
   channel's mutex and starting the timer wait, in which another thread may run.
   */
  datatype Reader = Away | Polling | Window | Parked

  datatype Chan<T> = Chan(queue: seq<T>, closed: bool, reader: Reader)

  datatype Polled<+T> = Value(value: T) | Aborted | Empty

  function Fresh<T>(): Chan<T> {
    Chan([], false, Away)
  }

  /** Cancelling the timer resumes a parked reader and has no effect on any other. */
  function Woken(r: Reader): Reader {
    if r == Parked then Polling else r
  }

  function Put<T>(c: Chan<T>, x: T): Chan<T> {
    if c.closed then c else c.(queue := c.queue + [x], reader := Woken(c.reader))
  }

  function Shut<T>(c: Chan<T>): Chan<T> {
    c.(closed := true, reader := Woken(c.reader))
  }

  /** What the critical section of `async_read` finds. */
  function Look<T>(c: Chan<T>): Polled<T> {
    if c.queue != [] then Value(c.queue[0]) else if c.closed then Aborted else Empty
  }

  /**
   One pass of the loop of `async_read`. With `atomic` the check and the start of the wait are one
   step, which is what a single thread gives.
   */
  function Poll<T>(c: Chan<T>, atomic: bool): Chan<T> {
    match Look(c)
    case Value(_) => c.(queue := c.queue[1..], reader := Away)
    case Aborted => c.(reader := Away)
    case Empty => c.(reader := if atomic then Parked else Window)
  }

  function Begin<T>(c: Chan<T>): Chan<T> {
    c.(reader := Polling)
  }

  function Park<T>(c: Chan<T>): Chan<T> {
    c.(reader := Parked)
  }
}
