/**
 * The first-in first-out queues behind `BoardCommands` and `BoardEvents`
 * (src/board.rs): a queue is the sequence of its items, oldest first.
 */
module Queues {
  import opened Wrappers

  /** Why `pop` failed: the queue had nothing in it. */
  datatype QueueError = QueueEmpty

  class Fifo<T> {
    /** The queued items, the next one to leave first. */
    var items: seq<T>

    /** `default()`: an empty queue. */
    constructor ()
      ensures items == []
    {
      items := [];
    }

    /** `push`: adds `x` behind everything already queued; it never fails. */
    method Push(x: T) returns (r: Result<(), QueueError>)
      modifies this
      ensures items == old(items) + [x]
      ensures r == Success(())
    {
      items := items + [x];
      r := Success(());
    }

    /** `pop`: takes the oldest item out, or fails on an empty queue and changes nothing. */
    method Pop() returns (r: Result<T, QueueError>)
      modifies this
      ensures old(items) == [] ==> r == Failure(QueueEmpty) && items == []
      ensures old(items) != [] ==> r == Success(old(items)[0]) && items == old(items)[1..]
    {
      if items == [] {
        r := Failure(QueueEmpty);
      } else {
        r := Success(items[0]);
        items := items[1..];
      }
    }
  }
}
