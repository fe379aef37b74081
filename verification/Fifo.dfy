/** A first-in first-out queue served by one worker, with atomic steps: what nv_kthread_q
amounts to, and what its users may take it for. */
module Fifo {

  import opened Common

  /** The identifiers queued, and the one being worked on. */
  datatype Queue = Queue(list: seq<nat>, running: Option<nat>)

  datatype Step = Add(id: nat) | Take | Finish | Nothing

  predicate Next(q: Queue, step: Step, q': Queue) {
    match step
    case Add(id) => id !in q.list && q' == q.(list := q.list + [id])
    case Take => q.running.None? && q.list != [] && q' == Queue(q.list[1..], Some(q.list[0]))
    case Finish => q.running.Some? && q' == q.(running := None)
    case Nothing => q' == q
  }
}
