/** nv_kthread_q: a first-in first-out work queue served by one kernel thread.

Appending to the list and raising the semaphore are separate steps, the exit
flag is read without the queue lock, and items schedule further items while
they run.  The module gives one atomic step per critical section or atomic
operation, for any number of threads that schedule, flush and stop, and proves
what every interleaving of those steps keeps. */
module KthreadQ {

  import opened Common
  import Fifo

  /** A q_item.  A flush item lives on the stack of the flushing thread, so
  every flush uses an item that was never queued before. */
  datatype Item = Work(id: nat) | Flush(serial: nat)

  /** The fields of nv_kthread_q_t. */
  datatype Queue = Queue(list: seq<Item>, sem: nat, shouldExit: bool, hasThread: bool)

  /** The section of _raw_q_schedule under q_lock: an item whose node is already
  linked is left alone. */
  function AppendTail(q: Queue, item: Item): (r: (Queue, bool)) {
    if item in q.list then (q, false) else (q.(list := q.list + [item]), true)
  }

  function UpSem(q: Queue): (r: Queue) {
    q.(sem := q.sem + 1)
  }

  function DownSem(q: Queue): (r: Queue)
    requires q.sem > 0
  {
    q.(sem := q.sem - 1)
  }

  /** The section of _main_loop under q_lock, when the list is not empty. */
  function TakeHead(q: Queue): (r: (Queue, Item))
    requires q.list != []
  {
    (q.(list := q.list[1..]), q.list[0])
  }

  /** The queue object; each method is one critical section or atomic operation. */
  class KthreadQueue {
    var qList: seq<Item>
    var qSem: nat
    var mainLoopShouldExit: bool
    var qKthread: bool

    function Value(): (q: Queue)
      reads this
    {
      Queue(qList, qSem, mainLoopShouldExit, qKthread)
    }

    constructor (created: bool)
      ensures Value() == Queue([], 0, false, created)
    {
      qList, qSem, mainLoopShouldExit, qKthread := [], 0, false, created;
    }

    method LinkTail(item: Item) returns (ret: bool)
      modifies this
      ensures (Value(), ret) == AppendTail(old(Value()), item)
    {
      ret := true;
      if item !in qList {
        qList := qList + [item];
      } else {
        ret := false;
      }
    }

    method Up()
      modifies this
      ensures Value() == UpSem(old(Value()))
    {
      qSem := qSem + 1;
    }

    method Down()
      requires qSem > 0
      modifies this
      ensures Value() == DownSem(old(Value()))
    {
      qSem := qSem - 1;
    }

    /** The section of _main_loop under q_lock; None: the list was empty, which is reported. */
    method UnlinkFirst() returns (item: Option<Item>)
      modifies this
      ensures item.None? <==> old(qList) == []
      ensures item.None? ==> Value() == old(Value())
      ensures item.Some? ==> (Value(), item.value) == TakeHead(old(Value()))
    {
      if qList == [] {
        return None;
      }
      item := Some(qList[0]);
      qList := qList[1..];
    }

    /** _raw_q_schedule with no other thread in between: list and semaphore grow together or not at all. */
    method RawSchedule(item: Item) returns (ret: bool)
      modifies this
      ensures ret == (item !in old(qList))
      ensures ret ==> qList == old(qList) + [item] && qSem == old(qSem) + 1
      ensures !ret ==> Value() == old(Value())
      ensures mainLoopShouldExit == old(mainLoopShouldExit) && qKthread == old(qKthread)
      ensures |qList| - qSem == old(|qList| - qSem)
    {
      ret := LinkTail(item);
      if ret {
        Up();
      }
    }
  }

  // ------------------------------------------------------------------ system

  /** Where a context stands inside nv_kthread_q_schedule_q_item.  Intent is the
  decision to schedule, taken before the call; Returning is used only by a
  flush item that has signalled its completion. */
  datatype Call = NoCall | Intent(id: nat) | Checked(id: nat) | Appended | Returning

  datatype Worker = Waiting | GotToken | Committed | Running(call: Call) | Exited

  /** What a flush remembers about its start: how many schedules had been
  accepted and which items had been told to stop rescheduling themselves. */
  datatype Begin = Begin(n0: nat, quiet: set<nat>, stopping: bool)

  datatype FlushStep = ToAppend | ToUp(serial: nat, at: nat) | ToWait(serial: nat, at: nat)

  datatype StopStep = ToRead | ToSet | ToStopUp | ToJoin | Joined

  datatype Thread =
    | Outside(call: Call)
    | InFlush(b: Begin, second: bool, step: FlushStep)
    | Flushed(b: Begin)
    | Stopping(b: Begin, pc: StopStep, at: nat)

  /** Who made an accepted schedule: an outside thread, or the r-th run of the worker. */
  datatype Origin = FromThread(t: nat) | FromRun(r: nat)

  /** The queue, every program counter, and the history: accepted schedules with
  their origins, dequeued items, completions signalled, quiet flags set. */
  datatype State = State(
    q: Queue,
    worker: Worker,
    threads: seq<Thread>,
    accepted: seq<Item>,
    origins: seq<Origin>,
    dequeued: seq<Item>,
    completed: set<nat>,
    nextSerial: nat,
    quiet: set<nat>,
    stopUps: nat,
    warnedEmpty: bool)

  predicate Init(s: State) {
    && s.q == Queue([], 0, false, true)
    && s.worker == Waiting
    && (forall t :: 0 <= t < |s.threads| ==> s.threads[t] == Outside(NoCall))
    && s.accepted == [] && s.origins == [] && s.dequeued == []
    && s.completed == {} && s.nextSerial == 0 && s.quiet == {}
    && s.stopUps == 0 && !s.warnedEmpty
  }

  /** Main is the worker while it runs an item. */
  datatype Context = Main | User(t: nat)

  datatype Action =
    | Quieten(id: nat)
    | CallBegin(c: Context, id: nat)
    | CallCheck(c: Context)
    | CallAppend(c: Context)
    | CallUp(c: Context)
    | WorkerDown
    | WorkerReadExit
    | WorkerTake
    | WorkerComplete
    | WorkerFinish
    | FlushBegin(t: nat, stopping: bool)
    | FlushAppend(t: nat)
    | FlushUp(t: nat)
    | FlushWait(t: nat)
    | FlushReturn(t: nat)
    | StopRead(t: nat)
    | StopSet(t: nat)
    | StopUp(t: nat)
    | StopJoin(t: nat)

  predicate HasCall(s: State, c: Context) {
    match c
    case Main => s.worker.Running?
    case User(t) => t < |s.threads| && s.threads[t].Outside?
  }

  function CallOf(s: State, c: Context): (call: Call)
    requires HasCall(s, c)
  {
    match c
    case Main => s.worker.call
    case User(t) => s.threads[t].call
  }

  function WithCall(s: State, c: Context, call: Call): (r: State)
    requires HasCall(s, c)
  {
    match c
    case Main => s.(worker := Running(call))
    case User(t) => s.(threads := s.threads[t := Outside(call)])
  }

  /** The item the worker is running. */
  function Current(s: State): (item: Item)
    requires s.dequeued != []
  {
    s.dequeued[|s.dequeued| - 1]
  }

  function OriginOf(s: State, c: Context): (o: Origin)
    requires c.Main? ==> s.dequeued != []
  {
    match c
    case Main => FromRun(|s.dequeued| - 1)
    case User(t) => FromThread(t)
  }

  predicate InFlushAt(s: State, t: nat) {
    t < |s.threads| && s.threads[t].InFlush?
  }

  predicate StoppingAt(s: State, t: nat, pc: StopStep) {
    t < |s.threads| && s.threads[t].Stopping? && s.threads[t].pc == pc
  }

  predicate Enabled(s: State, a: Action) {
    match a
    case Quieten(_) => true
    case CallBegin(c, id) =>
      && HasCall(s, c) && CallOf(s, c) == NoCall
      && (c.Main? ==>
            && s.dequeued != [] && Current(s).Work?
            // an item that reschedules itself looks at its own flag first
            && (Current(s).id == id ==> id !in s.quiet))
    case CallCheck(c) => HasCall(s, c) && CallOf(s, c).Intent?
    case CallAppend(c) => HasCall(s, c) && CallOf(s, c).Checked? && (c.Main? ==> s.dequeued != [])
    case CallUp(c) => HasCall(s, c) && CallOf(s, c).Appended?
    case WorkerDown => s.worker.Waiting? && s.q.sem > 0
    case WorkerReadExit => s.worker.GotToken?
    case WorkerTake => s.worker.Committed?
    case WorkerComplete => s.worker == Running(NoCall) && s.dequeued != [] && Current(s).Flush?
    case WorkerFinish =>
      && s.worker.Running? && s.dequeued != []
      && s.worker.call == if Current(s).Flush? then Returning else NoCall
    case FlushBegin(t, _) => t < |s.threads| && s.threads[t] == Outside(NoCall)
    case FlushAppend(t) => InFlushAt(s, t) && s.threads[t].step.ToAppend?
    case FlushUp(t) => InFlushAt(s, t) && s.threads[t].step.ToUp?
    case FlushWait(t) => InFlushAt(s, t) && s.threads[t].step.ToWait? && s.threads[t].step.serial in s.completed
    case FlushReturn(t) => t < |s.threads| && s.threads[t].Flushed?
    case StopRead(t) => StoppingAt(s, t, ToRead)
    case StopSet(t) => StoppingAt(s, t, ToSet)
    case StopUp(t) => StoppingAt(s, t, ToStopUp)
    case StopJoin(t) => StoppingAt(s, t, ToJoin) && s.worker.Exited?
  }

  function Accept(s: State, item: Item, o: Origin): (r: State) {
    s.(q := AppendTail(s.q, item).0, accepted := s.accepted + [item], origins := s.origins + [o])
  }

  function ApplyCall(s: State, a: Action): (r: State)
    requires a.CallBegin? || a.CallCheck? || a.CallAppend? || a.CallUp?
    requires Enabled(s, a)
  {
    match a
    case CallBegin(c, id) => WithCall(s, c, Intent(id))
    case CallCheck(c) =>
      if s.q.shouldExit then WithCall(s, c, NoCall) else WithCall(s, c, Checked(CallOf(s, c).id))
    case CallAppend(c) =>
      var item := Work(CallOf(s, c).id);
      if AppendTail(s.q, item).1 then WithCall(Accept(s, item, OriginOf(s, c)), c, Appended)
      else WithCall(s, c, NoCall)
    case CallUp(c) => WithCall(s.(q := UpSem(s.q)), c, NoCall)
  }

  function ApplyWorker(s: State, a: Action): (r: State)
    requires a.WorkerDown? || a.WorkerReadExit? || a.WorkerTake? || a.WorkerComplete? || a.WorkerFinish?
    requires Enabled(s, a)
  {
    match a
    case WorkerDown => s.(q := DownSem(s.q), worker := GotToken)
    case WorkerReadExit => s.(worker := if s.q.shouldExit then Exited else Committed)
    case WorkerTake =>
      if s.q.list == [] then s.(worker := Waiting, warnedEmpty := true)
      else s.(q := TakeHead(s.q).0, worker := Running(NoCall), dequeued := s.dequeued + [TakeHead(s.q).1])
    case WorkerComplete => s.(worker := Running(Returning), completed := s.completed + {Current(s).serial})
    case WorkerFinish => s.(worker := Waiting)
  }

  function ApplyFlush(s: State, a: Action): (r: State)
    requires a.FlushBegin? || a.FlushAppend? || a.FlushUp? || a.FlushWait? || a.FlushReturn?
    requires Enabled(s, a)
  {
    match a
    case FlushBegin(t, stopping) =>
      if s.q.shouldExit || (stopping && !s.q.hasThread) then s
      else s.(threads := s.threads[t := InFlush(Begin(|s.accepted|, s.quiet, stopping), false, ToAppend)])
    case FlushAppend(t) =>
      var th := s.threads[t];
      Accept(s, Flush(s.nextSerial), FromThread(t)).(
        nextSerial := s.nextSerial + 1,
        threads := s.threads[t := th.(step := ToUp(s.nextSerial, |s.accepted|))])
    case FlushUp(t) =>
      var th := s.threads[t];
      s.(q := UpSem(s.q), threads := s.threads[t := th.(step := ToWait(th.step.serial, th.step.at))])
    case FlushWait(t) =>
      var th := s.threads[t];
      s.(threads := s.threads[t :=
        if !th.second then InFlush(th.b, true, ToAppend)
        else if th.b.stopping then Stopping(th.b, ToRead, th.step.at)
        else Flushed(th.b)])
    case FlushReturn(t) => s.(threads := s.threads[t := Outside(NoCall)])
  }

  function ApplyStop(s: State, a: Action): (r: State)
    requires a.StopRead? || a.StopSet? || a.StopUp? || a.StopJoin?
    requires Enabled(s, a)
  {
    match a
    case StopRead(t) =>
      s.(threads := s.threads[t := if s.q.shouldExit then Outside(NoCall) else s.threads[t].(pc := ToSet)])
    case StopSet(t) =>
      s.(q := s.q.(shouldExit := true), threads := s.threads[t := s.threads[t].(pc := ToStopUp)])
    case StopUp(t) =>
      s.(q := UpSem(s.q), stopUps := s.stopUps + 1, threads := s.threads[t := s.threads[t].(pc := ToJoin)])
    case StopJoin(t) =>
      s.(q := s.q.(hasThread := false), threads := s.threads[t := s.threads[t].(pc := Joined)])
  }

  function Apply(s: State, a: Action): (r: State)
    requires Enabled(s, a)
  {
    if a.Quieten? then s.(quiet := s.quiet + {a.id})
    else if a.CallBegin? || a.CallCheck? || a.CallAppend? || a.CallUp? then ApplyCall(s, a)
    else if a.WorkerDown? || a.WorkerReadExit? || a.WorkerTake? || a.WorkerComplete? || a.WorkerFinish? then
      ApplyWorker(s, a)
    else if a.StopRead? || a.StopSet? || a.StopUp? || a.StopJoin? then ApplyStop(s, a)
    else ApplyFlush(s, a)
  }

  /** run is an execution from an initial state that takes the given steps. */
  predicate Trace(run: seq<State>, acts: seq<Action>) {
    && |run| == |acts| + 1
    && Init(run[0])
    && forall i :: 0 <= i < |acts| ==> Enabled(run[i], acts[i]) && run[i + 1] == Apply(run[i], acts[i])
  }

  // -------------------------------------------------------------- invariants

  function NeedsUp(th: Thread): (n: nat) {
    if th == Outside(Appended) || (th.InFlush? && th.step.ToUp?) then 1 else 0
  }

  /** Threads between their append and their up. */
  function PendingUps(ths: seq<Thread>): (n: nat) {
    if ths == [] then 0 else NeedsUp(ths[0]) + PendingUps(ths[1..])
  }

  function WorkerUps(w: Worker): (n: nat) {
    if w == Running(Appended) then 1 else 0
  }

  /** Tokens the worker has consumed without yet dequeuing an item for them. */
  function Held(w: Worker): (n: nat) {
    if w.GotToken? || w.Committed? || w.Exited? then 1 else 0
  }

  /** Every queued item is matched by one token: in the semaphore, still to be
  raised, or held by the worker.  Stop's extra tokens are counted apart. */
  predicate Balanced(s: State) {
    && |s.q.list| + s.stopUps == s.q.sem + PendingUps(s.threads) + WorkerUps(s.worker) + Held(s.worker)
    && (!s.q.shouldExit ==> s.stopUps == 0)
    && (s.worker.Committed? ==> s.q.list != [])
    && !s.warnedEmpty
  }

  predicate ExitSet(th: Thread) {
    th.Stopping? && !th.pc.ToRead? && !th.pc.ToSet?
  }

  predicate Tokens(s: State) {
    Balanced(s) && forall t :: 0 <= t < |s.threads| ==> ExitSet(s.threads[t]) ==> s.q.shouldExit
  }

  /** Accepted schedules are the dequeued items followed by the queued ones, no
  item is queued twice, and an item scheduled by a run comes after that run's own entry. */
  predicate LogOf(accepted: seq<Item>, origins: seq<Origin>, dequeued: seq<Item>, list: seq<Item>) {
    && accepted == dequeued + list
    && |origins| == |accepted|
    && (forall i, j :: 0 <= i < j < |list| ==> list[i] != list[j])
    && (forall i :: 0 <= i < |origins| ==> origins[i].FromRun? ==> origins[i].r < |dequeued| && origins[i].r < i)
  }

  predicate Log(s: State) {
    LogOf(s.accepted, s.origins, s.dequeued, s.q.list) && (s.worker.Running? ==> s.dequeued != [])
  }

  /** How many of the dequeued items have finished running. */
  function Finished(s: State): (n: int) {
    if s.worker.Running? then |s.dequeued| - 1 else |s.dequeued|
  }

  /** The r-th run, if still going, has signalled and does nothing more. */
  predicate Signalled(s: State, p: nat) {
    p < |s.dequeued| && (s.worker.Running? && p == |s.dequeued| - 1 ==> s.worker.call.Returning?)
  }

  predicate Serials(s: State) {
    && (forall p :: 0 <= p < |s.accepted| ==> s.accepted[p].Flush? ==> s.accepted[p].serial < s.nextSerial)
    && (forall p, q :: 0 <= p < q < |s.accepted| ==> s.accepted[p].Flush? ==> s.accepted[p] != s.accepted[q])
    && (forall p :: 0 <= p < |s.accepted| ==>
          s.accepted[p].Flush? && s.accepted[p].serial in s.completed ==> Signalled(s, p))
    && (forall serial :: serial in s.completed ==> serial < s.nextSerial)
  }

  predicate SpawnedBefore(s: State, n0: nat, limit: int) {
    forall j :: 0 <= j < |s.origins| ==> s.origins[j].FromRun? && s.origins[j].r < n0 ==> j < limit
  }

  predicate NothingFromAfter(s: State, t: nat, at: nat) {
    forall j :: at < j < |s.origins| ==> s.origins[j] != FromThread(t)
  }

  predicate FlushItemAt(s: State, serial: nat, at: nat) {
    at < |s.accepted| && s.accepted[at] == Flush(serial)
  }

  predicate FlushOk(s: State, t: nat, th: Thread) {
    match th
    case Outside(_) => true
    case InFlush(b, second, step) =>
      && b.n0 <= |s.accepted|
      && (second ==> b.n0 <= Finished(s))
      && (!step.ToAppend? ==>
            && b.n0 <= step.at
            && FlushItemAt(s, step.serial, step.at)
            && NothingFromAfter(s, t, step.at)
            && (second ==> SpawnedBefore(s, b.n0, step.at)))
    case Flushed(b) => b.n0 <= Finished(s) && SpawnedBefore(s, b.n0, Finished(s))
    case Stopping(b, _, at) =>
      && b.n0 <= at
      && Signalled(s, at)
      && SpawnedBefore(s, b.n0, at)
      && NothingFromAfter(s, t, at)
  }

  predicate Flushes(s: State) {
    forall t :: 0 <= t < |s.threads| ==> FlushOk(s, t, s.threads[t])
  }

  /** An item that was quiet when the flush began is rescheduled by its own runs
  only if those runs were accepted before the flush began. */
  predicate QuietLog(accepted: seq<Item>, origins: seq<Origin>, b: Begin) {
    |accepted| == |origins| &&
    forall i :: 0 <= i < |accepted| ==>
      accepted[i].Work? && accepted[i].id in b.quiet && origins[i].FromRun?
      && origins[i].r < i && accepted[origins[i].r] == accepted[i]
      ==> origins[i].r < b.n0
  }

  predicate QuietCall(s: State, b: Begin) {
    s.worker.Running? && s.dequeued != [] && Current(s).Work? && Current(s).id in b.quiet
    && (s.worker.call == Intent(Current(s).id) || s.worker.call == Checked(Current(s).id))
    ==> |s.dequeued| - 1 < b.n0
  }

  predicate QuietOk(s: State, b: Begin) {
    b.quiet <= s.quiet && QuietLog(s.accepted, s.origins, b) && QuietCall(s, b)
  }

  predicate Quiets(s: State) {
    forall t :: 0 <= t < |s.threads| ==> !s.threads[t].Outside? ==> QuietOk(s, s.threads[t].b)
  }

  predicate Inv(s: State) {
    Tokens(s) && Log(s) && Serials(s) && Flushes(s) && Quiets(s)
  }

  // ----------------------------------------------------------- preservation

  lemma {:induction false} PendingUpsUpdate(ths: seq<Thread>, t: nat, th: Thread)
    requires t < |ths|
    ensures PendingUps(ths[t := th]) == PendingUps(ths) - NeedsUp(ths[t]) + NeedsUp(th)
  {
    var ths' := ths[t := th];
    if t == 0 {
      assert ths'[1..] == ths[1..];
    } else {
      assert ths'[1..] == ths[1..][t - 1 := th];
      PendingUpsUpdate(ths[1..], t - 1, th);
    }
  }

  lemma {:induction false} NoPendingUps(ths: seq<Thread>)
    requires forall t :: 0 <= t < |ths| ==> ths[t] == Outside(NoCall)
    ensures PendingUps(ths) == 0
  {
    if ths != [] {
      NoPendingUps(ths[1..]);
    }
  }

  /** The thread whose program counter the step moves. */
  function Mover(a: Action): (t: int) {
    match a
    case CallBegin(c, _) => (if c.User? then c.t else -1)
    case CallCheck(c) => (if c.User? then c.t else -1)
    case CallAppend(c) => (if c.User? then c.t else -1)
    case CallUp(c) => (if c.User? then c.t else -1)
    case FlushBegin(t, _) => t
    case FlushAppend(t) => t
    case FlushUp(t) => t
    case FlushWait(t) => t
    case FlushReturn(t) => t
    case StopRead(t) => t
    case StopSet(t) => t
    case StopUp(t) => t
    case StopJoin(t) => t
    case _ => -1
  }

  lemma OthersUnmoved(s: State, a: Action)
    requires Enabled(s, a)
    ensures |Apply(s, a).threads| == |s.threads|
    ensures forall t :: 0 <= t < |s.threads| && t != Mover(a) ==> Apply(s, a).threads[t] == s.threads[t]
    ensures Mover(a) >= 0 ==>
              && Mover(a) < |s.threads|
              && Apply(s, a).threads == s.threads[Mover(a) := Apply(s, a).threads[Mover(a)]]
    ensures Mover(a) < 0 ==> Apply(s, a).threads == s.threads
  {
  }

  lemma FlushItemIsNew(accepted: seq<Item>, dequeued: seq<Item>, list: seq<Item>, serial: nat)
    requires accepted == dequeued + list
    requires forall p :: 0 <= p < |accepted| ==> accepted[p].Flush? ==> accepted[p].serial < serial
    ensures Flush(serial) !in list
  {
    assert forall i :: 0 <= i < |list| ==> list[i] == accepted[|dequeued| + i];
  }

  lemma PendingUpsAfter(s: State, a: Action)
    requires Enabled(s, a)
    ensures PendingUps(Apply(s, a).threads) == PendingUps(s.threads)
              + if Mover(a) >= 0 then NeedsUp(Apply(s, a).threads[Mover(a)]) - NeedsUp(s.threads[Mover(a)]) else 0
  {
    OthersUnmoved(s, a);
    if Mover(a) >= 0 {
      PendingUpsUpdate(s.threads, Mover(a), Apply(s, a).threads[Mover(a)]);
    }
  }

  predicate OfCall(a: Action) {
    a.CallBegin? || a.CallCheck? || a.CallAppend? || a.CallUp?
  }

  lemma CallBalance(s: State, a: Action)
    requires Balanced(s) && Enabled(s, a) && OfCall(a)
    ensures Balanced(Apply(s, a))
  {
    PendingUpsAfter(s, a);
  }

  lemma OtherBalance(s: State, a: Action)
    requires Balanced(s) && Enabled(s, a) && !OfCall(a)
    requires a.FlushAppend? ==> Flush(s.nextSerial) !in s.q.list
    requires forall t :: 0 <= t < |s.threads| ==> ExitSet(s.threads[t]) ==> s.q.shouldExit
    ensures Balanced(Apply(s, a))
  {
    PendingUpsAfter(s, a);
  }

  lemma BalanceKept(s: State, a: Action)
    requires Tokens(s) && Log(s) && Serials(s) && Enabled(s, a)
    ensures Balanced(Apply(s, a))
  {
    if OfCall(a) {
      CallBalance(s, a);
    } else {
      if a.FlushAppend? {
        FlushItemIsNew(s.accepted, s.dequeued, s.q.list, s.nextSerial);
      }
      OtherBalance(s, a);
    }
  }

  lemma TokensKept(s: State, a: Action)
    requires Tokens(s) && Log(s) && Serials(s) && Enabled(s, a)
    ensures Tokens(Apply(s, a))
  {
    BalanceKept(s, a);
    OthersUnmoved(s, a);
  }

  lemma LogAccepts(
      accepted: seq<Item>, origins: seq<Origin>, dequeued: seq<Item>, list: seq<Item>, item: Item, o: Origin)
    requires LogOf(accepted, origins, dequeued, list)
    requires item !in list
    requires o.FromRun? ==> o.r < |dequeued|
    ensures LogOf(accepted + [item], origins + [o], dequeued, list + [item])
  {
    assert dequeued + (list + [item]) == (dequeued + list) + [item];
  }

  lemma LogTakes(accepted: seq<Item>, origins: seq<Origin>, dequeued: seq<Item>, list: seq<Item>)
    requires LogOf(accepted, origins, dequeued, list)
    requires list != []
    ensures LogOf(accepted, origins, dequeued + [list[0]], list[1..])
  {
    assert (dequeued + [list[0]]) + list[1..] == dequeued + list;
  }

  /** Whether the step appends an item to the list. */
  predicate Accepts(s: State, a: Action)
    requires Enabled(s, a)
  {
    a.FlushAppend? || (a.CallAppend? && Work(CallOf(s, a.c).id) !in s.q.list)
  }

  function AcceptedItem(s: State, a: Action): (item: Item)
    requires Enabled(s, a) && Accepts(s, a)
  {
    if a.FlushAppend? then Flush(s.nextSerial) else Work(CallOf(s, a.c).id)
  }

  function AcceptedOrigin(s: State, a: Action): (o: Origin)
    requires Enabled(s, a) && Accepts(s, a)
  {
    if a.FlushAppend? then FromThread(a.t) else OriginOf(s, a.c)
  }

  /** The three ways a step can touch the list and the history. */
  lemma HistoryStep(s: State, a: Action)
    requires Log(s) && Serials(s) && Enabled(s, a)
    ensures var s' := Apply(s, a);
            if Accepts(s, a) then
              && AcceptedItem(s, a) !in s.q.list
              && s'.q.list == s.q.list + [AcceptedItem(s, a)]
              && s'.accepted == s.accepted + [AcceptedItem(s, a)]
              && s'.origins == s.origins + [AcceptedOrigin(s, a)]
              && s'.dequeued == s.dequeued
              && (s'.worker.Running? == s.worker.Running?)
            else if a.WorkerTake? && s.q.list != [] then
              && s'.q.list == s.q.list[1..] && s'.dequeued == s.dequeued + [s.q.list[0]]
              && s'.accepted == s.accepted && s'.origins == s.origins
              && s'.worker == Running(NoCall)
            else
              && s'.q.list == s.q.list && s'.dequeued == s.dequeued
              && s'.accepted == s.accepted && s'.origins == s.origins
              && (s'.worker.Running? ==> s.worker.Running?)
  {
    if a.FlushAppend? {
      FlushItemIsNew(s.accepted, s.dequeued, s.q.list, s.nextSerial);
    }
  }

  lemma LogKept(s: State, a: Action)
    requires Log(s) && Serials(s) && Enabled(s, a)
    ensures Log(Apply(s, a))
  {
    HistoryStep(s, a);
    if Accepts(s, a) {
      LogAccepts(s.accepted, s.origins, s.dequeued, s.q.list, AcceptedItem(s, a), AcceptedOrigin(s, a));
    } else if a.WorkerTake? && s.q.list != [] {
      LogTakes(s.accepted, s.origins, s.dequeued, s.q.list);
    }
  }

  lemma SerialsKept(s: State, a: Action)
    requires Log(s) && Serials(s) && Enabled(s, a)
    ensures Serials(Apply(s, a))
  {
    HistoryStep(s, a);
    var s' := Apply(s, a);
    if a.WorkerComplete? {
      assert Current(s) == s.accepted[|s.dequeued| - 1];
    }
  }

  /** What a step leaves intact of the history, seen from a thread it does not move. */
  ghost predicate Extends(s: State, s': State) {
    && |s.accepted| == |s.origins| && |s'.accepted| == |s'.origins|
    && s.accepted <= s'.accepted
    && s.origins <= s'.origins
    && Finished(s) <= Finished(s')
    && |s.dequeued| <= |s'.dequeued|
    && (forall p: nat :: Signalled(s, p) ==> Signalled(s', p))
    && (forall j :: |s.origins| <= j < |s'.origins| ==> s'.origins[j].FromRun? ==>
          s'.origins[j].r >= Finished(s) && !Signalled(s, s'.origins[j].r))
  }

  lemma StepExtends(s: State, a: Action)
    requires Log(s) && Serials(s) && Enabled(s, a)
    ensures Extends(s, Apply(s, a))
  {
    HistoryStep(s, a);
    LogKept(s, a);
  }

  lemma FlushOkExtends(s: State, s': State, t: nat, th: Thread)
    requires Extends(s, s') && FlushOk(s, t, th)
    requires forall j :: |s.origins| <= j < |s'.origins| ==> s'.origins[j] != FromThread(t)
    ensures FlushOk(s', t, th)
  {
  }

  lemma FlushesKept(s: State, a: Action)
    requires Inv(s) && Enabled(s, a)
    ensures Flushes(Apply(s, a))
  {
    StepExtends(s, a);
    HistoryStep(s, a);
    OthersUnmoved(s, a);
    var s' := Apply(s, a);
    forall t | 0 <= t < |s'.threads|
      ensures FlushOk(s', t, s'.threads[t])
    {
      if t != Mover(a) {
        FlushOkExtends(s, s', t, s.threads[t]);
      } else {
        MoverFlushOk(s, a);
      }
    }
  }

  lemma MoverFlushOk(s: State, a: Action)
    requires Inv(s) && Enabled(s, a) && Mover(a) >= 0
    requires Extends(s, Apply(s, a))
    requires Mover(a) < |Apply(s, a).threads|
    ensures FlushOk(Apply(s, a), Mover(a), Apply(s, a).threads[Mover(a)])
  {
    HistoryStep(s, a);
    var s', t := Apply(s, a), Mover(a);
    var th := s.threads[t];
    assert FlushOk(s, t, th);
    match a {
      case FlushAppend(_) =>
        assert s'.accepted[|s.accepted|] == Flush(s.nextSerial);
      case FlushWait(_) =>
        assert Signalled(s, th.step.at);
      case _ =>
    }
  }

  lemma QuietLogAccepts(accepted: seq<Item>, origins: seq<Origin>, b: Begin, item: Item, o: Origin)
    requires QuietLog(accepted, origins, b)
    requires item.Work? && item.id in b.quiet && o.FromRun? && o.r < |accepted| && accepted[o.r] == item ==> o.r < b.n0
    ensures QuietLog(accepted + [item], origins + [o], b)
  {
  }

  lemma QuietOkKept(s: State, a: Action, b: Begin)
    requires Log(s) && Serials(s) && Enabled(s, a) && QuietOk(s, b)
    ensures QuietOk(Apply(s, a), b)
  {
    HistoryStep(s, a);
    if Accepts(s, a) {
      if a.CallAppend? && a.c.Main? {
        assert Current(s) == s.accepted[|s.dequeued| - 1];
      }
      QuietLogAccepts(s.accepted, s.origins, b, AcceptedItem(s, a), AcceptedOrigin(s, a));
    }
  }

  lemma QuietsKept(s: State, a: Action)
    requires Inv(s) && Enabled(s, a)
    ensures Quiets(Apply(s, a))
  {
    OthersUnmoved(s, a);
    HistoryStep(s, a);
    var s' := Apply(s, a);
    forall t | 0 <= t < |s'.threads| && !s'.threads[t].Outside?
      ensures QuietOk(s', s'.threads[t].b)
    {
      if s.threads[t].Outside? {
        assert a.FlushBegin?;
        assert s'.threads[t].b == Begin(|s.accepted|, s.quiet, a.stopping);
      } else {
        QuietOkKept(s, a, s.threads[t].b);
      }
    }
  }

  lemma InvKept(s: State, a: Action)
    requires Inv(s) && Enabled(s, a)
    ensures Inv(Apply(s, a))
  {
    TokensKept(s, a);
    LogKept(s, a);
    SerialsKept(s, a);
    FlushesKept(s, a);
    QuietsKept(s, a);
  }

  lemma {:induction false} InvAlways(run: seq<State>, acts: seq<Action>, k: nat)
    requires Trace(run, acts) && k < |run|
    ensures Inv(run[k])
  {
    if k == 0 {
      NoPendingUps(run[0].threads);
    } else {
      InvAlways(run, acts, k - 1);
      InvKept(run[k - 1], acts[k - 1]);
    }
  }

  // -------------------------------------------------------------- theorems

  /** In every interleaving the tokens match the queued items, and the worker
  never finds the list empty after passing the exit check, stop or no stop. */
  lemma EmptyQueueNeverSeen(run: seq<State>, acts: seq<Action>, k: nat)
    requires Trace(run, acts) && k < |run|
    ensures var s := run[k];
            && !s.warnedEmpty
            && (s.worker.Committed? ==> s.q.list != [])
            && (!s.q.shouldExit ==>
                  |s.q.list| == s.q.sem + PendingUps(s.threads) + WorkerUps(s.worker) + Held(s.worker))
  {
    InvAlways(run, acts, k);
  }

  /** Items leave in the order their schedules were accepted, and an item's
  dequeues plus its pending entry are its accepted schedules. */
  lemma FirstInFirstOut(run: seq<State>, acts: seq<Action>, k: nat, item: Item)
    requires Trace(run, acts) && k < |run|
    ensures run[k].accepted == run[k].dequeued + run[k].q.list
    ensures multiset(run[k].accepted)[item] ==
            multiset(run[k].dequeued)[item] + (if item in run[k].q.list then 1 else 0)
  {
    InvAlways(run, acts, k);
    PendingAtMostOnce(run[k].q.list, item);
  }

  lemma {:induction false} PendingAtMostOnce(list: seq<Item>, item: Item)
    requires forall i, j :: 0 <= i < j < |list| ==> list[i] != list[j]
    ensures multiset(list)[item] == if item in list then 1 else 0
  {
    if list != [] {
      assert list == [list[0]] + list[1..];
      PendingAtMostOnce(list[1..], item);
    }
  }

  function WorkIds(list: seq<Item>): (ids: seq<nat>) {
    if list == [] then [] else (if list[0].Work? then [list[0].id] else []) + WorkIds(list[1..])
  }

  lemma {:induction false} WorkIdsAdd(list: seq<Item>, item: Item)
    ensures WorkIds(list + [item]) == WorkIds(list) + WorkIds([item])
  {
    if list == [] {
      assert list + [item] == [item] && WorkIds(list) == [];
    } else {
      assert (list + [item])[1..] == list[1..] + [item];
      WorkIdsAdd(list[1..], item);
      Regroup(if list[0].Work? then [list[0].id] else [], WorkIds(list[1..]), WorkIds([item]));
    }
  }

  lemma {:induction false} WorkIdsHave(list: seq<Item>, id: nat)
    ensures id in WorkIds(list) <==> Work(id) in list
  {
    if list != [] {
      WorkIdsHave(list[1..], id);
      assert list == [list[0]] + list[1..];
    }
  }

  /** The queue as its users see it: the work items queued, and the one running. */
  function AtomicQueue(s: State): (q: Fifo.Queue) {
    Fifo.Queue(WorkIds(s.q.list),
               if s.worker.Running? && s.dequeued != [] && Current(s).Work? then Some(Current(s).id) else None)
  }

  /** What a step of the protocol is for a user. */
  function FifoStep(s: State, a: Action): (step: Fifo.Step)
    requires Enabled(s, a)
  {
    match a
    case CallAppend(c) =>
      var id := CallOf(s, c).id;
      if Work(id) in s.q.list then Fifo.Nothing else Fifo.Add(id)
    case WorkerTake => if s.q.list != [] && s.q.list[0].Work? then Fifo.Take else Fifo.Nothing
    case WorkerFinish => if s.dequeued != [] && Current(s).Work? then Fifo.Finish else Fifo.Nothing
    case _ => Fifo.Nothing
  }

  lemma CallStepsFifo(s: State, a: Action)
    requires Enabled(s, a) && OfCall(a) && (s.worker.Running? ==> s.dequeued != [])
    ensures Fifo.Next(AtomicQueue(s), FifoStep(s, a), AtomicQueue(Apply(s, a)))
  {
    if a.CallAppend? {
      var id := CallOf(s, a.c).id;
      WorkIdsAdd(s.q.list, Work(id));
      WorkIdsHave(s.q.list, id);
    }
  }

  lemma OtherStepsFifo(s: State, a: Action)
    requires Enabled(s, a) && !OfCall(a) && (s.worker.Running? ==> s.dequeued != [])
    requires a.FlushAppend? ==> Flush(s.nextSerial) !in s.q.list
    ensures Fifo.Next(AtomicQueue(s), FifoStep(s, a), AtomicQueue(Apply(s, a)))
  {
    if a.FlushAppend? {
      WorkIdsAdd(s.q.list, Flush(s.nextSerial));
    }
  }

  /** Every step of every run is, to a user of the queue, one atomic step of a
  first-in first-out queue with one worker, or nothing. */
  lemma RefinesFifo(run: seq<State>, acts: seq<Action>, k: nat)
    requires Trace(run, acts) && k < |acts|
    ensures Fifo.Next(AtomicQueue(run[k]), FifoStep(run[k], acts[k]), AtomicQueue(run[k + 1]))
  {
    InvAlways(run, acts, k);
    var s := run[k];
    if OfCall(acts[k]) {
      CallStepsFifo(s, acts[k]);
    } else {
      if acts[k].FlushAppend? {
        FlushItemIsNew(s.accepted, s.dequeued, s.q.list, s.nextSerial);
      }
      OtherStepsFifo(s, acts[k]);
    }
  }

  /** When nv_kthread_q_flush returns, everything accepted before it was called
  has finished, and so has everything scheduled by those items. */
  lemma FlushDrains(run: seq<State>, acts: seq<Action>, k: nat, t: nat)
    requires Trace(run, acts) && k < |run|
    requires t < |run[k].threads| && run[k].threads[t].Flushed?
    ensures var s := run[k]; var n0 := s.threads[t].b.n0;
            && |s.origins| == |s.accepted|
            && forall i :: 0 <= i < |s.accepted| ==>
                 i < n0 || (s.origins[i].FromRun? && s.origins[i].r < n0) ==> i < Finished(s)
  {
    InvAlways(run, acts, k);
    assert FlushOk(run[k], t, run[k].threads[t]);
  }

  /** The owner of item x asked it to stop rescheduling itself before the flush
  began, and nobody else schedules x any more. */
  predicate OnlySelfScheduled(s: State, x: nat, n0: nat) {
    |s.origins| == |s.accepted| &&
    forall i :: n0 <= i < |s.accepted| && s.accepted[i] == Work(x) ==>
      s.origins[i].FromRun? && s.origins[i].r < i && s.accepted[s.origins[i].r] == Work(x)
  }

  /** An entry of the item has finished: it was accepted before the flush, or by a run
  that was, and a run after its flag was set schedules nothing. */
  lemma RunsAreFinished(s: State, b: Begin, x: nat, i: nat)
    requires i < |s.accepted| && s.accepted[i] == Work(x) && x in b.quiet
    requires OnlySelfScheduled(s, x, b.n0) && b.n0 <= Finished(s)
    requires SpawnedBefore(s, b.n0, Finished(s)) && QuietLog(s.accepted, s.origins, b)
    ensures i < Finished(s)
  {
  }

  /** An item all of whose entries have finished is not queued and not running. */
  lemma AllFinished(s: State, item: Item)
    requires s.accepted == s.dequeued + s.q.list
    requires forall i :: 0 <= i < |s.accepted| && s.accepted[i] == item ==> i < Finished(s)
    requires s.worker.Running? ==> s.dequeued != []
    ensures item !in s.q.list
    ensures s.worker.Running? ==> Current(s) != item
  {
    assert forall i :: 0 <= i < |s.q.list| ==> s.q.list[i] == s.accepted[|s.dequeued| + i];
    if s.worker.Running? {
      assert Current(s) == s.accepted[|s.dequeued| - 1];
    }
  }

  /** Two flushes are enough for an item that reschedules itself: once its flag
  is set before the flush, it is neither pending nor running on return. */
  lemma SelfReschedulingItemDrained(run: seq<State>, acts: seq<Action>, k: nat, t: nat, x: nat)
    requires Trace(run, acts) && k < |run|
    requires t < |run[k].threads| && run[k].threads[t].Flushed?
    requires x in run[k].threads[t].b.quiet
    requires OnlySelfScheduled(run[k], x, run[k].threads[t].b.n0)
    ensures Work(x) !in run[k].q.list
    ensures run[k].worker.Running? ==> run[k].dequeued != [] && Current(run[k]) != Work(x)
  {
    InvAlways(run, acts, k);
    var s := run[k];
    assert FlushOk(s, t, s.threads[t]) && QuietOk(s, s.threads[t].b);
    forall i | 0 <= i < |s.accepted| && s.accepted[i] == Work(x) ensures i < Finished(s) {
      RunsAreFinished(s, s.threads[t].b, x, i);
    }
    AllFinished(s, Work(x));
  }

  /** After stop was called, only items accepted before it, and the stop itself, added to the queue. */
  predicate NoLateSchedules(s: State, t: nat, n0: nat) {
    |s.origins| == |s.accepted| &&
    forall i :: n0 <= i < |s.accepted| ==>
      (s.origins[i].FromRun? && s.origins[i].r < n0) || s.origins[i] == FromThread(t)
  }

  /** From the moment stop's flush has returned: every accepted item has been
  taken, the list is empty, and the worker is at most returning from stop's own
  last flush item.  So "list not empty after flushing" is never reported and
  nothing is started after the exit flag is set; once stop has joined the
  thread, everything has finished. */
  lemma StopDrains(run: seq<State>, acts: seq<Action>, k: nat, t: nat)
    requires Trace(run, acts) && k < |run|
    requires t < |run[k].threads| && run[k].threads[t].Stopping?
    requires NoLateSchedules(run[k], t, run[k].threads[t].b.n0)
    ensures var s := run[k];
            && s.q.list == []
            && s.dequeued == s.accepted
            && (s.worker.Running? ==> s.worker.call.Returning? && |s.dequeued| == s.threads[t].at + 1)
            && (!s.worker.Running? ==> Finished(s) == |s.accepted|)
            && (s.threads[t].pc.Joined? ==> s.worker.Exited?)
  {
    InvAlways(run, acts, k);
    assert FlushOk(run[k], t, run[k].threads[t]);
    JoinedMeansExited(run, acts, k, t);
    var s := run[k];
    assert |s.accepted| > 0 && NothingFromAfter(s, t, s.threads[t].at);
    var newest := s.origins[|s.accepted| - 1];
  }

  lemma {:induction false} JoinedMeansExited(run: seq<State>, acts: seq<Action>, k: nat, t: nat)
    requires Trace(run, acts) && k < |run|
    requires t < |run[k].threads|
    ensures run[k].threads[t].Stopping? && run[k].threads[t].pc.Joined? ==> run[k].worker.Exited?
  {
    if k > 0 {
      OthersUnmoved(run[k - 1], acts[k - 1]);
      JoinedMeansExited(run, acts, k - 1, t);
    }
  }

  predicate StepTo(s: State, a: Action, s': State) {
    Enabled(s, a) && Apply(s, a) == s'
  }

  ghost predicate LeadsTo(run: seq<State>, acts: seq<Action>, s: State) {
    Path(StepTo, run, acts) && run[0] == AtRest() && run[|acts|] == s
  }

  function AtRest(): (s: State) {
    State(Queue([], 0, false, true), Waiting, [Outside(NoCall), Outside(NoCall)], [], [], [], {}, 0, {}, 0, false)
  }

  /** Thread 1 has appended item 7. */
  function Appended7(): (s: State) {
    AtRest().(q := Queue([Work(7)], 0, false, true), threads := [Outside(NoCall), Outside(Appended)],
              accepted := [Work(7)], origins := [FromThread(1)])
  }

  /** The worker is about to take item 7. */
  function Taking7(): (s: State) {
    Appended7().(worker := Committed, threads := AtRest().threads)
  }

  /** Item 7 runs and has decided to reschedule itself; then its flag is set. */
  function Deciding7(): (s: State) {
    Taking7().(q := Queue([], 0, false, true), worker := Running(Intent(7)), quiet := {7}, dequeued := [Work(7)])
  }

  /** Thread 0 has queued its first flush item while item 7 is still running. */
  function Flushing7(): (s: State) {
    Deciding7().(q := Queue([Flush(0)], 1, false, true), nextSerial := 1,
                 threads := [InFlush(Begin(1, {7}, false), false, ToWait(0, 1)), Outside(NoCall)],
                 accepted := [Work(7), Flush(0)], origins := [FromThread(1), FromThread(0)])
  }

  /** Item 7 has queued itself again behind the flush item. */
  function Requeued7(): (s: State) {
    Flushing7().(q := Queue([Flush(0), Work(7)], 2, false, true), worker := Running(NoCall),
                 accepted := [Work(7), Flush(0), Work(7)], origins := [FromThread(1), FromThread(0), FromRun(0)])
  }

  /** The worker is about to take the flush item. */
  function TakingFlush(): (s: State) {
    Requeued7().(q := Queue([Flush(0), Work(7)], 1, false, true), worker := Committed)
  }

  /** The first flush has returned. */
  function FlushedOnce(): (s: State) {
    TakingFlush().(q := Queue([Work(7)], 1, false, true), worker := Running(Returning),
                   threads := [InFlush(Begin(1, {7}, false), true, ToAppend), Outside(NoCall)],
                   dequeued := [Work(7), Flush(0)], completed := {0})
  }

  lemma Appends7(run: seq<State>, acts: seq<Action>) returns (run': seq<State>, acts': seq<Action>)
    requires LeadsTo(run, acts, AtRest())
    ensures LeadsTo(run', acts', Appended7())
  {
    var s1 := AtRest().(threads := [Outside(NoCall), Outside(Intent(7))]);
    var s2 := AtRest().(threads := [Outside(NoCall), Outside(Checked(7))]);
    run', acts' := Extend3(
      StepTo, run, acts, CallBegin(User(1), 7), s1, CallCheck(User(1)), s2, CallAppend(User(1)), Appended7());
  }

  lemma WorkerWakes(run: seq<State>, acts: seq<Action>) returns (run': seq<State>, acts': seq<Action>)
    requires LeadsTo(run, acts, Appended7())
    ensures LeadsTo(run', acts', Taking7())
  {
    var s1 := Taking7().(q := Queue([Work(7)], 1, false, true), worker := Waiting);
    var s2 := Taking7().(worker := GotToken);
    run', acts' := Extend3(StepTo, run, acts, CallUp(User(1)), s1, WorkerDown, s2, WorkerReadExit, Taking7());
  }

  lemma Runs7(run: seq<State>, acts: seq<Action>) returns (run': seq<State>, acts': seq<Action>)
    requires LeadsTo(run, acts, Taking7())
    ensures LeadsTo(run', acts', Deciding7())
  {
    var s1 := Deciding7().(worker := Running(NoCall), quiet := {});
    var s2 := Deciding7().(quiet := {});
    run', acts' := Extend3(StepTo, run, acts, WorkerTake, s1, CallBegin(Main, 7), s2, Quieten(7), Deciding7());
  }

  lemma FlushQueued(run: seq<State>, acts: seq<Action>) returns (run': seq<State>, acts': seq<Action>)
    requires LeadsTo(run, acts, Deciding7())
    ensures LeadsTo(run', acts', Flushing7())
  {
    var s1 := Deciding7().(threads := [InFlush(Begin(1, {7}, false), false, ToAppend), Outside(NoCall)]);
    var s2 := Flushing7().(q := Queue([Flush(0)], 0, false, true),
                           threads := [InFlush(Begin(1, {7}, false), false, ToUp(0, 1)), Outside(NoCall)]);
    run', acts' := Extend3(StepTo, run, acts, FlushBegin(0, false), s1, FlushAppend(0), s2, FlushUp(0), Flushing7());
  }

  lemma Requeues7(run: seq<State>, acts: seq<Action>) returns (run': seq<State>, acts': seq<Action>)
    requires LeadsTo(run, acts, Flushing7())
    ensures LeadsTo(run', acts', Requeued7())
  {
    var s1 := Flushing7().(worker := Running(Checked(7)));
    var s2 := Requeued7().(q := Queue([Flush(0), Work(7)], 1, false, true), worker := Running(Appended));
    run', acts' := Extend3(StepTo, run, acts, CallCheck(Main), s1, CallAppend(Main), s2, CallUp(Main), Requeued7());
  }

  lemma Finishes7(run: seq<State>, acts: seq<Action>) returns (run': seq<State>, acts': seq<Action>)
    requires LeadsTo(run, acts, Requeued7())
    ensures LeadsTo(run', acts', TakingFlush())
  {
    var s1 := Requeued7().(worker := Waiting);
    var s2 := TakingFlush().(worker := GotToken);
    run', acts' := Extend3(StepTo, run, acts, WorkerFinish, s1, WorkerDown, s2, WorkerReadExit, TakingFlush());
  }

  lemma FlushReturns(run: seq<State>, acts: seq<Action>) returns (run': seq<State>, acts': seq<Action>)
    requires LeadsTo(run, acts, TakingFlush())
    ensures LeadsTo(run', acts', FlushedOnce())
  {
    var s0 := TakingFlush();
    var s1 := s0.(q := Queue([Work(7)], 1, false, true), worker := Running(NoCall), dequeued := [Work(7), Flush(0)]);
    var s2 := s1.(worker := Running(Returning), completed := {0});
    run', acts' := Extend3(StepTo, run, acts, WorkerTake, s1, WorkerComplete, s2, FlushWait(0), FlushedOnce());
  }

  /** A thread in nv_kthread_q_stop, past its flush, leaves the call before the join only
  if it has just found the exit flag set by another; otherwise it goes on to set the
  flag, raise the semaphore and join, one step at a time. */
  lemma StopGoesOn(run: seq<State>, acts: seq<Action>, k: nat, t: nat)
    requires Trace(run, acts) && k < |acts| && t < |run[k].threads| && run[k].threads[t].Stopping?
    ensures t < |run[k + 1].threads|
    ensures var th, th' := run[k].threads[t], run[k + 1].threads[t];
            || th' == th
            || (th.pc.ToRead? && run[k].q.shouldExit && th' == Outside(NoCall))
            || (th.pc.ToRead? && !run[k].q.shouldExit && th' == th.(pc := ToSet))
            || (th.pc.ToSet? && th' == th.(pc := ToStopUp) && run[k + 1].q.shouldExit)
            || (th.pc.ToStopUp? && th' == th.(pc := ToJoin) && run[k + 1].q.sem == run[k].q.sem + 1)
            || (th.pc.ToJoin? && th' == th.(pc := Joined) && run[k].worker.Exited? && !run[k + 1].q.hasThread)
  {
    OthersUnmoved(run[k], acts[k]);
  }

  predicate StopOver(s: State, t: nat) {
    t < |s.threads| && (s.threads[t].Stopping? ==> s.threads[t].pc.Joined?)
  }

  /** What no step undoes. */
  lemma ExitStays(s: State, a: Action)
    requires Enabled(s, a)
    ensures s.q.shouldExit ==> Apply(s, a).q.shouldExit
    ensures s.worker.Exited? ==> Apply(s, a).worker.Exited?
    ensures !s.q.hasThread ==> !Apply(s, a).q.hasThread
  {
  }

  /** What a stop that has joined leaves behind. */
  predicate Stopped(s: State) {
    s.q.shouldExit && s.worker.Exited? && !s.q.hasThread
  }

  lemma {:induction false} JoinedMeansStopped(run: seq<State>, acts: seq<Action>, k: nat, t: nat)
    requires Trace(run, acts) && k < |run| && t < |run[k].threads|
    requires run[k].threads[t].Stopping? && run[k].threads[t].pc.Joined?
    ensures Stopped(run[k])
  {
    InvAlways(run, acts, k);
    if k > 0 {
      OthersUnmoved(run[k - 1], acts[k - 1]);
      ExitStays(run[k - 1], acts[k - 1]);
      if run[k - 1].threads[t] == run[k].threads[t] {
        JoinedMeansStopped(run, acts, k - 1, t);
      }
    }
  }

  /** However a stop ends, the exit flag is set; and if it was this stop that set it, the
  worker has been joined and is gone. */
  lemma {:induction false} StopEnds(run: seq<State>, acts: seq<Action>, i: nat, j: nat, t: nat)
    requires Trace(run, acts) && i <= j < |run|
    requires t < |run[i].threads| && run[i].threads[t].Stopping? && StopOver(run[j], t)
    ensures run[j].q.shouldExit
    ensures !run[i].threads[t].pc.ToRead? ==> Stopped(run[j])
    decreases j - i
  {
    if run[i].threads[t].pc.Joined? {
      JoinedMeansStopped(run, acts, i, t);
      StoppedStays(run, acts, i, j);
    } else {
      StopGoesOn(run, acts, i, t);
      if run[i + 1].threads[t].Stopping? {
        StopEnds(run, acts, i + 1, j, t);
      } else {
        StoppedStays(run, acts, i, j);
      }
    }
  }

  lemma {:induction false} StoppedStays(run: seq<State>, acts: seq<Action>, i: nat, j: nat)
    requires Trace(run, acts) && i <= j < |run|
    ensures run[i].q.shouldExit ==> run[j].q.shouldExit
    ensures Stopped(run[i]) ==> Stopped(run[j])
    decreases j - i
  {
    if i < j {
      ExitStays(run[i], acts[i]);
      StoppedStays(run, acts, i + 1, j);
    }
  }

  /** A call that could still add to the queue. */
  predicate MayAdd(th: Thread) {
    match th
    case Outside(call) => call.Checked?
    case InFlush(_, second, step) => !second || step.ToAppend?
    case _ => false
  }

  predicate Sealed(s: State) {
    && s.q.shouldExit && !(s.worker.Running? && s.worker.call.Checked?)
    && forall t :: 0 <= t < |s.threads| ==> !MayAdd(s.threads[t])
  }

  lemma SealedKept(s: State, a: Action)
    requires Sealed(s) && Enabled(s, a)
    ensures Sealed(Apply(s, a)) && Apply(s, a).accepted == s.accepted
  {
    OthersUnmoved(s, a);
    ExitStays(s, a);
  }

  /** Once the exit flag is set and no call that has passed its check is left, every
  schedule is refused and every flush returns at once: nothing is queued any more. */
  lemma {:induction false} NothingAfterExit(run: seq<State>, acts: seq<Action>, i: nat, j: nat)
    requires Trace(run, acts) && i <= j < |run| && Sealed(run[i])
    ensures run[j].accepted == run[i].accepted
    decreases j - i
  {
    if i < j {
      SealedKept(run[i], acts[i]);
      NothingAfterExit(run, acts, i + 1, j);
    }
  }

  // ------------------------------------------------------------ a run of one stop

  const STOP := Begin(0, {}, true)

  /** Thread 0 has called stop, and its first flush item is queued. */
  function StopFlushing(): (s: State) {
    AtRest().(q := Queue([Flush(0)], 1, false, true), nextSerial := 1,
              accepted := [Flush(0)], origins := [FromThread(0)],
              threads := [InFlush(STOP, false, ToWait(0, 0)), Outside(NoCall)])
  }

  function FirstTaken(): (s: State) {
    StopFlushing().(q := Queue([], 0, false, true), worker := Running(NoCall), dequeued := [Flush(0)])
  }

  /** The first flush is over and the worker waits again. */
  function FirstOver(): (s: State) {
    FirstTaken().(worker := Waiting, completed := {0}, threads := [InFlush(STOP, true, ToAppend), Outside(NoCall)])
  }

  function SecondQueued(): (s: State) {
    FirstOver().(q := Queue([Flush(1)], 0, false, true), worker := GotToken, nextSerial := 2,
                 accepted := [Flush(0), Flush(1)], origins := [FromThread(0), FromThread(0)],
                 threads := [InFlush(STOP, true, ToWait(1, 1)), Outside(NoCall)])
  }

  function SecondDone(): (s: State) {
    SecondQueued().(q := Queue([], 0, false, true), worker := Running(Returning), dequeued := [Flush(0), Flush(1)],
                    completed := {0, 1})
  }

  function StopDecides(): (s: State) {
    SecondDone().(worker := Waiting, threads := [Stopping(STOP, ToSet, 1), Outside(NoCall)])
  }

  function StopSignals(): (s: State) {
    StopDecides().(q := Queue([], 0, true, true), worker := GotToken, stopUps := 1,
                   threads := [Stopping(STOP, ToJoin, 1), Outside(NoCall)])
  }

  function StopJoined(): (s: State) {
    StopSignals().(q := Queue([], 0, true, false), worker := Exited,
                   threads := [Stopping(STOP, Joined, 1), Outside(NoCall)])
  }

  lemma StopBegins(run: seq<State>, acts: seq<Action>) returns (run': seq<State>, acts': seq<Action>)
    requires LeadsTo(run, acts, AtRest())
    ensures LeadsTo(run', acts', StopFlushing())
  {
    var s1 := AtRest().(threads := [InFlush(STOP, false, ToAppend), Outside(NoCall)]);
    var s2 := StopFlushing().(q := Queue([Flush(0)], 0, false, true),
                              threads := [InFlush(STOP, false, ToUp(0, 0)), Outside(NoCall)]);
    run', acts' := Extend3(StepTo, run, acts, FlushBegin(0, true), s1, FlushAppend(0), s2, FlushUp(0), StopFlushing());
  }

  lemma FirstTakes(run: seq<State>, acts: seq<Action>) returns (run': seq<State>, acts': seq<Action>)
    requires LeadsTo(run, acts, StopFlushing())
    ensures LeadsTo(run', acts', FirstTaken())
  {
    var s1 := StopFlushing().(q := Queue([Flush(0)], 0, false, true), worker := GotToken);
    var s2 := s1.(worker := Committed);
    run', acts' := Extend3(StepTo, run, acts, WorkerDown, s1, WorkerReadExit, s2, WorkerTake, FirstTaken());
  }

  lemma FirstEnds(run: seq<State>, acts: seq<Action>) returns (run': seq<State>, acts': seq<Action>)
    requires LeadsTo(run, acts, FirstTaken())
    ensures LeadsTo(run', acts', FirstOver())
  {
    var s1 := FirstTaken().(worker := Running(Returning), completed := {0});
    var s2 := s1.(threads := [InFlush(STOP, true, ToAppend), Outside(NoCall)]);
    run', acts' := Extend3(StepTo, run, acts, WorkerComplete, s1, FlushWait(0), s2, WorkerFinish, FirstOver());
  }

  lemma SecondQueues(run: seq<State>, acts: seq<Action>) returns (run': seq<State>, acts': seq<Action>)
    requires LeadsTo(run, acts, FirstOver())
    ensures LeadsTo(run', acts', SecondQueued())
  {
    var s1 := SecondQueued().(worker := Waiting, threads := [InFlush(STOP, true, ToUp(1, 1)), Outside(NoCall)]);
    var s2 := SecondQueued().(q := Queue([Flush(1)], 1, false, true), worker := Waiting);
    run', acts' := Extend3(StepTo, run, acts, FlushAppend(0), s1, FlushUp(0), s2, WorkerDown, SecondQueued());
  }

  lemma SecondRuns(run: seq<State>, acts: seq<Action>) returns (run': seq<State>, acts': seq<Action>)
    requires LeadsTo(run, acts, SecondQueued())
    ensures LeadsTo(run', acts', SecondDone())
  {
    var s1 := SecondQueued().(worker := Committed);
    var s2 := SecondDone().(worker := Running(NoCall), completed := {0});
    run', acts' := Extend3(StepTo, run, acts, WorkerReadExit, s1, WorkerTake, s2, WorkerComplete, SecondDone());
  }

  lemma StopReads(run: seq<State>, acts: seq<Action>) returns (run': seq<State>, acts': seq<Action>)
    requires LeadsTo(run, acts, SecondDone())
    ensures LeadsTo(run', acts', StopDecides())
  {
    var s1 := SecondDone().(threads := [Stopping(STOP, ToRead, 1), Outside(NoCall)]);
    var s2 := s1.(worker := Waiting);
    run', acts' := Extend3(StepTo, run, acts, FlushWait(0), s1, WorkerFinish, s2, StopRead(0), StopDecides());
  }

  lemma StopSets(run: seq<State>, acts: seq<Action>) returns (run': seq<State>, acts': seq<Action>)
    requires LeadsTo(run, acts, StopDecides())
    ensures LeadsTo(run', acts', StopSignals())
  {
    var s1 := StopDecides().(q := Queue([], 0, true, true), threads := [Stopping(STOP, ToStopUp, 1), Outside(NoCall)]);
    var s2 := StopSignals().(q := Queue([], 1, true, true), worker := Waiting);
    run', acts' := Extend3(StepTo, run, acts, StopSet(0), s1, StopUp(0), s2, WorkerDown, StopSignals());
  }

  /** One stop of an idle queue: it ends with the worker out of its loop and joined. */
  lemma StopWorks() returns (run: seq<State>, acts: seq<Action>)
    ensures Trace(run, acts) && run[0] == AtRest()
    ensures run[|acts|] == StopJoined() && Stopped(run[|acts|])
  {
    run, acts := [AtRest()], [];
    run, acts := StopBegins(run, acts);
    run, acts := FirstTakes(run, acts);
    run, acts := FirstEnds(run, acts);
    run, acts := SecondQueues(run, acts);
    run, acts := SecondRuns(run, acts);
    run, acts := StopReads(run, acts);
    run, acts := StopSets(run, acts);
    run, acts := Extend(StepTo, run, acts, WorkerReadExit, StopSignals().(worker := Exited));
    run, acts := Extend(StepTo, run, acts, StopJoin(0), StopJoined());
    IsTrace(run, acts);
  }

  /** One flush is not enough: a run at whose end the first of the two flushes
  has returned, item 7 was quiet before the flush began and only its own run
  scheduled it since, and yet it is queued again. */
  lemma OneFlushIsNotEnough() returns (run: seq<State>, acts: seq<Action>)
    ensures Trace(run, acts)
    ensures var s := run[|acts|];
            && |s.threads| == 2 && s.threads[0] == InFlush(Begin(1, {7}, false), true, ToAppend)
            && OnlySelfScheduled(s, 7, 1)
            && Work(7) in s.q.list
  {
    run, acts := [AtRest()], [];
    run, acts := Appends7(run, acts);
    run, acts := WorkerWakes(run, acts);
    run, acts := Runs7(run, acts);
    run, acts := FlushQueued(run, acts);
    run, acts := Requeues7(run, acts);
    run, acts := Finishes7(run, acts);
    run, acts := FlushReturns(run, acts);
    IsTrace(run, acts);
  }

  lemma IsTrace(run: seq<State>, acts: seq<Action>)
    requires Path(StepTo, run, acts) && run[0] == AtRest()
    ensures Trace(run, acts)
  {
    forall i | 0 <= i < |acts| ensures Enabled(run[i], acts[i]) && run[i + 1] == Apply(run[i], acts[i]) {
      assert StepTo(run[i], acts[i], run[i + 1]);
    }
  }
}
