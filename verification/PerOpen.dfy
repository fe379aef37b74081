/** Entries into core NVKMS: per-open objects, nvkms_lock and the PM lock.

Every open, ioctl, close and timer callback takes nvkms_pm_lock for reading and
then nvkms_lock; nvkms_suspend(0) takes nvkms_pm_lock for writing and
nvkms_resume(0) releases it, in between which a close is deferred to a work
queue of its own.  Closing a kernel client's per-open flushes the queue that
runs its event callback before freeing it.  Threads 0 and 1 are the workers of
nvkms_deferred_close_kthread_q and nvkms_kthread_q; all others are clients. */
module PerOpen {

  import opened Common

  const DEFERRED_WORKER := 0
  const QUEUE_WORKER := 1

  datatype Kind = User | Kernel

  /** Who is to close a per-open. */
  datatype Closer = NoOne | ByThread(t: nat) | Deferred | Done

  /** A struct nvkms_per_open.  data: its pointer is not NULL; live: in memory;
  flushed: the flush of its close has returned; closes, frees: calls of
  nvKmsClose and nvkms_free on it. */
  datatype POpen = POpen(kind: Kind, data: bool, live: bool, closer: Closer, flushed: bool, closes: nat, frees: nat)

  datatype Work = Ioctl(p: nat) | Open(kind: Kind) | Close(p: nat) | TimerProc | EventCallback(p: nat)

  /** Outside; holding the PM lock for reading; also holding nvkms_lock, inside
  core NVKMS; after a close has left core NVKMS, with the PM lock still held. */
  datatype Stage = Outside | Reading | InCore | After

  datatype Pc = Idle | Doing(work: Work, stage: Stage)

  /** nvkms_suspend(0) and nvkms_resume(0): not suspended; write lock taken; in
  nvKmsSuspend; returned; resume called; in nvKmsResume; before the unlock. */
  datatype Power = Awake | Writing | Suspending | Suspended | Waking | Resuming | Woken

  datatype Holder = Nobody | Thread(t: nat) | PowerManagement

  /** Items of nvkms_kthread_q; Marker is the item that nv_kthread_q_flush waits for. */
  datatype Item = TimerItem | EventItem(p: nat) | Marker(p: nat)

  datatype Table = Table(
    popens: seq<POpen>,
    misuse: bool)               // a freed per-open was touched, or core NVKMS called with a closed one

  datatype State = State(
    table: Table,
    deferred: seq<nat>,
    queue: seq<Item>,
    pcs: map<nat, Pc>,
    readers: set<nat>,
    writer: bool,
    holder: Holder,
    power: Power)

  const START := State(Table([], false), [], [], map[], {}, false, Nobody, Awake)

  datatype Action =
    | Begin(t: nat, work: Work, contended: bool)   // a client calls ioctl, open or close
    | TakeDeferred
    | TakeItem
    | ScheduleTimer
    | EventsAvailable(p: nat)
    | ReadLock(t: nat)
    | Interrupted(t: nat)
    | CoreEnter(t: nat)
    | CoreLeave(t: nat, granted: bool)
    | Flush(t: nat)
    | Finish(t: nat)
    | EventReturns
    | WriteLock
    | PowerCore
    | PowerLeave
    | ResumeCall
    | WriteUnlock
    | OtherGpuEnter
    | OtherGpuLeave

  function PcOf(s: State, t: nat): (pc: Pc) {
    if t in s.pcs then s.pcs[t] else Idle
  }

  predicate Known(s: State, p: nat) {
    p < |s.table.popens|
  }

  predicate Busy(s: State, t: nat, g: Stage) {
    PcOf(s, t).Doing? && PcOf(s, t).stage == g
  }

  predicate IoctlsOn(s: State, p: nat) {
    exists t :: t in s.pcs && s.pcs[t].Doing? && s.pcs[t].work == Ioctl(p)
  }

  /** A client calls with a per-open it has not closed, and closes it when no
  ioctl of its own is still running on it. */
  predicate MayBegin(s: State, t: nat, w: Work) {
    && t != DEFERRED_WORKER && t != QUEUE_WORKER
    && PcOf(s, t).Idle?
    && match w
       case Ioctl(p) => Known(s, p) && s.table.popens[p].closer.NoOne?
       case Open(_) => true
       case Close(p) => Known(s, p) && s.table.popens[p].closer.NoOne? && !IoctlsOn(s, p)
       case TimerProc => false
       case EventCallback(_) => false
  }

  predicate Enabled(s: State, a: Action) {
    match a
    case Begin(t, w, _) => MayBegin(s, t, w)
    case TakeDeferred => PcOf(s, DEFERRED_WORKER).Idle? && s.deferred != [] && Known(s, s.deferred[0])
    case TakeItem => PcOf(s, QUEUE_WORKER).Idle? && s.queue != [] && (!s.queue[0].TimerItem? ==> Known(s, s.queue[0].p))
    case ScheduleTimer => true
    // nvkms_event_queue_changed, called by core NVKMS for a client it has open
    case EventsAvailable(p) =>
      !s.holder.Nobody? && Known(s, p) && s.table.popens[p].kind.Kernel? && s.table.popens[p].closes == 0
    case ReadLock(t) => Busy(s, t, Outside) && !s.writer
    case Interrupted(t) =>
      (Busy(s, t, Outside) || Busy(s, t, Reading)) && (PcOf(s, t).work.Ioctl? || PcOf(s, t).work.Open?)
    case CoreEnter(t) => Busy(s, t, Reading) && s.holder.Nobody? && WorkKnown(s.table, PcOf(s, t).work)
    case CoreLeave(t, _) => Busy(s, t, InCore) && WorkKnown(s.table, PcOf(s, t).work)
    case Flush(t) => Busy(s, t, After) && PcOf(s, t).work.Close? && WorkKnown(s.table, PcOf(s, t).work)
                     && Marker(PcOf(s, t).work.p) !in s.queue && s.table.popens[PcOf(s, t).work.p].kind.Kernel?
                     && !s.table.popens[PcOf(s, t).work.p].flushed
    case Finish(t) => Busy(s, t, After) && PcOf(s, t).work.Close? && WorkKnown(s.table, PcOf(s, t).work)
                      && (s.table.popens[PcOf(s, t).work.p].kind.Kernel? ==> s.table.popens[PcOf(s, t).work.p].flushed)
    case EventReturns => Busy(s, QUEUE_WORKER, Outside) && PcOf(s, QUEUE_WORKER).work.EventCallback?
    case WriteLock => s.power.Awake? && s.readers == {} && !s.writer
    case PowerCore => (s.power.Writing? || s.power.Waking?) && s.holder.Nobody?
    case PowerLeave => s.power.Suspending? || s.power.Resuming?
    case ResumeCall => s.power.Suspended?
    case WriteUnlock => s.power.Woken?
    case OtherGpuEnter => s.holder.Nobody?
    case OtherGpuLeave => s.holder.PowerManagement? && !s.power.Suspending? && !s.power.Resuming?
  }

  function Set(s: State, t: nat, pc: Pc): (r: State) {
    s.(pcs := s.pcs[t := pc])
  }

  predicate UsesPOpen(w: Work) {
    w.Ioctl? || w.Close? || w.EventCallback?
  }

  predicate WorkKnown(b: Table, w: Work) {
    UsesPOpen(w) ==> w.p < |b.popens|
  }

  /** Reading a field of a per-open. */
  function Touch(b: Table, w: Work): (b': Table)
    requires WorkKnown(b, w)
  {
    if UsesPOpen(w) && !b.popens[w.p].live then b.(misuse := true) else b
  }

  /** The section under nvkms_lock: nvKmsIoctl only while data is not NULL,
  nvKmsOpen, or nvKmsClose followed by data = NULL. */
  function CoreWork(b: Table, w: Work, granted: bool): (b': Table)
    requires WorkKnown(b, w)
  {
    match w
    case Ioctl(p) => IoctlWork(b, p)
    case EventCallback(p) => IoctlWork(b, p)
    case Open(kind) =>
      if granted then b.(popens := b.popens + [POpen(kind, true, true, NoOne, false, 0, 0)]) else b
    case Close(p) =>
      var x := b.popens[p];
      b.(popens := b.popens[p := x.(data := false, closes := x.closes + 1)], misuse := b.misuse || !x.data || !x.live)
    case TimerProc => b
  }

  function IoctlWork(b: Table, p: nat): (b': Table)
    requires p < |b.popens|
  {
    var x := b.popens[p];
    if !x.live || (x.data && x.closes > 0) then b.(misuse := true) else b
  }

  function FreePOpen(b: Table, p: nat): (b': Table)
    requires p < |b.popens|
  {
    var x := b.popens[p];
    Table(b.popens[p := x.(live := false, frees := x.frees + 1, closer := Done)], b.misuse || !x.live)
  }

  /** nvkms_close_popen: close now if the PM lock can be had, or else defer.  A trylock
  fails while the lock is held for writing, and may fail when a writer only waits for
  it (contended). */
  function BeginClose(s: State, t: nat, p: nat, contended: bool): (r: State)
    requires Known(s, p)
  {
    if !s.writer && !contended then
      s.(table := SetCloser(s.table, p, ByThread(t)),
         pcs := s.pcs[t := Doing(Close(p), Reading)], readers := s.readers + {t})
    else
      s.(table := SetCloser(s.table, p, Deferred), deferred := s.deferred + [p])
  }

  function SetCloser(b: Table, p: nat, c: Closer): (b': Table)
    requires p < |b.popens|
  {
    b.(popens := b.popens[p := b.popens[p].(closer := c)])
  }

  /** Leaving core NVKMS: up(&nvkms_lock), and up_read of the PM lock except for a close. */
  function Leave(s: State, t: nat, w: Work): (r: State) {
    if w.Close? then Set(s, t, Doing(w, After)).(holder := Nobody)
    else if w.EventCallback? then Set(s, t, Doing(w, Outside)).(holder := Nobody, readers := s.readers - {t})
    else Set(s, t, Idle).(holder := Nobody, readers := s.readers - {t})
  }

  /** The queue worker takes an item; running a marker only marks its flush as done. */
  function Take(s: State, item: Item): (r: State)
    requires !item.TimerItem? ==> Known(s, item.p)
  {
    match item
    case TimerItem => Set(s, QUEUE_WORKER, Doing(TimerProc, Outside))
    case EventItem(p) =>
      Set(s, QUEUE_WORKER, Doing(EventCallback(p), Outside)).(table := Touch(s.table, EventCallback(p)))
    case Marker(p) =>
      var x := s.table.popens[p];
      s.(table := Table(s.table.popens[p := x.(flushed := true)], s.table.misuse || !x.live))
  }

  function ApplyThread(s: State, a: Action): (r: State)
    requires Enabled(s, a)
    requires a.Begin? || a.ReadLock? || a.Interrupted? || a.CoreEnter? || a.CoreLeave? || a.Flush? || a.Finish?
  {
    match a
    case Begin(t, w, contended) => if w.Close? then BeginClose(s, t, w.p, contended) else Set(s, t, Doing(w, Outside))
    case ReadLock(t) => Set(s, t, Doing(PcOf(s, t).work, Reading)).(readers := s.readers + {t})
    case Interrupted(t) => Set(s, t, Idle).(readers := s.readers - {t})
    case CoreEnter(t) =>
      Set(s, t, Doing(PcOf(s, t).work, InCore)).(holder := Thread(t), table := Touch(s.table, PcOf(s, t).work))
    case CoreLeave(t, granted) =>
      Leave(s.(table := CoreWork(s.table, PcOf(s, t).work, granted)), t, PcOf(s, t).work)
    case Flush(t) => s.(queue := s.queue + [Marker(PcOf(s, t).work.p)])
    case Finish(t) =>
      Set(s, t, Idle).(readers := s.readers - {t}, table := FreePOpen(s.table, PcOf(s, t).work.p))
  }

  function Apply(s: State, a: Action): (r: State)
    requires Enabled(s, a)
  {
    match a
    case TakeDeferred =>
      var p := s.deferred[0];
      Set(s, DEFERRED_WORKER, Doing(Close(p), Outside))
      .(deferred := s.deferred[1..], table := SetCloser(s.table, p, ByThread(DEFERRED_WORKER)))
    case TakeItem => Take(s.(queue := s.queue[1..]), s.queue[0])
    case ScheduleTimer => s.(queue := s.queue + [TimerItem])
    case EventsAvailable(p) =>
      if EventItem(p) in s.queue then s
      else s.(queue := s.queue + [EventItem(p)], table := Touch(s.table, EventCallback(p)))
    case EventReturns => Set(s, QUEUE_WORKER, Idle)
    case WriteLock => s.(writer := true, power := Writing)
    case PowerCore => s.(holder := PowerManagement, power := if s.power.Writing? then Suspending else Resuming)
    case PowerLeave => s.(holder := Nobody, power := if s.power.Suspending? then Suspended else Woken)
    case ResumeCall => s.(power := Waking)
    case WriteUnlock => s.(writer := false, power := Awake)
    case OtherGpuEnter => s.(holder := PowerManagement)
    case OtherGpuLeave => s.(holder := Nobody)
    case _ => ApplyThread(s, a)
  }

  predicate Trace(run: seq<State>, acts: seq<Action>) {
    && |run| == |acts| + 1
    && run[0] == START
    && forall i :: 0 <= i < |acts| ==> Enabled(run[i], acts[i]) && run[i + 1] == Apply(run[i], acts[i])
  }

  // --------------------------------------------------------------------- locks

  predicate Holding(pc: Pc) {
    pc.Doing? && !pc.stage.Outside?
  }

  predicate ThreadLocks(s: State, t: nat) {
    && (t in s.readers <==> Holding(PcOf(s, t)))
    && (s.holder == Thread(t) <==> Busy(s, t, InCore))
  }

  predicate PowerLocks(s: State) {
    && (s.writer <==> !s.power.Awake?)
    && (s.writer ==> s.readers == {})
    && (s.power.Suspending? || s.power.Resuming? ==> s.holder.PowerManagement?)
  }

  ghost predicate LockInv(s: State) {
    PowerLocks(s) && forall t: nat :: ThreadLocks(s, t)
  }

  /** The thread a step is about. */
  function Mover(a: Action): (t: nat) {
    match a
    case TakeDeferred => DEFERRED_WORKER
    case TakeItem => QUEUE_WORKER
    case EventReturns => QUEUE_WORKER
    case Begin(t, _, _) => t
    case ReadLock(t) => t
    case Interrupted(t) => t
    case CoreEnter(t) => t
    case CoreLeave(t, _) => t
    case Flush(t) => t
    case Finish(t) => t
    case _ => QUEUE_WORKER
  }

  predicate OfThread(a: Action) {
    a.Begin? || a.ReadLock? || a.Interrupted? || a.CoreEnter? || a.CoreLeave? || a.Flush? || a.Finish?
  }

  lemma ThreadLocksKept(s: State, a: Action, t: nat)
    requires Enabled(s, a) && OfThread(a) && ThreadLocks(s, t) && ThreadLocks(s, Mover(a))
    ensures ThreadLocks(Apply(s, a), t)
  {
  }

  lemma OtherLocksKept(s: State, a: Action, t: nat)
    requires Enabled(s, a) && !OfThread(a) && ThreadLocks(s, t) && PowerLocks(s)
    ensures ThreadLocks(Apply(s, a), t)
  {
  }

  lemma PowerLocksKept(s: State, a: Action)
    requires Enabled(s, a) && PowerLocks(s) && ThreadLocks(s, Mover(a))
    ensures PowerLocks(Apply(s, a))
  {
  }

  lemma LockInvKept(s: State, a: Action)
    requires Enabled(s, a) && LockInv(s)
    ensures LockInv(Apply(s, a))
  {
    assert ThreadLocks(s, Mover(a));
    PowerLocksKept(s, a);
    forall t: nat ensures ThreadLocks(Apply(s, a), t) {
      assert ThreadLocks(s, t);
      if OfThread(a) {
        ThreadLocksKept(s, a, t);
      } else {
        OtherLocksKept(s, a, t);
      }
    }
  }

  // ---------------------------------------------------------------- per-opens

  /** A per-open and the stage of the thread that closes it. */
  predicate POpenOk(x: POpen, g: Stage) {
    match x.closer
    case NoOne => x.live && x.data && !x.flushed && x.closes == 0 && x.frees == 0
    case Deferred => x.live && x.data && !x.flushed && x.closes == 0 && x.frees == 0
    case ByThread(_) =>
      && x.live && x.frees == 0
      && (if g.After? then !x.data && x.closes == 1 else x.data && x.closes == 0 && !x.flushed)
    case Done => !x.live && !x.data && x.closes == 1 && x.frees == 1 && (x.kind.Kernel? ==> x.flushed)
  }

  predicate CloserOk(s: State, p: nat)
    requires Known(s, p)
  {
    var x := s.table.popens[p];
    if x.closer.ByThread? then
      var pc := PcOf(s, x.closer.t);
      pc.Doing? && pc.work == Close(p) && POpenOk(x, pc.stage)
    else POpenOk(x, Outside)
  }

  /** What a thread is doing is still allowed. */
  predicate UseOk(s: State, t: nat) {
    var pc := PcOf(s, t);
    pc.Doing? ==>
      && WorkKnown(s.table, pc.work)
      && (pc.stage.After? ==> pc.work.Close?)
      && match pc.work
         case Ioctl(p) => s.table.popens[p].closer.NoOne?
         case Close(p) => s.table.popens[p].closer == ByThread(t)
         case EventCallback(p) =>
           && t == QUEUE_WORKER && s.table.popens[p].kind.Kernel?
           && !s.table.popens[p].flushed && !s.table.popens[p].closer.Done?
         case TimerProc => t == QUEUE_WORKER
         case Open(_) => true
  }

  predicate DeferredOk(s: State, p: nat)
    requires Known(s, p)
  {
    p in s.deferred <==> s.table.popens[p].closer.Deferred?
  }

  /** An event item is of a kernel client whose close has not been flushed, and a
  flush's marker is of a close waiting for it. */
  predicate ItemOk(s: State, item: Item) {
    !item.TimerItem? ==>
      && Known(s, item.p)
      && var x := s.table.popens[item.p];
         && x.kind.Kernel? && !x.flushed && !x.closer.Done?
         && (item.Marker? ==> x.closer.ByThread? && Busy(s, x.closer.t, After))
  }

  /** Nothing of a per-open is queued behind its marker. */
  predicate MarkersLast(q: seq<Item>) {
    forall i, j :: 0 <= i < j < |q| && q[i].Marker? ==> q[j] != EventItem(q[i].p) && q[j] != q[i]
  }

  ghost predicate TableInv(s: State) {
    && (forall p :: 0 <= p < |s.table.popens| ==> CloserOk(s, p) && DeferredOk(s, p))
    && (forall t: nat :: UseOk(s, t))
    && (forall p :: p in s.deferred ==> Known(s, p)) && NoDup(s.deferred)
    && (forall item :: item in s.queue ==> ItemOk(s, item)) && MarkersLast(s.queue)
    && !s.table.misuse
  }

  lemma CloserKeptThread(s: State, a: Action, p: nat)
    requires Enabled(s, a) && OfThread(a) && Known(s, p) && CloserOk(s, p) && UseOk(s, Mover(a))
    ensures Known(Apply(s, a), p) && CloserOk(Apply(s, a), p)
  {
  }

  lemma CloserKeptOther(s: State, a: Action, p: nat)
    requires Enabled(s, a) && !OfThread(a) && Known(s, p) && CloserOk(s, p) && DeferredOk(s, p)
    requires a.TakeItem? ==> ItemOk(s, s.queue[0])
    requires a.EventReturns? ==> UseOk(s, QUEUE_WORKER)
    ensures Known(Apply(s, a), p) && CloserOk(Apply(s, a), p)
  {
  }

  lemma OpenStarts(s: State, a: Action, p: nat)
    requires Enabled(s, a) && !Known(s, p) && Known(Apply(s, a), p) && p !in s.deferred
    ensures CloserOk(Apply(s, a), p) && DeferredOk(Apply(s, a), p)
  {
  }

  lemma OwnUseKept(s: State, a: Action)
    requires Enabled(s, a) && OfThread(a) && UseOk(s, a.t)
    ensures UseOk(Apply(s, a), a.t)
  {
  }

  /** Steps that hand a per-open on: its close begins or ends. */
  predicate HandsOn(a: Action) {
    a.Begin? || a.Finish?
  }

  lemma OtherUseHandedOn(s: State, a: Action, t: nat)
    requires Enabled(s, a) && OfThread(a) && HandsOn(a) && UseOk(s, t) && UseOk(s, a.t) && t != a.t
    ensures UseOk(Apply(s, a), t)
  {
  }

  lemma OtherUseKept(s: State, a: Action, t: nat)
    requires Enabled(s, a) && OfThread(a) && !HandsOn(a) && UseOk(s, t) && UseOk(s, a.t) && t != a.t
    ensures UseOk(Apply(s, a), t)
  {
  }

  lemma UseKeptThread(s: State, a: Action, t: nat)
    requires Enabled(s, a) && OfThread(a) && UseOk(s, t) && UseOk(s, Mover(a))
    ensures UseOk(Apply(s, a), t)
  {
    if t == a.t {
      OwnUseKept(s, a);
    } else if HandsOn(a) {
      OtherUseHandedOn(s, a, t);
    } else {
      OtherUseKept(s, a, t);
    }
  }

  lemma UseKeptOther(s: State, a: Action, t: nat)
    requires Enabled(s, a) && !OfThread(a) && UseOk(s, t)
    requires a.TakeItem? ==> ItemOk(s, s.queue[0])
    requires a.TakeDeferred? ==> DeferredOk(s, s.deferred[0])
    ensures UseOk(Apply(s, a), t)
  {
  }

  lemma DeferredKept(s: State, a: Action, p: nat)
    requires Enabled(s, a) && Known(s, p) && DeferredOk(s, p) && NoDup(s.deferred)
    requires OfThread(a) ==> UseOk(s, Mover(a))
    ensures Known(Apply(s, a), p) && DeferredOk(Apply(s, a), p)
  {
    if a.TakeDeferred? {
      TakenOnce(s.deferred, p);
    }
  }

  predicate Defers(s: State, a: Action) {
    a.Begin? && a.work.Close? && (s.writer || a.contended)
  }

  lemma DeferredAfter(s: State, a: Action)
    requires Enabled(s, a)
    ensures Apply(s, a).deferred
         == if Defers(s, a) then s.deferred + [a.work.p] else if a.TakeDeferred? then s.deferred[1..] else s.deferred
    ensures |Apply(s, a).table.popens| >= |s.table.popens|
  {
  }

  lemma DeferredLine(s: State, a: Action)
    requires Enabled(s, a) && NoDup(s.deferred) && forall p :: p in s.deferred ==> Known(s, p)
    requires Defers(s, a) ==> DeferredOk(s, a.work.p)
    ensures NoDup(Apply(s, a).deferred) && forall p :: p in Apply(s, a).deferred ==> Known(Apply(s, a), p)
  {
    DeferredAfter(s, a);
    if a.TakeDeferred? {
      TakenOnce(s.deferred, 0);
      forall p | p in s.deferred[1..] ensures Known(s, p) {
        TakenOnce(s.deferred, p);
      }
    }
  }

  lemma QueueAfter(s: State, a: Action)
    requires Enabled(s, a)
    ensures Apply(s, a).queue
         == if a.TakeItem? then s.queue[1..]
            else if a.ScheduleTimer? then s.queue + [TimerItem]
            else if a.EventsAvailable? && EventItem(a.p) !in s.queue then s.queue + [EventItem(a.p)]
            else if a.Flush? then s.queue + [Marker(PcOf(s, a.t).work.p)]
            else s.queue
  {
  }

  /** An item that stays queued stays as it should be. */
  lemma ItemKeptThread(s: State, a: Action, item: Item)
    requires Enabled(s, a) && OfThread(a) && ItemOk(s, item) && UseOk(s, Mover(a))
    requires !item.TimerItem? ==> CloserOk(s, item.p)
    ensures ItemOk(Apply(s, a), item)
  {
  }

  lemma ItemKeptOther(s: State, a: Action, item: Item)
    requires Enabled(s, a) && !OfThread(a) && ItemOk(s, item)
    requires a.TakeItem? && s.queue[0].Marker? ==> item.TimerItem? || item.p != s.queue[0].p
    requires a.TakeDeferred? ==> DeferredOk(s, s.deferred[0])
    requires a.EventReturns? || a.TakeItem? ==> UseOk(s, QUEUE_WORKER)
    ensures ItemOk(Apply(s, a), item)
  {
  }

  lemma EventStarts(s: State, p: nat)
    requires Enabled(s, EventsAvailable(p)) && CloserOk(s, p)
    ensures ItemOk(s, EventItem(p)) && !ItemOk(s, Marker(p))
  {
  }

  lemma MarkerStarts(s: State, t: nat)
    requires Enabled(s, Flush(t)) && UseOk(s, t)
    ensures ItemOk(s, Marker(PcOf(s, t).work.p))
  {
    var p := PcOf(s, t).work.p;
    assert s.table.popens[p].closer == ByThread(t);
  }

  lemma MarkersAfter(q: seq<Item>, item: Item)
    requires MarkersLast(q)
    requires item.Marker? ==> item !in q
    requires item.EventItem? ==> Marker(item.p) !in q
    ensures MarkersLast(q + [item])
  {
  }

  lemma MarkersRest(q: seq<Item>, item: Item)
    requires MarkersLast(q) && q != [] && item in q[1..]
    ensures item in q && (q[0].Marker? ==> item.TimerItem? || item.p != q[0].p)
  {
    var i :| 0 <= i < |q| - 1 && q[1..][i] == item;
    assert q[i + 1] == item;
  }

  lemma QueueKept(s: State, a: Action)
    requires Enabled(s, a) && TableInv(s)
    ensures MarkersLast(Apply(s, a).queue)
  {
    QueueAfter(s, a);
    if a.EventsAvailable? && EventItem(a.p) !in s.queue {
      assert CloserOk(s, a.p);
      EventStarts(s, a.p);
      assert Marker(a.p) !in s.queue;
      MarkersAfter(s.queue, EventItem(a.p));
    } else if a.Flush? {
      MarkersAfter(s.queue, Marker(PcOf(s, a.t).work.p));
    } else if a.ScheduleTimer? {
      MarkersAfter(s.queue, TimerItem);
    }
  }

  lemma ItemsKept(s: State, a: Action, item: Item)
    requires Enabled(s, a) && TableInv(s) && item in Apply(s, a).queue
    ensures ItemOk(Apply(s, a), item)
  {
    QueueAfter(s, a);
    assert UseOk(s, Mover(a)) && UseOk(s, QUEUE_WORKER);
    if a.TakeItem? {
      MarkersRest(s.queue, item);
    } else if a.TakeDeferred? {
      assert s.deferred[0] in s.deferred;
      assert DeferredOk(s, s.deferred[0]);
    } else if a.EventsAvailable? {
      assert CloserOk(s, a.p);
      EventStarts(s, a.p);
    } else if a.Flush? {
      MarkerStarts(s, a.t);
    }
    assert item in s.queue ==> ItemOk(s, item);
    if OfThread(a) {
      ItemKeptThread(s, a, item);
    } else {
      ItemKeptOther(s, a, item);
    }
  }

  lemma NoMisuse(s: State, a: Action)
    requires Enabled(s, a) && TableInv(s)
    ensures !Apply(s, a).table.misuse
  {
    assert UseOk(s, Mover(a));
    if OfThread(a) && PcOf(s, a.t).Doing? && UsesPOpen(PcOf(s, a.t).work) {
      assert CloserOk(s, PcOf(s, a.t).work.p);
    } else if a.TakeItem? && !s.queue[0].TimerItem? {
      assert ItemOk(s, s.queue[0]);
      assert CloserOk(s, s.queue[0].p);
    } else if a.EventsAvailable? {
      assert CloserOk(s, a.p);
    }
  }

  lemma POpensKept(s: State, a: Action, p: nat)
    requires Enabled(s, a) && TableInv(s) && Known(Apply(s, a), p)
    ensures CloserOk(Apply(s, a), p) && DeferredOk(Apply(s, a), p)
  {
    assert UseOk(s, Mover(a)) && UseOk(s, QUEUE_WORKER);
    if !Known(s, p) {
      assert p in s.deferred ==> Known(s, p);
      OpenStarts(s, a, p);
    } else {
      assert CloserOk(s, p) && DeferredOk(s, p);
      DeferredKept(s, a, p);
      if OfThread(a) {
        CloserKeptThread(s, a, p);
      } else {
        assert a.TakeItem? ==> ItemOk(s, s.queue[0]);
        CloserKeptOther(s, a, p);
      }
    }
  }

  lemma UsesKept(s: State, a: Action, t: nat)
    requires Enabled(s, a) && TableInv(s)
    ensures UseOk(Apply(s, a), t)
  {
    assert UseOk(s, t) && UseOk(s, Mover(a));
    if OfThread(a) {
      UseKeptThread(s, a, t);
    } else {
      assert a.TakeItem? ==> ItemOk(s, s.queue[0]);
      assert a.TakeDeferred? ==> DeferredOk(s, s.deferred[0]);
      UseKeptOther(s, a, t);
    }
  }

  lemma TableInvKept(s: State, a: Action)
    requires Enabled(s, a) && TableInv(s)
    ensures TableInv(Apply(s, a))
  {
    var s' := Apply(s, a);
    forall p | 0 <= p < |s'.table.popens| ensures CloserOk(s', p) && DeferredOk(s', p) {
      POpensKept(s, a, p);
    }
    forall t: nat ensures UseOk(s', t) {
      UsesKept(s, a, t);
    }
    forall item | item in s'.queue ensures ItemOk(s', item) {
      ItemsKept(s, a, item);
    }
    assert Defers(s, a) ==> DeferredOk(s, a.work.p);
    DeferredLine(s, a);
    QueueKept(s, a);
    NoMisuse(s, a);
  }

  lemma {:induction false} InvAlways(run: seq<State>, acts: seq<Action>, i: nat)
    requires Trace(run, acts) && i < |run|
    ensures LockInv(run[i]) && TableInv(run[i])
  {
    if i > 0 {
      InvAlways(run, acts, i - 1);
      LockInvKept(run[i - 1], acts[i - 1]);
      TableInvKept(run[i - 1], acts[i - 1]);
    }
  }

  // ------------------------------------------------------------------ theorems

  /** At most one party is inside core NVKMS, and from the moment nvkms_suspend(0)
  has the PM lock until nvkms_resume(0) releases it no ioctl, open, close, event
  callback or timer procedure is, nor holds the PM lock. */
  lemma SuspendedKeepsOut(run: seq<State>, acts: seq<Action>, i: nat, t: nat)
    requires Trace(run, acts) && i < |run|
    ensures !run[i].power.Awake? ==> PcOf(run[i], t).Idle? || PcOf(run[i], t).stage.Outside?
    ensures Busy(run[i], t, InCore) ==> run[i].holder == Thread(t) && run[i].power.Awake?
    ensures forall u: nat :: Busy(run[i], t, InCore) && Busy(run[i], u, InCore) ==> t == u
  {
    InvAlways(run, acts, i);
    assert ThreadLocks(run[i], t);
    forall u: nat | Busy(run[i], t, InCore) && Busy(run[i], u, InCore) ensures t == u {
      assert ThreadLocks(run[i], u);
    }
  }

  /** So no step in that time enters core NVKMS, and a close called in it is deferred. */
  lemma SuspendedEntersNothing(run: seq<State>, acts: seq<Action>, i: nat)
    requires Trace(run, acts) && i < |acts| && !run[i].power.Awake?
    ensures !acts[i].ReadLock? && !acts[i].CoreEnter? && !acts[i].CoreLeave?
    ensures acts[i].Begin? && acts[i].work.Close? ==> run[i + 1].deferred == run[i].deferred + [acts[i].work.p]
  {
    InvAlways(run, acts, i);
    assert ThreadLocks(run[i], Mover(acts[i]));
  }

  /** A per-open is closed at most once and freed at most once, closed before it is
  freed, in memory and with its data until then, and once its close is called
  exactly one party has it to close: one thread, or the deferred queue, which
  holds it once. */
  lemma ClosedAndFreedOnce(run: seq<State>, acts: seq<Action>, i: nat, p: nat)
    requires Trace(run, acts) && i < |run| && p < |run[i].table.popens|
    ensures var x := run[i].table.popens[p];
            && x.frees <= x.closes <= 1
            && (x.live <==> x.frees == 0) && (x.data <==> x.closes == 0)
            && (x.closer.Done? <==> x.frees == 1)
            && (x.closer.Deferred? <==> p in run[i].deferred)
            && (forall t: nat ::
                  PcOf(run[i], t).Doing? && PcOf(run[i], t).work == Close(p) <==> x.closer == ByThread(t))
    ensures NoDup(run[i].deferred)
  {
    InvAlways(run, acts, i);
    var s := run[i];
    assert CloserOk(s, p) && DeferredOk(s, p);
    forall t: nat
      ensures PcOf(s, t).Doing? && PcOf(s, t).work == Close(p) <==> s.table.popens[p].closer == ByThread(t)
    {
      assert UseOk(s, t);
    }
  }

  /** A per-open whose close was called, directly or while suspended, has been closed and
  freed exactly once when no thread is busy and nothing is deferred. */
  lemma CloseCompletes(run: seq<State>, acts: seq<Action>, i: nat, p: nat)
    requires Trace(run, acts) && i < |run| && p < |run[i].table.popens| && !run[i].table.popens[p].closer.NoOne?
    requires run[i].deferred == [] && forall t :: t in run[i].pcs ==> run[i].pcs[t].Idle?
    ensures run[i].table.popens[p].closes == 1 && run[i].table.popens[p].frees == 1
  {
    InvAlways(run, acts, i);
    assert CloserOk(run[i], p) && DeferredOk(run[i], p);
  }

  /** No step reads a freed per-open or calls core NVKMS with a closed one, though
  an event callback may still be queued or running when its client closes. */
  lemma NeverMisused(run: seq<State>, acts: seq<Action>, i: nat)
    requires Trace(run, acts) && i < |run|
    ensures !run[i].table.misuse
  {
    InvAlways(run, acts, i);
  }

  /** When a per-open is freed its event callback is neither queued nor running. */
  lemma FreedIsQuiet(run: seq<State>, acts: seq<Action>, i: nat, p: nat)
    requires Trace(run, acts) && i < |run| && p < |run[i].table.popens| && !run[i].table.popens[p].live
    ensures EventItem(p) !in run[i].queue && Marker(p) !in run[i].queue
    ensures forall t: nat :: PcOf(run[i], t).Doing? ==> !UsesPOpen(PcOf(run[i], t).work) || PcOf(run[i], t).work.p != p
  {
    InvAlways(run, acts, i);
    var s := run[i];
    assert CloserOk(s, p);
    assert EventItem(p) in s.queue ==> ItemOk(s, EventItem(p));
    assert Marker(p) in s.queue ==> ItemOk(s, Marker(p));
    forall t: nat | PcOf(s, t).Doing? ensures !UsesPOpen(PcOf(s, t).work) || PcOf(s, t).work.p != p {
      assert UseOk(s, t);
    }
  }

  /** A per-open comes into being exactly when nvKmsOpen grants an open, with data, in
  memory, to be closed by no one yet, and for the kind of client that asked for it. */
  lemma OpenGives(run: seq<State>, acts: seq<Action>, i: nat)
    requires Trace(run, acts) && i < |acts|
    ensures var xs, xs' := run[i].table.popens, run[i + 1].table.popens;
            if acts[i].CoreLeave? && acts[i].granted && PcOf(run[i], acts[i].t).work.Open? then
              && |xs'| == |xs| + 1 && xs'[..|xs|] == xs
              && xs'[|xs|].kind == PcOf(run[i], acts[i].t).work.kind
              && xs'[|xs|].data && xs'[|xs|].live && xs'[|xs|].closer.NoOne?
            else |xs'| == |xs|
  {
    if !Grants(run[i], acts[i]) {
      OnlyGrantsAdd(run[i], acts[i]);
    }
  }

  predicate Grants(s: State, a: Action)
    requires Enabled(s, a)
  {
    a.CoreLeave? && a.granted && PcOf(s, a.t).work.Open?
  }

  lemma OnlyGrantsAdd(s: State, a: Action)
    requires Enabled(s, a) && !Grants(s, a)
    ensures |Apply(s, a).table.popens| == |s.table.popens|
  {
  }

  /** It stays a client of that kind. */
  lemma {:induction false} KindStays(run: seq<State>, acts: seq<Action>, i: nat, j: nat, p: nat)
    requires Trace(run, acts) && i <= j < |run| && p < |run[i].table.popens|
    ensures p < |run[j].table.popens| && run[j].table.popens[p].kind == run[i].table.popens[p].kind
    decreases j - i
  {
    if i < j {
      KindStep(run[i], acts[i], p);
      KindStays(run, acts, i + 1, j, p);
    }
  }

  lemma KindStep(s: State, a: Action, p: nat)
    requires Enabled(s, a) && Known(s, p)
    ensures Known(Apply(s, a), p) && Apply(s, a).table.popens[p].kind == s.table.popens[p].kind
  {
  }

  /** A close goes to the deferred queue if and only if it is called while suspended, from
  the moment that nvkms_suspend(0) has the PM lock, or fails to get it because
  someone waits for it; otherwise the caller closes the per-open itself, and
  holds the PM lock from then on. */
  lemma DefersIff(run: seq<State>, acts: seq<Action>, i: nat)
    requires Trace(run, acts) && i < |acts| && acts[i].Begin? && acts[i].work.Close?
    ensures var p, t := acts[i].work.p, acts[i].t;
            && p < |run[i + 1].table.popens|
            && if !run[i].power.Awake? || acts[i].contended then
                 && run[i + 1].table.popens[p].closer.Deferred? && PcOf(run[i + 1], t).Idle?
                 && run[i + 1].deferred == run[i].deferred + [p]
               else
                 && run[i + 1].table.popens[p].closer == ByThread(t) && Busy(run[i + 1], t, Reading)
                 && run[i + 1].readers == run[i].readers + {t}
  {
    InvAlways(run, acts, i);
  }

  /** The per-open whose memory a step reads. */
  function Reads(s: State, a: Action): (p: Option<nat>)
    requires Enabled(s, a)
  {
    match a
    case CoreEnter(t) => if UsesPOpen(PcOf(s, t).work) then Some(PcOf(s, t).work.p) else None
    case CoreLeave(t, _) => if UsesPOpen(PcOf(s, t).work) then Some(PcOf(s, t).work.p) else None
    case Flush(t) => Some(PcOf(s, t).work.p)
    case Finish(t) => Some(PcOf(s, t).work.p)
    case EventsAvailable(p) => Some(p)
    case TakeItem => if s.queue[0].TimerItem? then None else Some(s.queue[0].p)
    case _ => None
  }

  /** The misuse that NeverMisused excludes: reading a freed per-open, closing one without
  data, or an ioctl on one that has data but was closed. */
  lemma MisuseIff(s: State, a: Action)
    requires Enabled(s, a) && !s.table.misuse && !a.Flush? && !(a.EventsAvailable? && EventItem(a.p) in s.queue)
    ensures Apply(s, a).table.misuse <==>
              && Reads(s, a).Some? && Reads(s, a).value < |s.table.popens|
              && var x := s.table.popens[Reads(s, a).value];
                 || !x.live
                 || (a.CoreLeave? && if PcOf(s, a.t).work.Close? then !x.data else x.data && x.closes > 0)
  {
  }

  /** Every per-open that a step reads is in memory, and one with which core NVKMS is
  called, to close it or while its data is not NULL, has not been closed. */
  lemma ReadsOnlyLive(run: seq<State>, acts: seq<Action>, i: nat)
    requires Trace(run, acts) && i < |acts| && Reads(run[i], acts[i]).Some?
    ensures Reads(run[i], acts[i]).value < |run[i].table.popens|
    ensures var x := run[i].table.popens[Reads(run[i], acts[i]).value];
            && x.live
            && (acts[i].CoreLeave? ==>
                  (x.data <==> x.closes == 0) && (PcOf(run[i], acts[i].t).work.Close? ==> x.data))
  {
    InvAlways(run, acts, i);
    var s := run[i];
    var p := Reads(s, acts[i]).value;
    assert UseOk(s, Mover(acts[i])) && CloserOk(s, p);
    if acts[i].TakeItem? {
      assert ItemOk(s, s.queue[0]);
    }
  }

  /** How a thread's call goes on: it takes the PM lock, enters core NVKMS, leaves it, and
  returns, or with a close still has to free the per-open, or with an event callback
  is back in it; an ioctl or an open may be interrupted before it enters. */
  predicate GoesOn(pc: Pc, pc': Pc) {
    || pc' == pc
    || (pc.Idle? && pc'.Doing? && (pc'.stage.Outside? || (pc'.stage.Reading? && pc'.work.Close?)))
    || (&& pc.Doing? && pc'.Doing? && pc'.work == pc.work
        && match pc.stage
           case Outside => pc'.stage.Reading?
           case Reading => pc'.stage.InCore?
           case InCore => if pc.work.Close? then pc'.stage.After? else pc.work.EventCallback? && pc'.stage.Outside?
           case After => false)
    || (&& pc.Doing? && pc'.Idle?
        && match pc.stage
           case Outside => pc.work.Ioctl? || pc.work.Open? || pc.work.EventCallback?
           case Reading => pc.work.Ioctl? || pc.work.Open?
           case InCore => !pc.work.Close? && !pc.work.EventCallback?
           case After => pc.work.Close?)
  }

  lemma GoesOnStep(s: State, a: Action, t: nat)
    requires Enabled(s, a)
    requires PcOf(s, t).Doing? && PcOf(s, t).stage.After? ==> PcOf(s, t).work.Close?
    ensures GoesOn(PcOf(s, t), PcOf(Apply(s, a), t))
  {
  }

  /** And a step of its own takes it further: none leaves the thread where it was, except
  that a flush is waited for and a deferred close needs nothing more of its caller. */
  lemma StagesInOrder(run: seq<State>, acts: seq<Action>, i: nat, t: nat)
    requires Trace(run, acts) && i < |acts|
    ensures GoesOn(PcOf(run[i], t), PcOf(run[i + 1], t))
    ensures OfThread(acts[i]) && acts[i].t == t && !acts[i].Flush? && !Defers(run[i], acts[i]) ==>
              PcOf(run[i + 1], t) != PcOf(run[i], t)
    ensures acts[i].TakeItem? && run[i].queue[0].TimerItem? ==>
              PcOf(run[i + 1], QUEUE_WORKER) == Doing(TimerProc, Outside)
    ensures acts[i].TakeItem? && run[i].queue[0].EventItem? ==>
              PcOf(run[i + 1], QUEUE_WORKER) == Doing(EventCallback(run[i].queue[0].p), Outside)
  {
    InvAlways(run, acts, i);
    assert UseOk(run[i], t);
    GoesOnStep(run[i], acts[i], t);
    if OfThread(acts[i]) && acts[i].t == t && !acts[i].Flush? && !Defers(run[i], acts[i]) {
      OwnStepMoves(run[i], acts[i]);
    }
  }

  lemma OwnStepMoves(s: State, a: Action)
    requires Enabled(s, a) && OfThread(a) && !a.Flush? && !Defers(s, a)
    ensures PcOf(Apply(s, a), a.t) != PcOf(s, a.t)
  {
  }

  // --------------------------------------------------------------------- events

  predicate EventsOnce(q: seq<Item>) {
    forall i, j :: 0 <= i < j < |q| && q[i].EventItem? ==> q[i] != q[j]
  }

  lemma {:induction false} EventsOnceAlways(run: seq<State>, acts: seq<Action>, i: nat)
    requires Trace(run, acts) && i < |run|
    ensures EventsOnce(run[i].queue)
  {
    if i > 0 {
      EventsOnceAlways(run, acts, i - 1);
      QueueAfter(run[i - 1], acts[i - 1]);
    }
  }

  /** Telling a kernel client that it has events queues its callback, and queues it once
  however often that is done before the callback starts. */
  lemma EventQueuedOnce(run: seq<State>, acts: seq<Action>, i: nat, p: nat)
    requires Trace(run, acts) && i < |acts| && acts[i] == EventsAvailable(p)
    ensures multiset(run[i + 1].queue)[EventItem(p)] == 1
    ensures run[i + 1].queue == run[i].queue || run[i + 1].queue == run[i].queue + [EventItem(p)]
  {
    EventsOnceAlways(run, acts, i + 1);
    QueueAfter(run[i], acts[i]);
    QueuedOnce(run[i + 1].queue, EventItem(p));
  }

  lemma {:induction false} QueuedOnce(q: seq<Item>, item: Item)
    requires EventsOnce(q) && item.EventItem?
    ensures multiset(q)[item] == One(item in q)
  {
    if q != [] {
      var n := |q| - 1;
      QueuedOnce(q[..n], item);
      assert q == q[..n] + [q[n]];
      assert q[n] == item ==> item !in q[..n];
    }
  }

  // ---------------------------------------------------- a run of a deferred close

  predicate StepTo(s: State, a: Action, s': State) {
    Enabled(s, a) && Apply(s, a) == s'
  }

  ghost predicate LeadsTo(run: seq<State>, acts: seq<Action>, s: State) {
    Path(StepTo, run, acts) && run[0] == START && run[|acts|] == s
  }

  const FRESH := POpen(Kernel, true, true, NoOne, false, 0, 0)

  /** Thread 2 is in its open call. */
  function Opening(g: Stage): (s: State) {
    START.(pcs := map[2 := Doing(Open(Kernel), g)])
  }

  function Opened(): (s: State) {
    START.(table := Table([FRESH], false), pcs := map[2 := Idle])
  }

  /** Suspended, and thread 3 has closed the per-open. */
  function Postponed(): (s: State) {
    Opened().(table := Table([FRESH.(closer := Deferred)], false), deferred := [0], writer := true, power := Suspended)
  }

  /** Resumed, and the deferred worker, thread 0, closes x. */
  function Closing(x: POpen, g: Stage): (s: State) {
    Opened().(table := Table([x.(closer := ByThread(0))], false), pcs := map[2 := Idle, 0 := Doing(Close(0), g)])
  }

  function ClosedAndFreed(): (s: State) {
    Opened().(table := Table([POpen(Kernel, false, false, Done, true, 1, 1)], false), pcs := map[2 := Idle, 0 := Idle])
  }

  lemma Opens() returns (run: seq<State>, acts: seq<Action>)
    ensures LeadsTo(run, acts, Opened())
  {
    run, acts := [START], [];
    var s3 := Opening(InCore).(readers := {2}, holder := Thread(2));
    run, acts := Extend3(StepTo, run, acts, Begin(2, Open(Kernel), false), Opening(Outside),
                         ReadLock(2), Opening(Reading).(readers := {2}), CoreEnter(2), s3);
    run, acts := Extend(StepTo, run, acts, CoreLeave(2, true), Opened());
  }

  lemma Suspends(run: seq<State>, acts: seq<Action>) returns (run': seq<State>, acts': seq<Action>)
    requires LeadsTo(run, acts, Opened())
    ensures LeadsTo(run', acts', Postponed())
  {
    var s1 := Opened().(writer := true, power := Writing);
    var s2 := s1.(holder := PowerManagement, power := Suspending);
    var s3 := Opened().(writer := true, power := Suspended);
    run', acts' := Extend3(StepTo, run, acts, WriteLock, s1, PowerCore, s2, PowerLeave, s3);
    run', acts' := Extend(StepTo, run', acts', Begin(3, Close(0), false), Postponed());
  }

  lemma Resumes(run: seq<State>, acts: seq<Action>) returns (run': seq<State>, acts': seq<Action>)
    requires LeadsTo(run, acts, Postponed())
    ensures LeadsTo(run', acts', Closing(FRESH, Outside)) && run <= run'
  {
    var s1 := Postponed().(power := Waking);
    var s2 := Postponed().(power := Resuming, holder := PowerManagement);
    var s3 := Postponed().(power := Woken);
    var s4 := Postponed().(power := Awake, writer := false);
    run', acts' := Extend3(StepTo, run, acts, ResumeCall, s1, PowerCore, s2, PowerLeave, s3);
    run', acts' := Extend(StepTo, run', acts', WriteUnlock, s4);
    assert map[2 := Idle][0 := Doing(Close(0), Outside)] == Closing(FRESH, Outside).pcs;
    run', acts' := Extend(StepTo, run', acts', TakeDeferred, Closing(FRESH, Outside));
  }

  lemma Closes(run: seq<State>, acts: seq<Action>) returns (run': seq<State>, acts': seq<Action>)
    requires LeadsTo(run, acts, Closing(FRESH, Outside))
    ensures LeadsTo(run', acts', Closing(FRESH.(data := false, closes := 1), After).(readers := {0})) && run <= run'
  {
    var s1 := Closing(FRESH, Reading).(readers := {0});
    var s2 := Closing(FRESH, InCore).(readers := {0}, holder := Thread(0));
    var s3 := Closing(FRESH.(data := false, closes := 1), After).(readers := {0});
    run', acts' := Extend3(StepTo, run, acts, ReadLock(0), s1, CoreEnter(0), s2, CoreLeave(0, true), s3);
  }

  lemma Frees(run: seq<State>, acts: seq<Action>) returns (run': seq<State>, acts': seq<Action>)
    requires LeadsTo(run, acts, Closing(FRESH.(data := false, closes := 1), After).(readers := {0}))
    ensures LeadsTo(run', acts', ClosedAndFreed()) && run <= run'
  {
    var s1 := Closing(FRESH.(data := false, closes := 1), After).(readers := {0}, queue := [Marker(0)]);
    var s2 := Closing(FRESH.(data := false, closes := 1, flushed := true), After).(readers := {0});
    run', acts' := Extend3(StepTo, run, acts, Flush(0), s1, TakeItem, s2, Finish(0), ClosedAndFreed());
  }

  lemma IsTrace(run: seq<State>, acts: seq<Action>)
    requires Path(StepTo, run, acts) && run[0] == START
    ensures Trace(run, acts)
  {
    forall i | 0 <= i < |acts| ensures Enabled(run[i], acts[i]) && run[i + 1] == Apply(run[i], acts[i]) {
      assert StepTo(run[i], acts[i], run[i + 1]);
    }
  }

  /** A kernel client closed while suspended is closed and freed after resume, by the
  deferred worker: nothing in the way of that ever blocks. */
  lemma DeferredCloseWorks() returns (run: seq<State>, acts: seq<Action>, i: nat)
    ensures Trace(run, acts) && i < |acts|
    ensures run[i] == Postponed() && run[|acts|] == ClosedAndFreed()
  {
    run, acts := Opens();
    run, acts := Suspends(run, acts);
    i := |acts|;
    assert run[i] == Postponed();
    run, acts := Resumes(run, acts);
    run, acts := Closes(run, acts);
    run, acts := Frees(run, acts);
    assert run[i] == Postponed() && run[i] != run[|acts|];
    IsTrace(run, acts);
  }

  // ------------------------------------------------------------- the operations

  /** The lock and per-open state of nvidia-modeset-linux.c. */
  class NvkmsEntries {
    var popens: seq<POpen>
    var misuse: bool
    var deferred: seq<nat>
    var queue: seq<Item>
    var pcs: map<nat, Pc>
    var readers: set<nat>
    var writer: bool
    var holder: Holder
    var power: Power

    function Value(): (s: State)
      reads this
    {
      State(Table(popens, misuse), deferred, queue, pcs, readers, writer, holder, power)
    }

    /** nvkms_close_popen, up to holding the PM lock or having queued the deferred item. */
    method ClosePOpen(t: nat, p: nat, contended: bool) returns (now: bool)
      requires p < |popens|
      modifies this`popens, this`deferred, this`pcs, this`readers
      ensures Value() == BeginClose(old(Value()), t, p, contended)
      ensures now <==> !writer && !contended
    {
      now := !writer && !contended;
      if now {
        readers := readers + {t};
        popens := popens[p := popens[p].(closer := ByThread(t))];
        pcs := pcs[t := Doing(Close(p), Reading)];
      } else {
        popens := popens[p := popens[p].(closer := Deferred)];
        deferred := deferred + [p];
      }
    }

    /** nvkms_ioctl_common under nvkms_lock; called: nvKmsIoctl is called. */
    method IoctlSection(p: nat) returns (called: bool)
      requires p < |popens|
      modifies this`misuse
      ensures Value().table == IoctlWork(old(Value()).table, p)
      ensures called <==> popens[p].data
    {
      misuse := misuse || !popens[p].live;
      called := popens[p].data;
      if called && popens[p].closes > 0 {
        misuse := true;
      }
    }

    /** nvkms_close_common under nvkms_lock: nvKmsClose, then data = NULL. */
    method CloseSection(p: nat)
      requires p < |popens|
      modifies this`popens, this`misuse
      ensures Value().table == CoreWork(old(Value()).table, Close(p), true)
    {
      var x := popens[p];
      misuse := misuse || !x.live || !x.data;
      popens := popens[p := x.(closes := x.closes + 1)];
      popens := popens[p := popens[p].(data := false)];
    }
  }
}
