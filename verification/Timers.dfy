/** NVKMS timers and reference-counted pointers.

A timer is reached from a global list, a kernel timer, a work queue item and,
for some, a handle.  It is freed by its own callback, by the holder of the
handle or by module unload, depending on the order in which the kernel timer
fires, the callback runs and the handle is freed, which may happen inside the
timer's own procedure.  Steps are the sections under nvkms_timers.lock or
nvkms_lock and the moves of the kernel timer; the work queue is first-in
first-out with one worker, as KthreadQ proves of nv_kthread_q. */
module Timers {

  import opened Common
  import Fifo
  import KthreadQ

  // ------------------------------------------------------------------- ref_ptr

  /** An nvkms_ref_ptr in memory; live: its pointer is not NULL. */
  datatype Ref = Ref(count: nat, live: bool)

  /** The ref_ptrs; owners: those the core may still free with nvkms_free_ref_ptr. */
  datatype RefTable = RefTable(
    refs: map<nat, Ref>,
    owners: set<nat>,
    freed: multiset<nat>,
    next: nat,
    misuse: bool)               // a freed ref_ptr was touched

  /** nvkms_alloc_ref_ptr: the owner counts as a reference. */
  function AllocRefPtr(b: RefTable): (b': RefTable) {
    b.(refs := b.refs[b.next := Ref(1, true)], owners := b.owners + {b.next}, next := b.next + 1)
  }

  /** nvkms_inc_ref. */
  function IncRef(b: RefTable, r: nat): (b': RefTable) {
    if r !in b.refs then b.(misuse := true) else b.(refs := b.refs[r := b.refs[r].(count := b.refs[r].count + 1)])
  }

  /** nvkms_dec_ref: the ref_ptr is freed when its count reaches zero. */
  function DecRef(b: RefTable, r: nat): (b': RefTable) {
    if r !in b.refs || b.refs[r].count == 0 then b.(misuse := true)
    else if b.refs[r].count == 1 then b.(refs := b.refs - {r}, freed := b.freed + multiset{r})
    else b.(refs := b.refs[r := b.refs[r].(count := b.refs[r].count - 1)])
  }

  /** nvkms_free_ref_ptr: clear the pointer, then drop the owner's reference. */
  function FreeRefPtr(b: RefTable, r: nat): (b': RefTable) {
    if r !in b.refs then b.(misuse := true)
    else DecRef(b.(refs := b.refs[r := b.refs[r].(live := false)], owners := b.owners - {r}), r)
  }

  /** Whether nvkms_dec_ref returns NULL. */
  predicate NullPtr(b: RefTable, r: nat) {
    r !in b.refs || !b.refs[r].live
  }

  // -------------------------------------------------------------------- timers

  /** A kernel timer: pending, in its callback before and after the work item is
  queued, and done.  A timer with no delay has none. */
  datatype KernelTimer = Armed | Firing | Tail | Quiet

  /** One timer ever allocated, with what is known of it after it is freed.
  live: in memory; handle: the core may still free it; holds: it still counts as
  a reference of its ref_ptr; ran, freed: calls of its procedure, and frees. */
  datatype Timer = Timer(
    live: bool,
    isRef: bool,
    ref: nat,
    holds: bool,
    cancel: bool,
    complete: bool,
    handle: bool,
    kernel: Option<KernelTimer>,
    ran: nat,
    freed: nat)

  datatype Holder = Nobody | Client | Callback

  datatype Stage = Start | Unlisted | Synced | Locked | InProc | Post

  /** Where nvkms_kthread_q_callback stands, and with which timer: taken from the
  queue, off the global list, past del_timer_sync, holding nvkms_lock, inside
  timer->proc, about to free the timer or not and unlock. */
  datatype Worker = Free | Busy(t: nat, stage: Stage)

  /** The timers, the global list of pending ones and the work queue. */
  datatype Memory = Memory(
    timers: seq<Timer>,
    list: seq<nat>,
    queue: seq<nat>,
    misuse: bool)               // a freed timer was touched, one in use was freed, or the WARN fired

  datatype State = State(
    mem: Memory,
    table: RefTable,
    worker: Worker,
    holder: Holder,
    exiting: Option<nat>,       // taken off the list by nvkms_exit, not yet freed
    unloaded: bool)             // nvKmsModuleUnload has returned

  const START :=
    State(Memory([], [], [], false), RefTable(map[], {}, multiset{}, 0, false), Free, Nobody, None, false)

  datatype Action =
    | ClientLock
    | ClientUnlock
    | AllocTimer(delayed: bool)
    | AllocRefTimer(r: nat, delayed: bool)
    | FreeTimer(t: nat)
    | AllocRef
    | FreeRef(r: nat)
    | Unload
    | Fire(t: nat)
    | FireQueue(t: nat)
    | FireEnd(t: nat)
    | Take
    | CbUnlist
    | CbSync
    | CbLock
    | CbBegin
    | CbProcEnd
    | CbEnd
    | ExitDeactivate(t: nat)
    | ExitDispose

  function Drop(xs: seq<nat>, x: nat): (r: seq<nat>)
    ensures forall y :: y in r <==> y in xs && y != x
  {
    if xs == [] then [] else (if xs[0] == x then [] else [xs[0]]) + Drop(xs[1..], x)
  }

  /** Whether some other party still uses the timer's memory. */
  predicate InUse(b: Memory, t: nat)
    requires t < |b.timers|
  {
    t in b.list || t in b.queue || b.timers[t].kernel in {Some(Armed), Some(Firing), Some(Tail)}
  }

  function Put(b: Memory, t: nat, x: Timer): (b': Memory)
    requires t < |b.timers|
  {
    b.(timers := b.timers[t := x])
  }

  /** nvkms_free or kfree of a timer. */
  function Deallocate(b: Memory, t: nat): (b': Memory)
    requires t < |b.timers|
  {
    var x := b.timers[t];
    b.(timers := b.timers[t := x.(live := false, freed := x.freed + 1)], misuse := b.misuse || !x.live || InUse(b, t))
  }

  /** nv_kthread_q_schedule_q_item of the timer's item: it fails, and nvkms_queue_work
  warns, if the item is queued already. */
  function Schedule(b: Memory, t: nat): (b': Memory)
    requires t < |b.timers|
  {
    if t in b.queue || !b.timers[t].live then b.(misuse := true) else b.(queue := b.queue + [t])
  }

  /** nvkms_init_timer, under nvkms_timers.lock. */
  function InitTimer(b: Memory, x: Timer, delayed: bool): (b': Memory) {
    var t := |b.timers|;
    if delayed then b.(timers := b.timers + [x.(kernel := Some(Armed))], list := [t] + b.list)
    else Schedule(b.(timers := b.timers + [x], list := [t] + b.list), t)
  }

  function PlainTimer(): (x: Timer) {
    Timer(true, false, 0, false, false, false, true, None, 0, 0)
  }

  function RefTimer(r: nat): (x: Timer) {
    Timer(true, true, r, true, false, false, false, None, 0, 0)
  }

  /** nvkms_free_timer. */
  function ReleaseTimer(b: Memory, t: nat): (b': Memory)
    requires t < |b.timers|
  {
    var x := b.timers[t].(handle := false);
    if !x.live then Put(b, t, x).(misuse := true)
    else if x.complete then Deallocate(Put(b, t, x), t)
    else Put(b, t, x.(cancel := true))
  }

  /** nvkms_kthread_q_callback once it holds nvkms_lock: whether the timer is canceled. */
  predicate Canceled(x: Timer, table: RefTable) {
    x.cancel || (x.isRef && NullPtr(table, x.ref))
  }

  /** It drops the timer's reference, and then calls the procedure unless canceled. */
  function BegunTimer(x: Timer, table: RefTable): (y: Timer) {
    if Canceled(x, table) then x.(holds := false, cancel := true) else x.(holds := false, ran := x.ran + 1)
  }

  function DroppedBy(x: Timer, table: RefTable): (table': RefTable) {
    if x.isRef then DecRef(table, x.ref) else table
  }

  /** Its end: free the timer unless its handle is still held. */
  function EndedTimer(b: Memory, t: nat): (b': Memory)
    requires t < |b.timers|
  {
    if b.timers[t].isRef || b.timers[t].cancel then Deallocate(b, t) else b
  }

  /** del_timer_sync: the kernel timer, if any, is neither pending nor running. */
  function AfterDelSync(x: Timer): (y: Timer) {
    if x.kernel.Some? then x.(kernel := Some(Quiet)) else x
  }

  predicate Known(s: State, t: nat) {
    t < |s.mem.timers|
  }

  predicate InCore(s: State) {
    s.holder.Client? || (s.worker.Busy? && s.worker.stage.InProc?)
  }

  predicate At(s: State, g: Stage) {
    s.worker.Busy? && s.worker.stage == g && Known(s, s.worker.t)
  }

  predicate KernelAt(s: State, t: nat, k: KernelTimer) {
    Known(s, t) && s.mem.timers[t].kernel == Some(k)
  }

  predicate Enabled(s: State, a: Action) {
    match a
    case ClientLock => s.holder.Nobody? && !s.unloaded
    case ClientUnlock => s.holder.Client?
    // called with nvkms_lock held: by a client, or by a timer procedure
    case AllocTimer(_) => InCore(s)
    case FreeTimer(t) => InCore(s) && Known(s, t) && s.mem.timers[t].handle
    case AllocRef => InCore(s)
    case FreeRef(r) => InCore(s) && r in s.table.owners
    // called from an interrupt, while the owner keeps the ref_ptr
    case AllocRefTimer(r, _) => r in s.table.owners
    // the core has freed every handle and every ref_ptr it owns
    case Unload => s.holder.Client? && s.table.owners == {} && forall x :: x in s.mem.timers ==> !x.handle
    case Fire(t) => KernelAt(s, t, Armed)
    case FireQueue(t) => KernelAt(s, t, Firing)
    case FireEnd(t) => KernelAt(s, t, Tail)
    case Take => s.worker.Free? && s.mem.queue != [] && Known(s, s.mem.queue[0])
    case CbUnlist => At(s, Start)
    case CbSync => At(s, Unlisted) && !KernelAt(s, s.worker.t, Firing) && !KernelAt(s, s.worker.t, Tail)
    case CbLock => At(s, Synced) && s.holder.Nobody?
    case CbBegin => At(s, Locked)
    case CbProcEnd => At(s, InProc)
    case CbEnd => At(s, Post)
    case ExitDeactivate(t) => s.unloaded && s.exiting.None? && t in s.mem.list && KernelAt(s, t, Armed)
    case ExitDispose => s.exiting.Some? && Known(s, s.exiting.value)
  }

  predicate OfCallback(a: Action) {
    a.CbUnlist? || a.CbSync? || a.CbLock? || a.CbBegin? || a.CbProcEnd? || a.CbEnd?
  }

  function ApplyCallback(s: State, a: Action): (r: State)
    requires Enabled(s, a) && OfCallback(a)
  {
    var t := s.worker.t;
    var x := s.mem.timers[t];
    if !x.live then s.(worker := Free, mem := s.mem.(misuse := true))
    else
      match a
      case CbUnlist => s.(worker := Busy(t, Unlisted), mem := s.mem.(list := Drop(s.mem.list, t)))
      case CbSync => s.(worker := Busy(t, Synced), mem := Put(s.mem, t, AfterDelSync(x)))
      case CbLock => s.(worker := Busy(t, Locked), holder := Callback)
      case CbBegin =>
        s.(worker := Busy(t, if Canceled(x, s.table) then Post else InProc),
           mem := Put(s.mem, t, BegunTimer(x, s.table)), table := DroppedBy(x, s.table))
      case CbProcEnd => s.(worker := Busy(t, Post), mem := Put(s.mem, t, x.(complete := true)))
      case CbEnd => s.(worker := Free, holder := Nobody, mem := EndedTimer(s.mem, t))
  }

  /** nvkms_exit frees a timer that it has deactivated. */
  function ApplyDispose(s: State, t: nat): (r: State)
    requires Known(s, t)
  {
    var x := s.mem.timers[t];
    s.(mem := Deallocate(Put(s.mem, t, x.(holds := false)), t), table := DroppedBy(x, s.table), exiting := None)
  }

  function Apply(s: State, a: Action): (r: State)
    requires Enabled(s, a)
  {
    match a
    case ClientLock => s.(holder := Client)
    case ClientUnlock => s.(holder := Nobody)
    case AllocTimer(delayed) => s.(mem := InitTimer(s.mem, PlainTimer(), delayed))
    case AllocRefTimer(r, delayed) => s.(mem := InitTimer(s.mem, RefTimer(r), delayed), table := IncRef(s.table, r))
    case FreeTimer(t) => s.(mem := ReleaseTimer(s.mem, t))
    case AllocRef => s.(table := AllocRefPtr(s.table))
    case FreeRef(r) => s.(table := FreeRefPtr(s.table, r))
    case Unload => s.(unloaded := true, holder := Nobody)
    case Fire(t) => s.(mem := Put(s.mem, t, s.mem.timers[t].(kernel := Some(Firing))))
    case FireQueue(t) => s.(mem := Schedule(Put(s.mem, t, s.mem.timers[t].(kernel := Some(Tail))), t))
    case FireEnd(t) => s.(mem := Put(s.mem, t, s.mem.timers[t].(kernel := Some(Quiet))))
    case Take => s.(worker := Busy(s.mem.queue[0], Start), mem := s.mem.(queue := s.mem.queue[1..]))
    case ExitDeactivate(t) =>
      s.(mem := Put(s.mem, t, s.mem.timers[t].(kernel := Some(Quiet))).(list := Drop(s.mem.list, t)),
         exiting := Some(t))
    case ExitDispose => ApplyDispose(s, s.exiting.value)
    case _ => ApplyCallback(s, a)
  }

  predicate Trace(run: seq<State>, acts: seq<Action>) {
    && |run| == |acts| + 1
    && run[0] == START
    && forall i :: 0 <= i < |acts| ==> Enabled(run[i], acts[i]) && run[i + 1] == Apply(run[i], acts[i])
  }

  // --------------------------------------------------------- one timer's life

  /** All that the state says about one timer. */
  datatype View = View(x: Timer, listed: bool, queued: bool, stage: Option<Stage>, exiting: bool)

  function ViewOf(s: State, t: nat): (v: View)
    requires Known(s, t)
  {
    View(s.mem.timers[t], t in s.mem.list, t in s.mem.queue,
         if s.worker.Busy? && s.worker.t == t then Some(s.worker.stage) else None,
         s.exiting == Some(t))
  }

  predicate Pending(v: View) {
    v.x.kernel == Some(Armed) || v.x.kernel == Some(Firing)
  }

  /** The places a timer passes through: kernel timer, queue, callback; or nvkms_exit. */
  predicate Active(v: View) {
    Pending(v) || v.queued || v.stage.Some? || v.exiting
  }

  /** A timer is in at most one place, is on the list until its callback starts,
  and its kernel timer is done once del_timer_sync has returned. */
  predicate PlaceOk(v: View) {
    && (v.listed <==> Pending(v) || v.queued || v.stage == Some(Start))
    && (Pending(v) ==> !v.queued && v.stage.None? && !v.exiting)
    && (v.queued ==> v.stage.None? && !v.exiting)
    && (v.stage.Some? ==> !v.exiting)
    && (v.x.kernel == Some(Tail) ==> v.queued || v.stage == Some(Start) || v.stage == Some(Unlisted))
  }

  predicate Begun(v: View) {
    v.stage == Some(InProc) || v.stage == Some(Post)
  }

  /** cancel says that the handle is gone, complete that the procedure has returned;
  a timer in no place has run and waits for its handle to be freed. */
  predicate FlagsOk(v: View) {
    && (!v.x.isRef ==> (v.x.handle <==> !v.x.cancel) && !v.x.holds)
    && (v.x.isRef ==> !v.x.handle && (v.x.cancel ==> v.stage == Some(Post)) && (v.x.holds <==> !Begun(v)))
    && (v.x.complete ==> v.stage == Some(Post) || !Active(v))
    && (!Active(v) ==> !v.x.isRef && v.x.complete && v.x.handle)
    && (v.stage == Some(Post) ==> v.x.complete || v.x.cancel)
    && v.x.ran == if v.x.complete || v.stage == Some(InProc) then 1 else 0
  }

  /** A freed timer is nowhere. */
  predicate GoneOk(v: View) {
    !v.x.handle && !v.x.holds && !v.listed && !Active(v) && v.x.kernel != Some(Tail) && v.x.ran <= 1
  }

  predicate Ok(v: View) {
    && (if v.x.live then PlaceOk(v) && FlagsOk(v) else GoneOk(v))
    && v.x.freed == if v.x.live then 0 else 1
  }

  /** The timer a step is about, if it is an existing one. */
  function Subject(s: State, a: Action): (t: Option<nat>)
    requires Enabled(s, a)
  {
    if OfCallback(a) then Some(s.worker.t)
    else
      match a
      case FreeTimer(t) => Some(t)
      case Fire(t) => Some(t)
      case FireQueue(t) => Some(t)
      case FireEnd(t) => Some(t)
      case Take => Some(s.mem.queue[0])
      case ExitDeactivate(t) => Some(t)
      case ExitDispose => s.exiting
      case _ => None
  }

  function Erased(v: View): (v': View) {
    v.(x := v.x.(live := false, handle := false, holds := false, freed := v.x.freed + 1),
       stage := None, exiting := false)
  }

  /** What a step does to its timer; gone: the ref_ptr's pointer is NULL. */
  function Moved(v: View, a: Action, gone: bool): (v': View) {
    match a
    case FreeTimer(_) => if v.x.complete then Erased(v) else v.(x := v.x.(cancel := true, handle := false))
    case Fire(_) => v.(x := v.x.(kernel := Some(Firing)))
    case FireQueue(_) => v.(x := v.x.(kernel := Some(Tail)), queued := true)
    case FireEnd(_) => v.(x := v.x.(kernel := Some(Quiet)))
    case Take => v.(queued := false, stage := Some(Start))
    case CbUnlist => v.(listed := false, stage := Some(Unlisted))
    case CbSync => v.(stage := Some(Synced), x := AfterDelSync(v.x))
    case CbLock => v.(stage := Some(Locked))
    case CbBegin =>
      if v.x.cancel || (v.x.isRef && gone) then v.(x := v.x.(holds := false, cancel := true), stage := Some(Post))
      else v.(x := v.x.(holds := false, ran := v.x.ran + 1), stage := Some(InProc))
    case CbProcEnd => v.(x := v.x.(complete := true), stage := Some(Post))
    case CbEnd => if v.x.isRef || v.x.cancel then Erased(v) else v.(stage := None)
    case ExitDeactivate(_) => v.(x := v.x.(kernel := Some(Quiet)), listed := false, exiting := true)
    case ExitDispose => Erased(v)
    case _ => v
  }

  /** What lets a step happen, seen from its timer. */
  predicate Ready(v: View, a: Action) {
    match a
    case FreeTimer(_) => v.x.handle && v.stage != Some(Post)
    case Fire(_) => v.x.kernel == Some(Armed)
    case FireQueue(_) => v.x.kernel == Some(Firing)
    case FireEnd(_) => v.x.kernel == Some(Tail)
    case Take => v.queued
    case CbUnlist => v.stage == Some(Start)
    case CbSync => v.stage == Some(Unlisted) && v.x.kernel != Some(Firing) && v.x.kernel != Some(Tail)
    case CbLock => v.stage == Some(Synced)
    case CbBegin => v.stage == Some(Locked)
    case CbProcEnd => v.stage == Some(InProc)
    case CbEnd => v.stage == Some(Post)
    case ExitDeactivate(_) => v.x.kernel == Some(Armed) && !v.x.handle
    case ExitDispose => v.exiting && !v.x.handle
    case _ => true
  }

  /** The life of a timer: every move keeps it in at most one place, and finds it
  in memory; it is freed only when it is on no list, in no queue and not armed. */
  lemma LifeKept(v: View, a: Action, gone: bool)
    requires Ok(v) && Ready(v, a)
    ensures Ok(Moved(v, a, gone))
  {
  }

  predicate LockOk(s: State) {
    s.holder.Callback? <==> s.worker.Busy? && (s.worker.stage.Locked? || s.worker.stage.InProc? || s.worker.stage.Post?)
  }

  /** A step leaves every other timer alone. */
  lemma OthersUntouched(s: State, a: Action, t: nat)
    requires Enabled(s, a) && Known(s, t) && Subject(s, a) != Some(t) && NoDup(s.mem.queue)
    ensures Known(Apply(s, a), t) && ViewOf(Apply(s, a), t) == ViewOf(s, t)
  {
    if OfCallback(a) {
      CallbackLeaves(s, a, t);
    } else if a.AllocTimer? || a.AllocRefTimer? {
      AllocLeaves(s, a, t);
    } else {
      OutsideLeaves(s, a, t);
    }
  }

  lemma CallbackLeaves(s: State, a: Action, t: nat)
    requires Enabled(s, a) && OfCallback(a) && Known(s, t) && s.worker.t != t
    ensures Known(Apply(s, a), t) && ViewOf(Apply(s, a), t) == ViewOf(s, t)
  {
  }

  lemma AllocLeaves(s: State, a: Action, t: nat)
    requires Enabled(s, a) && Known(s, t) && (a.AllocTimer? || a.AllocRefTimer?)
    ensures Known(Apply(s, a), t) && ViewOf(Apply(s, a), t) == ViewOf(s, t)
  {
    Added(s.mem.list, |s.mem.timers|, t);
    Added(s.mem.queue, |s.mem.timers|, t);
  }

  lemma OutsideLeaves(s: State, a: Action, t: nat)
    requires Enabled(s, a) && Known(s, t) && Subject(s, a) != Some(t) && NoDup(s.mem.queue)
    requires !OfCallback(a) && !a.AllocTimer? && !a.AllocRefTimer?
    ensures Known(Apply(s, a), t) && ViewOf(Apply(s, a), t) == ViewOf(s, t)
  {
    if a.Take? {
      TakenOnce(s.mem.queue, t);
    }
    if a.FireQueue? {
      Added(s.mem.queue, a.t, t);
    }
  }

  lemma OutsideMoves(s: State, a: Action, t: nat)
    requires Enabled(s, a) && Subject(s, a) == Some(t) && !OfCallback(a) && NoDup(s.mem.queue) && Known(s, t)
    requires Ok(ViewOf(s, t)) && Ready(ViewOf(s, t), a)
    ensures Known(Apply(s, a), t)
    ensures ViewOf(Apply(s, a), t) == Moved(ViewOf(s, t), a, NullPtr(s.table, s.mem.timers[t].ref))
  {
    if a.Take? {
      TakenOnce(s.mem.queue, t);
    }
    if a.FireQueue? {
      Added(s.mem.queue, a.t, t);
    }
  }

  lemma CallbackMoves(s: State, a: Action, t: nat)
    requires Enabled(s, a) && OfCallback(a) && s.worker.t == t
    requires Ok(ViewOf(s, t))
    ensures Known(Apply(s, a), t)
    ensures ViewOf(Apply(s, a), t) == Moved(ViewOf(s, t), a, NullPtr(s.table, s.mem.timers[t].ref))
  {
  }

  lemma AllocStarts(s: State, a: Action)
    requires Enabled(s, a) && (a.AllocTimer? || a.AllocRefTimer?)
    requires Bounded(s)
    ensures |Apply(s, a).mem.timers| == |s.mem.timers| + 1
    ensures Ok(ViewOf(Apply(s, a), |s.mem.timers|)) && Apply(s, a).mem.misuse == s.mem.misuse
  {
    var t := |s.mem.timers|;
    Added(s.mem.list, t, t);
    Added(s.mem.queue, t, t);
  }

  // ------------------------------------------------------------- the invariant

  predicate Bounded(s: State) {
    && (forall t :: t in s.mem.list ==> Known(s, t))
    && (forall t :: t in s.mem.queue ==> Known(s, t))
    && (s.worker.Busy? ==> Known(s, s.worker.t))
    && (s.exiting.Some? ==> Known(s, s.exiting.value))
  }

  /** After nvKmsModuleUnload the core holds nothing and no client comes. */
  predicate UnloadOk(s: State) {
    && (s.unloaded ==> s.table.owners == {} && !InCore(s) && forall x :: x in s.mem.timers ==> !x.handle)
    && (s.exiting.Some? ==> s.unloaded)
  }

  predicate LivesOk(s: State) {
    forall t :: 0 <= t < |s.mem.timers| ==> Ok(ViewOf(s, t))
  }

  predicate TimersInv(s: State) {
    LivesOk(s) && Bounded(s) && UnloadOk(s) && LockOk(s) && NoDup(s.mem.queue) && !s.mem.misuse
  }

  lemma ReadyToStep(s: State, a: Action, t: nat)
    requires TimersInv(s) && Enabled(s, a) && Subject(s, a) == Some(t)
    ensures Known(s, t) && Ok(ViewOf(s, t)) && Ready(ViewOf(s, t), a)
  {
  }

  /** What a step does to a timer it is about, and that it leaves the others alone. */
  lemma StepOf(s: State, a: Action, t: nat)
    requires TimersInv(s) && Enabled(s, a) && Known(s, t)
    ensures Known(Apply(s, a), t)
    ensures if Subject(s, a) == Some(t) then
              && Ok(ViewOf(s, t)) && Ready(ViewOf(s, t), a)
              && ViewOf(Apply(s, a), t) == Moved(ViewOf(s, t), a, NullPtr(s.table, s.mem.timers[t].ref))
            else ViewOf(Apply(s, a), t) == ViewOf(s, t)
  {
    if Subject(s, a) != Some(t) {
      OthersUntouched(s, a, t);
    } else {
      ReadyToStep(s, a, t);
      if OfCallback(a) {
        CallbackMoves(s, a, t);
      } else {
        OutsideMoves(s, a, t);
      }
    }
  }

  lemma LivesKept(s: State, a: Action)
    requires TimersInv(s) && Enabled(s, a)
    ensures LivesOk(Apply(s, a))
  {
    var s' := Apply(s, a);
    forall t | 0 <= t < |s'.mem.timers| ensures Ok(ViewOf(s', t)) {
      if t < |s.mem.timers| {
        LifeStep(s, a, t);
      } else {
        AllocStarts(s, a);
      }
    }
  }

  lemma LifeStep(s: State, a: Action, t: nat)
    requires TimersInv(s) && Enabled(s, a) && Known(s, t)
    ensures Known(Apply(s, a), t) && Ok(ViewOf(Apply(s, a), t))
  {
    StepOf(s, a, t);
    if Subject(s, a) == Some(t) {
      LifeKept(ViewOf(s, t), a, NullPtr(s.table, s.mem.timers[t].ref));
    }
  }

  predicate Allocates(a: Action) {
    a.AllocTimer? || a.AllocRefTimer?
  }

  lemma AllocBounded(s: State, a: Action)
    requires Bounded(s) && Enabled(s, a) && Allocates(a)
    ensures Bounded(Apply(s, a))
  {
    var s' := Apply(s, a);
    forall t | t in s'.mem.list ensures Known(s', t) {
      Added(s.mem.list, |s.mem.timers|, t);
    }
    forall t | t in s'.mem.queue ensures Known(s', t) {
      Added(s.mem.queue, |s.mem.timers|, t);
    }
  }

  lemma ListAfter(s: State, a: Action)
    requires Enabled(s, a) && !Allocates(a)
    ensures |Apply(s, a).mem.timers| == |s.mem.timers|
    ensures Apply(s, a).mem.list == s.mem.list
            || (Subject(s, a).Some? && Apply(s, a).mem.list == Drop(s.mem.list, Subject(s, a).value))
  {
  }

  lemma QueueAfter(s: State, a: Action)
    requires Enabled(s, a) && !Allocates(a)
    ensures Apply(s, a).mem.queue == s.mem.queue || (a.FireQueue? && Apply(s, a).mem.queue == s.mem.queue + [a.t])
            || (a.Take? && Apply(s, a).mem.queue == s.mem.queue[1..])
  {
  }

  lemma HeldBounded(s: State, a: Action)
    requires Bounded(s) && Enabled(s, a) && !Allocates(a)
    ensures Apply(s, a).worker.Busy? ==> Known(s, Apply(s, a).worker.t)
    ensures Apply(s, a).exiting.Some? ==> Known(s, Apply(s, a).exiting.value)
  {
  }

  lemma BoundedKept(s: State, a: Action)
    requires Bounded(s) && Enabled(s, a)
    ensures Bounded(Apply(s, a))
  {
    if Allocates(a) {
      AllocBounded(s, a);
    } else {
      ListAfter(s, a);
      QueueAfter(s, a);
      HeldBounded(s, a);
      forall t | t in Apply(s, a).mem.list ensures Known(s, t) {
        assert t in s.mem.list;
      }
      forall t | t in Apply(s, a).mem.queue ensures Known(s, t) {
        assert t in s.mem.queue || (a.FireQueue? && t == a.t);
      }
    }
  }

  lemma QueueKept(s: State, a: Action)
    requires TimersInv(s) && Enabled(s, a)
    ensures NoDup(Apply(s, a).mem.queue)
  {
    if a.Take? {
      TakenOnce(s.mem.queue, 0);
    } else if (a.AllocTimer? || a.AllocRefTimer?) && !a.delayed {
      AddedOnce(s.mem.queue, |s.mem.timers|);
    } else if a.FireQueue? && a.t !in s.mem.queue {
      AddedOnce(s.mem.queue, a.t);
    }
  }

  lemma LockKept(s: State, a: Action)
    requires LockOk(s) && Enabled(s, a) && !s.mem.misuse && !Apply(s, a).mem.misuse
    ensures LockOk(Apply(s, a))
  {
  }

  lemma NoMisuse(s: State, a: Action)
    requires TimersInv(s) && Enabled(s, a)
    ensures !Apply(s, a).mem.misuse
  {
    if Subject(s, a).Some? {
      ReadyToStep(s, a, Subject(s, a).value);
    } else if a.AllocTimer? || a.AllocRefTimer? {
      AllocStarts(s, a);
    }
  }

  predicate LiveAreOwned(b: RefTable) {
    forall r :: r in b.refs && b.refs[r].live ==> r in b.owners
  }

  lemma UnloadKept(s: State, a: Action)
    requires TimersInv(s) && Enabled(s, a) && LiveAreOwned(s.table)
    ensures UnloadOk(Apply(s, a))
  {
    if a.CbBegin? {
      ReadyToStep(s, a, s.worker.t);
      assert s.mem.timers[s.worker.t] in s.mem.timers;
    }
  }

  // ------------------------------------------------------------ reference counts

  predicate Holds(x: Timer, r: nat) {
    x.live && x.isRef && x.holds && x.ref == r
  }

  /** The timers that still count as references of r. */
  function Holders(xs: seq<Timer>, r: nat): (n: nat) {
    if xs == [] then 0 else Holders(xs[..|xs| - 1], r) + if Holds(xs[|xs| - 1], r) then 1 else 0
  }

  lemma {:induction false} HoldersPut(xs: seq<Timer>, t: nat, x: Timer, r: nat)
    requires t < |xs|
    ensures Holders(xs[t := x], r) + One(Holds(xs[t], r)) == Holders(xs, r) + One(Holds(x, r))
  {
    var n := |xs| - 1;
    if t == n {
      assert xs[t := x][..n] == xs[..n];
    } else {
      assert xs[t := x][..n] == xs[..n][t := x];
      HoldersPut(xs[..n], t, x, r);
    }
  }

  lemma HoldersAppend(xs: seq<Timer>, x: Timer, r: nat)
    ensures Holders(xs + [x], r) == Holders(xs, r) + One(Holds(x, r))
  {
    assert (xs + [x])[..|xs|] == xs;
  }

  lemma {:induction false} HolderCounts(xs: seq<Timer>, t: nat, r: nat)
    requires t < |xs| && Holds(xs[t], r)
    ensures Holders(xs, r) > 0
  {
    if t < |xs| - 1 {
      HolderCounts(xs[..|xs| - 1], t, r);
    }
  }

  /** r with n holders: counted exactly, in memory exactly while counted, its
  pointer set exactly while owned, and freed once. */
  predicate RefOk(b: RefTable, r: nat, n: nat) {
    && (r in b.refs ==>
          && r < b.next && b.refs[r].count == n + One(r in b.owners) > 0
          && (b.refs[r].live <==> r in b.owners))
    && (r !in b.refs ==> n == 0 && r !in b.owners)
    && b.freed[r] == One(r < b.next && r !in b.refs)
  }

  lemma AllocRefOk(b: RefTable, q: nat, n: nat)
    requires RefOk(b, q, n)
    ensures RefOk(AllocRefPtr(b), q, n)
  {
  }

  lemma IncRefOk(b: RefTable, r: nat, q: nat, n: nat)
    requires RefOk(b, q, n) && r in b.refs
    ensures RefOk(IncRef(b, r), q, n + One(q == r)) && IncRef(b, r).misuse == b.misuse
  {
  }

  lemma DecRefOk(b: RefTable, r: nat, q: nat, n: nat)
    requires r in b.refs && b.refs[r].count > 0
    requires RefOk(b, q, n + One(q == r))
    ensures RefOk(DecRef(b, r), q, n) && DecRef(b, r).misuse == b.misuse
  {
  }

  lemma FreeRefOk(b: RefTable, r: nat, q: nat, n: nat)
    requires RefOk(b, q, n) && r in b.refs && b.refs[r].count > 0 && r in b.owners
    ensures RefOk(FreeRefPtr(b, r), q, n) && FreeRefPtr(b, r).misuse == b.misuse
  {
  }

  ghost predicate RefsInv(s: State) {
    && (forall r: nat :: RefOk(s.table, r, Holders(s.mem.timers, r)))
    && !s.table.misuse
  }

  ghost predicate Inv(s: State) {
    TimersInv(s) && RefsInv(s)
  }

  predicate TouchesRefs(a: Action) {
    a.AllocRef? || a.FreeRef? || a.AllocRefTimer? || a.CbBegin? || a.ExitDispose?
  }

  lemma OnlySubjectPut(s: State, a: Action, t: nat)
    requires Enabled(s, a) && Subject(s, a) == Some(t) && Known(s, t) && !TouchesRefs(a)
    ensures Known(Apply(s, a), t)
    ensures Apply(s, a).mem.timers == s.mem.timers[t := Apply(s, a).mem.timers[t]] && Apply(s, a).table == s.table
  {
  }

  /** Only the steps that count change who holds a reference. */
  lemma HoldersKept(s: State, a: Action, r: nat)
    requires TimersInv(s) && Enabled(s, a) && !TouchesRefs(a)
    ensures Holders(Apply(s, a).mem.timers, r) == Holders(s.mem.timers, r) && Apply(s, a).table == s.table
  {
    if a.AllocTimer? {
      HoldersAppend(s.mem.timers, if a.delayed then PlainTimer().(kernel := Some(Armed)) else PlainTimer(), r);
    } else if Subject(s, a).Some? {
      var t := Subject(s, a).value;
      ReadyToStep(s, a, t);
      OnlySubjectPut(s, a, t);
      StepOf(s, a, t);
      assert ViewOf(Apply(s, a), t).x == Apply(s, a).mem.timers[t];
      HoldersPut(s.mem.timers, t, Apply(s, a).mem.timers[t], r);
    }
  }

  lemma AllocRefTimerCounts(s: State, a: Action, q: nat)
    requires RefsInv(s) && a.AllocRefTimer? && Enabled(s, a)
    ensures RefOk(Apply(s, a).table, q, Holders(Apply(s, a).mem.timers, q)) && !Apply(s, a).table.misuse
  {
    assert RefOk(s.table, a.r, Holders(s.mem.timers, a.r));
    assert RefOk(s.table, q, Holders(s.mem.timers, q));
    IncRefOk(s.table, a.r, q, Holders(s.mem.timers, q));
    HoldersAppend(s.mem.timers, if a.delayed then RefTimer(a.r).(kernel := Some(Armed)) else RefTimer(a.r), q);
  }

  /** The timer drops the reference it held. */
  lemma TimerDrops(s: State, t: nat, x: Timer, q: nat)
    requires RefsInv(s) && Known(s, t) && Holds(s.mem.timers[t], s.mem.timers[t].ref) && !x.holds
    ensures RefOk(DecRef(s.table, s.mem.timers[t].ref), q, Holders(s.mem.timers[t := x], q))
    ensures !DecRef(s.table, s.mem.timers[t].ref).misuse
  {
    var r := s.mem.timers[t].ref;
    HolderCounts(s.mem.timers, t, r);
    HoldersPut(s.mem.timers, t, x, q);
    assert RefOk(s.table, r, Holders(s.mem.timers, r));
    assert RefOk(s.table, q, Holders(s.mem.timers, q));
    DecRefOk(s.table, r, q, Holders(s.mem.timers[t := x], q));
  }

  lemma TimerKeepsNone(s: State, t: nat, x: Timer, q: nat)
    requires RefsInv(s) && Known(s, t) && !s.mem.timers[t].holds && !x.holds
    ensures RefOk(s.table, q, Holders(s.mem.timers[t := x], q))
  {
    HoldersPut(s.mem.timers, t, x, q);
    assert RefOk(s.table, q, Holders(s.mem.timers, q));
  }

  lemma BeginCounts(s: State, q: nat)
    requires Inv(s) && Enabled(s, CbBegin)
    ensures RefOk(Apply(s, CbBegin).table, q, Holders(Apply(s, CbBegin).mem.timers, q))
    ensures !Apply(s, CbBegin).table.misuse
  {
    var t := s.worker.t;
    ReadyToStep(s, CbBegin, t);
    var x := Apply(s, CbBegin).mem.timers[t];
    if s.mem.timers[t].isRef {
      TimerDrops(s, t, x, q);
    } else {
      TimerKeepsNone(s, t, x, q);
    }
  }

  lemma DisposeCounts(s: State, q: nat)
    requires Inv(s) && Enabled(s, ExitDispose)
    ensures RefOk(Apply(s, ExitDispose).table, q, Holders(Apply(s, ExitDispose).mem.timers, q))
    ensures !Apply(s, ExitDispose).table.misuse
  {
    var t := s.exiting.value;
    ReadyToStep(s, ExitDispose, t);
    var x := Apply(s, ExitDispose).mem.timers[t];
    assert Apply(s, ExitDispose).mem.timers == s.mem.timers[t := x];
    if s.mem.timers[t].isRef {
      TimerDrops(s, t, x, q);
    } else {
      TimerKeepsNone(s, t, x, q);
    }
  }

  lemma RefCounts(s: State, a: Action, q: nat)
    requires Inv(s) && Enabled(s, a)
    ensures RefOk(Apply(s, a).table, q, Holders(Apply(s, a).mem.timers, q)) && !Apply(s, a).table.misuse
  {
    assert RefOk(s.table, q, Holders(s.mem.timers, q));
    if a.AllocRefTimer? {
      AllocRefTimerCounts(s, a, q);
    } else if a.CbBegin? {
      BeginCounts(s, q);
    } else if a.ExitDispose? {
      DisposeCounts(s, q);
    } else if a.AllocRef? {
      AllocRefOk(s.table, q, Holders(s.mem.timers, q));
    } else if a.FreeRef? {
      assert RefOk(s.table, a.r, Holders(s.mem.timers, a.r));
      FreeRefOk(s.table, a.r, q, Holders(s.mem.timers, q));
    } else {
      HoldersKept(s, a, q);
    }
  }

  lemma InvKept(s: State, a: Action)
    requires Inv(s) && Enabled(s, a)
    ensures Inv(Apply(s, a))
  {
    forall q: nat ensures RefOk(Apply(s, a).table, q, Holders(Apply(s, a).mem.timers, q)) && !Apply(s, a).table.misuse {
      RefCounts(s, a, q);
    }
    RefCounts(s, a, 0);
    OwnedAreLive(s);
    TimersKept(s, a);
  }

  lemma OwnedAreLive(s: State)
    requires RefsInv(s)
    ensures LiveAreOwned(s.table)
  {
    forall r | r in s.table.refs && s.table.refs[r].live ensures r in s.table.owners {
      assert RefOk(s.table, r, Holders(s.mem.timers, r));
    }
  }

  lemma TimersKept(s: State, a: Action)
    requires TimersInv(s) && Enabled(s, a) && LiveAreOwned(s.table)
    ensures TimersInv(Apply(s, a))
  {
    LivesKept(s, a);
    BoundedKept(s, a);
    UnloadKept(s, a);
    NoMisuse(s, a);
    LockKept(s, a);
    QueueKept(s, a);
  }

  lemma {:induction false} InvAlways(run: seq<State>, acts: seq<Action>, i: nat)
    requires Trace(run, acts) && i < |run|
    ensures Inv(run[i])
  {
    if i > 0 {
      InvAlways(run, acts, i - 1);
      InvKept(run[i - 1], acts[i - 1]);
    }
  }

  // ------------------------------------------------------------------ theorems

  /** However the kernel timer, the callback, the handle and module unload
  interleave, no step touches a freed timer, frees one that is on the list,
  queued, armed or firing, or queues one twice (the WARN in nvkms_queue_work). */
  lemma NeverMisused(run: seq<State>, acts: seq<Action>, i: nat)
    requires Trace(run, acts) && i < |run|
    ensures !run[i].mem.misuse && !run[i].table.misuse
  {
    InvAlways(run, acts, i);
  }

  /** A timer is freed at most once, its procedure is called at most once, and while
  it is in memory something will still free it: it is pending, queued, in its
  callback, with nvkms_exit, or its handle has not been freed. */
  lemma FreedOnce(run: seq<State>, acts: seq<Action>, i: nat, t: nat)
    requires Trace(run, acts) && i < |run| && t < |run[i].mem.timers|
    ensures run[i].mem.timers[t].freed == One(!run[i].mem.timers[t].live)
    ensures run[i].mem.timers[t].ran <= 1
    ensures run[i].mem.timers[t].live ==> Active(ViewOf(run[i], t)) || run[i].mem.timers[t].handle
    ensures !run[i].mem.timers[t].live ==> !InUse(run[i].mem, t) && !run[i].mem.timers[t].handle
  {
    InvAlways(run, acts, i);
    assert Ok(ViewOf(run[i], t));
  }

  /** A ref_ptr is in memory exactly while its owner or some timer holds it, its
  count is the number of those, and it is freed exactly once. */
  lemma RefCountExact(run: seq<State>, acts: seq<Action>, i: nat, r: nat)
    requires Trace(run, acts) && i < |run|
    ensures var b, n := run[i].table, Holders(run[i].mem.timers, r);
            && (r in b.refs <==> n + One(r in b.owners) > 0)
            && (r in b.refs ==> b.refs[r].count == n + One(r in b.owners))
            && b.freed[r] == One(r < b.next && r !in b.refs)
  {
    InvAlways(run, acts, i);
    assert RefOk(run[i].table, r, Holders(run[i].mem.timers, r));
  }

  /** Whoever allocated the timer still wants it: its handle is held, or the ref_ptr it
  was allocated with still has its owner. */
  predicate Wanted(s: State, t: nat)
    requires Known(s, t)
  {
    if s.mem.timers[t].isRef then s.mem.timers[t].ref in s.table.owners else s.mem.timers[t].handle
  }

  lemma CanceledIff(s: State, t: nat)
    requires Inv(s) && Known(s, t) && s.mem.timers[t].live && ViewOf(s, t).stage == Some(Locked)
    ensures Canceled(s.mem.timers[t], s.table) <==> !Wanted(s, t)
  {
    var x := s.mem.timers[t];
    assert Ok(ViewOf(s, t));
    if x.isRef {
      HolderCounts(s.mem.timers, t, x.ref);
      assert RefOk(s.table, x.ref, Holders(s.mem.timers, x.ref));
    }
  }

  /** The procedure is called by the timer's own callback, holding nvkms_lock, and there if
  and only if the timer is still wanted; nothing else calls it. */
  lemma RunsExactly(run: seq<State>, acts: seq<Action>, i: nat, t: nat)
    requires Trace(run, acts) && i < |acts| && t < |run[i].mem.timers|
    ensures t < |run[i + 1].mem.timers|
    ensures run[i + 1].mem.timers[t].ran == run[i].mem.timers[t].ran
              + One(acts[i].CbBegin? && run[i].worker.t == t && Wanted(run[i], t))
  {
    InvAlways(run, acts, i);
    StepOf(run[i], acts[i], t);
    if acts[i].CbBegin? && run[i].worker.t == t {
      CanceledIff(run[i], t);
    }
  }

  /** A step that frees t: nvkms_free_timer once its procedure has returned, the end of its
  callback unless the handle is still held, or nvkms_exit. */
  predicate Frees(s: State, a: Action, t: nat)
    requires Enabled(s, a) && Known(s, t)
  {
    || (a == FreeTimer(t) && s.mem.timers[t].ran == 1 && (s.worker.Busy? ==> s.worker.t != t))
    || (a.CbEnd? && s.worker.t == t && !s.mem.timers[t].handle)
    || (a.ExitDispose? && s.exiting == Some(t))
  }

  lemma FreedExactly(run: seq<State>, acts: seq<Action>, i: nat, t: nat)
    requires Trace(run, acts) && i < |acts| && t < |run[i].mem.timers|
    ensures t < |run[i + 1].mem.timers|
    ensures run[i + 1].mem.timers[t].freed == run[i].mem.timers[t].freed + One(Frees(run[i], acts[i], t))
  {
    InvAlways(run, acts, i);
    StepOf(run[i], acts[i], t);
  }

  /** A new timer is on the list and wanted; with a delay its kernel timer is armed, and
  without one its work item is queued at once. */
  lemma AllocGives(run: seq<State>, acts: seq<Action>, i: nat)
    requires Trace(run, acts) && i < |acts| && Allocates(acts[i])
    ensures var t := |run[i].mem.timers|;
            && |run[i + 1].mem.timers| == t + 1
            && var x := run[i + 1].mem.timers[t];
               && x.live && x.isRef == acts[i].AllocRefTimer? && (x.isRef ==> x.ref == acts[i].r)
               && Wanted(run[i + 1], t) && x.ran == 0 && t in run[i + 1].mem.list
               && if acts[i].delayed then x.kernel == Some(Armed) && run[i + 1].mem.queue == run[i].mem.queue
                  else x.kernel.None? && run[i + 1].mem.queue == run[i].mem.queue + [t]
  {
    InvAlways(run, acts, i);
  }

  /** Every timer that a step is about is in memory, one that is queued was not queued, and
  one that is freed is on no list, in no queue and not armed. */
  lemma TouchesOnlyLive(run: seq<State>, acts: seq<Action>, i: nat, t: nat)
    requires Trace(run, acts) && i < |acts| && Subject(run[i], acts[i]) == Some(t)
    ensures t < |run[i].mem.timers| && run[i].mem.timers[t].live
    ensures acts[i].FireQueue? ==> t !in run[i].mem.queue
    ensures Frees(run[i], acts[i], t) ==>
              && t !in run[i].mem.list && t !in run[i].mem.queue
              && run[i].mem.timers[t].kernel != Some(Armed) && run[i].mem.timers[t].kernel != Some(Firing)
              && run[i].mem.timers[t].kernel != Some(Tail)
  {
    InvAlways(run, acts, i);
    ReadyToStep(run[i], acts[i], t);
  }

  /** The procedure was not called and never will be. */
  predicate Doomed(s: State, t: nat) {
    && Known(s, t) && s.mem.timers[t].ran == 0
    && (s.mem.timers[t].live ==>
          s.mem.timers[t].cancel || (s.mem.timers[t].isRef && NullPtr(s.table, s.mem.timers[t].ref)))
  }

  lemma NullInTable(b: RefTable, r: nat, q: nat)
    requires NullPtr(b, q) && q < b.next
    ensures NullPtr(AllocRefPtr(b), q) && NullPtr(IncRef(b, r), q)
    ensures NullPtr(DecRef(b, r), q) && NullPtr(FreeRefPtr(b, r), q)
  {
  }

  lemma NullWhenTouched(s: State, a: Action, r: nat)
    requires Enabled(s, a) && TouchesRefs(a) && NullPtr(s.table, r) && r < s.table.next
    ensures NullPtr(Apply(s, a).table, r)
  {
    if a.CbBegin? {
      NullInTable(s.table, s.mem.timers[s.worker.t].ref, r);
    } else if a.ExitDispose? {
      NullInTable(s.table, s.mem.timers[s.exiting.value].ref, r);
    } else {
      NullInTable(s.table, if a.AllocRef? then 0 else a.r, r);
    }
  }

  /** The pointer of a ref_ptr still referenced stays NULL. */
  lemma NullStays(s: State, a: Action, r: nat)
    requires Inv(s) && Enabled(s, a) && NullPtr(s.table, r) && Holders(s.mem.timers, r) > 0
    ensures NullPtr(Apply(s, a).table, r)
  {
    assert RefOk(s.table, r, Holders(s.mem.timers, r));
    if TouchesRefs(a) {
      NullWhenTouched(s, a, r);
    } else {
      HoldersKept(s, a, r);
    }
  }

  lemma DoomedKept(s: State, a: Action, t: nat)
    requires Inv(s) && Enabled(s, a) && Doomed(s, t)
    ensures Doomed(Apply(s, a), t)
  {
    var x := s.mem.timers[t];
    assert Ok(ViewOf(s, t));
    if x.live && !x.cancel {
      HolderCounts(s.mem.timers, t, x.ref);
      NullStays(s, a, x.ref);
    }
    StepOf(s, a, t);
  }

  lemma {:induction false} DoomedAlways(run: seq<State>, acts: seq<Action>, i: nat, j: nat, t: nat)
    requires Trace(run, acts) && i <= j < |run| && Doomed(run[i], t)
    ensures Doomed(run[j], t)
    decreases j
  {
    if i < j {
      DoomedAlways(run, acts, i, j - 1, t);
      InvAlways(run, acts, j - 1);
      DoomedKept(run[j - 1], acts[j - 1], t);
    }
  }

  /** A timer freed before its procedure was called never runs. */
  lemma CanceledNeverRuns(run: seq<State>, acts: seq<Action>, i: nat, j: nat, t: nat)
    requires Trace(run, acts) && i < j < |run| && acts[i] == FreeTimer(t) && run[i].mem.timers[t].ran == 0
    ensures t < |run[j].mem.timers| && run[j].mem.timers[t].ran == 0
  {
    InvAlways(run, acts, i);
    assert Ok(ViewOf(run[i], t));
    DoomedAlways(run, acts, i + 1, j, t);
  }

  /** Once the owner has freed its ref_ptr, no timer on it that has not yet been
  called ever is, wherever it stands: pending, queued or waiting for nvkms_lock. */
  lemma ReleasedNeverRuns(run: seq<State>, acts: seq<Action>, i: nat, j: nat, t: nat, r: nat)
    requires Trace(run, acts) && i < j < |run| && acts[i] == FreeRef(r)
    requires t < |run[i].mem.timers| && run[i].mem.timers[t].isRef && run[i].mem.timers[t].ref == r
    requires run[i].mem.timers[t].ran == 0
    ensures t < |run[j].mem.timers| && run[j].mem.timers[t].ran == 0
  {
    DoomedAlways(run, acts, i + 1, j, t);
  }

  // ------------------------------------- a run of a timer freed inside its procedure

  predicate StepTo(s: State, a: Action, s': State) {
    Enabled(s, a) && Apply(s, a) == s'
  }

  ghost predicate LeadsTo(run: seq<State>, acts: seq<Action>, s: State) {
    Path(StepTo, run, acts) && run[0] == START && run[|acts|] == s
  }

  /** The only timer is x. */
  function Alone(x: Timer, list: seq<nat>, queue: seq<nat>): (s: State) {
    START.(mem := Memory([x], list, queue, false))
  }

  function Ticking(k: KernelTimer): (x: Timer) {
    PlainTimer().(kernel := Some(k))
  }

  const FREED_INSIDE := Ticking(Quiet).(cancel := true, handle := false, ran := 1)

  lemma Allocated() returns (run: seq<State>, acts: seq<Action>)
    ensures LeadsTo(run, acts, Alone(Ticking(Armed), [0], []))
  {
    run, acts := [START], [];
    var s3 := Alone(Ticking(Armed), [0], []);
    run, acts := Extend3(
      StepTo, run, acts, ClientLock, START.(holder := Client), AllocTimer(true), s3.(holder := Client),
      ClientUnlock, s3);
  }

  lemma Fires(run: seq<State>, acts: seq<Action>) returns (run': seq<State>, acts': seq<Action>)
    requires LeadsTo(run, acts, Alone(Ticking(Armed), [0], []))
    ensures LeadsTo(run', acts', Alone(Ticking(Quiet), [0], [0]))
  {
    run', acts' := Extend3(StepTo, run, acts, Fire(0), Alone(Ticking(Firing), [0], []),
                           FireQueue(0), Alone(Ticking(Tail), [0], [0]), FireEnd(0), Alone(Ticking(Quiet), [0], [0]));
  }

  lemma Starts(run: seq<State>, acts: seq<Action>) returns (run': seq<State>, acts': seq<Action>)
    requires LeadsTo(run, acts, Alone(Ticking(Quiet), [0], [0]))
    ensures LeadsTo(run', acts', Alone(Ticking(Quiet), [], []).(worker := Busy(0, Synced)))
  {
    var s1 := Alone(Ticking(Quiet), [0], []).(worker := Busy(0, Start));
    var s2 := Alone(Ticking(Quiet), [], []).(worker := Busy(0, Unlisted));
    run', acts' := Extend3(StepTo, run, acts, Take, s1, CbUnlist, s2, CbSync, s2.(worker := Busy(0, Synced)));
  }

  lemma FreesItself(run: seq<State>, acts: seq<Action>) returns (run': seq<State>, acts': seq<Action>)
    requires LeadsTo(run, acts, Alone(Ticking(Quiet), [], []).(worker := Busy(0, Synced)))
    ensures LeadsTo(run', acts', Alone(FREED_INSIDE, [], []).(worker := Busy(0, InProc), holder := Callback))
  {
    var s1 := Alone(Ticking(Quiet), [], []).(worker := Busy(0, Locked), holder := Callback);
    var s2 := Alone(Ticking(Quiet).(ran := 1), [], []).(worker := Busy(0, InProc), holder := Callback);
    var s3 := Alone(FREED_INSIDE, [], []).(worker := Busy(0, InProc), holder := Callback);
    run', acts' := Extend3(StepTo, run, acts, CbLock, s1, CbBegin, s2, FreeTimer(0), s3);
  }

  lemma Ends(run: seq<State>, acts: seq<Action>) returns (run': seq<State>, acts': seq<Action>)
    requires LeadsTo(run, acts, Alone(FREED_INSIDE, [], []).(worker := Busy(0, InProc), holder := Callback))
    ensures LeadsTo(run', acts', Alone(FREED_INSIDE.(complete := true, live := false, freed := 1), [], []))
  {
    var s1 := Alone(FREED_INSIDE.(complete := true), [], []).(worker := Busy(0, Post), holder := Callback);
    var s2 := Alone(FREED_INSIDE.(complete := true, live := false, freed := 1), [], []);
    run', acts' := Extend(StepTo, run, acts, CbProcEnd, s1);
    run', acts' := Extend(StepTo, run', acts', CbEnd, s2);
  }

  lemma IsTrace(run: seq<State>, acts: seq<Action>)
    requires Path(StepTo, run, acts) && run[0] == START
    ensures Trace(run, acts)
  {
    forall i | 0 <= i < |acts| ensures Enabled(run[i], acts[i]) && run[i + 1] == Apply(run[i], acts[i]) {
      assert StepTo(run[i], acts[i], run[i + 1]);
    }
  }

  /** A timer that fires, runs, and is freed inside its own procedure is gone when its
  callback is over, having run once and been freed once. */
  lemma FreedInsideWorks() returns (run: seq<State>, acts: seq<Action>)
    ensures Trace(run, acts)
    ensures run[|acts|] == Alone(Timer(false, false, 0, false, true, true, false, Some(Quiet), 1, 1), [], [])
  {
    run, acts := Allocated();
    run, acts := Fires(run, acts);
    run, acts := Starts(run, acts);
    run, acts := FreesItself(run, acts);
    run, acts := Ends(run, acts);
    IsTrace(run, acts);
  }

  // ------------------------------------------------------------- module unload

  function ArmedTimers(xs: seq<Timer>): (n: nat) {
    if xs == [] then 0 else ArmedTimers(xs[..|xs| - 1]) + One(xs[|xs| - 1].kernel == Some(Armed))
  }

  /** No kernel timer is started again. */
  predicate NoneArmed(xs: seq<Timer>, ys: seq<Timer>) {
    && |xs| == |ys|
    && forall t :: 0 <= t < |xs| ==>
         && (ys[t].kernel == Some(Armed) ==> xs[t].kernel == Some(Armed))
         && (ys[t].kernel == Some(Firing) ==> xs[t].kernel == Some(Armed) || xs[t].kernel == Some(Firing))
  }

  lemma NoneArmedChain(xs: seq<Timer>, ys: seq<Timer>, zs: seq<Timer>)
    requires NoneArmed(xs, ys) && NoneArmed(ys, zs)
    ensures NoneArmed(xs, zs)
  {
  }

  lemma {:induction false} FewerArmed(xs: seq<Timer>, ys: seq<Timer>)
    requires NoneArmed(xs, ys)
    ensures ArmedTimers(ys) <= ArmedTimers(xs)
    ensures forall t :: 0 <= t < |xs| && xs[t].kernel == Some(Armed) && ys[t].kernel != Some(Armed)
              ==> ArmedTimers(ys) < ArmedTimers(xs)
  {
    if xs != [] {
      var n := |xs| - 1;
      FewerArmed(xs[..n], ys[..n]);
      forall t | 0 <= t < |xs| && xs[t].kernel == Some(Armed) && ys[t].kernel != Some(Armed)
        ensures ArmedTimers(ys) < ArmedTimers(xs)
      {
        if t < n {
          assert xs[..n][t].kernel == Some(Armed) && ys[..n][t].kernel != Some(Armed);
        }
      }
    }
  }

  /** What goes on beside nvkms_exit: softirqs and the worker. */
  predicate Background(a: Action) {
    a.Fire? || a.FireQueue? || a.FireEnd? || a.Take? || OfCallback(a)
  }

  lemma BackgroundFrame(s: State, a: Action)
    requires Enabled(s, a) && Background(a)
    ensures Apply(s, a).unloaded == s.unloaded && Apply(s, a).exiting == s.exiting
    ensures |Apply(s, a).mem.timers| == |s.mem.timers|
    ensures !a.CbUnlist? ==> Apply(s, a).mem.list == s.mem.list
  {
  }

  lemma BackgroundArms(s: State, a: Action, t: nat)
    requires TimersInv(s) && Enabled(s, a) && Background(a) && Known(s, t)
    ensures Known(Apply(s, a), t)
    ensures var k, k' := s.mem.timers[t].kernel, Apply(s, a).mem.timers[t].kernel;
            (k' == Some(Armed) ==> k == Some(Armed)) && (k' == Some(Firing) ==> k == Some(Armed) || k == Some(Firing))
  {
    StepOf(s, a, t);
    assert Subject(s, a) != Some(t) ==> ViewOf(Apply(s, a), t).x == ViewOf(s, t).x;
  }

  lemma BackgroundKeeps(s: State, a: Action)
    requires TimersInv(s) && Enabled(s, a) && Background(a)
    ensures NoneArmed(s.mem.timers, Apply(s, a).mem.timers)
  {
    BackgroundFrame(s, a);
    forall t | 0 <= t < |s.mem.timers|
      ensures var k, k' := s.mem.timers[t].kernel, Apply(s, a).mem.timers[t].kernel;
              (k' == Some(Armed) ==> k == Some(Armed)) && (k' == Some(Firing) ==> k == Some(Armed) || k == Some(Firing))
    {
      BackgroundArms(s, a, t);
    }
  }

  predicate NonePending(s: State) {
    forall x :: x in s.mem.timers ==> x.kernel != Some(Armed) && x.kernel != Some(Firing)
  }

  /** When nothing is pending, the queue is empty and the worker idle, every timer
  has been freed once and no ref_ptr is left. */
  lemma AllFreed(s: State)
    requires Inv(s) && s.unloaded && s.exiting.None? && NonePending(s) && s.mem.queue == [] && s.worker.Free?
    ensures forall x :: x in s.mem.timers ==> !x.live && x.freed == 1
    ensures s.table.refs == map[]
  {
    forall t | 0 <= t < |s.mem.timers| ensures !s.mem.timers[t].live && s.mem.timers[t].freed == 1 {
      assert Ok(ViewOf(s, t));
      assert s.mem.timers[t] in s.mem.timers;
    }
    forall r | r in s.table.refs ensures false {
      assert RefOk(s.table, r, Holders(s.mem.timers, r));
      NoHolders(s.mem.timers, r);
    }
  }

  lemma {:induction false} NoHolders(xs: seq<Timer>, r: nat)
    requires forall x :: x in xs ==> !x.live
    ensures Holders(xs, r) == 0
  {
    if xs != [] {
      NoHolders(xs[..|xs| - 1], r);
    }
  }

  /** The work queue, as KthreadQ shows it to its users. */
  function FifoOf(s: State): (q: Fifo.Queue) {
    Fifo.Queue(s.mem.queue, if s.worker.Busy? then Some(s.worker.t) else None)
  }

  function FifoStep(s: State, a: Action): (step: Fifo.Step)
    requires Enabled(s, a)
  {
    match a
    case AllocTimer(delayed) => if delayed then Fifo.Nothing else Fifo.Add(|s.mem.timers|)
    case AllocRefTimer(_, delayed) => if delayed then Fifo.Nothing else Fifo.Add(|s.mem.timers|)
    case FireQueue(t) => Fifo.Add(t)
    case Take => Fifo.Take
    case CbEnd => Fifo.Finish
    case _ => Fifo.Nothing
  }

  /** Every step uses the work queue as the queue that KthreadQ proves it to be. */
  lemma UsesFifo(s: State, a: Action)
    requires TimersInv(s) && Enabled(s, a)
    ensures Fifo.Next(FifoOf(s), FifoStep(s, a), FifoOf(Apply(s, a)))
  {
    if Subject(s, a).Some? {
      ReadyToStep(s, a, Subject(s, a).value);
    }
  }

  /** After unload, with no kernel timer pending, nothing is scheduled any more: this is
  what nv_kthread_q_stop asks of its caller. */
  lemma NothingScheduled(s: State, a: Action)
    requires Inv(s) && s.unloaded && NonePending(s) && Enabled(s, a)
    ensures !FifoStep(s, a).Add?
    ensures Apply(s, a).unloaded && NonePending(Apply(s, a))
  {
    if OfKernel(s, a) {
      assert s.mem.timers[a.t] in s.mem.timers;
    }
    if Background(a) {
      BackgroundKeeps(s, a);
      BackgroundFrame(s, a);
      StillNonePending(s, Apply(s, a));
    } else if a.ExitDispose? {
      DisposeFrame(s);
      StillNonePending(s, Apply(s, a));
    }
  }

  predicate OfKernel(s: State, a: Action) {
    (a.Fire? || a.FireQueue? || a.FireEnd? || a.ExitDeactivate?) && Known(s, a.t)
  }

  /** When nv_kthread_q_stop has joined the worker of a queue that holds these timers,
  every timer has been freed once and no ref_ptr is left. */
  lemma StoppedMeansFreed(run: seq<KthreadQ.State>, acts: seq<KthreadQ.Action>, k: nat, t: nat, s: State)
    requires KthreadQ.Trace(run, acts) && k < |run| && t < |run[k].threads|
    requires run[k].threads[t].Stopping? && run[k].threads[t].pc.Joined?
    requires KthreadQ.NoLateSchedules(run[k], t, run[k].threads[t].b.n0)
    requires FifoOf(s) == KthreadQ.AtomicQueue(run[k])
    requires Inv(s) && s.unloaded && s.exiting.None? && NonePending(s)
    ensures forall x :: x in s.mem.timers ==> !x.live && x.freed == 1
    ensures s.table.refs == map[]
  {
    KthreadQ.StopDrains(run, acts, k, t);
    AllFreed(s);
  }

  /** The worker's next step, when only it is left to move. */
  function NextStep(s: State): (a: Action)
    requires s.worker.Busy?
  {
    match s.worker.stage
    case Start => CbUnlist
    case Unlisted => if KernelAt(s, s.worker.t, Tail) then FireEnd(s.worker.t) else CbSync
    case Synced => CbLock
    case Locked => CbBegin
    case InProc => CbProcEnd
    case Post => CbEnd
  }

  /** How far the worker is from done with its timer. */
  function Distance(s: State): (n: nat) {
    if s.worker.Free? then 0
    else
      match s.worker.stage
      case Start => 7
      case Unlisted => if KernelAt(s, s.worker.t, Tail) then 6 else 5
      case Synced => 4
      case Locked => 3
      case InProc => 2
      case Post => 1
  }

  lemma NextEnabled(s: State)
    requires TimersInv(s) && s.unloaded && s.worker.Busy? && s.holder != Client
    ensures Enabled(s, NextStep(s)) && Background(NextStep(s))
  {
    var t := s.worker.t;
    assert Ok(ViewOf(s, t));
  }

  lemma NextCloser(s: State)
    requires TimersInv(s) && s.worker.Busy? && Enabled(s, NextStep(s))
    ensures Distance(Apply(s, NextStep(s))) < Distance(s) && Apply(s, NextStep(s)).mem.queue == s.mem.queue
  {
    var t := s.worker.t;
    assert Ok(ViewOf(s, t));
  }

  lemma StillNonePending(s: State, s': State)
    requires NonePending(s) && NoneArmed(s.mem.timers, s'.mem.timers)
    ensures NonePending(s')
  {
    forall t | 0 <= t < |s'.mem.timers|
      ensures s'.mem.timers[t].kernel != Some(Armed) && s'.mem.timers[t].kernel != Some(Firing)
    {
      assert s.mem.timers[t] in s.mem.timers;
    }
  }

  /** nvkms_exit's scan has passed the first i timers of the list. */
  predicate Scanned(s: State, i: nat) {
    && i <= |s.mem.list|
    && forall k :: 0 <= k < i ==>
         Known(s, s.mem.list[k]) && !KernelAt(s, s.mem.list[k], Armed) && !KernelAt(s, s.mem.list[k], Firing)
  }

  lemma ScannedStays(s: State, s': State, i: nat)
    requires Scanned(s, i) && NoneArmed(s.mem.timers, s'.mem.timers) && s'.mem.list == s.mem.list
    ensures Scanned(s', i)
  {
  }

  lemma AllScanned(s: State)
    requires TimersInv(s) && Scanned(s, |s.mem.list|)
    ensures NonePending(s)
  {
    forall t | 0 <= t < |s.mem.timers|
      ensures s.mem.timers[t].kernel != Some(Armed) && s.mem.timers[t].kernel != Some(Firing)
    {
      assert Ok(ViewOf(s, t));
    }
  }

  lemma DeactivateFewer(s: State, t: nat)
    requires Enabled(s, ExitDeactivate(t))
    ensures NoneArmed(s.mem.timers, Apply(s, ExitDeactivate(t)).mem.timers)
    ensures ArmedTimers(Apply(s, ExitDeactivate(t)).mem.timers) < ArmedTimers(s.mem.timers)
    ensures Apply(s, ExitDeactivate(t)).exiting == Some(t) && Apply(s, ExitDeactivate(t)).unloaded
  {
    FewerArmed(s.mem.timers, Apply(s, ExitDeactivate(t)).mem.timers);
  }

  lemma DisposeFrame(s: State)
    requires Enabled(s, ExitDispose)
    ensures NoneArmed(s.mem.timers, Apply(s, ExitDispose).mem.timers)
    ensures Apply(s, ExitDispose).exiting.None? && Apply(s, ExitDispose).unloaded == s.unloaded
  {
  }

  /** The timer and ref_ptr state of nvidia-modeset-linux.c. */
  class NvkmsTimers {
    var timers: seq<Timer>
    var list: seq<nat>
    var queue: seq<nat>
    var worker: Worker
    var holder: Holder
    var exiting: Option<nat>
    var unloaded: bool
    var table: RefTable
    var misuse: bool

    function Value(): (s: State)
      reads this
    {
      State(Memory(timers, list, queue, misuse), table, worker, holder, exiting, unloaded)
    }

    method Become(s: State)
      modifies this
      ensures Value() == s
    {
      timers, list, queue, worker := s.mem.timers, s.mem.list, s.mem.queue, s.worker;
      holder, exiting, unloaded, table, misuse := s.holder, s.exiting, s.unloaded, s.table, s.mem.misuse;
    }

    /** nvkms_dec_ref. */
    method DropRef(r: nat) returns (nonNull: bool)
      modifies this`table
      ensures table == DecRef(old(table), r) && nonNull == !NullPtr(old(table), r)
    {
      nonNull := r in table.refs && table.refs[r].live;
      if r !in table.refs || table.refs[r].count == 0 {
        table := table.(misuse := true);
        return;
      }
      var count := table.refs[r].count - 1;
      if count == 0 {
        table := table.(refs := table.refs - {r}, freed := table.freed + multiset{r});
      } else {
        table := table.(refs := table.refs[r := Ref(count, table.refs[r].live)]);
      }
    }

    /** nvkms_free_timer. */
    method FreeTimer(handle: Option<nat>)
      requires handle.Some? ==> handle.value < |timers|
      modifies this`timers, this`misuse
      ensures Value().mem == if handle.None? then old(Value()).mem else ReleaseTimer(old(Value()).mem, handle.value)
    {
      if handle.None? {
        return;
      }
      var t := handle.value;
      timers := timers[t := timers[t].(handle := false)];
      if !timers[t].live {
        misuse := true;
        return;
      }
      if timers[t].complete {
        misuse := misuse || InUse(Value().mem, t);
        timers := timers[t := timers[t].(live := false, freed := timers[t].freed + 1)];
        return;
      }
      timers := timers[t := timers[t].(cancel := true)];
    }

    /** nvkms_kthread_q_callback up to the call of the procedure; call: whether it is called. */
    method BeginProc(t: nat) returns (call: bool)
      requires t < |timers|
      modifies this`timers, this`table, this`worker
      ensures Value().mem == Put(old(Value()).mem, t, BegunTimer(old(timers)[t], old(table)))
      ensures table == DroppedBy(old(timers)[t], old(table))
      ensures call <==> !Canceled(old(timers)[t], old(table))
      ensures worker == Busy(t, if call then InProc else Post)
    {
      if timers[t].isRef {
        var nonNull := DropRef(timers[t].ref);
        if !nonNull {
          timers := timers[t := timers[t].(cancel := true)];
        }
      }
      timers := timers[t := timers[t].(holds := false)];
      call := !timers[t].cancel;
      if call {
        timers := timers[t := timers[t].(ran := timers[t].ran + 1)];
        worker := Busy(t, InProc);
      } else {
        worker := Busy(t, Post);
      }
    }

    method Do(a: Action)
      requires Enabled(Value(), a)
      modifies this
      ensures Value() == Apply(old(Value()), a)
    {
      Become(Apply(Value(), a));
    }

    /** Any steps of softirqs and the worker; the worker waits for nvkms_timers.lock. */
    method Interfere(locked: bool)
      requires Inv(Value()) && unloaded
      modifies this
      ensures Inv(Value()) && unloaded && exiting == old(exiting)
      ensures NoneArmed(old(timers), timers)
      ensures locked ==> list == old(list)
    {
      var n: nat := *;
      while n > 0
        invariant Inv(Value()) && unloaded && exiting == old(exiting)
        invariant NoneArmed(old(timers), timers)
        invariant locked ==> list == old(list)
      {
        var a: Action := *;
        if Enabled(Value(), a) && Background(a) && !(locked && a.CbUnlist?) {
          BackgroundKeeps(Value(), a);
          BackgroundFrame(Value(), a);
          InvKept(Value(), a);
          Do(a);
        }
        n := n - 1;
      }
    }

    /** One step of a softirq or the worker, of those that leave the list alone. */
    method Advance(a: Action)
      requires Inv(Value()) && unloaded && Enabled(Value(), a) && Background(a) && !a.CbUnlist?
      modifies this
      ensures Value() == Apply(old(Value()), a) && Inv(Value()) && unloaded
      ensures NoneArmed(old(timers), timers) && list == old(list) && exiting == old(exiting)
    {
      BackgroundKeeps(Value(), a);
      BackgroundFrame(Value(), a);
      InvKept(Value(), a);
      Do(a);
    }

    /** Wait for a kernel timer that is not pending to have left its callback, while other
    softirqs and the worker go on. */
    method WaitForCallback(t: nat)
      requires Inv(Value()) && unloaded && Known(Value(), t) && !KernelAt(Value(), t, Armed)
      modifies this
      ensures Inv(Value()) && unloaded && NoneArmed(old(timers), timers)
      ensures list == old(list) && exiting == old(exiting)
      ensures !KernelAt(Value(), t, Armed) && !KernelAt(Value(), t, Firing) && !KernelAt(Value(), t, Tail)
    {
      if KernelAt(Value(), t, Firing) {
        Advance(FireQueue(t));
      }
      ghost var queued := timers;
      Interfere(true);
      NoneArmedChain(old(timers), queued, timers);
      if KernelAt(Value(), t, Tail) {
        queued := timers;
        Advance(FireEnd(t));
        NoneArmedChain(old(timers), queued, timers);
      }
    }

    /** del_timer_sync on a timer of the list: deactivates a pending kernel timer,
    and waits for one that is running its callback. */
    method DelTimerSync(t: nat) returns (deactivated: bool)
      requires Inv(Value()) && unloaded && exiting.None? && t in list && Known(Value(), t)
      modifies this
      ensures Inv(Value()) && unloaded && NoneArmed(old(timers), timers)
      ensures deactivated ==> exiting == Some(t) && ArmedTimers(timers) < ArmedTimers(old(timers))
      ensures !deactivated ==> exiting.None? && list == old(list)
      ensures !deactivated ==>
                !KernelAt(Value(), t, Armed) && !KernelAt(Value(), t, Firing) && !KernelAt(Value(), t, Tail)
    {
      deactivated := KernelAt(Value(), t, Armed);
      if deactivated {
        DeactivateFewer(Value(), t);
        InvKept(Value(), ExitDeactivate(t));
        Do(ExitDeactivate(t));
      } else {
        WaitForCallback(t);
      }
    }

    /** One timer of nvkms_exit's scan, with what happens meanwhile. */
    method ScanOne(i: nat) returns (restart: bool)
      requires Inv(Value()) && unloaded && exiting.None? && i < |list| && Scanned(Value(), i)
      modifies this
      ensures Inv(Value()) && unloaded && ArmedTimers(timers) <= ArmedTimers(old(timers))
      ensures restart ==> exiting.Some? && ArmedTimers(timers) < ArmedTimers(old(timers))
      ensures !restart ==> exiting.None? && list == old(list) && Scanned(Value(), i + 1)
    {
      Interfere(true);
      ScannedStays(old(Value()), Value(), i);
      FewerArmed(old(timers), timers);
      var t := list[i];
      assert t in Value().mem.list;
      restart := false;
      if timers[t].kernel.Some? {
        ghost var s1 := Value();
        restart := DelTimerSync(t);
        FewerArmed(s1.mem.timers, timers);
        if !restart {
          ScannedStays(s1, Value(), i);
        }
      }
    }

    /** One pass over the list under nvkms_timers.lock, up to the first timer deactivated. */
    method ScanList() returns (restart: bool)
      requires Inv(Value()) && unloaded && exiting.None?
      modifies this
      ensures Inv(Value()) && unloaded && ArmedTimers(timers) <= ArmedTimers(old(timers))
      ensures restart ==> exiting.Some? && ArmedTimers(timers) < ArmedTimers(old(timers))
      ensures !restart ==> exiting.None? && NonePending(Value())
    {
      var i := 0;
      while i < |list|
        invariant Inv(Value()) && unloaded && exiting.None? && ArmedTimers(timers) <= ArmedTimers(old(timers))
        invariant list == old(list) && Scanned(Value(), i)
      {
        restart := ScanOne(i);
        if restart {
          return;
        }
        i := i + 1;
      }
      AllScanned(Value());
      restart := false;
    }

    /** Unlocked: free the timer just deactivated. */
    method DisposeTaken()
      requires Inv(Value()) && unloaded && exiting.Some?
      modifies this
      ensures Inv(Value()) && unloaded && exiting.None? && ArmedTimers(timers) <= ArmedTimers(old(timers))
    {
      Interfere(false);
      FewerArmed(old(timers), timers);
      ghost var s1 := Value();
      DisposeFrame(Value());
      InvKept(Value(), ExitDispose);
      Do(ExitDispose);
      FewerArmed(s1.mem.timers, timers);
    }

    /** The restart loop of nvkms_exit: it ends, and leaves no kernel timer pending. */
    method DrainTimers()
      requires Inv(Value()) && unloaded && exiting.None?
      modifies this
      ensures Inv(Value()) && unloaded && exiting.None? && NonePending(Value())
    {
      var restart := true;
      while restart
        invariant Inv(Value()) && unloaded && exiting.None?
        invariant !restart ==> NonePending(Value())
        decreases ArmedTimers(timers), restart
      {
        ghost var before := timers;
        Interfere(false);
        FewerArmed(before, timers);
        restart := ScanList();
        if restart {
          DisposeTaken();
        }
      }
    }

    /** nv_kthread_q_stop of the timers' queue: the worker runs until it is empty. */
    method StopQueue()
      requires Inv(Value()) && unloaded && exiting.None? && NonePending(Value())
      modifies this
      ensures Inv(Value()) && unloaded && exiting.None? && NonePending(Value()) && queue == [] && worker.Free?
    {
      while worker.Busy? || queue != []
        invariant Inv(Value()) && unloaded && exiting.None? && NonePending(Value())
        decreases |queue|, Distance(Value())
      {
        ghost var s0 := Value();
        var a := if worker.Busy? then NextStep(Value()) else Take;
        if worker.Busy? {
          NextEnabled(Value());
          NextCloser(Value());
        }
        BackgroundKeeps(Value(), a);
        BackgroundFrame(Value(), a);
        InvKept(Value(), a);
        Do(a);
        StillNonePending(s0, Value());
      }
    }

    /** The end of nvkms_exit: every timer is freed exactly once, and every ref_ptr. */
    method Exit()
      requires Inv(Value()) && unloaded && exiting.None?
      modifies this
      ensures forall x :: x in timers ==> !x.live && x.freed == 1
      ensures table.refs == map[] && !misuse && !table.misuse
    {
      DrainTimers();
      StopQueue();
      AllFreed(Value());
    }
  }
}
