/** CPU faults on managed memory: uvm_vm_fault and its pool of service contexts.

A fault takes the power-management lock (by trylock) and a service context, and
then retries under the VA space lock while the block reports thrashing, dropping
the VA space lock between attempts.  Any number of threads fault at once. */
module CpuFault {

  import opened Common

  /** NV_STATUS, as far as uvm_vm_fault tells its values apart. */
  datatype Status = Ok | NoMemory | BusyRetry | More | Failed

  /** vm_fault_t. */
  datatype VmResult = NoPage(major: bool) | Oom | SigBus

  function Convert(st: Status, major: bool): (r: VmResult) {
    match st
    case Ok => NoPage(major)
    case BusyRetry => NoPage(major)
    case NoMemory => Oom
    case _ => SigBus
  }

  /** Where a faulting thread stands. */
  datatype Pc =
    | Outside
    | Started                              // before the trylock of the PM lock
    | NeedContext                          // PM lock held
    | Allocating                           // the pool was empty; its lock is released
    | Waiting(c: nat)                      // before uvm_va_space_down_read
    | InLoop(c: nat)                       // VA space lock held
    | Retry(c: nat)                        // thrashing: VA space lock about to be dropped
    | LoopDone(c: nat, st: Status)         // left the loop
    | Released(c: nat, st: Status)         // VA space lock dropped
    | Unlocking(st: Status, major: bool)   // context given back, or never had
    | Returning(st: Status, major: bool)

  /** Where a service context is. */
  datatype Place = InPool | With(t: nat)

  /** pm, va: read locks held, by thread; place: for each context ever allocated. */
  datatype State = State(pool: seq<nat>, place: seq<Place>, pcs: map<nat, Pc>, pm: Readers, va: Readers)

  /** How often each thread holds a lock for reading; below zero if it released too often. */
  type Readers = map<nat, int>

  function Held(k: Readers, t: nat): (n: int) {
    if t in k then k[t] else 0
  }

  function DownReadOf(k: Readers, t: nat): (k': Readers) {
    k[t := Held(k, t) + 1]
  }

  function UpReadOf(k: Readers, t: nat): (k': Readers) {
    k[t := Held(k, t) - 1]
  }

  datatype Action =
    | Begin(t: nat, global: Status)
    | TryPm(t: nat, free: bool)
    | PopContext(t: nat)
    | AllocContext(t: nat, memory: bool)
    | DownRead(t: nat)
    | Attempt(t: nat, found: Status, fault: Status)
    | DropForRetry(t: nat)
    | UpRead(t: nat)
    | CheckEcc(t: nat, ecc: Status, major: bool)
    | UpPm(t: nat)
    | Return(t: nat)

  function PcOf(s: State, t: nat): (pc: Pc) {
    if t in s.pcs then s.pcs[t] else Outside
  }

  function Set(s: State, t: nat, pc: Pc): (r: State) {
    s.(pcs := s.pcs[t := pc])
  }

  predicate Enabled(s: State, a: Action) {
    match a
    case Begin(t, _) => PcOf(s, t).Outside?
    case TryPm(t, _) => PcOf(s, t).Started?
    case PopContext(t) => PcOf(s, t).NeedContext? && (s.pool != [] ==> s.pool[0] < |s.place|)
    case AllocContext(t, _) => PcOf(s, t).Allocating?
    case DownRead(t) => PcOf(s, t).Waiting?
    case Attempt(t, _, _) => PcOf(s, t).InLoop?
    case DropForRetry(t) => PcOf(s, t).Retry?
    case UpRead(t) => PcOf(s, t).LoopDone?
    case CheckEcc(t, _, _) => PcOf(s, t).Released? && PcOf(s, t).c < |s.place|
    case UpPm(t) => PcOf(s, t).Unlocking?
    case Return(t) => PcOf(s, t).Returning?
  }

  /** One attempt: find or create the block, then service the fault on it. */
  function Outcome(found: Status, fault: Status): (st: Status) {
    if found != Ok then found else fault
  }

  /** A break out of the loop keeps its status whatever it is. */
  function AfterAttempt(c: nat, found: Status, fault: Status): (pc: Pc) {
    if found == Ok && fault == More then Retry(c) else LoopDone(c, Outcome(found, fault))
  }

  function AfterEcc(st: Status, ecc: Status): (r: Status) {
    if st == Ok then ecc else st
  }

  /** uvm_service_block_context_cpu_alloc: the section under the pool's lock ... */
  function TakePooled(s: State, t: nat): (r: State)
    requires s.pool != [] ==> s.pool[0] < |s.place|
  {
    if s.pool == [] then Set(s, t, Allocating)
    else Set(s, t, Waiting(s.pool[0])).(pool := s.pool[1..], place := s.place[s.pool[0] := With(t)])
  }

  /** ... and the allocation after it, when the pool was empty. */
  function TakeFresh(s: State, t: nat, memory: bool): (r: State) {
    if memory then Set(s, t, Waiting(|s.place|)).(place := s.place + [With(t)])
    else Set(s, t, Unlocking(NoMemory, false))
  }

  function Apply(s: State, a: Action): (r: State)
    requires Enabled(s, a)
  {
    match a
    case Begin(t, g) => Set(s, t, if g != Ok then Returning(g, false) else Started)
    case TryPm(t, free) =>
      if free then Set(s, t, NeedContext).(pm := DownReadOf(s.pm, t)) else Set(s, t, Returning(BusyRetry, false))
    case PopContext(t) => TakePooled(s, t)
    case AllocContext(t, memory) => TakeFresh(s, t, memory)
    case DownRead(t) => Set(s, t, InLoop(PcOf(s, t).c)).(va := DownReadOf(s.va, t))
    case Attempt(t, found, fault) => Set(s, t, AfterAttempt(PcOf(s, t).c, found, fault))
    case DropForRetry(t) => Set(s, t, Waiting(PcOf(s, t).c)).(va := UpReadOf(s.va, t))
    case UpRead(t) => Set(s, t, Released(PcOf(s, t).c, PcOf(s, t).st)).(va := UpReadOf(s.va, t))
    case CheckEcc(t, ecc, major) =>
      var c := PcOf(s, t).c;
      Set(s, t, Unlocking(AfterEcc(PcOf(s, t).st, ecc), major)).(pool := [c] + s.pool, place := s.place[c := InPool])
    case UpPm(t) => Set(s, t, Returning(PcOf(s, t).st, PcOf(s, t).major)).(pm := UpReadOf(s.pm, t))
    case Return(t) => Set(s, t, Outside)
  }

  /** A pool as uvm_service_block_context_init leaves it, whatever its size. */
  ghost predicate Initial(s: State) {
    && s.pcs == map[] && s.pm == map[] && s.va == map[]
    && NoDup(s.pool) && (forall c :: c in s.pool <==> 0 <= c < |s.place|)
    && (forall c :: 0 <= c < |s.place| ==> s.place[c].InPool?)
  }

  ghost predicate Trace(run: seq<State>, acts: seq<Action>) {
    && |run| == |acts| + 1
    && Initial(run[0])
    && forall i :: 0 <= i < |acts| ==> Enabled(run[i], acts[i]) && run[i + 1] == Apply(run[i], acts[i])
  }

  // ----------------------------------------------------------------- invariants

  predicate HoldsPm(pc: Pc) {
    !pc.Outside? && !pc.Started? && !pc.Returning?
  }

  predicate HoldsVa(pc: Pc) {
    pc.InLoop? || pc.Retry? || pc.LoopDone?
  }

  predicate HasContext(pc: Pc) {
    pc.Waiting? || pc.InLoop? || pc.Retry? || pc.LoopDone? || pc.Released?
  }

  predicate LocksOk(s: State, t: nat) {
    Held(s.pm, t) == One(HoldsPm(PcOf(s, t))) && Held(s.va, t) == One(HoldsVa(PcOf(s, t)))
  }

  predicate ThreadOk(s: State, t: nat) {
    HasContext(PcOf(s, t)) ==> PcOf(s, t).c < |s.place| && s.place[PcOf(s, t).c] == With(t)
  }

  /** A context is in the pool, or with the one thread that uses it. */
  predicate ContextOk(s: State, c: nat)
    requires c < |s.place|
  {
    && (c in s.pool <==> s.place[c].InPool?)
    && (s.place[c].With? ==> HasContext(PcOf(s, s.place[c].t)) && PcOf(s, s.place[c].t).c == c)
  }

  ghost predicate Inv(s: State) {
    && (forall t: nat :: LocksOk(s, t) && ThreadOk(s, t))
    && (forall c :: 0 <= c < |s.place| ==> ContextOk(s, c))
    && (forall c :: c in s.pool ==> c < |s.place|) && NoDup(s.pool)
  }

  lemma OthersLeave(s: State, a: Action, t: nat)
    requires Enabled(s, a) && a.t != t
    ensures PcOf(Apply(s, a), t) == PcOf(s, t)
    ensures Held(Apply(s, a).pm, t) == Held(s.pm, t) && Held(Apply(s, a).va, t) == Held(s.va, t)
  {
  }

  lemma OwnLocks(s: State, a: Action)
    requires Enabled(s, a) && LocksOk(s, a.t)
    ensures LocksOk(Apply(s, a), a.t)
  {
  }

  lemma LocksKept(s: State, a: Action, t: nat)
    requires Enabled(s, a) && LocksOk(s, t)
    ensures LocksOk(Apply(s, a), t)
  {
    if a.t == t {
      OwnLocks(s, a);
    } else {
      OthersLeave(s, a, t);
    }
  }

  predicate MovesContext(a: Action) {
    a.PopContext? || a.AllocContext? || a.CheckEcc?
  }

  lemma PlacesKept(s: State, a: Action)
    requires Enabled(s, a) && !MovesContext(a)
    ensures Apply(s, a).place == s.place && Apply(s, a).pool == s.pool
    ensures HasContext(PcOf(Apply(s, a), a.t)) <==> HasContext(PcOf(s, a.t))
    ensures HasContext(PcOf(s, a.t)) ==> PcOf(Apply(s, a), a.t).c == PcOf(s, a.t).c
  {
  }

  lemma ThreadTakes(s: State, a: Action, t: nat)
    requires Enabled(s, a) && MovesContext(a) && ThreadOk(s, t) && ThreadOk(s, a.t)
    requires a.PopContext? && s.pool != [] ==> ContextOk(s, s.pool[0])
    ensures ThreadOk(Apply(s, a), t)
  {
  }

  lemma ThreadKept(s: State, a: Action, t: nat)
    requires Enabled(s, a) && ThreadOk(s, t) && ThreadOk(s, a.t)
    requires a.PopContext? && s.pool != [] ==> ContextOk(s, s.pool[0])
    ensures ThreadOk(Apply(s, a), t)
  {
    if MovesContext(a) {
      ThreadTakes(s, a, t);
    } else {
      PlacesKept(s, a);
      if a.t != t {
        OthersLeave(s, a, t);
      }
    }
  }

  lemma ContextTaken(s: State, a: Action, c: nat)
    requires (a.PopContext? || a.AllocContext?) && Enabled(s, a) && c < |s.place| && ContextOk(s, c) && NoDup(s.pool)
    ensures c < |Apply(s, a).place| && ContextOk(Apply(s, a), c)
  {
    if a.PopContext? && s.pool != [] {
      TakenOnce(s.pool, c);
    }
  }

  lemma ContextReturned(s: State, a: Action, c: nat)
    requires a.CheckEcc? && Enabled(s, a) && ThreadOk(s, a.t) && c < |s.place| && ContextOk(s, c)
    ensures c < |Apply(s, a).place| && ContextOk(Apply(s, a), c)
  {
  }

  lemma ContextKept(s: State, a: Action, c: nat)
    requires Enabled(s, a) && ThreadOk(s, a.t) && c < |s.place| && ContextOk(s, c) && NoDup(s.pool)
    ensures c < |Apply(s, a).place| && ContextOk(Apply(s, a), c)
  {
    if a.PopContext? || a.AllocContext? {
      ContextTaken(s, a, c);
    } else if a.CheckEcc? {
      ContextReturned(s, a, c);
    } else {
      PlacesKept(s, a);
      if s.place[c].With? && s.place[c].t != a.t {
        OthersLeave(s, a, s.place[c].t);
      }
    }
  }

  lemma PoolKept(s: State, a: Action)
    requires Enabled(s, a) && Inv(s)
    ensures NoDup(Apply(s, a).pool) && forall c :: c in Apply(s, a).pool ==> c < |Apply(s, a).place|
  {
    if a.PopContext? && s.pool != [] {
      forall c | c in s.pool[1..] ensures c < |s.place| {
        TakenOnce(s.pool, c);
      }
      TakenOnce(s.pool, 0);
    } else if a.CheckEcc? {
      assert ThreadOk(s, a.t);
      assert ContextOk(s, PcOf(s, a.t).c);
    }
  }

  lemma InvKept(s: State, a: Action)
    requires Enabled(s, a) && Inv(s)
    ensures Inv(Apply(s, a))
  {
    var s' := Apply(s, a);
    assert ThreadOk(s, a.t);
    forall t: nat ensures LocksOk(s', t) && ThreadOk(s', t) {
      assert LocksOk(s, t) && ThreadOk(s, t);
      LocksKept(s, a, t);
      ThreadKept(s, a, t);
    }
    forall c | 0 <= c < |s'.place| ensures ContextOk(s', c) {
      if c < |s.place| {
        ContextKept(s, a, c);
      }
    }
    PoolKept(s, a);
  }

  lemma {:induction false} InvAlways(run: seq<State>, acts: seq<Action>, i: nat)
    requires Trace(run, acts) && i < |run|
    ensures Inv(run[i])
  {
    if i > 0 {
      InvAlways(run, acts, i - 1);
      InvKept(run[i - 1], acts[i - 1]);
    }
  }

  // ------------------------------------------------------------------- theorems

  /** Whatever the retries and the way out, a thread holds the VA space lock exactly
  once on leaving the loop, and no lock when it is not in uvm_vm_fault. */
  lemma LocksBalanced(run: seq<State>, acts: seq<Action>, i: nat, t: nat)
    requires Trace(run, acts) && i < |run|
    ensures PcOf(run[i], t).LoopDone? ==> Held(run[i].va, t) == 1 && Held(run[i].pm, t) == 1
    ensures PcOf(run[i], t).Waiting? ==> Held(run[i].va, t) == 0
    ensures PcOf(run[i], t).Returning? || PcOf(run[i], t).Outside? ==>
              Held(run[i].va, t) == 0 && Held(run[i].pm, t) == 0
  {
    InvAlways(run, acts, i);
    assert LocksOk(run[i], t);
  }

  /** No context is used by two faults at once, or by a fault while it is in the pool. */
  lemma ContextsExclusive(run: seq<State>, acts: seq<Action>, i: nat, t: nat, u: nat)
    requires Trace(run, acts) && i < |run| && HasContext(PcOf(run[i], t))
    ensures PcOf(run[i], t).c !in run[i].pool
    ensures HasContext(PcOf(run[i], u)) && PcOf(run[i], u).c == PcOf(run[i], t).c ==> t == u
  {
    InvAlways(run, acts, i);
    assert ThreadOk(run[i], t) && ThreadOk(run[i], u);
    assert ContextOk(run[i], PcOf(run[i], t).c);
  }

  /** Contexts are conserved: each one ever allocated is in the pool once, or with a
  thread; when no thread is in uvm_vm_fault the pool holds them all. */
  lemma ContextsConserved(run: seq<State>, acts: seq<Action>, i: nat, c: nat)
    requires Trace(run, acts) && i < |run|
    ensures NoDup(run[i].pool) && (c in run[i].pool ==> c < |run[i].place|)
    ensures c < |run[i].place| && c !in run[i].pool ==>
              exists t: nat :: HasContext(PcOf(run[i], t)) && PcOf(run[i], t).c == c
    ensures (forall t: nat :: PcOf(run[i], t).Outside?) ==> (c in run[i].pool <==> c < |run[i].place|)
  {
    InvAlways(run, acts, i);
    if c < |run[i].place| {
      assert ContextOk(run[i], c);
    }
  }

  // ------------------------------------------------------------- the operations

  /** What the block reports on one attempt. */
  datatype Try = Try(found: Status, fault: Status)

  predicate Thrashing(x: Try) {
    x.found == Ok && x.fault == More
  }

  /** Some attempt is not put off by thrashing. */
  predicate Settles(tries: seq<Try>) {
    exists i :: 0 <= i < |tries| && !Thrashing(tries[i])
  }

  /** Attempt n is the first that is not put off. */
  predicate First(tries: seq<Try>, n: nat) {
    && n < |tries| && !(tries[n].found == Ok && tries[n].fault == More)
    && forall k :: 0 <= k < n ==> tries[k].found == Ok && tries[k].fault == More
  }

  /** The result for a status: what the kernel is told of it. */
  predicate ResultFor(st: Status, major: bool, r: VmResult) {
    && (st == Ok || st == BusyRetry ==> r == NoPage(major))
    && (st == NoMemory ==> r == Oom)
    && (st == More || st == Failed ==> r == SigBus)
  }

  /** The result of a fault whose first attempt that is not put off is attempt n: success
  needs the block, the service and the check for ECC errors; the first of the three that
  fails decides otherwise. */
  predicate ResultAfter(tries: seq<Try>, n: nat, ecc: Status, major: bool, r: VmResult)
    requires n < |tries|
  {
    && (tries[n].found != Ok ==> ResultFor(tries[n].found, major, r))
    && (tries[n].found == Ok && tries[n].fault != Ok ==> ResultFor(tries[n].fault, major, r))
    && (tries[n].found == Ok && tries[n].fault == Ok ==> ResultFor(ecc, major, r))
  }

  /** The status of the first attempt that is not put off. */
  function Settled(tries: seq<Try>): (st: Status) {
    if tries == [] then More
    else if Thrashing(tries[0]) then Settled(tries[1..])
    else Outcome(tries[0].found, tries[0].fault)
  }

  lemma {:induction false} SettledAt(tries: seq<Try>, n: nat)
    requires n < |tries| && !Thrashing(tries[n]) && forall i :: 0 <= i < n ==> Thrashing(tries[i])
    ensures Settled(tries) == Outcome(tries[n].found, tries[n].fault)
  {
    if n > 0 {
      SettledAt(tries[1..], n - 1);
    }
  }

  lemma ConvertIs(st: Status, major: bool)
    ensures ResultFor(st, major, Convert(st, major))
  {
  }

  lemma ResultIs(tries: seq<Try>, ecc: Status, major: bool)
    requires Settles(tries)
    ensures exists n: nat ::
              First(tries, n) && ResultAfter(tries, n, ecc, major, Convert(AfterEcc(Settled(tries), ecc), major))
  {
    var n := FirstSettled(tries, |tries|);
    SettledAt(tries, n);
    ConvertIs(AfterEcc(Settled(tries), ecc), major);
    assert First(tries, n) && ResultAfter(tries, n, ecc, major, Convert(AfterEcc(Settled(tries), ecc), major));
  }

  lemma {:induction false} FirstSettled(tries: seq<Try>, m: nat) returns (n: nat)
    requires m <= |tries| && exists i :: 0 <= i < m && !Thrashing(tries[i])
    ensures n < m && First(tries, n)
  {
    if i :| 0 <= i < m - 1 && !Thrashing(tries[i]) {
      n := FirstSettled(tries, m - 1);
    } else {
      n := m - 1;
      assert forall k :: 0 <= k < n ==> Thrashing(tries[k]);
    }
  }

  /** A fault takes the context given back last, and allocates only from an empty pool. */
  lemma LastBackFirstUsed(s: State, t: nat, u: nat, ecc: Status, major: bool)
    requires Enabled(s, CheckEcc(t, ecc, major)) && u != t && PcOf(s, u).NeedContext?
    ensures var s' := Apply(s, CheckEcc(t, ecc, major));
            && Enabled(s', PopContext(u))
            && PcOf(Apply(s', PopContext(u)), u) == Waiting(PcOf(s, t).c)
            && Apply(s', PopContext(u)).pool == s.pool
  {
  }

  class UvmFaults {
    var pool: seq<nat>
    var place: seq<Place>
    var pcs: map<nat, Pc>
    var pm: Readers
    var va: Readers

    function Value(): (s: State)
      reads this
    {
      State(pool, place, pcs, pm, va)
    }

    /** uvm_service_block_context_init: contexts are added until one cannot be allocated. */
    constructor (preallocated: nat, memory: seq<bool>)
      requires |memory| == preallocated
      ensures Initial(Value())
      ensures |pool| <= preallocated
      ensures |pool| == preallocated <==> forall i :: 0 <= i < preallocated ==> memory[i]
    {
      pool, place, pcs, pm, va := [], [], map[], map[], map[];
      new;
      var i := 0;
      while i < preallocated && memory[i]
        invariant i <= preallocated && |place| == i == |pool|
        invariant pcs == map[] && pm == map[] && va == map[]
        invariant NoDup(pool) && forall c :: c in pool <==> 0 <= c < i
        invariant forall c :: 0 <= c < i ==> place[c].InPool? && memory[c]
      {
        AddedOnce(pool, i);
        pool := [i] + pool;
        place := place + [InPool];
        i := i + 1;
      }
    }

    /** uvm_service_block_context_exit: every context in the pool is freed, once. */
    method ExitPool() returns (freed: seq<nat>)
      modifies this`pool
      ensures freed == old(pool) && pool == []
    {
      freed := [];
      while pool != []
        invariant freed + pool == old(pool)
        decreases |pool|
      {
        freed := freed + [pool[0]];
        pool := pool[1..];
      }
    }

    method Do(a: Action)
      requires Enabled(Value(), a) && Inv(Value())
      modifies this
      ensures Value() == Apply(old(Value()), a) && Inv(Value())
    {
      InvKept(Value(), a);
      var s := Apply(Value(), a);
      pool, place, pcs, pm, va := s.pool, s.place, s.pcs, s.pm, s.va;
    }

    /** Any steps of faults on other threads. */
    method Interfere(t: nat)
      requires Inv(Value())
      modifies this
      ensures Inv(Value()) && PcOf(Value(), t) == PcOf(old(Value()), t)
    {
      var n: nat := *;
      while n > 0
        invariant Inv(Value()) && PcOf(Value(), t) == PcOf(old(Value()), t)
      {
        var a: Action := *;
        if Enabled(Value(), a) && a.t != t {
          OthersLeave(Value(), a, t);
          Do(a);
        }
        n := n - 1;
      }
    }

    method Step(t: nat, a: Action)
      requires Inv(Value()) && a.t == t && Enabled(Value(), a) && !MovesContext(a)
      modifies this
      ensures Inv(Value()) && PcOf(Value(), t) == PcOf(Apply(old(Value()), a), t)
    {
      Do(a);
      Interfere(t);
    }

    /** The retry loop, for as many attempts as tries tells.  settled: it was left, with
    the VA space lock held once and the status of the first attempt that did not meet
    thrashing; otherwise the thread is about to retry, with that lock held once. */
    method ServiceLoop(t: nat, tries: seq<Try>) returns (c: nat, status: Status, settled: bool)
      requires Inv(Value()) && PcOf(Value(), t).Waiting? && tries != []
      modifies this
      ensures Inv(Value()) && Held(va, t) == 1 && Held(pm, t) == 1
      ensures settled <==> Settles(tries)
      ensures settled ==> PcOf(Value(), t) == LoopDone(c, status) && status == Settled(tries)
      ensures !settled ==> PcOf(Value(), t) == Retry(c)
    {
      c := PcOf(Value(), t).c;
      status := Ok;
      settled := false;
      var i := 0;
      while i < |tries| && !settled
        invariant Inv(Value()) && 0 <= i <= |tries|
        invariant !settled ==> forall k :: 0 <= k < i ==> Thrashing(tries[k])
        invariant !settled ==> PcOf(Value(), t) == if i == 0 then Waiting(c) else Retry(c)
        invariant settled ==>
                    && Settles(tries) && status == Settled(tries)
                    && PcOf(Value(), t) == LoopDone(c, status)
        decreases |tries| - i
      {
        if i > 0 {
          Step(t, DropForRetry(t));
        }
        Step(t, DownRead(t));
        Step(t, Attempt(t, tries[i].found, tries[i].fault));
        if !Thrashing(tries[i]) {
          status := Outcome(tries[i].found, tries[i].fault);
          settled := true;
          SettledAt(tries, i);
        }
        i := i + 1;
      }
      assert LocksOk(Value(), t);
    }

    /** uvm_vm_fault between taking and releasing the PM lock; done: it gets that far. */
    method Service(t: nat, memory: bool, tries: seq<Try>, ecc: Status, major: bool) returns (done: bool)
      requires Inv(Value()) && PcOf(Value(), t).NeedContext? && tries != []
      modifies this
      ensures Inv(Value())
      ensures Settles(tries) ==> done
      ensures done ==>
                || (Settles(tries) && PcOf(Value(), t) == Unlocking(AfterEcc(Settled(tries), ecc), major))
                || (!memory && PcOf(Value(), t) == Unlocking(NoMemory, false))
      ensures !done ==> PcOf(Value(), t).Retry?
    {
      assert Value().pool != [] ==> Value().pool[0] in Value().pool;
      Do(PopContext(t));
      Interfere(t);
      if PcOf(Value(), t).Allocating? {
        Do(AllocContext(t, memory));
        Interfere(t);
      }
      done := true;
      if PcOf(Value(), t).Waiting? {
        var c, status, settled := ServiceLoop(t, tries);
        done := settled;
        if settled {
          Step(t, UpRead(t));
          assert ThreadOk(Value(), t);
          Do(CheckEcc(t, ecc, major));
          Interfere(t);
        }
      }
    }

    /** uvm_vm_fault.  memory: a context can be allocated when the pool is empty.  The
    result is None while every attempt that tries tells of meets thrashing. */
    method VmFault(t: nat, global: Status, pmFree: bool, memory: bool, tries: seq<Try>, ecc: Status, major: bool)
        returns (r: Option<VmResult>)
      requires Inv(Value()) && PcOf(Value(), t).Outside? && tries != []
      modifies this
      ensures Inv(Value())
      ensures r.Some? ==> PcOf(Value(), t).Outside? && Held(pm, t) == 0 && Held(va, t) == 0
      ensures r.None? ==> PcOf(Value(), t).Retry? && Held(pm, t) == 1 && Held(va, t) == 1
      ensures r.None? ==> global == Ok && pmFree && !Settles(tries)
      ensures global != Ok ==> r.Some? && ResultFor(global, false, r.value)
      ensures global == Ok && !pmFree ==> r == Some(NoPage(false))
      ensures global == Ok && pmFree && r.Some? ==>
                || (exists n: nat :: First(tries, n) && ResultAfter(tries, n, ecc, major, r.value))
                || (!memory && r.value == Oom)
    {
      if Settles(tries) {
        ResultIs(tries, ecc, major);
      }
      ConvertIs(global, false);
      r := RunFault(t, global, pmFree, memory, tries, ecc, major);
    }

    /** Its steps, with the result as the final switch gives it. */
    method RunFault(t: nat, global: Status, pmFree: bool, memory: bool, tries: seq<Try>, ecc: Status, major: bool)
        returns (r: Option<VmResult>)
      requires Inv(Value()) && PcOf(Value(), t).Outside? && tries != []
      modifies this
      ensures Inv(Value())
      ensures r.Some? ==> PcOf(Value(), t).Outside? && Held(pm, t) == 0 && Held(va, t) == 0
      ensures r.None? ==> PcOf(Value(), t).Retry? && Held(pm, t) == 1 && Held(va, t) == 1
      ensures r.None? ==> global == Ok && pmFree && !Settles(tries)
      ensures global != Ok ==> r == Some(Convert(global, false))
      ensures global == Ok && !pmFree ==> r == Some(NoPage(false))
      ensures global == Ok && pmFree && r.Some? ==>
                || (Settles(tries) && r.value == Convert(AfterEcc(Settled(tries), ecc), major))
                || (!memory && r.value == Oom)
    {
      Step(t, Begin(t, global));
      if global == Ok {
        Step(t, TryPm(t, pmFree));
        if pmFree {
          var done := Service(t, memory, tries, ecc, major);
          if !done {
            assert LocksOk(Value(), t);
            return None;
          }
          Step(t, UpPm(t));
        }
      }
      r := Some(Convert(PcOf(Value(), t).st, PcOf(Value(), t).major));
      Step(t, Return(t));
      assert LocksOk(Value(), t);
    }
  }
}
