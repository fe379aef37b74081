/** The timeline of a PRIME fence context: fences wait on a list for a hardware
semaphore to reach their sequence number.  The event handler stops at the first
fence that is not ready, which is right only while the list is sorted; a
sequence number that runs backwards means the counter wrapped, and everything
pending is signalled at once. */
module FenceTimeline {

  import opened Common

  /** Sequence numbers and semaphore values are 32-bit unsigned. */
  type Seqno = x: nat | x < 0x1_0000_0000

  /** A fence; id is its position among the fences created on the context. */
  datatype Fence = Fence(id: nat, seqno: Seqno)

  /** Why a fence was signalled: the value read for it, or a forced signal. */
  datatype Cause = Reached(value: Seqno) | Forced

  datatype Signal = Signal(fence: Fence, cause: Cause)

  // ------------------------------------------------------- what the loops do

  /** How many fences at the head are ready when the k-th look at the head reads values[k]. */
  function ReadyCount(pending: seq<Fence>, values: seq<Seqno>): (n: nat)
    requires |values| >= |pending|
    ensures n <= |pending|
  {
    if pending == [] || pending[0].seqno > values[0] then 0
    else 1 + ReadyCount(pending[1..], values[1..])
  }

  function ReachedSignals(pending: seq<Fence>, values: seq<Seqno>, n: nat): (r: seq<Signal>)
    requires n <= |pending| <= |values|
  {
    seq(n, i requires 0 <= i < n => Signal(pending[i], Reached(values[i])))
  }

  function ForcedSignals(pending: seq<Fence>): (r: seq<Signal>) {
    seq(|pending|, i requires 0 <= i < |pending| => Signal(pending[i], Forced))
  }

  // ------------------------------------------------------------------- runs

  datatype State = State(
    pending: seq<Fence>,
    lastSeqno: Seqno,
    signals: seq<Signal>,
    created: seq<Fence>,
    destroyed: bool)

  datatype Op = Create(gotMemory: bool, seqno: Seqno) | Event(values: seq<Seqno>) | Destroy

  predicate Enabled(s: State, op: Op) {
    !s.destroyed && (op.Event? ==> |op.values| >= |s.pending|)
  }

  function Apply(s: State, op: Op): (r: State)
    requires Enabled(s, op)
  {
    match op
    case Create(false, _) => s
    case Create(true, seqno) =>
      var wrapped := seqno < s.lastSeqno;
      var fence := Fence(|s.created|, seqno);
      State((if wrapped then [] else s.pending) + [fence], seqno,
            s.signals + (if wrapped then ForcedSignals(s.pending) else []), s.created + [fence], false)
    case Event(values) =>
      var n := ReadyCount(s.pending, values);
      s.(pending := s.pending[n..], signals := s.signals + ReachedSignals(s.pending, values, n))
    case Destroy => s.(pending := [], signals := s.signals + ForcedSignals(s.pending), destroyed := true)
  }

  const START := State([], 0, [], [], false)

  /** The fence context; its methods run under its spinlock. */
  class FenceContext {
    var pending: seq<Fence>
    var lastSeqno: Seqno
    var signals: seq<Signal>
    var created: seq<Fence>
    var destroyed: bool

    function Value(): (s: State)
      reads this
    {
      State(pending, lastSeqno, signals, created, destroyed)
    }

    constructor ()
      ensures Value() == START
    {
      pending, lastSeqno, signals, created, destroyed := [], 0, [], [], false;
    }

    /** list_del and dma_fence_signal of the first pending fence. */
    method SignalFirst(cause: Cause)
      requires pending != []
      modifies this`pending, this`signals
      ensures pending == old(pending)[1..]
      ensures signals == old(signals) + [Signal(old(pending)[0], cause)]
    {
      signals := signals + [Signal(pending[0], cause)];
      pending := pending[1..];
    }

    method ForceSignal()
      modifies this`pending, this`signals
      ensures pending == []
      ensures signals == old(signals) + ForcedSignals(old(pending))
    {
      ghost var all, k := pending, 0;
      while pending != []
        invariant 0 <= k <= |all| && pending == all[k..]
        invariant signals == old(signals) + ForcedSignals(all)[..k]
        decreases |pending|
      {
        SignalFirst(Forced);
        k := k + 1;
      }
    }

    /** values[k] is what the semaphore holds when the handler looks for the k-th time. */
    method FenceEvent(values: seq<Seqno>)
      requires Enabled(Value(), Event(values))
      modifies this`pending, this`signals
      ensures Value() == Apply(old(Value()), Event(values))
    {
      ghost var all := pending;
      var k := 0;
      while pending != []
        invariant 0 <= k <= |all| && pending == all[k..]
        invariant ReadyCount(all, values) == k + ReadyCount(all[k..], values[k..])
        invariant signals == old(signals) + ReachedSignals(all, values, k)
        decreases |pending|
      {
        var seqno := values[k];
        if pending[0].seqno > seqno {
          break;
        }
        assert all[k..][1..] == all[k + 1..] && values[k..][1..] == values[k + 1..];
        SignalFirst(Reached(seqno));
        k := k + 1;
      }
    }

    method CreateFence(gotMemory: bool, seqno: Seqno) returns (fence: Option<Fence>)
      requires Enabled(Value(), Create(gotMemory, seqno))
      modifies this
      ensures Value() == Apply(old(Value()), Create(gotMemory, seqno))
      ensures fence == if gotMemory then Some(pending[|pending| - 1]) else None
    {
      if !gotMemory {
        return None;
      }
      if seqno < lastSeqno {
        ForceSignal();
      }
      fence := Some(Fence(|created|, seqno));
      pending := pending + [fence.value];
      lastSeqno := seqno;
      created := created + [fence.value];
    }

    method DestroyContext()
      requires Enabled(Value(), Destroy)
      modifies this
      ensures Value() == Apply(old(Value()), Destroy)
    {
      ForceSignal();
      destroyed := true;
    }
  }

  predicate Valid(s: State, ops: seq<Op>)
    decreases |ops|
  {
    ops == [] || (Enabled(s, ops[0]) && Valid(Apply(s, ops[0]), ops[1..]))
  }

  function After(s: State, ops: seq<Op>): (r: State)
    requires Valid(s, ops)
    decreases |ops|
  {
    if ops == [] then s else After(Apply(s, ops[0]), ops[1..])
  }

  function Fences(signals: seq<Signal>): (r: seq<Fence>) {
    seq(|signals|, i requires 0 <= i < |signals| => signals[i].fence)
  }

  predicate Sorted(pending: seq<Fence>) {
    forall i, j :: 0 <= i < j < |pending| ==> pending[i].seqno <= pending[j].seqno
  }

  predicate Bounded(pending: seq<Fence>, last: Seqno) {
    forall i :: 0 <= i < |pending| ==> pending[i].seqno <= last
  }

  predicate Ordered(s: State) {
    Sorted(s.pending) && Bounded(s.pending, s.lastSeqno)
  }

  /** The history splits: what was signalled, in creation order, then what is pending. */
  predicate Split(created: seq<Fence>, signals: seq<Signal>, pending: seq<Fence>) {
    && created == Fences(signals) + pending
    && forall i :: 0 <= i < |created| ==> created[i].id == i
  }

  predicate Justified(signals: seq<Signal>) {
    forall i :: 0 <= i < |signals| ==> signals[i].cause.Reached? ==>
      signals[i].fence.seqno <= signals[i].cause.value
  }

  predicate Inv(s: State) {
    && Ordered(s) && Split(s.created, s.signals, s.pending) && Justified(s.signals)
    && (s.destroyed ==> s.pending == [])
  }

  /** Moving fences from the head of the pending list to the signals keeps the split. */
  lemma SplitMoves(created: seq<Fence>, signals: seq<Signal>, pending: seq<Fence>, more: seq<Signal>, rest: seq<Fence>)
    requires Split(created, signals, pending) && Fences(more) + rest == pending
    ensures Split(created, signals + more, rest)
  {
    assert Fences(signals + more) == Fences(signals) + Fences(more);
    assert (Fences(signals) + Fences(more)) + rest == Fences(signals) + (Fences(more) + rest);
  }

  lemma ForcedMoves(created: seq<Fence>, signals: seq<Signal>, pending: seq<Fence>)
    requires Split(created, signals, pending) && Justified(signals)
    ensures Split(created, signals + ForcedSignals(pending), []) && Justified(signals + ForcedSignals(pending))
  {
    assert Fences(ForcedSignals(pending)) + [] == pending;
    SplitMoves(created, signals, pending, ForcedSignals(pending), []);
  }

  /** Each fence the handler signals had a sequence number within the value read for it. */
  lemma {:induction false} ReadyWereReached(pending: seq<Fence>, values: seq<Seqno>, i: nat)
    requires |values| >= |pending| && i < ReadyCount(pending, values)
    ensures pending[i].seqno <= values[i]
  {
    if i > 0 {
      ReadyWereReached(pending[1..], values[1..], i - 1);
    }
  }

  /** On a sorted list the early break loses nothing: every fence left behind is
  beyond the last value read, which is the value read at the first fence left. */
  lemma {:induction false} EarlyBreakLosesNothing(pending: seq<Fence>, values: seq<Seqno>)
    requires |values| >= |pending| && Sorted(pending)
    ensures var n := ReadyCount(pending, values);
            forall i :: n <= i < |pending| ==> pending[i].seqno > values[n]
  {
    if pending != [] && pending[0].seqno <= values[0] {
      EarlyBreakLosesNothing(pending[1..], values[1..]);
      var n := ReadyCount(pending[1..], values[1..]);
      assert forall i :: n + 1 <= i < |pending| ==> pending[i] == pending[1..][i - 1];
    }
  }

  function Above(pending: seq<Fence>, value: Seqno): (r: seq<Fence>) {
    if pending == [] then []
    else (if pending[0].seqno > value then [pending[0]] else []) + Above(pending[1..], value)
  }

  lemma {:induction false} AllAbove(pending: seq<Fence>, value: Seqno)
    requires forall i :: 0 <= i < |pending| ==> pending[i].seqno > value
    ensures Above(pending, value) == pending
  {
    if pending != [] {
      AllAbove(pending[1..], value);
    }
  }

  /** While the semaphore does not move, the handler's early exit computes a plain filter. */
  lemma {:induction false} ConstantValueFilters(pending: seq<Fence>, values: seq<Seqno>, value: Seqno)
    requires |values| >= |pending| && Sorted(pending)
    requires forall k :: 0 <= k < |values| ==> values[k] == value
    ensures pending[ReadyCount(pending, values)..] == Above(pending, value)
  {
    if pending != [] {
      if pending[0].seqno > value {
        AllAbove(pending, value);
      } else {
        ConstantValueFilters(pending[1..], values[1..], value);
      }
    }
  }

  lemma EventKeeps(s: State, values: seq<Seqno>)
    requires Inv(s) && Enabled(s, Event(values))
    ensures Inv(Apply(s, Event(values)))
  {
    var n := ReadyCount(s.pending, values);
    var more := ReachedSignals(s.pending, values, n);
    assert Fences(more) == s.pending[..n];
    SplitMoves(s.created, s.signals, s.pending, more, s.pending[n..]);
    forall i | 0 <= i < n ensures s.pending[i].seqno <= values[i] {
      ReadyWereReached(s.pending, values, i);
    }
  }

  lemma CreateKeeps(s: State, seqno: Seqno)
    requires Inv(s) && Enabled(s, Create(true, seqno))
    ensures Inv(Apply(s, Create(true, seqno)))
  {
    ForcedMoves(s.created, s.signals, s.pending);
    var fence := Fence(|s.created|, seqno);
    assert Fences(s.signals) + (s.pending + [fence]) == s.created + [fence];
  }

  lemma InvKept(s: State, op: Op)
    requires Inv(s) && Enabled(s, op)
    ensures Inv(Apply(s, op))
  {
    match op {
      case Create(false, _) =>
      case Create(true, seqno) => CreateKeeps(s, seqno);
      case Event(values) => EventKeeps(s, values);
      case Destroy => ForcedMoves(s.created, s.signals, s.pending);
    }
  }

  lemma {:induction false} InvAlways(s: State, ops: seq<Op>)
    requires Inv(s) && Valid(s, ops)
    ensures Inv(After(s, ops))
    decreases |ops|
  {
    if ops != [] {
      InvKept(s, ops[0]);
      InvAlways(Apply(s, ops[0]), ops[1..]);
    }
  }

  /** After any run: the fences created are exactly those signalled, in creation
  order and each once, followed by those pending, so no fence is signalled twice
  or is both signalled and pending; the pending ones are sorted and within
  last_seqno; a fence that was not forced was signalled by a value that had
  reached it; a destroyed context has none pending. */
  lemma TimelineOfAnyRun(ops: seq<Op>)
    requires Valid(START, ops)
    ensures var s := After(START, ops);
            && s.created == Fences(s.signals) + s.pending
            && (forall i, j :: 0 <= i < j < |s.created| ==> s.created[i] != s.created[j])
            && Sorted(s.pending) && Bounded(s.pending, s.lastSeqno)
            && (forall i :: 0 <= i < |s.signals| ==> s.signals[i].cause.Reached? ==>
                  s.signals[i].fence.seqno <= s.signals[i].cause.value)
            && (s.destroyed ==> s.pending == [])
  {
    InvAlways(START, ops);
  }

  /** In any reachable state an event leaves pending only fences beyond the last
  value it read, and if the semaphore holds still it leaves exactly those. */
  lemma EventInAnyRun(ops: seq<Op>, values: seq<Seqno>)
    requires Valid(START, ops) && Enabled(After(START, ops), Event(values))
    ensures var before := After(START, ops).pending;
            var left := Apply(After(START, ops), Event(values)).pending;
            && (forall i :: 0 <= i < |left| ==> left[i].seqno > values[|before| - |left|])
            && (forall v :: (forall k :: 0 <= k < |values| ==> values[k] == v) ==> left == Above(before, v))
  {
    InvAlways(START, ops);
    var before := After(START, ops).pending;
    EarlyBreakLosesNothing(before, values);
    forall v | forall k :: 0 <= k < |values| ==> values[k] == v
      ensures before[ReadyCount(before, values)..] == Above(before, v)
    {
      ConstantValueFilters(before, values, v);
    }
  }

  /** The signals a step adds. */
  function Added(s: State, op: Op): (more: seq<Signal>)
    requires Enabled(s, op) && |s.signals| <= |Apply(s, op).signals|
  {
    Apply(s, op).signals[|s.signals|..]
  }

  lemma SignalsGrow(s: State, op: Op)
    requires Enabled(s, op)
    ensures |s.signals| <= |Apply(s, op).signals| && Apply(s, op).signals[..|s.signals|] == s.signals
  {
  }

  /** A fence is forced by a destroy, or by the creation of one with a sequence number
  below the last, and by nothing else; either forces all that is pending, in order. */
  lemma ForcedIff(s: State, op: Op)
    requires Enabled(s, op)
    ensures |s.signals| <= |Apply(s, op).signals|
    ensures (exists x :: x in Added(s, op) && x.cause.Forced?) <==>
              s.pending != [] && (op.Destroy? || (op.Create? && op.gotMemory && op.seqno < s.lastSeqno))
    ensures op.Destroy? || (op.Create? && op.gotMemory && op.seqno < s.lastSeqno) ==>
              && |Added(s, op)| == |s.pending|
              && forall i :: 0 <= i < |s.pending| ==> Added(s, op)[i] == Signal(s.pending[i], Forced)
  {
    SignalsGrow(s, op);
    var more := Added(s, op);
    match op {
      case Create(false, _) =>
      case Create(true, seqno) =>
        assert more == if seqno < s.lastSeqno then ForcedSignals(s.pending) else [];
        if s.pending != [] && seqno < s.lastSeqno {
          assert more[0] in more;
        }
      case Event(values) =>
        assert more == ReachedSignals(s.pending, values, ReadyCount(s.pending, values));
      case Destroy =>
        assert more == ForcedSignals(s.pending);
        if s.pending != [] {
          assert more[0] in more;
        }
    }
  }

  /** A fence whose sequence number is not below the last joins the end of the list, and
  signals nothing; otherwise it is the only one pending; without memory nothing changes. */
  lemma CreateIs(s: State, gotMemory: bool, seqno: Seqno)
    requires Enabled(s, Create(gotMemory, seqno))
    ensures var s', fence := Apply(s, Create(gotMemory, seqno)), Fence(|s.created|, seqno);
            && (!gotMemory ==> s' == s)
            && (gotMemory ==> s'.lastSeqno == seqno && s'.created == s.created + [fence])
            && (gotMemory && seqno >= s.lastSeqno ==> s'.pending == s.pending + [fence] && s'.signals == s.signals)
            && (gotMemory && seqno < s.lastSeqno ==> s'.pending == [fence])
  {
  }

  // ------------------------------------------------------ counters that do not wrap

  const WRAP: nat := 0x1_0000_0000

  /** What the driver sees of a counter, and how often it has wrapped. */
  function Low(x: nat): (r: Seqno) {
    x % WRAP
  }

  function Epoch(x: nat): (r: nat) {
    x / WRAP
  }

  /** The context, with the whole number behind the sequence number of each fence
  created and of the last one. */
  datatype Long = Long(s: State, fulls: seq<nat>, last: nat)

  datatype LongOp = LongCreate(gotMemory: bool, full: nat) | LongEvent(values: seq<nat>) | LongDestroy

  function Lows(values: seq<nat>): (r: seq<Seqno>) {
    seq(|values|, i requires 0 <= i < |values| => Low(values[i]))
  }

  function ShortOp(op: LongOp): (r: Op) {
    match op
    case LongCreate(gotMemory, full) => Create(gotMemory, Low(full))
    case LongEvent(values) => Event(Lows(values))
    case LongDestroy => Destroy
  }

  /** Fences are created in order, less than one turn of the counter apart. */
  predicate LongEnabled(l: Long, op: LongOp) {
    Enabled(l.s, ShortOp(op)) && (op.LongCreate? ==> l.last <= op.full < l.last + WRAP)
  }

  function LongApply(l: Long, op: LongOp): (r: Long)
    requires LongEnabled(l, op)
  {
    var s := Apply(l.s, ShortOp(op));
    if op.LongCreate? && op.gotMemory then Long(s, l.fulls + [op.full], op.full) else l.(s := s)
  }

  predicate LongValid(l: Long, ops: seq<LongOp>)
    decreases |ops|
  {
    ops == [] || (LongEnabled(l, ops[0]) && LongValid(LongApply(l, ops[0]), ops[1..]))
  }

  function LongAfter(l: Long, ops: seq<LongOp>): (r: Long)
    requires LongValid(l, ops)
    decreases |ops|
  {
    if ops == [] then l else LongAfter(LongApply(l, ops[0]), ops[1..])
  }

  const LONG_START := Long(START, [], 0)

  /** A pending fence was created in the epoch of the last one. */
  predicate Current(l: Long, f: Fence) {
    f.id < |l.fulls| && f.seqno == Low(l.fulls[f.id]) && Epoch(l.fulls[f.id]) == Epoch(l.last)
  }

  predicate LongInv(l: Long) {
    && Inv(l.s) && |l.fulls| == |l.s.created| && l.s.lastSeqno == Low(l.last)
    && forall i :: 0 <= i < |l.s.pending| ==> Current(l, l.s.pending[i])
  }

  /** Comparing what the driver sees is comparing the counters, within an epoch. */
  lemma ComparedWithin(x: nat, v: nat)
    ensures Low(x) <= Low(v) ==> (x <= v <==> Epoch(x) <= Epoch(v))
    ensures Low(x) > Low(v) ==> (x <= v <==> Epoch(x) < Epoch(v))
  {
    assert x == Epoch(x) * WRAP + Low(x) && v == Epoch(v) * WRAP + Low(v);
  }

  /** The test for a wrap is right: it fires exactly when the epoch changes. */
  lemma WrapSeen(last: nat, full: nat)
    requires last <= full < last + WRAP
    ensures Low(full) < Low(last) <==> Epoch(full) != Epoch(last)
  {
    assert last == Epoch(last) * WRAP + Low(last) && full == Epoch(full) * WRAP + Low(full);
  }

  lemma LongKept(l: Long, op: LongOp)
    requires LongInv(l) && LongEnabled(l, op)
    ensures LongInv(LongApply(l, op))
  {
    InvKept(l.s, ShortOp(op));
    if op.LongCreate? && op.gotMemory {
      WrapSeen(l.last, op.full);
      var l' := LongApply(l, op);
      forall i | 0 <= i < |l'.s.pending| ensures Current(l', l'.s.pending[i]) {
        if i < |l'.s.pending| - 1 {
          assert Current(l, l.s.pending[i]);
        }
      }
    }
  }

  lemma {:induction false} LongAlways(l: Long, ops: seq<LongOp>)
    requires LongInv(l) && LongValid(l, ops)
    ensures LongInv(LongAfter(l, ops))
    decreases |ops|
  {
    if ops != [] {
      LongKept(l, ops[0]);
      LongAlways(LongApply(l, ops[0]), ops[1..]);
    }
  }

  lemma EarlyIff(l: Long, values: seq<nat>, k: nat)
    requires LongInv(l) && LongEnabled(l, LongEvent(values)) && k < ReadyCount(l.s.pending, Lows(values))
    ensures k < |l.s.pending| && Current(l, l.s.pending[k])
    ensures l.fulls[l.s.pending[k].id] > values[k] <==> Epoch(values[k]) < Epoch(l.last)
  {
    ReadyWereReached(l.s.pending, Lows(values), k);
    ComparedWithin(l.fulls[l.s.pending[k].id], values[k]);
  }

  lemma MissedIff(l: Long, values: seq<nat>, i: nat)
    requires LongInv(l) && LongEnabled(l, LongEvent(values))
    requires ReadyCount(l.s.pending, Lows(values)) <= i < |l.s.pending|
    ensures Current(l, l.s.pending[i])
    ensures var v := values[ReadyCount(l.s.pending, Lows(values))];
            l.fulls[l.s.pending[i].id] <= v <==> Epoch(v) > Epoch(l.last)
  {
    EarlyBreakLosesNothing(l.s.pending, Lows(values));
    ComparedWithin(l.fulls[l.s.pending[i].id], values[ReadyCount(l.s.pending, Lows(values))]);
  }

  /** The k-th fence that an event signals is signalled before the semaphore has reached
  it if and only if the value read for it is from before the last wrap that creating a
  fence has shown; and a fence that the event leaves pending has been reached, and is
  missed, if and only if the last value read is from beyond that wrap. */
  predicate EarlyOrMissed(l: Long, values: seq<nat>)
    requires LongEnabled(l, LongEvent(values))
  {
    var n := ReadyCount(l.s.pending, Lows(values));
    && (forall i :: 0 <= i < |l.s.pending| ==> l.s.pending[i].id < |l.fulls|)
    && (forall k :: 0 <= k < n ==>
          (l.fulls[l.s.pending[k].id] > values[k] <==> Epoch(values[k]) < Epoch(l.last)))
    && (forall i :: n <= i < |l.s.pending| ==>
          (l.fulls[l.s.pending[i].id] <= values[n] <==> Epoch(values[n]) > Epoch(l.last)))
  }

  lemma EarlyOrMissedAt(l: Long, values: seq<nat>)
    requires LongInv(l) && LongEnabled(l, LongEvent(values))
    ensures EarlyOrMissed(l, values)
  {
    var n := ReadyCount(l.s.pending, Lows(values));
    forall i | 0 <= i < |l.s.pending| ensures l.s.pending[i].id < |l.fulls| {
      assert Current(l, l.s.pending[i]);
    }
    forall k | 0 <= k < n
      ensures l.fulls[l.s.pending[k].id] > values[k] <==> Epoch(values[k]) < Epoch(l.last)
    {
      EarlyIff(l, values, k);
    }
    forall i | n <= i < |l.s.pending|
      ensures l.fulls[l.s.pending[i].id] <= values[n] <==> Epoch(values[n]) > Epoch(l.last)
    {
      MissedIff(l, values, i);
    }
  }

  /** So it is in any run. */
  lemma EarlyOrMissedIff(ops: seq<LongOp>, values: seq<nat>)
    requires LongValid(LONG_START, ops) && LongEnabled(LongAfter(LONG_START, ops), LongEvent(values))
    ensures EarlyOrMissed(LongAfter(LONG_START, ops), values)
  {
    LongAlways(LONG_START, ops);
    EarlyOrMissedAt(LongAfter(LONG_START, ops), values);
  }

  /** In any run, creating a fence forces those pending if and only if it is of a later
  epoch than they are. */
  lemma ForcedAtWrap(ops: seq<LongOp>, full: nat)
    requires LongValid(LONG_START, ops) && LongEnabled(LongAfter(LONG_START, ops), LongCreate(true, full))
    ensures var l := LongAfter(LONG_START, ops);
            var l' := LongApply(l, LongCreate(true, full));
            && |l.s.created| == |l.fulls|
            && (Epoch(full) == Epoch(l.last) ==>
                  l'.s.signals == l.s.signals && l'.s.pending == l.s.pending + [Fence(|l.fulls|, Low(full))])
            && (Epoch(full) != Epoch(l.last) ==>
                  && l'.s.signals == l.s.signals + ForcedSignals(l.s.pending)
                  && l'.s.pending == [Fence(|l.fulls|, Low(full))])
  {
    LongAlways(LONG_START, ops);
    WrapSeen(LongAfter(LONG_START, ops).last, full);
  }

  /** It happens: the semaphore still holds the last value of the old epoch when the
  first fence of the new one is created, and the next event signals that fence. */
  lemma SignalledEarly()
    ensures var ops := [LongCreate(true, 0xFFFF_FFFF), LongCreate(true, 0x1_0000_0001)];
            && LongValid(LONG_START, ops)
            && var l := LongAfter(LONG_START, ops);
               && l.s.pending == [Fence(1, 1)] && l.fulls == [0xFFFF_FFFF, 0x1_0000_0001]
               && LongEnabled(l, LongEvent([0xFFFF_FFFF]))
               && LongApply(l, LongEvent([0xFFFF_FFFF])).s.pending == []
  {
    var first := LongApply(LONG_START, LongCreate(true, 0xFFFF_FFFF));
    assert first.s.pending == [Fence(0, 0xFFFF_FFFF)];
    var second := LongApply(first, LongCreate(true, 0x1_0000_0001));
    assert second.s.pending == [Fence(1, 1)];
    assert LongValid(second, []) && LongAfter(second, []) == second;
    assert LongValid(first, [LongCreate(true, 0x1_0000_0001)]);
    assert [LongCreate(true, 0xFFFF_FFFF), LongCreate(true, 0x1_0000_0001)][1..] == [LongCreate(true, 0x1_0000_0001)];
    assert ReadyCount([Fence(1, 1)], Lows([0xFFFF_FFFF])) == 1;
  }
}
