/** Completion of atomic commits on one CRTC.

A commit's flip object goes to the flip list when the hardware will report the
flip, is deferred behind the last flip of a non-empty list when it will not,
and is completed at once when the list is empty.  Hardware events count down
the first flip of the list and complete it and everything deferred behind it.
Commits on a CRTC are serialised by the DRM core, applyModeSetConfig succeeds,
and the hardware sends one event for every plane counted. */
module FlipEvents {

  import opened Common

  /** A flip object: the number of its commit, and whether an event was asked for. */
  datatype Flip = Flip(id: nat, wants: bool)

  /** A flip on flip_list with its outstanding hardware events and deferred_flip_list. */
  datatype Queued = Queued(flip: Flip, pending: nat, deferred: seq<Flip>)

  // ------------------------------------------------------ critical sections

  /** nv_drm_crtc_enqueue_flip: list_add, at the front. */
  function Enqueue(list: seq<Queued>, flip: Flip, pending: nat): (r: seq<Queued>) {
    [Queued(flip, pending, [])] + list
  }

  /** --pending_events on a 32-bit unsigned counter. */
  function CountDown(pending: nat): (r: nat) {
    if pending == 0 then 0xFFFF_FFFF else pending - 1
  }

  /** nv_drm_crtc_dequeue_flip: count down the first flip; hand it out once it reaches zero. */
  function Dequeue(list: seq<Queued>): (r: (seq<Queued>, Option<Queued>)) {
    if list == [] then (list, None)
    else
      var first := list[0].(pending := CountDown(list[0].pending));
      if first.pending == 0 then (list[1..], Some(first)) else (list[0 := first], None)
  }

  /** The commit path's section under flip_list_lock, for a list that is not empty. */
  function Defer(list: seq<Queued>, flip: Flip): (r: seq<Queued>)
    requires list != []
  {
    var last := list[|list| - 1];
    list[|list| - 1 := last.(deferred := [flip] + last.deferred)]
  }

  datatype PlaneState = PlaneState(onCrtc: bool, isCursor: bool, hasFb: bool)

  /** The CRTC's flip list and the events sent for it.  The first three methods
  are the sections under flip_list_lock. */
  class Crtc {
    var flipList: seq<Queued>
    var vblankEvents: seq<nat>

    constructor ()
      ensures flipList == [] && vblankEvents == []
    {
      flipList, vblankEvents := [], [];
    }

    method EnqueueFlip(flip: Flip, pending: nat)
      modifies this`flipList
      ensures flipList == Enqueue(old(flipList), flip, pending)
    {
      flipList := [Queued(flip, pending, [])] + flipList;
    }

    method DequeueFlip() returns (done: Option<Queued>)
      modifies this`flipList
      ensures (flipList, done) == Dequeue(old(flipList))
    {
      done := None;
      if flipList != [] {
        var first := flipList[0].(pending := CountDown(flipList[0].pending));
        if first.pending == 0 {
          flipList := flipList[1..];
          done := Some(first);
        } else {
          flipList := flipList[0 := first];
        }
      }
    }

    method DeferFlip(flip: Flip) returns (taken: bool)
      modifies this`flipList
      ensures taken == (old(flipList) != [])
      ensures flipList == if taken then Defer(old(flipList), flip) else old(flipList)
    {
      taken := flipList != [];
      if taken {
        var n := |flipList| - 1;
        flipList := flipList[n := flipList[n].(deferred := [flip] + flipList[n].deferred)];
      }
    }

    /** __nv_drm_handle_flip_event, all of it under event_lock: a flip that has
    become complete announces itself and then the flips deferred behind it. */
    method HandleFlipEvent()
      modifies this
      ensures var (list', done) := Dequeue(old(flipList));
              && flipList == list'
              && vblankEvents == old(vblankEvents) +
                   if done.Some? then Event(done.value.flip) + Ids(done.value.deferred, false) else []
    {
      var done := DequeueFlip();
      if done.Some? {
        vblankEvents := vblankEvents + Event(done.value.flip);
        var rest := done.value.deferred;
        while rest != []
          invariant vblankEvents + Ids(rest, false) ==
                    old(vblankEvents) + (Event(done.value.flip) + Ids(done.value.deferred, false))
          decreases |rest|
          modifies this`vblankEvents
        {
          Regroup(vblankEvents, Event(rest[0]), Ids(rest[1..], false));
          vblankEvents := vblankEvents + Event(rest[0]);
          rest := rest[1..];
        }
      }
    }
  }

  /** The planes for which the hardware will report a flip. */
  ghost function Reporting(oldActive: bool, planes: seq<PlaneState>): (r: set<int>) {
    set i | 0 <= i < |planes| && oldActive && planes[i].onCrtc && !planes[i].isCursor && planes[i].hasFb
  }

  /** __will_generate_flip_event: the hardware reports a flip for each plane, cursors
  apart, that was shown on this CRTC before the commit. */
  method WillGenerateFlipEvent(oldActive: bool, newActive: bool, planes: seq<PlaneState>)
      returns (pending: nat, will: bool)
    ensures pending == |Reporting(oldActive, planes)|
    ensures will <==> exists i ::
              0 <= i < |planes| && oldActive && planes[i].onCrtc && !planes[i].isCursor && planes[i].hasFb
  {
    pending := 0;
    if !oldActive && !newActive {
      assert Reporting(oldActive, planes) == {};
      return 0, false;
    }
    assert planes[..|planes|] == planes;
    for i := 0 to |planes|
      invariant pending == |Reporting(oldActive, planes[..i])|
    {
      OnePlaneMore(oldActive, planes, i);
      if !planes[i].onCrtc || planes[i].isCursor {
        continue;
      }
      if oldActive && planes[i].hasFb {
        pending := pending + 1;
      }
    }
    will := pending != 0;
    assert forall i ::
        0 <= i < |planes| && oldActive && planes[i].onCrtc && !planes[i].isCursor && planes[i].hasFb
        ==> i in Reporting(oldActive, planes);
    if will {
      ghost var i :| i in Reporting(oldActive, planes);
    }
  }

  /** A plane adds one flip to the count, or none if it is a cursor, was on another CRTC
  or on none, had no framebuffer, or the CRTC was off. */
  lemma OnePlaneMore(oldActive: bool, planes: seq<PlaneState>, i: nat)
    requires i < |planes|
    ensures |Reporting(oldActive, planes[..i + 1])|
         == |Reporting(oldActive, planes[..i])|
            + if oldActive && planes[i].onCrtc && !planes[i].isCursor && planes[i].hasFb then 1 else 0
  {
    var before, after := Reporting(oldActive, planes[..i]), Reporting(oldActive, planes[..i + 1]);
    if oldActive && planes[i].onCrtc && !planes[i].isCursor && planes[i].hasFb {
      assert after == before + {i};
    } else {
      assert after == before;
    }
  }

  /** A cursor plane never changes the count, wherever it is among the planes. */
  lemma {:induction false} CursorsDoNotCount(oldActive: bool, before: seq<PlaneState>, c: PlaneState,
                                             after: seq<PlaneState>)
    requires c.isCursor
    ensures |Reporting(oldActive, before + [c] + after)| == |Reporting(oldActive, before + after)|
  {
    var with, without := before + [c] + after, before + after;
    if after == [] {
      OnePlaneMore(oldActive, with, |before|);
      assert with[..|before|] == without && with[..|before| + 1] == with;
    } else {
      var n := |after| - 1;
      CursorsDoNotCount(oldActive, before, c, after[..n]);
      OnePlaneMore(oldActive, with, |with| - 1);
      OnePlaneMore(oldActive, without, |without| - 1);
      assert with[..|with| - 1] == before + [c] + after[..n] && with[..|with| - 1 + 1] == with;
      assert without[..|without| - 1] == before + after[..n] && without[..|without| - 1 + 1] == without;
    }
  }

  // ------------------------------------------------------------------ system

  datatype Commit = Commit(flip: Flip, events: nat, nonblock: bool)

  datatype Committer =
    | Idle
    | Duplicated              // a proposed CRTC state holds a flip of its own, number nextId
    | Swapped(c: Commit)      // the flip belongs to the CRTC state
    | Enqueued(c: Commit)     // a flip that generates events is on the list
    | Applied(c: Commit)      // the hardware has been programmed
    | Delivering(c: Commit)   // the list was empty: deliver the event now
    | Ending(c: Commit)       // a blocking commit waits for the list to drain

  datatype Handler =
    | Off
    | Locked                                              // holds event_lock
    | Sending(main: Flip, announced: bool, rest: seq<Flip>)
    | Finishing                                           // nothing to send

  /** The protocol state and the history of one CRTC. */
  datatype State = State(
    list: seq<Queued>,
    promised: nat,          // hardware events still to be handled
    committer: Committer,
    handler: Handler,
    nextId: nat,            // flips swapped in or discarded so far
    wanted: seq<nat>,       // commits that asked for an event, in commit order
    sent: seq<nat>,         // events sent, in the order sent
    freed: multiset<nat>,
    warned: bool,           // dequeue found an empty list
    jumped: bool,           // an event was inserted in front of an earlier one
    timedOut: bool,         // a blocking wait timed out
    crowded: bool)          // an event-generating commit began with a non-empty list

  const START := State([], 0, Idle, Off, 0, [], [], multiset{}, false, false, false, false)

  datatype Action =
    | Duplicate
    | Discard
    | CommitBegin(nonblock: bool, events: nat, wants: bool)
    | CommitEnqueue
    | CommitApply
    | CommitDefer
    | CommitDeliver
    | CommitEnd(timeout: bool)
    | HandlerLock
    | HandlerDequeue
    | HandlerAnnounce
    | HandlerDeferred
    | HandlerUnlock
  {
    predicate IsCommit() {
      || Duplicate? || Discard?
      || CommitBegin? || CommitEnqueue? || CommitApply? || CommitDefer? || CommitDeliver? || CommitEnd?
    }
  }

  predicate AllPositive(list: seq<Queued>) {
    forall i :: 0 <= i < |list| ==> list[i].pending > 0
  }

  predicate Enabled(s: State, a: Action) {
    match a
    case Duplicate => s.committer.Idle?
    case Discard => s.committer.Duplicated?
    case CommitBegin(_, _, _) => s.committer.Duplicated?
    case CommitEnqueue => s.committer.Swapped?
    case CommitApply => s.committer.Enqueued?
    case CommitDefer => s.committer.Applied?
    case CommitDeliver => s.committer.Delivering? && (s.committer.c.flip.wants ==> s.handler.Off?)
    case CommitEnd(timeout) => s.committer.Ending? && (timeout || s.committer.c.nonblock || s.list == [])
    case HandlerLock => s.handler.Off? && s.promised > 0
    case HandlerDequeue => s.handler.Locked? && s.promised > 0
    case HandlerAnnounce => s.handler.Sending? && !s.handler.announced
    case HandlerDeferred => s.handler.Sending? && s.handler.announced && s.handler.rest != []
    case HandlerUnlock => s.handler.Finishing? || (s.handler.Sending? && s.handler.announced && s.handler.rest == [])
  }

  function Event(flip: Flip): (r: seq<nat>) {
    if flip.wants then [flip.id] else []
  }

  function ApplyCommit(s: State, a: Action): (r: State)
    requires Enabled(s, a) && a.IsCommit()
  {
    match a
    // nv_drm_atomic_crtc_duplicate_state, and the destroy hook when the commit is given up
    case Duplicate => s.(committer := Duplicated)
    case Discard => s.(committer := Idle, nextId := s.nextId + 1, freed := s.freed + multiset{s.nextId})
    case CommitBegin(nonblock, events, wants) =>
      if nonblock && s.list != [] then s  // -EBUSY: the proposed state is still to be destroyed
      else
        var flip := Flip(s.nextId, wants);
        s.(committer := Swapped(Commit(flip, events, nonblock)), nextId := s.nextId + 1,
           wanted := s.wanted + Event(flip), crowded := s.crowded || (events > 0 && s.list != []))
    case CommitEnqueue =>
      var c := s.committer.c;
      if c.events == 0 then s.(committer := Enqueued(c))
      else s.(committer := Enqueued(c), list := Enqueue(s.list, c.flip, c.events),
              jumped := s.jumped || (c.flip.wants && Flat(s.list, false) != []))
    case CommitApply => s.(committer := Applied(s.committer.c), promised := s.promised + s.committer.c.events)
    case CommitDefer =>
      var c := s.committer.c;
      if c.events > 0 then s.(committer := Ending(c))
      else if s.list == [] then s.(committer := Delivering(c))
      else s.(committer := Ending(c), list := Defer(s.list, c.flip),
              jumped := s.jumped || (c.flip.wants && Ids(s.list[|s.list| - 1].deferred, false) != []))
    case CommitDeliver =>
      var c := s.committer.c;
      s.(committer := Ending(c), sent := s.sent + Event(c.flip), freed := s.freed + multiset{c.flip.id})
    case CommitEnd(_) =>
      s.(committer := Idle, timedOut := s.timedOut || (!s.committer.c.nonblock && s.list != []))
  }

  function ApplyHandler(s: State, a: Action): (r: State)
    requires Enabled(s, a) && !a.IsCommit()
  {
    match a
    case HandlerLock => s.(handler := Locked)
    case HandlerDequeue =>
      var (list', done) := Dequeue(s.list);
      s.(promised := s.promised - 1, list := list', warned := s.warned || s.list == [],
         handler := if done.None? then Finishing else Sending(done.value.flip, false, done.value.deferred))
    case HandlerAnnounce => s.(handler := s.handler.(announced := true), sent := s.sent + Event(s.handler.main))
    case HandlerDeferred =>
      var flip := s.handler.rest[0];
      s.(handler := s.handler.(rest := s.handler.rest[1..]),
         sent := s.sent + Event(flip), freed := s.freed + multiset{flip.id})
    case HandlerUnlock =>
      s.(handler := Off, freed := s.freed + if s.handler.Sending? then multiset{s.handler.main.id} else multiset{})
  }

  function Apply(s: State, a: Action): (r: State)
    requires Enabled(s, a)
  {
    if a.IsCommit() then ApplyCommit(s, a) else ApplyHandler(s, a)
  }

  predicate Trace(run: seq<State>, acts: seq<Action>) {
    && |run| == |acts| + 1
    && run[0] == START
    && forall i :: 0 <= i < |acts| ==> Enabled(run[i], acts[i]) && run[i + 1] == Apply(run[i], acts[i])
  }

  // -------------------------------------------------- orders of flip objects

  /** The numbers of the flips: all of them, or only of those that want an event. */
  function Pick(flip: Flip, all: bool): (r: seq<nat>) {
    if all || flip.wants then [flip.id] else []
  }

  function Ids(flips: seq<Flip>, all: bool): (r: seq<nat>) {
    if flips == [] then [] else Pick(flips[0], all) + Ids(flips[1..], all)
  }

  /** The flips in the order the list will complete them if nothing more is added. */
  function Flat(list: seq<Queued>, all: bool): (r: seq<nat>) {
    if list == [] then [] else Pick(list[0].flip, all) + Ids(list[0].deferred, all) + Flat(list[1..], all)
  }

  function HeldByHandler(h: Handler, all: bool): (r: seq<nat>) {
    if h.Sending? then (if all || !h.announced then Pick(h.main, all) else []) + Ids(h.rest, all) else []
  }

  /** Whether the CRTC state still points to the commit's flip. */
  predicate Holds(c: Committer) {
    c.Swapped? || c.Delivering? || ((c.Enqueued? || c.Applied?) && c.c.events == 0)
  }

  function HeldByState(c: Committer): (r: seq<nat>) {
    if Holds(c) then Event(c.c.flip) else []
  }

  /** Events by where they are: sent, with the handler, on the list, with the CRTC state. */
  datatype Parts = Parts(sent: seq<nat>, held: seq<nat>, flat: seq<nat>, own: seq<nat>)

  function PartsOf(s: State): (p: Parts) {
    Parts(s.sent, HeldByHandler(s.handler, false), Flat(s.list, false), HeldByState(s.committer))
  }

  /** Events sent, then the events still to come in the order they will be sent. */
  function Line(p: Parts): (r: seq<nat>) {
    p.sent + p.held + p.flat + p.own
  }

  lemma {:induction false} FlatConcat(a: seq<Queued>, b: seq<Queued>, all: bool)
    ensures Flat(a + b, all) == Flat(a, all) + Flat(b, all)
  {
    if a == [] {
      assert a + b == b;
    } else {
      assert (a + b)[1..] == a[1..] + b;
      FlatConcat(a[1..], b, all);
    }
  }

  lemma FlatLast(front: seq<Queued>, last: Queued, all: bool)
    ensures Flat(front + [last], all) == (Flat(front, all) + Pick(last.flip, all)) + Ids(last.deferred, all)
  {
    FlatConcat(front, [last], all);
    var mine, others := Pick(last.flip, all), Ids(last.deferred, all);
    assert Flat([last], all) == mine + others by {
      assert [last][1..] == [];
      assert mine + others + [] == mine + others;
    }
    Regroup(Flat(front, all), mine, others);
  }

  /** Deferring puts a flip right behind the last flip of the list, ahead of those deferred before. */
  lemma FlatDefer(list: seq<Queued>, flip: Flip, all: bool) returns (before: seq<nat>)
    requires list != []
    ensures var deferred := Ids(list[|list| - 1].deferred, all);
            && Flat(list, all) == before + deferred
            && Flat(Defer(list, flip), all) == before + (Pick(flip, all) + deferred)
  {
    var front, last := list[..|list| - 1], list[|list| - 1];
    var last' := last.(deferred := [flip] + last.deferred);
    assert list == front + [last] && Defer(list, flip) == front + [last'];
    FlatLast(front, last, all);
    FlatLast(front, last', all);
    assert last'.deferred[1..] == last.deferred;
    before := Flat(front, all) + Pick(last.flip, all);
  }

  // ---------------------------------------------------- hardware events

  function Sum(list: seq<Queued>): (n: nat) {
    if list == [] then 0 else list[0].pending + Sum(list[1..])
  }

  /** Events of a flip that is queued before the hardware has been programmed. */
  function Unapplied(c: Committer): (n: nat) {
    if c.Enqueued? then c.c.events else 0
  }

  predicate Counted(s: State) {
    && AllPositive(s.list)
    && Sum(s.list) == s.promised + Unapplied(s.committer)
    && (s.handler.Locked? ==> s.promised > 0)
    && !s.warned
  }

  lemma {:induction false} SumConcat(a: seq<Queued>, b: seq<Queued>)
    ensures Sum(a + b) == Sum(a) + Sum(b)
  {
    if a == [] {
      assert a + b == b;
    } else {
      assert (a + b)[1..] == a[1..] + b;
      SumConcat(a[1..], b);
    }
  }

  lemma SumDefer(list: seq<Queued>, flip: Flip)
    requires list != [] && AllPositive(list)
    ensures Sum(Defer(list, flip)) == Sum(list) && AllPositive(Defer(list, flip))
  {
    var front, last := list[..|list| - 1], list[|list| - 1];
    var last' := last.(deferred := [flip] + last.deferred);
    assert list == front + [last] && Defer(list, flip) == front + [last'];
    SumConcat(front, [last]);
    SumConcat(front, [last']);
  }

  lemma SumDequeue(list: seq<Queued>)
    requires list != [] && AllPositive(list)
    ensures Sum(Dequeue(list).0) == Sum(list) - 1 && AllPositive(Dequeue(list).0)
  {
    if list[0].pending > 1 {
      assert Dequeue(list).0[1..] == list[1..];
    }
  }

  lemma PositiveSum(list: seq<Queued>)
    requires AllPositive(list)
    ensures list != [] <==> Sum(list) > 0
  {
  }

  lemma CommitCounted(s: State, a: Action)
    requires Counted(s) && Enabled(s, a) && a.IsCommit()
    ensures Counted(ApplyCommit(s, a))
  {
    if a.CommitEnqueue? {
      assert Enqueue(s.list, s.committer.c.flip, s.committer.c.events)[1..] == s.list;
    } else if a.CommitDefer? && s.list != [] {
      SumDefer(s.list, s.committer.c.flip);
    }
  }

  lemma HandlerCounted(s: State, a: Action)
    requires Counted(s) && Enabled(s, a) && !a.IsCommit()
    ensures Counted(ApplyHandler(s, a))
  {
    PositiveSum(s.list);
    if a.HandlerDequeue? {
      SumDequeue(s.list);
    }
  }

  // ------------------------------------------------------ order of events

  predicate Increasing(xs: seq<nat>) {
    forall i, j :: 0 <= i < j < |xs| ==> xs[i] < xs[j]
  }

  predicate Below(xs: seq<nat>, bound: nat) {
    forall i :: 0 <= i < |xs| ==> xs[i] < bound
  }

  predicate AllBelow(p: Parts, bound: nat) {
    Below(p.sent, bound) && Below(p.held, bound) && Below(p.flat, bound)
  }

  function Bound(s: State): (n: nat) {
    if Holds(s.committer) then s.committer.c.flip.id else s.nextId
  }

  /** The flip with the CRTC state, if any, is the newest of all. */
  predicate NewestLast(s: State) {
    && (!s.committer.Idle? && !s.committer.Duplicated? ==> s.committer.c.flip.id < s.nextId)
    && AllBelow(PartsOf(s), Bound(s))
    && Below(s.wanted, s.nextId)
    && (s.committer.Delivering? ==> s.list == [])
  }

  predicate Ordered(p: Parts, wanted: seq<nat>, jumped: bool) {
    && multiset(Line(p)) == multiset(wanted)
    && Increasing(wanted)
    && (Increasing(Line(p)) <==> !jumped)
  }

  predicate InLine(s: State) {
    Ordered(PartsOf(s), s.wanted, s.jumped)
  }

  /** Whether the step takes the commit's flip from the end of the line to a place in the list. */
  predicate Inserts(s: State, a: Action) {
    && Enabled(s, a)
    && ((a.CommitEnqueue? && s.committer.c.events > 0)
        || (a.CommitDefer? && s.committer.c.events == 0 && s.list != []))
  }

  /** Events that move along the line without overtaking. */
  predicate Moved(p: Parts, p': Parts) {
    || p' == p
    || (p'.sent + p'.held == p.sent + p.held && p'.flat == p.flat && p'.own == p.own)
    || (p.held == [] && p'.held + p'.flat == p.flat && p'.sent == p.sent && p'.own == p.own)
    || (p.held == [] && p.flat == [] && p' == Parts(p.sent + p.own, [], [], []))
  }

  lemma MovedLine(p: Parts, p': Parts)
    requires Moved(p, p')
    ensures Line(p') == Line(p)
  {
  }

  lemma FlatEnqueue(list: seq<Queued>, flip: Flip, pending: nat, all: bool)
    ensures Flat(Enqueue(list, flip, pending), all) == Pick(flip, all) + Flat(list, all)
  {
    assert Enqueue(list, flip, pending)[1..] == list;
  }

  lemma FlatDequeue(list: seq<Queued>, all: bool)
    requires list != [] && AllPositive(list)
    ensures var (list', done) := Dequeue(list);
            Flat(list, all) ==
              (if done.Some? then Pick(done.value.flip, all) + Ids(done.value.deferred, all) else []) + Flat(list', all)
  {
    if list[0].pending > 1 {
      assert Dequeue(list).0[1..] == list[1..];
    }
  }

  lemma Announces(s: State)
    requires Enabled(s, HandlerAnnounce)
    ensures Moved(PartsOf(s), PartsOf(ApplyHandler(s, HandlerAnnounce)))
  {
    var p, p' := PartsOf(s), PartsOf(ApplyHandler(s, HandlerAnnounce));
    assert p.held == Event(s.handler.main) + p'.held;
    Regroup(p.sent, Event(s.handler.main), p'.held);
    assert p'.sent + p'.held == p.sent + p.held;
  }

  lemma SendsDeferred(s: State)
    requires Enabled(s, HandlerDeferred)
    ensures Moved(PartsOf(s), PartsOf(ApplyHandler(s, HandlerDeferred)))
  {
    var p, p' := PartsOf(s), PartsOf(ApplyHandler(s, HandlerDeferred));
    assert p.held == Event(s.handler.rest[0]) + p'.held;
    Regroup(p.sent, Event(s.handler.rest[0]), p'.held);
    assert p'.sent + p'.held == p.sent + p.held;
  }

  lemma HandlerMoves(s: State, a: Action)
    requires Enabled(s, a) && !a.IsCommit()
    requires a.HandlerDequeue? ==> s.list != [] && AllPositive(s.list)
    ensures Moved(PartsOf(s), PartsOf(ApplyHandler(s, a)))
  {
    if a.HandlerDequeue? {
      FlatDequeue(s.list, false);
    } else if a.HandlerAnnounce? {
      Announces(s);
    } else if a.HandlerDeferred? {
      SendsDeferred(s);
    }
  }

  lemma CommitMoves(s: State, a: Action)
    requires Enabled(s, a) && !Inserts(s, a) && a.IsCommit() && !a.CommitBegin?
    requires NewestLast(s)
    ensures Moved(PartsOf(s), PartsOf(ApplyCommit(s, a)))
  {
  }

  /** An insertion splits the list's events in two and goes in between. */
  lemma StepInserts(s: State, a: Action) returns (front: seq<nat>, after: seq<nat>)
    requires Inserts(s, a)
    ensures var s' := ApplyCommit(s, a); var p, p' := PartsOf(s), PartsOf(s');
            && p.flat == front + after && p'.flat == front + (p.own + after) && p'.own == []
            && p'.sent == p.sent && p'.held == p.held && p.own == Event(s.committer.c.flip)
            && s'.jumped == (s.jumped || (p.own != [] && after != []))
  {
    if a.CommitEnqueue? {
      front, after := [], Flat(s.list, false);
      FlatEnqueue(s.list, s.committer.c.flip, s.committer.c.events, false);
    } else {
      front := FlatDefer(s.list, s.committer.c.flip, false);
      after := Ids(s.list[|s.list| - 1].deferred, false);
    }
  }

  /** Inserting the newest event keeps the order exactly when no event follows it. */
  lemma InsertNewest(a: seq<nat>, b: seq<nat>, x: nat)
    requires Below(a, x) && Below(b, x)
    ensures Increasing(a + ([x] + b)) <==> Increasing(a + b + [x]) && b == []
    ensures multiset(a + ([x] + b)) == multiset(a + b + [x])
  {
    if b != [] {
      assert (a + ([x] + b))[|a|] == x && (a + ([x] + b))[|a| + 1] == b[0];
    } else {
      assert a + ([x] + b) == a + b + [x];
    }
  }

  lemma BelowConcat(a: seq<nat>, b: seq<nat>, bound: nat)
    requires Below(a, bound) && Below(b, bound)
    ensures Below(a + b, bound)
  {
  }

  lemma BelowParts(a: seq<nat>, b: seq<nat>, bound: nat)
    requires Below(a + b, bound)
    ensures Below(a, bound) && Below(b, bound)
  {
    assert forall i :: 0 <= i < |a| ==> a[i] == (a + b)[i];
    assert forall i :: 0 <= i < |b| ==> b[i] == (a + b)[|a| + i];
  }

  lemma InsertedLine(p: Parts, p': Parts, front: seq<nat>, after: seq<nat>, flip: Flip)
    requires p.flat == front + after && p'.flat == front + (p.own + after) && p'.own == []
    requires p'.sent == p.sent && p'.held == p.held && p.own == Event(flip)
    requires AllBelow(p, flip.id)
    ensures multiset(Line(p')) == multiset(Line(p))
    ensures Increasing(Line(p')) <==> Increasing(Line(p)) && (p.own == [] || after == [])
  {
    var done := p.sent + p.held;
    var a := done + front;
    assert Line(p) == a + after + p.own;
    assert Line(p') == a + (p.own + after);
    if flip.wants {
      BelowParts(front, after, flip.id);
      BelowConcat(p.sent, p.held, flip.id);
      BelowConcat(done, front, flip.id);
      InsertNewest(a, after, flip.id);
    } else {
      assert Line(p') == Line(p);
    }
  }

  lemma AppendNewest(line: seq<nat>, e: seq<nat>, x: nat)
    requires Below(line, x) && (e == [] || e == [x])
    ensures Increasing(line + e) <==> Increasing(line)
    ensures multiset(line + e) == multiset(line) + multiset(e)
  {
    assert forall i :: 0 <= i < |line| ==> (line + e)[i] == line[i];
  }

  lemma PartsBegin(s: State, a: Action)
    requires a.CommitBegin? && Enabled(s, a) && !(a.nonblock && s.list != [])
    ensures var s', flip := ApplyCommit(s, a), Flip(s.nextId, a.wants);
            && PartsOf(s') == PartsOf(s).(own := Event(flip)) && PartsOf(s).own == []
            && s'.wanted == s.wanted + Event(flip) && s'.jumped == s.jumped
  {
  }

  lemma InLineBegins(s: State, a: Action)
    requires a.CommitBegin? && InLine(s) && NewestLast(s) && Enabled(s, a)
    ensures InLine(ApplyCommit(s, a))
  {
    if !(a.nonblock && s.list != []) {
      PartsBegin(s, a);
      BeginLine(PartsOf(s), s.wanted, s.jumped, Flip(s.nextId, a.wants));
    }
  }

  lemma InLineInserts(s: State, a: Action)
    requires InLine(s) && NewestLast(s) && Inserts(s, a)
    ensures InLine(ApplyCommit(s, a))
  {
    var front, after := StepInserts(s, a);
    InsertedLine(PartsOf(s), PartsOf(ApplyCommit(s, a)), front, after, s.committer.c.flip);
  }

  lemma InLineKept(s: State, a: Action)
    requires InLine(s) && Counted(s) && NewestLast(s) && Enabled(s, a)
    ensures InLine(Apply(s, a))
  {
    if a.CommitBegin? {
      InLineBegins(s, a);
    } else if Inserts(s, a) {
      InLineInserts(s, a);
    } else {
      StepMoves(s, a);
      MovedLine(PartsOf(s), PartsOf(Apply(s, a)));
    }
  }

  lemma StepMoves(s: State, a: Action)
    requires Counted(s) && NewestLast(s) && Enabled(s, a) && !Inserts(s, a) && !a.CommitBegin?
    ensures Moved(PartsOf(s), PartsOf(Apply(s, a)))
    ensures Apply(s, a).wanted == s.wanted && Apply(s, a).jumped == s.jumped
  {
    if a.IsCommit() {
      CommitMoves(s, a);
    } else {
      PositiveSum(s.list);
      HandlerMoves(s, a);
    }
  }

  lemma BeginLine(p: Parts, wanted: seq<nat>, jumped: bool, flip: Flip)
    requires p.own == [] && AllBelow(p, flip.id) && Below(wanted, flip.id) && Ordered(p, wanted, jumped)
    ensures Ordered(p.(own := Event(flip)), wanted + Event(flip), jumped)
  {
    var line := p.sent + p.held + p.flat;
    BelowConcat(p.sent, p.held, flip.id);
    BelowConcat(p.sent + p.held, p.flat, flip.id);
    assert Line(p) == line;
    AppendNewest(line, Event(flip), flip.id);
    AppendNewest(wanted, Event(flip), flip.id);
  }

  lemma MovedBelow(p: Parts, p': Parts, bound: nat)
    requires Moved(p, p') && AllBelow(p, bound) && Below(p.own, bound)
    ensures AllBelow(p', bound)
  {
    BelowConcat(p.sent, p.held, bound);
    if p'.sent + p'.held == p.sent + p.held {
      BelowParts(p'.sent, p'.held, bound);
    } else if p'.held + p'.flat == p.flat {
      BelowParts(p'.held, p'.flat, bound);
    } else {
      BelowConcat(p.sent, p.own, bound);
    }
  }

  lemma BelowWeaken(p: Parts, lo: nat, hi: nat)
    requires AllBelow(p, lo) && lo <= hi
    ensures AllBelow(p, hi)
  {
  }

  lemma InsertedBelow(p: Parts, p': Parts, front: seq<nat>, after: seq<nat>, flip: Flip, bound: nat)
    requires p.flat == front + after && p'.flat == front + (p.own + after)
    requires p'.sent == p.sent && p'.held == p.held && p.own == Event(flip)
    requires AllBelow(p, flip.id) && flip.id < bound
    ensures AllBelow(p', bound)
  {
    BelowWeaken(p, flip.id, bound);
    BelowParts(front, after, bound);
    BelowConcat(p.own, after, bound);
    BelowConcat(front, p.own + after, bound);
  }

  lemma CommitNewestLast(s: State, a: Action)
    requires NewestLast(s) && Enabled(s, a) && a.IsCommit()
    ensures NewestLast(ApplyCommit(s, a))
  {
    if Inserts(s, a) {
      InsertNewestLast(s, a);
    } else if a.CommitDeliver? {
      DeliverNewestLast(s);
    }
  }

  lemma InsertNewestLast(s: State, a: Action)
    requires NewestLast(s) && Inserts(s, a)
    ensures NewestLast(ApplyCommit(s, a))
  {
    var front, after := StepInserts(s, a);
    InsertedBelow(PartsOf(s), PartsOf(ApplyCommit(s, a)), front, after, s.committer.c.flip, s.nextId);
  }

  lemma DeliverNewestLast(s: State)
    requires NewestLast(s) && Enabled(s, CommitDeliver)
    ensures NewestLast(ApplyCommit(s, CommitDeliver))
  {
    var p := PartsOf(s);
    BelowWeaken(p, s.committer.c.flip.id, s.nextId);
    BelowConcat(p.sent, p.own, s.nextId);
  }

  lemma HandlerNewestLast(s: State, a: Action)
    requires NewestLast(s) && Enabled(s, a) && !a.IsCommit()
    requires a.HandlerDequeue? ==> s.list != [] && AllPositive(s.list)
    ensures NewestLast(ApplyHandler(s, a))
  {
    HandlerMoves(s, a);
    HandlerBelow(PartsOf(s), PartsOf(ApplyHandler(s, a)), Bound(s));
  }

  lemma HandlerBelow(p: Parts, p': Parts, bound: nat)
    requires Moved(p, p') && AllBelow(p, bound) && p'.own == p.own
    ensures AllBelow(p', bound)
  {
    if p.held == [] && p.flat == [] && p' == Parts(p.sent + p.own, [], [], []) {
      assert p' == p;
    }
    MovedBelow(p.(own := []), p'.(own := []), bound);
  }

  // -------------------------------------------------------------- ownership

  function Hit(flip: Flip, id: nat): (n: nat) {
    if flip.id == id then 1 else 0
  }

  function Hits(flips: seq<Flip>, id: nat): (n: nat) {
    if flips == [] then 0 else Hit(flips[0], id) + Hits(flips[1..], id)
  }

  /** Occurrences of the flip object on the flip list and on the deferred lists. */
  function ListHits(list: seq<Queued>, id: nat): (n: nat) {
    if list == [] then 0 else Hit(list[0].flip, id) + Hits(list[0].deferred, id) + ListHits(list[1..], id)
  }

  function HandlerHits(h: Handler, id: nat): (n: nat) {
    if h.Sending? then Hit(h.main, id) + Hits(h.rest, id) else 0
  }

  function StateHits(c: Committer, id: nat): (n: nat) {
    if Holds(c) then Hit(c.c.flip, id) else 0
  }

  function ProposedHits(s: State, id: nat): (n: nat) {
    One(s.committer.Duplicated? && id == s.nextId)
  }

  /** How many owners the flip object has: freed, handler, lists, CRTC state, proposed state. */
  function Owners(s: State, id: nat): (n: nat) {
    s.freed[id] + HandlerHits(s.handler, id) + ListHits(s.list, id) + StateHits(s.committer, id) + ProposedHits(s, id)
  }

  /** Whether the flip has been allocated. */
  predicate Allocated(s: State, id: nat) {
    id < s.nextId || (s.committer.Duplicated? && id == s.nextId)
  }

  predicate Owned(s: State, id: nat) {
    Owners(s, id) == One(Allocated(s, id))
  }

  lemma {:induction false} HitsConcat(a: seq<Queued>, b: seq<Queued>, id: nat)
    ensures ListHits(a + b, id) == ListHits(a, id) + ListHits(b, id)
  {
    if a == [] {
      assert a + b == b;
    } else {
      assert (a + b)[1..] == a[1..] + b;
      HitsConcat(a[1..], b, id);
    }
  }

  lemma HitsDefer(list: seq<Queued>, flip: Flip, id: nat)
    requires list != []
    ensures ListHits(Defer(list, flip), id) == ListHits(list, id) + Hit(flip, id)
  {
    var front, last := list[..|list| - 1], list[|list| - 1];
    var last' := last.(deferred := [flip] + last.deferred);
    assert list == front + [last] && Defer(list, flip) == front + [last'];
    HitsConcat(front, [last], id);
    HitsConcat(front, [last'], id);
    assert last'.deferred[1..] == last.deferred;
  }

  lemma HitsEnqueue(list: seq<Queued>, flip: Flip, pending: nat, id: nat)
    ensures ListHits(Enqueue(list, flip, pending), id) == ListHits(list, id) + Hit(flip, id)
  {
    assert Enqueue(list, flip, pending)[1..] == list;
  }

  lemma InsertOwned(s: State, a: Action, id: nat)
    requires Owned(s, id) && Inserts(s, a)
    ensures Owned(ApplyCommit(s, a), id)
  {
    if a.CommitEnqueue? {
      HitsEnqueue(s.list, s.committer.c.flip, s.committer.c.events, id);
      assert ApplyCommit(s, a).list == Enqueue(s.list, s.committer.c.flip, s.committer.c.events);
    } else {
      HitsDefer(s.list, s.committer.c.flip, id);
      assert ApplyCommit(s, a).list == Defer(s.list, s.committer.c.flip);
    }
  }

  lemma CommitOwned(s: State, a: Action, id: nat)
    requires Owned(s, id) && Enabled(s, a) && a.IsCommit()
    ensures Owned(ApplyCommit(s, a), id)
  {
    if Inserts(s, a) {
      InsertOwned(s, a, id);
    } else {
      assert ApplyCommit(s, a).list == s.list;
    }
  }

  lemma HandlerOwned(s: State, a: Action, id: nat)
    requires Owned(s, id) && Enabled(s, a) && !a.IsCommit()
    requires a.HandlerDequeue? ==> s.list != [] && AllPositive(s.list)
    ensures Owned(ApplyHandler(s, a), id)
  {
    if a.HandlerDequeue? && s.list[0].pending > 1 {
      assert Dequeue(s.list).0[1..] == s.list[1..];
    }
  }

  // ------------------------------------------------------------- discipline

  /** If no wait timed out and no event-generating commit began with a non-empty
  list, the list holds at most one flip and at most one commit is deferred. */
  predicate Calm(s: State) {
    !s.timedOut && !s.crowded ==>
      && !s.jumped
      && |s.list| <= 1
      && (s.list != [] && s.list[0].deferred != [] ==> s.committer.Ending? && !s.committer.c.nonblock)
      && (s.committer.Swapped? && (s.committer.c.events > 0 || s.committer.c.nonblock) ==> s.list == [])
      && ((s.committer.Enqueued? || s.committer.Applied?) && s.committer.c.nonblock && s.committer.c.events == 0 ==>
            s.list == [])
  }

  lemma CalmKept(s: State, a: Action)
    requires Calm(s) && Enabled(s, a)
    ensures Calm(Apply(s, a))
  {
  }

  // --------------------------------------------------------------- theorems

  predicate Inv(s: State) {
    Counted(s) && NewestLast(s) && InLine(s) && Calm(s)
  }

  lemma InvKept(s: State, a: Action)
    requires Inv(s) && Enabled(s, a)
    ensures Inv(Apply(s, a))
  {
    if a.IsCommit() {
      CommitCounted(s, a);
      CommitNewestLast(s, a);
    } else {
      PositiveSum(s.list);
      HandlerCounted(s, a);
      HandlerNewestLast(s, a);
    }
    InLineKept(s, a);
    CalmKept(s, a);
  }

  lemma InvAtStart()
    ensures Inv(START)
  {
    assert PartsOf(START) == Parts([], [], [], []);
    assert Line(Parts([], [], [], [])) == [];
    assert Ordered(Parts([], [], [], []), [], false);
  }

  lemma {:induction false} InvAlways(run: seq<State>, acts: seq<Action>, k: nat)
    requires Trace(run, acts) && k < |run|
    ensures Inv(run[k])
  {
    if k == 0 {
      InvAtStart();
    } else {
      InvAlways(run, acts, k - 1);
      InvKept(run[k - 1], acts[k - 1]);
    }
  }

  /** Every queued flip waits for at least one event, together they wait for
  exactly the hardware events promised and not yet handled (and those of a flip
  queued just before the hardware is programmed), so an event never finds the
  list empty. */
  lemma EveryEventFindsItsFlip(run: seq<State>, acts: seq<Action>, k: nat)
    requires Trace(run, acts) && k < |run|
    ensures var s := run[k];
            && AllPositive(s.list)
            && Sum(s.list) == s.promised + Unapplied(s.committer)
            && (s.handler.Locked? ==> s.list != [])
            && !s.warned
  {
    InvAlways(run, acts, k);
    PositiveSum(run[k].list);
  }

  lemma OwnedKept(s: State, a: Action, id: nat)
    requires Owned(s, id) && Enabled(s, a)
    requires AllPositive(s.list) && (s.handler.Locked? ==> s.list != [])
    ensures Owned(Apply(s, a), id)
  {
    if a.IsCommit() {
      CommitOwned(s, a, id);
    } else {
      HandlerOwned(s, a, id);
    }
  }

  /** Each flip object allocated, also for a commit that is refused or only tested, has
  exactly one owner at every step: a proposed state, the CRTC state, the list, one
  deferred list, the handler, or none since it was freed once. */
  lemma {:induction false} OneOwner(run: seq<State>, acts: seq<Action>, k: nat, id: nat)
    requires Trace(run, acts) && k < |run|
    ensures Owners(run[k], id) == One(Allocated(run[k], id))
  {
    if k > 0 {
      OneOwner(run, acts, k - 1, id);
      EveryEventFindsItsFlip(run, acts, k - 1);
      OwnedKept(run[k - 1], acts[k - 1], id);
    }
  }

  predicate Drained(s: State) {
    s.promised == 0 && s.committer.Idle? && s.handler.Off?
  }

  lemma DrainedLine(s: State)
    requires Inv(s) && Drained(s)
    ensures s.list == [] && Line(PartsOf(s)) == s.sent
  {
    PositiveSum(s.list);
  }

  /** No event is sent twice or unasked; once no events are outstanding every
  event asked for has been sent exactly once and every flip object is freed. */
  lemma SentExactlyOnce(run: seq<State>, acts: seq<Action>, k: nat, id: nat)
    requires Trace(run, acts) && k < |run|
    ensures var s := run[k];
            && multiset(s.sent)[id] <= multiset(s.wanted)[id] <= 1
            && (Drained(s) ==> multiset(s.sent) == multiset(s.wanted) && s.list == []
                               && s.freed[id] == if id < s.nextId then 1 else 0)
  {
    InvAlways(run, acts, k);
    OneOwner(run, acts, k, id);
    var s := run[k];
    IncreasingOnce(s.wanted, id);
    SentInLine(PartsOf(s), id);
    if Drained(s) {
      DrainedLine(s);
    }
  }

  lemma SentInLine(p: Parts, id: nat)
    ensures multiset(p.sent)[id] <= multiset(Line(p))[id]
  {
  }

  lemma {:induction false} IncreasingOnce(xs: seq<nat>, x: nat)
    requires Increasing(xs)
    ensures multiset(xs)[x] <= 1
  {
    if xs != [] {
      var front, last := xs[..|xs| - 1], xs[|xs| - 1];
      assert xs == front + [last];
      IncreasingOnce(front, x);
      assert last !in front;
    }
  }

  /** The step puts a flip that wants an event in front of an earlier one that still
  does: it is queued on a list in which some flip, queued or deferred, wants an event,
  or deferred onto a flip behind which one is already deferred that wants an event. */
  predicate Overtakes(s: State, a: Action) {
    || (&& a.CommitEnqueue? && s.committer.Swapped? && s.committer.c.events > 0 && s.committer.c.flip.wants
        && Flat(s.list, false) != [])
    || (&& a.CommitDefer? && s.committer.Applied? && s.committer.c.events == 0 && s.committer.c.flip.wants
        && s.list != [] && Ids(s.list[|s.list| - 1].deferred, false) != [])
  }

  lemma {:induction false} JumpedIff(run: seq<State>, acts: seq<Action>, k: nat)
    requires Trace(run, acts) && k < |run|
    ensures run[k].jumped <==> exists i :: 0 <= i < k && Overtakes(run[i], acts[i])
  {
    if k > 0 {
      JumpedIff(run, acts, k - 1);
      JumpedStep(run[k - 1], acts[k - 1]);
    }
  }

  lemma JumpedStep(s: State, a: Action)
    requires Enabled(s, a)
    ensures Apply(s, a).jumped == (s.jumped || Overtakes(s, a))
  {
  }

  /** Once nothing is outstanding, the events have been sent in commit order if and only
  if no step of the run overtook. */
  lemma CommitOrderIff(run: seq<State>, acts: seq<Action>, k: nat)
    requires Trace(run, acts) && k < |run| && Drained(run[k])
    ensures run[k].sent == run[k].wanted <==> forall i :: 0 <= i < k ==> !Overtakes(run[i], acts[i])
  {
    JumpedIff(run, acts, k);
    InvAlways(run, acts, k);
    DrainedLine(run[k]);
    if !run[k].jumped {
      SameOrder(run[k].sent, run[k].wanted);
    }
  }

  lemma LastIsMost(xs: seq<nat>, x: nat)
    requires Increasing(xs) && x in multiset(xs)
    ensures xs != [] && x <= xs[|xs| - 1]
  {
  }

  lemma DropLast(xs: seq<nat>)
    requires xs != [] && Increasing(xs)
    ensures Increasing(xs[..|xs| - 1]) && multiset(xs[..|xs| - 1]) == multiset(xs) - multiset{xs[|xs| - 1]}
  {
    assert xs == xs[..|xs| - 1] + [xs[|xs| - 1]];
  }

  lemma Rejoin(xs: seq<nat>, ys: seq<nat>)
    requires xs != [] && ys != []
    requires xs[..|xs| - 1] == ys[..|ys| - 1] && xs[|xs| - 1] == ys[|ys| - 1]
    ensures xs == ys
  {
    assert xs == xs[..|xs| - 1] + [xs[|xs| - 1]] && ys == ys[..|ys| - 1] + [ys[|ys| - 1]];
  }

  /** Two increasing sequences of the same numbers are equal. */
  lemma {:induction false} SameOrder(xs: seq<nat>, ys: seq<nat>)
    requires Increasing(xs) && Increasing(ys) && multiset(xs) == multiset(ys)
    ensures xs == ys
  {
    if xs == [] {
      assert |multiset(ys)| == 0;
    } else {
      var x := xs[|xs| - 1];
      assert x in multiset(ys);
      LastIsMost(ys, x);
      var y := ys[|ys| - 1];
      assert y in multiset(ys);
      LastIsMost(xs, y);
      DropLast(xs);
      DropLast(ys);
      SameOrder(xs[..|xs| - 1], ys[..|ys| - 1]);
      Rejoin(xs, ys);
    }
  }

  /** At every moment the events sent are in commit order, if no wait timed out
  and every event-generating commit began with an empty list. */
  lemma CommitOrder(run: seq<State>, acts: seq<Action>, k: nat)
    requires Trace(run, acts) && k < |run|
    requires !run[k].timedOut && !run[k].crowded
    ensures Increasing(run[k].sent)
    ensures Drained(run[k]) ==> run[k].sent == run[k].wanted
  {
    InvAlways(run, acts, k);
    var p := PartsOf(run[k]);
    assert forall i :: 0 <= i < |p.sent| ==> p.sent[i] == Line(p)[i];
    if Drained(run[k]) {
      JumpedIff(run, acts, k);
      CommitOrderIff(run, acts, k);
    }
  }

  /** A commit is refused if and only if it must not block and flips are queued; a refused
  one changes nothing. */
  lemma BusyIff(run: seq<State>, acts: seq<Action>, i: nat)
    requires Trace(run, acts) && i < |acts| && acts[i].CommitBegin?
    ensures run[i + 1].committer.Duplicated? <==> acts[i].nonblock && run[i].list != []
    ensures run[i + 1].committer.Duplicated? ==> run[i + 1] == run[i]
    ensures var flip := Flip(run[i].nextId, acts[i].wants);
            run[i + 1].committer.Duplicated?
            || run[i + 1].committer == Swapped(Commit(flip, acts[i].events, acts[i].nonblock))
  {
  }

  /** When a blocking commit ends without a timeout, every event asked for so far, its own
  included, has been sent, or the handler is just sending it. */
  lemma BlockingCommitDone(run: seq<State>, acts: seq<Action>, i: nat)
    requires Trace(run, acts) && i < |acts| && acts[i] == CommitEnd(false) && !run[i].committer.c.nonblock
    ensures multiset(run[i].wanted) == multiset(run[i].sent) + multiset(HeldByHandler(run[i].handler, false))
  {
    InvAlways(run, acts, i);
    var p := PartsOf(run[i]);
    assert p.flat == [] && p.own == [];
    assert Line(p) == p.sent + p.held;
  }

  // ---------------------------------------------- a run out of commit order

  predicate StepTo(s: State, a: Action, s': State) {
    Enabled(s, a) && Apply(s, a) == s'
  }

  ghost predicate LeadsTo(run: seq<State>, acts: seq<Action>, s: State) {
    Path(StepTo, run, acts) && run[0] == START && run[|acts|] == s
  }

  const FIRST := Commit(Flip(0, true), 1, true)
  const SECOND := Commit(Flip(1, true), 1, false)

  /** The first commit, which does not block, has queued its flip. */
  function FirstQueued(): (s: State) {
    START.(list := [Queued(Flip(0, true), 1, [])], committer := Enqueued(FIRST), nextId := 1, wanted := [0])
  }

  /** It has programmed the hardware and is over. */
  function FirstOver(): (s: State) {
    FirstQueued().(promised := 1, committer := Idle)
  }

  /** The second, blocking, commit has queued its flip in front of the first. */
  function SecondQueued(): (s: State) {
    FirstOver().(list := [Queued(Flip(1, true), 1, []), Queued(Flip(0, true), 1, [])], committer := Enqueued(SECOND),
                 nextId := 2, wanted := [0, 1], crowded := true, jumped := true)
  }

  /** It waits for the list to drain while the handler takes an event. */
  function SecondWaits(): (s: State) {
    SecondQueued().(promised := 2, committer := Ending(SECOND), handler := Locked)
  }

  /** That event completed the second commit. */
  function SecondSent(): (s: State) {
    SecondWaits().(list := [Queued(Flip(0, true), 1, [])], promised := 1, handler := Off,
                   sent := [1], freed := multiset{1})
  }

  function FirstSent(): (s: State) {
    SecondSent().(list := [], promised := 0, handler := Sending(Flip(0, true), true, []), sent := [1, 0])
  }

  function AllSent(): (s: State) {
    FirstSent().(handler := Off, committer := Idle, freed := multiset{1, 0})
  }

  lemma FirstQueues(run: seq<State>, acts: seq<Action>) returns (run': seq<State>, acts': seq<Action>)
    requires LeadsTo(run, acts, START)
    ensures LeadsTo(run', acts', FirstQueued())
  {
    var s1 := START.(committer := Duplicated);
    var s2 := START.(committer := Swapped(FIRST), nextId := 1, wanted := [0]);
    run', acts' := Extend3(
      StepTo, run, acts, Duplicate, s1, CommitBegin(true, 1, true), s2, CommitEnqueue, FirstQueued());
  }

  lemma FirstEnds(run: seq<State>, acts: seq<Action>) returns (run': seq<State>, acts': seq<Action>)
    requires LeadsTo(run, acts, FirstQueued())
    ensures LeadsTo(run', acts', FirstOver())
  {
    var s1 := FirstOver().(committer := Applied(FIRST));
    var s2 := FirstOver().(committer := Ending(FIRST));
    run', acts' := Extend3(StepTo, run, acts, CommitApply, s1, CommitDefer, s2, CommitEnd(false), FirstOver());
  }

  lemma SecondQueues(run: seq<State>, acts: seq<Action>) returns (run': seq<State>, acts': seq<Action>)
    requires LeadsTo(run, acts, FirstOver())
    ensures LeadsTo(run', acts', SecondQueued())
  {
    var s1 := FirstOver().(committer := Duplicated);
    var s2 := FirstOver().(committer := Swapped(SECOND), nextId := 2, wanted := [0, 1], crowded := true);
    run', acts' := Extend3(
      StepTo, run, acts, Duplicate, s1, CommitBegin(false, 1, true), s2, CommitEnqueue, SecondQueued());
  }

  lemma SecondStartsToWait(run: seq<State>, acts: seq<Action>) returns (run': seq<State>, acts': seq<Action>)
    requires LeadsTo(run, acts, SecondQueued())
    ensures LeadsTo(run', acts', SecondWaits())
  {
    var s1 := SecondQueued().(promised := 2, committer := Applied(SECOND));
    var s2 := s1.(committer := Ending(SECOND));
    run', acts' := Extend3(StepTo, run, acts, CommitApply, s1, CommitDefer, s2, HandlerLock, SecondWaits());
  }

  lemma SecondIsSent(run: seq<State>, acts: seq<Action>) returns (run': seq<State>, acts': seq<Action>)
    requires LeadsTo(run, acts, SecondWaits())
    ensures LeadsTo(run', acts', SecondSent())
  {
    var s1 := SecondSent().(handler := Sending(Flip(1, true), false, []), sent := [], freed := multiset{});
    var s2 := SecondSent().(handler := Sending(Flip(1, true), true, []), freed := multiset{});
    run', acts' := Extend3(StepTo, run, acts, HandlerDequeue, s1, HandlerAnnounce, s2, HandlerUnlock, SecondSent());
  }

  lemma FirstIsSent(run: seq<State>, acts: seq<Action>) returns (run': seq<State>, acts': seq<Action>)
    requires LeadsTo(run, acts, SecondSent())
    ensures LeadsTo(run', acts', FirstSent())
  {
    var s1 := SecondSent().(handler := Locked);
    var s2 := FirstSent().(handler := Sending(Flip(0, true), false, []), sent := [1]);
    run', acts' := Extend3(StepTo, run, acts, HandlerLock, s1, HandlerDequeue, s2, HandlerAnnounce, FirstSent());
  }

  lemma AllEnds(run: seq<State>, acts: seq<Action>) returns (run': seq<State>, acts': seq<Action>)
    requires LeadsTo(run, acts, FirstSent())
    ensures LeadsTo(run', acts', AllSent())
  {
    var s1 := AllSent().(committer := Ending(SECOND));
    run', acts' := Extend(StepTo, run, acts, HandlerUnlock, s1);
    run', acts' := Extend(StepTo, run', acts', CommitEnd(false), AllSent());
  }

  lemma IsTrace(run: seq<State>, acts: seq<Action>)
    requires Path(StepTo, run, acts) && run[0] == START
    ensures Trace(run, acts)
  {
    forall i | 0 <= i < |acts| ensures Enabled(run[i], acts[i]) && run[i + 1] == Apply(run[i], acts[i]) {
      assert StepTo(run[i], acts[i], run[i + 1]);
    }
  }

  /** The order is not kept in general: a blocking commit does not wait for
  earlier flips before it queues its own, and the list is served from the front,
  so the later of two commits is announced first.  No wait times out in this run. */
  lemma LaterCommitAnnouncedFirst() returns (run: seq<State>, acts: seq<Action>)
    ensures Trace(run, acts)
    ensures var s := run[|acts|];
            Drained(s) && s.wanted == [0, 1] && s.sent == [1, 0] && !s.timedOut && s.crowded
  {
    run, acts := [START], [];
    run, acts := FirstQueues(run, acts);
    run, acts := FirstEnds(run, acts);
    run, acts := SecondQueues(run, acts);
    run, acts := SecondStartsToWait(run, acts);
    run, acts := SecondIsSent(run, acts);
    run, acts := FirstIsSent(run, acts);
    run, acts := AllEnds(run, acts);
    IsTrace(run, acts);
  }
}
