/** The range tree of a VA space as a map from addresses to owners.

Each operation of VaRanges works on vmas with exclusive ends and ranges with
inclusive ends, cutting, marking and removing ranges.  Here each is compared with
what it means for one address at a time, and for the vmas. */
module AddressMap {

  import opened Common
  import opened VaRanges

  /** Who owns an address, if anyone. */
  function OwnerAt(rs: seq<Range>, a: nat): (o: Option<Owner>) {
    match Find(rs, a)
    case None => None
    case Some(i) => Some(rs[i].owner)
  }

  lemma OwnerIs(rs: seq<Range>, a: nat, r: Range)
    requires Sorted(rs) && r in rs && r.start <= a <= r.end
    ensures OwnerAt(rs, a) == Some(r.owner)
  {
    var i :| 0 <= i < |rs| && rs[i] == r;
    assert Find(rs, a).Some?;
    Unique(rs, r, rs[Find(rs, a).value], a);
  }

  lemma NoOwner(rs: seq<Range>, a: nat)
    requires forall r :: r in rs ==> !(r.start <= a <= r.end)
    ensures OwnerAt(rs, a).None?
  {
  }

  /** Two trees have the same owner at an address if the same range is there. */
  lemma SameOwner(rs: seq<Range>, rs': seq<Range>, a: nat)
    requires Sorted(rs) && Sorted(rs')
    requires forall r: Range :: r.start <= a <= r.end ==> (r in rs <==> r in rs')
    ensures OwnerAt(rs', a) == OwnerAt(rs, a)
  {
    if r :| r in rs && r.start <= a <= r.end {
      OwnerIs(rs, a, r);
      OwnerIs(rs', a, r);
    } else {
      NoOwner(rs, a);
      NoOwner(rs', a);
    }
  }

  ghost predicate Vacant(rs: seq<Range>, lo: int, hi: int) {
    forall a: nat :: lo <= a <= hi ==> OwnerAt(rs, a).None?
  }

  lemma VacantIsFree(rs: seq<Range>, lo: nat, hi: nat)
    requires Sorted(rs) && lo <= hi
    ensures Free(rs, lo, hi) <==> Vacant(rs, lo, hi)
  {
    if !Free(rs, lo, hi) {
      var i :| 0 <= i < |rs| && Overlaps(rs[i], lo, hi);
      var a := if rs[i].start < lo then lo else rs[i].start;
      OwnerIs(rs, a, rs[i]);
    } else {
      forall a: nat | lo <= a <= hi ensures OwnerAt(rs, a).None? {
        forall r | r in rs ensures !(r.start <= a <= r.end) {
          var i :| 0 <= i < |rs| && rs[i] == r;
        }
      }
    }
  }

  // ------------------------------------------------------------------ range tree

  /** The ranges that meet an interval lie within it. */
  predicate Within(rs: seq<Range>, lo: int, hi: int) {
    forall r :: r in rs && Overlaps(r, lo, hi) ==> lo <= r.start && r.end <= hi
  }

  lemma WithoutAt(rs: seq<Range>, lo: int, hi: int, a: nat)
    requires Sorted(rs)
    requires Within(rs, lo, hi)
    ensures OwnerAt(Without(rs, lo, hi), a) == if lo <= a <= hi then None else OwnerAt(rs, a)
  {
    WithoutIs(rs, lo, hi);
    if lo <= a <= hi {
      assert forall r :: r in rs && r.start <= a <= r.end ==> Overlaps(r, lo, hi);
    } else {
      SameOwner(rs, Without(rs, lo, hi), a);
    }
  }

  lemma MarkAt(rs: seq<Range>, lo: int, hi: int, owner: Owner, a: nat)
    requires Sorted(rs)
    requires Within(rs, lo, hi)
    ensures OwnerAt(Mark(rs, lo, hi, owner), a)
         == if lo <= a <= hi && OwnerAt(rs, a).Some? then Some(owner) else OwnerAt(rs, a)
  {
    var rs' := Mark(rs, lo, hi, owner);
    MarkIs(rs, lo, hi, owner);
    if r :| r in rs && r.start <= a <= r.end {
      OwnerIs(rs, a, r);
      OwnerIs(rs', a, Marked(r, lo, hi, owner));
    } else {
      forall r' | r' in rs' ensures !(r'.start <= a <= r'.end) {
        var r :| r in rs && r' == Marked(r, lo, hi, owner);
      }
    }
  }

  lemma InsertAt(rs: seq<Range>, r: Range, a: nat)
    requires Sorted(rs) && WellFormed(r) && Free(rs, r.start, r.end)
    ensures OwnerAt(Insert(rs, r), a) == if r.start <= a <= r.end then Some(r.owner) else OwnerAt(rs, a)
  {
    InsertIs(rs, r);
    if r.start <= a <= r.end {
      OwnerIs(Insert(rs, r), a, r);
    } else {
      SameOwner(rs, Insert(rs, r), a);
    }
  }

  lemma CutAtChangesNothing(rs: seq<Range>, i: nat, newEnd: nat, a: nat)
    requires Sorted(rs) && i < |rs| && rs[i].start <= newEnd < rs[i].end && Aligned(newEnd + 1)
    ensures OwnerAt(SplitAt(rs, i, newEnd), a) == OwnerAt(rs, a)
  {
    var rs' := SplitAt(rs, i, newEnd);
    SplitIs(rs, i, newEnd);
    if r :| r in rs && r.start <= a <= r.end {
      OwnerIs(rs, a, r);
      OwnerIs(rs', a, if r != rs[i] then r
                      else if a <= newEnd then r.(end := newEnd) else r.(start := newEnd + 1));
    } else {
      assert rs[i] in rs && !(rs[i].start <= a <= rs[i].end);
    }
  }

  lemma NoZombiesAt(rs: seq<Range>, a: nat)
    requires Sorted(rs)
    ensures OwnerAt(NoZombies(rs), a) == if OwnerAt(rs, a) == Some(Zombie) then None else OwnerAt(rs, a)
  {
    NoZombiesIs(rs);
    if r :| r in rs && r.start <= a <= r.end {
      OwnerIs(rs, a, r);
      if r.owner.Zombie? {
        forall x | x in NoZombies(rs) ensures !(x.start <= a <= x.end) {
          if x.start <= a <= x.end {
            Unique(rs, x, r, a);
          }
        }
        NoOwner(NoZombies(rs), a);
      } else {
        OwnerIs(NoZombies(rs), a, r);
      }
    } else {
      NoOwner(rs, a);
      NoOwner(NoZombies(rs), a);
    }
  }

  // ------------------------------------------------------------------ operations

  /** The addresses of a vma. */
  predicate In(v: Vma, a: nat) {
    v.start <= a < v.end
  }

  lemma EnabledWithin(s: State, v: nat)
    requires Inv(s) && v in s.vmas && s.vmas[v].ops.Managed?
    ensures Within(s.ranges, s.vmas[v].start, s.vmas[v].end - 1)
  {
    TiledExactly(s, v);
  }

  lemma EnabledOwns(s: State, v: nat, a: nat)
    requires Inv(s) && v in s.vmas && s.vmas[v].ops.Managed? && In(s.vmas[v], a)
    ensures OwnerAt(s.ranges, a) == Some(Wrapper(s.vmas[v].wrapper.value))
  {
    var o := Wrapper(s.vmas[v].wrapper.value);
    assert Covered(s.ranges, a, o);
    var r :| r in s.ranges && Contains(r, a) && r.owner == o;
    OwnerIs(s.ranges, a, r);
  }

  lemma DestroyRanges(s: State, v: nat, zombie: bool)
    requires v in s.vmas
    ensures var lo, hi := s.vmas[v].start, s.vmas[v].end - 1;
            DestroyVma(s, v, zombie).ranges ==
              if zombie then Mark(s.ranges, lo, hi, Zombie) else Without(s.ranges, lo, hi)
  {
  }

  lemma CloseIs(s: State, v: nat, zombie: bool)
    requires Linked(s) && v in s.vmas
    ensures var s' := Apply(s, Close(v, zombie));
            && s'.vmas == s.vmas - {v}
            && s'.ranges == if s.vmas[v].ops.Managed? then DestroyVma(s, v, zombie).ranges else s.ranges
  {
  }

  /** A close frees exactly the addresses of an enabled vma, or on process teardown in
  multi-process mode leaves exactly those to zombies; a disabled vma has none. */
  lemma CloseAt(s: State, v: nat, zombie: bool, a: nat)
    requires Inv(s) && v in s.vmas
    ensures var s' := Apply(s, Close(v, zombie));
            && s'.vmas == s.vmas - {v}
            && OwnerAt(s'.ranges, a) ==
                 if !s.vmas[v].ops.Managed? || !In(s.vmas[v], a) then OwnerAt(s.ranges, a)
                 else if zombie then Some(Zombie) else None
  {
    CloseIs(s, v, zombie);
    var vma := s.vmas[v];
    if vma.ops.Managed? {
      DestroyRanges(s, v, zombie);
      EnabledWithin(s, v);
      if In(vma, a) {
        EnabledOwns(s, v, a);
      }
      if zombie {
        MarkAt(s.ranges, vma.start, vma.end - 1, Zombie, a);
      } else {
        WithoutAt(s.ranges, vma.start, vma.end - 1, a);
      }
    }
  }

  /** Whether a managed mmap can work: memory, no suspend, and nobody at its addresses. */
  ghost predicate MmapWorks(s: State, op: Op)
    requires op.Mmap?
  {
    !op.pmBusy && op.gotWrapper && op.gotRange && Vacant(s.ranges, op.start, op.end - 1)
  }

  /** An mmap that works makes a new enabled vma with one range; one during a suspend
  makes a disabled vma; any other changes no vma. */
  lemma MmapVmas(s: State, op: Op)
    requires Linked(s) && Sorted(s.ranges) && op.Mmap? && Enabled(s, op)
    ensures var s' := Apply(s, op);
            && (MmapWorks(s, op) ==>
                  && op.v in s'.vmas
                  && s'.vmas[op.v] == Vma(op.start, op.end, op.mm, Managed, Some(s.nextWrapper))
                  && s'.ranges == Insert(s.ranges, Range(op.start, op.end - 1, Wrapper(s.nextWrapper))))
            && (op.pmBusy ==> op.v in s'.vmas && s'.vmas[op.v] == Vma(op.start, op.end, op.mm, Disabled, None))
            && (!MmapWorks(s, op) ==> s'.ranges == s.ranges && (!op.pmBusy ==> s'.vmas == s.vmas))
            && s'.vmas - {op.v} == s.vmas
  {
    VacantIsFree(s.ranges, op.start, op.end - 1);
  }

  /** It gives the new vma exactly the addresses asked for, and changes no other. */
  lemma MmapAt(s: State, op: Op, a: nat)
    requires Linked(s) && Sorted(s.ranges) && op.Mmap? && Enabled(s, op)
    ensures OwnerAt(Apply(s, op).ranges, a) == if MmapWorks(s, op) && op.start <= a < op.end
                                               then Some(Wrapper(s.nextWrapper)) else OwnerAt(s.ranges, a)
  {
    MmapVmas(s, op);
    if MmapWorks(s, op) {
      VacantIsFree(s.ranges, op.start, op.end - 1);
      InsertAt(s.ranges, Range(op.start, op.end - 1, Wrapper(s.nextWrapper)), a);
    }
  }

  /** Someone's range reaches across the boundary. */
  predicate Spanned(rs: seq<Range>, at: nat) {
    exists r :: r in rs && r.start < at <= r.end
  }

  /** Whether a split of an enabled vma can work. */
  predicate SplitWorks(s: State, op: Op)
    requires op.Split?
  {
    op.gotWrapper && (Spanned(s.ranges, op.at) ==> op.gotSplit)
  }

  lemma SpannedIs(s: State, op: Op, i: nat)
    requires Inv(s) && op.Split? && op.at > 0 && i < |s.ranges| && Contains(s.ranges[i], op.at - 1)
    ensures Spanned(s.ranges, op.at) <==> NeedsCut(s.ranges[i], op.at)
  {
    assert s.ranges[i] in s.ranges;
    if r :| r in s.ranges && r.start < op.at <= r.end {
      Unique(s.ranges, r, s.ranges[i], op.at - 1);
    }
  }

  /** rs is the tree after the cut at the boundary, if one was needed: nothing reaches
  across the boundary, and no address has another owner. */
  ghost predicate AfterCut(s: State, op: Op, rs: seq<Range>)
    requires op.Split? && op.v in s.vmas
  {
    CutAt(s, rs, s.vmas[op.v], op.at) && forall a: nat :: OwnerAt(rs, a) == OwnerAt(s.ranges, a)
  }

  lemma PieceWithin(s: State, op: Op, rs: seq<Range>)
    requires Linked(s) && op.Split? && Enabled(s, op) && s.vmas[op.v].ops.Managed?
    requires CutAt(s, rs, s.vmas[op.v], op.at)
    ensures var piece := Piece(s.vmas[op.v], op.at, op.below); Within(rs, piece.start, piece.end - 1)
  {
    var vma := s.vmas[op.v];
    forall r | r in rs && Overlaps(r, vma.start, vma.end - 1) ensures vma.start <= r.start && r.end <= vma.end - 1 {
      OnlyOwnRanges(rs, vma, r);
      assert Owned(s, r);
    }
  }

  lemma SharedAt(s: State, op: Op, rs: seq<Range>, a: nat)
    requires Linked(s) && op.Split? && Enabled(s, op) && s.vmas[op.v].ops.Managed?
    requires CutAt(s, rs, s.vmas[op.v], op.at)
    ensures OwnerAt(SplitDone(s, op, rs).ranges, a) ==
              if In(Piece(s.vmas[op.v], op.at, op.below), a) && OwnerAt(rs, a).Some?
              then Some(Wrapper(s.nextWrapper)) else OwnerAt(rs, a)
  {
    var piece := Piece(s.vmas[op.v], op.at, op.below);
    PieceWithin(s, op, rs);
    MarkAt(rs, piece.start, piece.end - 1, Wrapper(s.nextWrapper), a);
  }

  /** The vmas of a split, with the new one below or above. */
  ghost predicate SplitVmas(s: State, op: Op, s': State, enabled: bool)
    requires op.Split? && op.v in s.vmas
  {
    var lower, upper := if op.below then op.child else op.v, if op.below then op.v else op.child;
    && lower in s'.vmas && upper in s'.vmas
    && s'.vmas[lower].start == s.vmas[op.v].start && s'.vmas[lower].end == op.at
    && s'.vmas[upper].start == op.at && s'.vmas[upper].end == s.vmas[op.v].end
    && (s'.vmas[lower].ops.Managed? <==> enabled) && (s'.vmas[upper].ops.Managed? <==> enabled)
    && forall u :: u != op.v && u != op.child ==>
         (u in s'.vmas <==> u in s.vmas) && (u in s.vmas ==> s'.vmas[u] == s.vmas[u])
  }

  lemma VmasOfSplit(s: State, op: Op, rs: seq<Range>)
    requires op.Split? && Linked(s) && Enabled(s, op) && s.vmas[op.v].ops.Managed?
    ensures SplitVmas(s, op, SplitFailed(s, op), false) && SplitVmas(s, op, SplitDone(s, op, rs), true)
  {
  }

  lemma CutOwners(rs: seq<Range>, i: nat, at: nat, rs': seq<Range>)
    requires Sorted(rs) && at > 0 && Aligned(at) && i < |rs| && rs[i].start <= at - 1 < rs[i].end
    requires rs' == SplitAt(rs, i, at - 1)
    ensures forall a: nat :: OwnerAt(rs', a) == OwnerAt(rs, a)
  {
    forall a: nat ensures OwnerAt(rs', a) == OwnerAt(rs, a) {
      CutAtChangesNothing(rs, i, at - 1, a);
    }
  }

  lemma CutResult(s: State, op: Op, i: nat) returns (rs: seq<Range>)
    requires Inv(s) && op.Split? && Enabled(s, op) && s.vmas[op.v].ops.Managed?
    requires i < |s.ranges| && Contains(s.ranges[i], op.at - 1) && NeedsCut(s.ranges[i], op.at)
    ensures rs == SplitAt(s.ranges, i, op.at - 1) && AfterCut(s, op, rs)
  {
    rs := SplitAt(s.ranges, i, op.at - 1);
    CutIsCut(s, s.vmas[op.v], op.at, i);
    CutOwners(s.ranges, i, op.at, rs);
  }

  lemma SplitResult(s: State, op: Op) returns (rs: seq<Range>)
    requires Inv(s) && op.Split? && Enabled(s, op) && s.vmas[op.v].ops.Managed?
    ensures AfterCut(s, op, rs)
    ensures Apply(s, op) == if SplitWorks(s, op) then SplitDone(s, op, rs) else SplitFailed(s, op)
  {
    var i := SplitIsEither(s, op);
    SpannedIs(s, op, i);
    if NeedsCut(s.ranges[i], op.at) {
      rs := CutResult(s, op, i);
    } else {
      rs := s.ranges;
      UncutIsCut(s, s.vmas[op.v], op.at, i);
    }
  }

  /** A split that works leaves both sides enabled vmas and gives the addresses of the
  new one to its own wrapper; one that fails disables both and frees the addresses of
  both; and no other address and no other vma changes. */
  lemma SplitAtAddress(s: State, op: Op, a: nat)
    requires Inv(s) && op.Split? && Enabled(s, op) && s.vmas[op.v].ops.Managed?
    ensures SplitVmas(s, op, Apply(s, op), SplitWorks(s, op))
    ensures OwnerAt(Apply(s, op).ranges, a) ==
              if !In(s.vmas[op.v], a) then OwnerAt(s.ranges, a)
              else if !SplitWorks(s, op) then None
              else if op.below <==> a < op.at then Some(Wrapper(s.nextWrapper))
              else Some(Wrapper(s.vmas[op.v].wrapper.value))
  {
    var rs := SplitResult(s, op);
    VmasOfSplit(s, op, rs);
    if In(s.vmas[op.v], a) {
      EnabledOwns(s, op.v, a);
    }
    if SplitWorks(s, op) {
      SharedAt(s, op, rs, a);
    } else {
      EnabledWithin(s, op.v);
      WithoutAt(s.ranges, s.vmas[op.v].start, s.vmas[op.v].end - 1, a);
    }
  }

  /** Forks, moves and policy splits change no address; an external range is added where
  there is room; cleaning up frees exactly the addresses of zombies. */
  lemma OthersAt(s: State, op: Op, a: nat)
    requires Inv(s) && Enabled(s, op)
    requires op.Fork? || op.Move? || op.PolicySplit? || op.CreateExternal? || op.CleanUpZombies?
    ensures OwnerAt(Apply(s, op).ranges, a) ==
              match op
              case CreateExternal(start, end) =>
                if Vacant(s.ranges, start, end) && start <= a <= end then Some(External) else OwnerAt(s.ranges, a)
              case CleanUpZombies => if OwnerAt(s.ranges, a) == Some(Zombie) then None else OwnerAt(s.ranges, a)
              case _ => OwnerAt(s.ranges, a)
  {
    match op {
      case Fork(_, _, _) => CopyKeeps(s, op);
      case Move(_, _, _, _) => CopyKeeps(s, op);
      case PolicySplit(at, gotSplit) => PolicyAt(s, at, gotSplit, a);
      case CreateExternal(start, end) =>
        VacantIsFree(s.ranges, start, end);
        if Free(s.ranges, start, end) {
          InsertAt(s.ranges, Range(start, end, External), a);
        }
      case CleanUpZombies => NoZombiesAt(s.ranges, a);
    }
  }

  /** After a policy split with memory, no managed range reaches across the address; no
  owner changes. */
  lemma PolicyAt(s: State, at: nat, gotSplit: bool, a: nat)
    requires Inv(s) && Aligned(at) && at > 0
    ensures OwnerAt(ApplyPolicySplit(s, at, gotSplit).ranges, a) == OwnerAt(s.ranges, a)
    ensures gotSplit ==>
              forall r :: r in ApplyPolicySplit(s, at, gotSplit).ranges && r.start < at <= r.end ==> r.owner.External?
    ensures ApplyPolicySplit(s, at, gotSplit).vmas == s.vmas
  {
    var found := Find(s.ranges, at);
    if found.Some? {
      var i := found.value;
      if at != s.ranges[i].start && !s.ranges[i].owner.External? && gotSplit {
        CutAtChangesNothing(s.ranges, i, at - 1, a);
        SplitIs(s.ranges, i, at - 1);
      }
      forall r | r in s.ranges && r.start < at <= r.end ensures r == s.ranges[i] {
        Unique(s.ranges, r, s.ranges[i], at);
      }
    } else {
      forall r | r in s.ranges ensures !(r.start < at <= r.end) {
        var j :| 0 <= j < |s.ranges| && s.ranges[j] == r;
      }
    }
  }

  /** In any run, the addresses of an enabled vma can be mapped again as soon as it is
  closed without leaving zombies. */
  lemma MappedAgain(ops: seq<Op>, v: nat, op: Op)
    requires Valid(START, ops) && v in After(START, ops).vmas && After(START, ops).vmas[v].ops.Managed?
    requires op.Mmap? && op.v !in After(START, ops).vmas && !op.pmBusy && op.gotWrapper && op.gotRange
    requires op.start == After(START, ops).vmas[v].start && op.end == After(START, ops).vmas[v].end
    requires Aligned(op.start) && Aligned(op.end)
    ensures var s := After(START, ops);
            && Linked(s) && Linked(Apply(s, Close(v, false))) && Enabled(Apply(s, Close(v, false)), op)
            && var s' := Apply(Apply(s, Close(v, false)), op);
               && op.v in s'.vmas && s'.vmas[op.v].ops.Managed? && ExactlyTiled(s'.ranges, s'.vmas[op.v])
  {
    InvAlways(START, ops);
    var s := After(START, ops);
    var s1 := Apply(s, Close(v, false));
    CloseKeeps(s, v, false);
    forall a: nat ensures op.start <= a < op.end ==> OwnerAt(s1.ranges, a).None? {
      CloseAt(s, v, false, a);
    }
    MmapVmas(s1, op);
    MmapKeeps(s1, op);
    TiledExactly(Apply(s1, op), op.v);
  }
}
