/** Managed vmas and the VA ranges under them.

The kernel opens, splits, moves and closes vmas (exclusive end); the driver keeps
VA ranges (inclusive end) in a tree so that every enabled managed vma is exactly
covered by ranges that point back to it through a wrapper.  A split that fails
gives up both halves rather than leave a range partly covered.  Every operation
runs with the VA space lock held for writing. */
module VaRanges {

  import opened Common

  const PAGE_SIZE := 4096

  /** What a range belongs to: a managed range whose wrapper is w, a managed
  range whose process has gone, or a range of another type. */
  datatype Owner = Wrapper(w: nat) | Zombie | External

  /** A node of the range tree; end is inclusive. */
  datatype Range = Range(start: nat, end: nat, owner: Owner)

  datatype VmOps = Managed | Disabled

  /** A vma; end is exclusive.  wrapper is vm_private_data. */
  datatype Vma = Vma(start: nat, end: nat, mm: nat, ops: VmOps, wrapper: Option<nat>)

  /** The VA space: the range tree in address order, the vmas on the file, and
  the wrappers, each pointing to its vma, with a record of those destroyed. */
  datatype State = State(
    ranges: seq<Range>,
    vmas: map<nat, Vma>,
    wrappers: map<nat, nat>,
    destroyed: multiset<nat>,
    nextWrapper: nat)

  const START := State([], map[], map[], multiset{}, 0)

  predicate Aligned(a: nat) {
    a % PAGE_SIZE == 0
  }

  predicate Contains(r: Range, a: int) {
    r.start <= a <= r.end
  }

  predicate Overlaps(r: Range, lo: int, hi: int) {
    r.start <= hi && lo <= r.end
  }

  // ------------------------------------------------- range tree operations

  /** uvm_va_range_find: where the range containing a is. */
  function Find(rs: seq<Range>, a: nat): (r: Option<nat>)
    ensures r.Some? ==> r.value < |rs| && Contains(rs[r.value], a)
    ensures r.None? ==> forall i :: 0 <= i < |rs| ==> !Contains(rs[i], a)
  {
    if rs == [] then None
    else if Contains(rs[0], a) then Some(0)
    else match Find(rs[1..], a) case None => None case Some(i) => Some(i + 1)
  }

  /** uvm_range_tree_split: the new range comes after the existing one and has the same owner. */
  function SplitAt(rs: seq<Range>, i: nat, newEnd: nat): (r: seq<Range>)
    requires i < |rs|
  {
    rs[..i] + [rs[i].(end := newEnd), rs[i].(start := newEnd + 1)] + rs[i + 1..]
  }

  /** The ranges that do not meet [lo, hi]. */
  function Without(rs: seq<Range>, lo: int, hi: int): (r: seq<Range>) {
    if rs == [] then []
    else (if Overlaps(rs[0], lo, hi) then [] else [rs[0]]) + Without(rs[1..], lo, hi)
  }

  /** The ranges that meet [lo, hi] get a new owner. */
  function Mark(rs: seq<Range>, lo: int, hi: int, owner: Owner): (r: seq<Range>) {
    seq(|rs|, i requires 0 <= i < |rs| => if Overlaps(rs[i], lo, hi) then rs[i].(owner := owner) else rs[i])
  }

  /** uvm_range_tree_add of a range that meets no other. */
  function Insert(rs: seq<Range>, r: Range): (r': seq<Range>) {
    if rs == [] || r.end < rs[0].start then [r] + rs else [rs[0]] + Insert(rs[1..], r)
  }

  predicate Free(rs: seq<Range>, lo: int, hi: int) {
    forall i :: 0 <= i < |rs| ==> !Overlaps(rs[i], lo, hi)
  }

  /** Total size of the ranges that meet [lo, hi]. */
  function SizeIn(rs: seq<Range>, lo: int, hi: int): (n: int) {
    if rs == [] then 0
    else (if Overlaps(rs[0], lo, hi) then rs[0].end - rs[0].start + 1 else 0) + SizeIn(rs[1..], lo, hi)
  }

  // -------------------------------------------------------------- callbacks

  function Disable(v: Vma): (r: Vma) {
    v.(ops := Disabled, wrapper := None)
  }

  function DropWrapper(s: State, w: nat): (r: State) {
    s.(wrappers := s.wrappers - {w}, destroyed := s.destroyed + multiset{w})
  }

  /** uvm_destroy_vma_managed: the vma's ranges are destroyed, or left as zombies, and its wrapper is destroyed. */
  function DestroyVma(s: State, v: nat, zombie: bool): (r: State)
    requires v in s.vmas
  {
    var vma := s.vmas[v];
    var rs := if zombie then Mark(s.ranges, vma.start, vma.end - 1, Zombie)
              else Without(s.ranges, vma.start, vma.end - 1);
    var s1 := s.(ranges := rs, vmas := s.vmas[v := vma.(wrapper := None)]);
    if vma.wrapper.Some? then DropWrapper(s1, vma.wrapper.value) else s1
  }

  /** uvm_disable_vma, for a vma the kernel is inserting as number v. */
  function DisableVma(s: State, v: nat, vma: Vma): (r: State) {
    var s1 := s.(vmas := s.vmas[v := Disable(vma)]);
    if vma.wrapper.Some? then DropWrapper(s1, vma.wrapper.value) else s1
  }

  /** uvm_vm_open_failure. */
  function OpenFailure(s: State, original: nat, child: nat, vma: Vma): (r: State)
    requires original in s.vmas
  {
    var s1 := DestroyVma(s, original, false);
    var s2 := DisableVma(s1, original, s1.vmas[original]);
    DisableVma(s2, child, vma)
  }

  /** uvm_vm_open_managed for the vma the kernel made as a copy of a managed one. */
  function Open(s: State, child: nat, vma: Vma, gotWrapper: bool, gotSplit: bool): (r: State)
    requires vma.wrapper.Some? && vma.wrapper.value in s.wrappers && s.wrappers[vma.wrapper.value] in s.vmas
    requires vma.start < vma.end
  {
    var original := s.wrappers[vma.wrapper.value];
    var parent := s.vmas[original];
    var vma0 := vma.(wrapper := None);
    if vma.mm != parent.mm || (vma.start != parent.start && vma.end != parent.end) then DisableVma(s, child, vma0)
    else if !gotWrapper then OpenFailure(s, original, child, vma0)
    else
      var newEnd: int := if vma.start == parent.start then vma.end - 1 else vma.start - 1;
      var w := s.nextWrapper;
      var vma1 := vma.(wrapper := Some(w));
      var s1 := s.(wrappers := s.wrappers[w := child], nextWrapper := w + 1);
      OpenSplit(s1, original, child, vma1, newEnd, gotSplit)
  }

  /** The part of uvm_vm_open_managed after the wrapper was allocated. */
  function OpenSplit(s: State, original: nat, child: nat, vma: Vma, newEnd: int, gotSplit: bool): (r: State)
    requires original in s.vmas && vma.wrapper.Some? && vma.start < vma.end
  {
    var found := if newEnd < 0 then None else Find(s.ranges, newEnd);
    if found.None? then s.(vmas := s.vmas[child := vma])
    else if s.ranges[found.value].end != newEnd && !gotSplit then OpenFailure(s, original, child, vma)
    else
      var rs := if s.ranges[found.value].end != newEnd then SplitAt(s.ranges, found.value, newEnd) else s.ranges;
      s.(ranges := Mark(rs, vma.start, vma.end - 1, Wrapper(vma.wrapper.value)), vmas := s.vmas[child := vma])
  }

  // ------------------------------------------------------------------- runs

  datatype Op =
    | Mmap(v: nat, start: nat, end: nat, mm: nat, pmBusy: bool, gotWrapper: bool, gotRange: bool)
    | Fork(v: nat, child: nat, mm: nat)
    | Move(v: nat, child: nat, start: nat, end: nat)
    | Split(v: nat, child: nat, at: nat, below: bool, gotWrapper: bool, gotSplit: bool)
    | Close(v: nat, zombie: bool)
    | PolicySplit(at: nat, gotSplit: bool)
    | CreateExternal(start: nat, end: nat)
    | CleanUpZombies

  /** What the kernel guarantees about its calls. */
  predicate Enabled(s: State, op: Op) {
    match op
    case Mmap(v, start, end, _, _, _, _) => v !in s.vmas && start < end && Aligned(start) && Aligned(end)
    case Fork(v, child, mm) => v in s.vmas && child !in s.vmas && mm != s.vmas[v].mm
    case Move(v, child, start, end) =>
      && v in s.vmas && child !in s.vmas && start < end && Aligned(start) && Aligned(end)
      && (end <= s.vmas[v].start || s.vmas[v].end <= start)
    case Split(v, child, at, _, _, _) =>
      v in s.vmas && child !in s.vmas && Aligned(at) && s.vmas[v].start < at < s.vmas[v].end
    case Close(v, _) => v in s.vmas
    case PolicySplit(at, _) => Aligned(at) && at > 0
    case CreateExternal(start, end) => start <= end && Aligned(start) && Aligned(end + 1)
    case CleanUpZombies => true
  }

  /** A copy of vma v made by the kernel; a disabled vma has no open callback. */
  function CopyVma(s: State, v: nat, child: nat, vma: Vma, gotWrapper: bool, gotSplit: bool): (r: State)
    requires Linked(s) && v in s.vmas
    requires vma.start < vma.end && vma.ops == s.vmas[v].ops && vma.wrapper == s.vmas[v].wrapper
  {
    if vma.ops.Disabled? then s.(vmas := s.vmas[child := vma])
    else Open(s, child, vma, gotWrapper, gotSplit)
  }

  function ApplySplit(s: State, op: Op): (r: State)
    requires op.Split? && Linked(s) && Enabled(s, op)
  {
    var vma := s.vmas[op.v];
    var piece := if op.below then vma.(end := op.at) else vma.(start := op.at);
    var s1 := CopyVma(s, op.v, op.child, piece, op.gotWrapper, op.gotSplit);
    // afterwards the kernel shrinks the original
    if op.v !in s1.vmas then s1
    else s1.(vmas := s1.vmas[op.v := if op.below then s1.vmas[op.v].(start := op.at) else s1.vmas[op.v].(end := op.at)])
  }

  function ApplyMmap(s: State, op: Op): (r: State)
    requires op.Mmap? && Enabled(s, op)
  {
    if op.pmBusy then s.(vmas := s.vmas[op.v := Vma(op.start, op.end, op.mm, Disabled, None)])
    else if !op.gotWrapper then s
    else
      var w := s.nextWrapper;
      if !op.gotRange || !Free(s.ranges, op.start, op.end - 1) then
        s.(nextWrapper := w + 1, destroyed := s.destroyed + multiset{w})
      else
        s.(ranges := Insert(s.ranges, Range(op.start, op.end - 1, Wrapper(w))),
           vmas := s.vmas[op.v := Vma(op.start, op.end, op.mm, Managed, Some(w))],
           wrappers := s.wrappers[w := op.v], nextWrapper := w + 1)
  }

  function ApplyPolicySplit(s: State, at: nat, gotSplit: bool): (r: State)
    requires at > 0
  {
    match Find(s.ranges, at)
    case None => s
    case Some(i) =>
      if at == s.ranges[i].start || s.ranges[i].owner.External? || !gotSplit then s
      else s.(ranges := SplitAt(s.ranges, i, at - 1))
  }

  function NoZombies(rs: seq<Range>): (r: seq<Range>) {
    if rs == [] then []
    else (if rs[0].owner.Zombie? then [] else [rs[0]]) + NoZombies(rs[1..])
  }

  function Apply(s: State, op: Op): (r: State)
    requires Linked(s) && Enabled(s, op)
  {
    match op
    case Mmap(_, _, _, _, _, _, _) => ApplyMmap(s, op)
    case Fork(v, child, mm) => CopyVma(s, v, child, s.vmas[v].(mm := mm), true, true)
    case Move(v, child, start, end) => CopyVma(s, v, child, s.vmas[v].(start := start, end := end), true, true)
    case Split(_, _, _, _, _, _) => ApplySplit(s, op)
    case Close(v, zombie) =>
      var s1 := if s.vmas[v].ops.Managed? then DestroyVma(s, v, zombie) else s;
      s1.(vmas := s1.vmas - {v})
    case PolicySplit(at, gotSplit) => ApplyPolicySplit(s, at, gotSplit)
    case CreateExternal(start, end) =>
      if Free(s.ranges, start, end) then s.(ranges := Insert(s.ranges, Range(start, end, External))) else s
    case CleanUpZombies => s.(ranges := NoZombies(s.ranges))
  }

  // ------------------------------------------------------------- invariants

  /** Wrappers and enabled managed vmas point to each other. */
  predicate Linked(s: State) {
    && (forall v :: v in s.vmas ==> s.vmas[v].start < s.vmas[v].end)
    && (forall v :: v in s.vmas ==> (s.vmas[v].ops.Managed? <==> s.vmas[v].wrapper.Some?))
    && (forall v :: v in s.vmas && s.vmas[v].ops.Managed? ==>
          s.vmas[v].wrapper.value in s.wrappers && s.wrappers[s.vmas[v].wrapper.value] == v)
    && (forall w :: w in s.wrappers ==>
          s.wrappers[w] in s.vmas && s.vmas[s.wrappers[w]].wrapper == Some(w))
  }

  /** Every wrapper ever allocated is live or was destroyed exactly once. */
  predicate Accounted(s: State) {
    && (forall w :: w in s.wrappers ==> w < s.nextWrapper && s.destroyed[w] == 0)
    && (forall w :: 0 <= w < s.nextWrapper && w !in s.wrappers ==> s.destroyed[w] == 1)
    && (forall w :: w in s.destroyed ==> w < s.nextWrapper)
  }

  predicate WellFormed(r: Range) {
    r.start <= r.end && Aligned(r.start) && Aligned(r.end + 1)
  }

  predicate Sorted(rs: seq<Range>) {
    && (forall i :: 0 <= i < |rs| ==> WellFormed(rs[i]))
    && (forall i, j :: 0 <= i < j < |rs| ==> rs[i].end < rs[j].start)
  }

  ghost predicate Covered(rs: seq<Range>, a: int, o: Owner) {
    exists r :: r in rs && Contains(r, a) && r.owner == o
  }

  predicate Inside(r: Range, v: Vma) {
    v.start <= r.start && r.end < v.end
  }

  /** Every address of the vma lies in a range that belongs to it. */
  ghost predicate Tiled(rs: seq<Range>, v: Vma) {
    v.wrapper.Some? ==> forall a :: v.start <= a < v.end ==> Covered(rs, a, Wrapper(v.wrapper.value))
  }

  /** A range that belongs to a wrapper lies within that wrapper's vma. */
  predicate Owned(s: State, r: Range) {
    r.owner.Wrapper? ==>
      r.owner.w in s.wrappers && s.wrappers[r.owner.w] in s.vmas && Inside(r, s.vmas[s.wrappers[r.owner.w]])
  }

  ghost predicate Covering(s: State) {
    && Sorted(s.ranges)
    && (forall r :: r in s.ranges ==> Owned(s, r))
    && (forall v :: v in s.vmas ==> Tiled(s.ranges, s.vmas[v]))
  }

  ghost predicate Inv(s: State) {
    Linked(s) && Accounted(s) && Covering(s)
  }

  // -------------------------------------------------------- range sequences

  /** Sorted ranges do not share addresses. */
  lemma Unique(rs: seq<Range>, r1: Range, r2: Range, a: int)
    requires Sorted(rs) && r1 in rs && r2 in rs && Contains(r1, a) && Contains(r2, a)
    ensures r1 == r2
  {
    var i :| 0 <= i < |rs| && rs[i] == r1;
    var j :| 0 <= j < |rs| && rs[j] == r2;
  }

  lemma TailSorted(rs: seq<Range>)
    requires Sorted(rs) && rs != []
    ensures Sorted(rs[1..])
    ensures forall r :: r in rs[1..] ==> rs[0].end < r.start
    ensures forall r :: r in rs <==> r == rs[0] || r in rs[1..]
  {
  }

  lemma ConsSorted(r: Range, rest: seq<Range>)
    requires WellFormed(r) && Sorted(rest) && forall x :: x in rest ==> r.end < x.start
    ensures Sorted([r] + rest)
    ensures forall x :: x in [r] + rest <==> x == r || x in rest
  {
  }

  lemma {:induction false} WithoutIs(rs: seq<Range>, lo: int, hi: int)
    requires Sorted(rs)
    ensures Sorted(Without(rs, lo, hi))
    ensures forall r :: r in Without(rs, lo, hi) <==> r in rs && !Overlaps(r, lo, hi)
  {
    if rs != [] {
      TailSorted(rs);
      WithoutIs(rs[1..], lo, hi);
      ConsSorted(rs[0], Without(rs[1..], lo, hi));
    }
  }

  lemma {:induction false} NoZombiesIs(rs: seq<Range>)
    requires Sorted(rs)
    ensures Sorted(NoZombies(rs))
    ensures forall r :: r in NoZombies(rs) <==> r in rs && !r.owner.Zombie?
  {
    if rs != [] {
      TailSorted(rs);
      NoZombiesIs(rs[1..]);
      ConsSorted(rs[0], NoZombies(rs[1..]));
    }
  }

  lemma {:induction false} InsertIs(rs: seq<Range>, r: Range)
    requires Sorted(rs) && WellFormed(r) && Free(rs, r.start, r.end)
    ensures Sorted(Insert(rs, r))
    ensures forall x :: x in Insert(rs, r) <==> x in rs || x == r
  {
    if rs != [] {
      TailSorted(rs);
      assert !Overlaps(rs[0], r.start, r.end);
    }
    if rs == [] || r.end < rs[0].start {
      ConsSorted(r, rs);
    } else {
      InsertIs(rs[1..], r);
      ConsSorted(rs[0], Insert(rs[1..], r));
    }
  }

  function Marked(r: Range, lo: int, hi: int, owner: Owner): (r': Range) {
    if Overlaps(r, lo, hi) then r.(owner := owner) else r
  }

  lemma MarkIs(rs: seq<Range>, lo: int, hi: int, owner: Owner)
    requires Sorted(rs)
    ensures Sorted(Mark(rs, lo, hi, owner))
    ensures forall r :: r in rs ==> Marked(r, lo, hi, owner) in Mark(rs, lo, hi, owner)
    ensures forall r' :: r' in Mark(rs, lo, hi, owner) ==> exists r :: r in rs && r' == Marked(r, lo, hi, owner)
  {
    var rs' := Mark(rs, lo, hi, owner);
    assert forall i :: 0 <= i < |rs| ==> rs'[i] == Marked(rs[i], lo, hi, owner);
  }

  lemma SplitElements(rs: seq<Range>, i: nat, newEnd: nat)
    requires i < |rs|
    ensures var rs' := SplitAt(rs, i, newEnd);
            && |rs'| == |rs| + 1
            && (forall k :: 0 <= k < i ==> rs'[k] == rs[k])
            && rs'[i] == rs[i].(end := newEnd) && rs'[i + 1] == rs[i].(start := newEnd + 1)
            && (forall k :: i + 2 <= k < |rs'| ==> rs'[k] == rs[k - 1])
  {
  }

  lemma SplitSorted(rs: seq<Range>, i: nat, newEnd: nat)
    requires Sorted(rs) && i < |rs| && rs[i].start <= newEnd < rs[i].end && Aligned(newEnd + 1)
    ensures Sorted(SplitAt(rs, i, newEnd))
  {
    SplitElements(rs, i, newEnd);
  }

  /** Splitting a range in the middle keeps the order and replaces it by its two pieces. */
  lemma SplitIs(rs: seq<Range>, i: nat, newEnd: nat)
    requires Sorted(rs) && i < |rs| && rs[i].start <= newEnd < rs[i].end && Aligned(newEnd + 1)
    ensures Sorted(SplitAt(rs, i, newEnd))
    ensures forall r :: r in SplitAt(rs, i, newEnd) <==>
              (r in rs && r != rs[i]) || r == rs[i].(end := newEnd) || r == rs[i].(start := newEnd + 1)
  {
    SplitSorted(rs, i, newEnd);
    assert forall r :: r in rs[..i] || r in rs[i + 1..] <==> r in rs && r != rs[i] by {
      assert rs == rs[..i] + [rs[i]] + rs[i + 1..];
      assert forall k :: 0 <= k < |rs| && k != i ==> rs[k] != rs[i];
    }
  }

  lemma SplitCovers(rs: seq<Range>, i: nat, newEnd: nat, a: int, o: Owner)
    requires Sorted(rs) && i < |rs| && rs[i].start <= newEnd < rs[i].end && Aligned(newEnd + 1)
    requires Covered(rs, a, o)
    ensures Covered(SplitAt(rs, i, newEnd), a, o)
  {
    SplitIs(rs, i, newEnd);
    var r :| r in rs && Contains(r, a) && r.owner == o;
    if r == rs[i] {
      var piece := if a <= newEnd then r.(end := newEnd) else r.(start := newEnd + 1);
      assert piece in SplitAt(rs, i, newEnd) && Contains(piece, a);
    }
  }

  /** Inside an enabled vma there are only its own ranges (asserted when ranges are
  repointed or destroyed). */
  lemma OnlyOwnRanges(rs: seq<Range>, v: Vma, r: Range)
    requires Sorted(rs) && v.wrapper.Some? && v.start < v.end && Tiled(rs, v)
    requires r in rs && Overlaps(r, v.start, v.end - 1)
    ensures r.owner == Wrapper(v.wrapper.value)
  {
    var a := if r.start < v.start then v.start else r.start;
    assert Covered(rs, a, Wrapper(v.wrapper.value));
    var r2 :| r2 in rs && Contains(r2, a) && r2.owner == Wrapper(v.wrapper.value);
    Unique(rs, r, r2, a);
  }

  /** The ranges of a tiled vma add up to its size (asserted at close). */
  lemma {:induction false} TilesAddUp(rs: seq<Range>, lo: int, hi: int, o: Owner)
    requires Sorted(rs) && 0 <= lo <= hi + 1
    requires forall a :: lo <= a <= hi ==> Covered(rs, a, o)
    requires forall r :: r in rs && Overlaps(r, lo, hi) ==> lo <= r.start && r.end <= hi
    ensures SizeIn(rs, lo, hi) == hi - lo + 1
  {
    if rs == [] {
      var first := Covered(rs, lo, o);
    } else {
      assert rs[0] in rs;
      if Overlaps(rs[0], lo, hi) {
        assert Covered(rs, lo, o);
        FirstTile(rs, lo, o);
        var next := rs[0].end + 1;
        TailCovers(rs, next, hi, o);
        TilesAddUp(rs[1..], next, hi, o);
        SameSize(rs[1..], lo, next, hi);
      } else {
        if lo <= hi && rs[0].start > hi {
          assert Covered(rs, lo, o);
          FirstTile(rs, lo, o);
        }
        TailCovers(rs, lo, hi, o);
        TilesAddUp(rs[1..], lo, hi, o);
      }
    }
  }

  /** The lowest covered address is covered by the first range that reaches it. */
  lemma FirstTile(rs: seq<Range>, a: int, o: Owner)
    requires Sorted(rs) && rs != [] && Covered(rs, a, o) && a <= rs[0].end
    ensures Contains(rs[0], a)
  {
    var r :| r in rs && Contains(r, a) && r.owner == o;
    var i :| 0 <= i < |rs| && rs[i] == r;
  }

  lemma TailCovers(rs: seq<Range>, lo: int, hi: int, o: Owner)
    requires Sorted(rs) && rs != [] && (rs[0].end < lo || lo > hi)
    requires forall a :: lo <= a <= hi ==> Covered(rs, a, o)
    ensures forall a :: lo <= a <= hi ==> Covered(rs[1..], a, o)
  {
    forall a | lo <= a <= hi ensures Covered(rs[1..], a, o) {
      assert Covered(rs, a, o);
      var r :| r in rs && Contains(r, a) && r.owner == o;
      assert r in rs[1..];
    }
  }

  lemma {:induction false} SameSize(rs: seq<Range>, lo: int, next: int, hi: int)
    requires lo <= next && forall i :: 0 <= i < |rs| ==> rs[i].start >= next
    requires forall i :: 0 <= i < |rs| ==> rs[i].start <= rs[i].end
    ensures SizeIn(rs, lo, hi) == SizeIn(rs, next, hi)
  {
    if rs != [] {
      SameSize(rs[1..], lo, next, hi);
    }
  }

  // ---------------------------------------------------------- preservation

  /** The part of a vma the kernel copies to the new vma, and the part it leaves. */
  function Piece(v: Vma, at: nat, below: bool): (r: Vma) {
    if below then v.(end := at) else v.(start := at)
  }

  function Remainder(v: Vma, at: nat, below: bool): (r: Vma) {
    if below then v.(start := at) else v.(end := at)
  }

  /** Both halves of a split that failed are disabled and the original's ranges are gone. */
  function SplitFailed(s: State, op: Op): (r: State)
    requires op.Split? && Linked(s) && Enabled(s, op) && s.vmas[op.v].ops.Managed?
  {
    var vma := s.vmas[op.v];
    var w := vma.wrapper.value;
    State(Without(s.ranges, vma.start, vma.end - 1),
          s.vmas[op.child := Disable(Piece(vma, op.at, op.below))][op.v := Disable(Remainder(vma, op.at, op.below))],
          s.wrappers - {w},
          s.destroyed + multiset{w} + if op.gotWrapper then multiset{s.nextWrapper} else multiset{},
          s.nextWrapper + if op.gotWrapper then 1 else 0)
  }

  /** A split that worked: the ranges rs, cut at the boundary, on the child's side point to the child. */
  function SplitDone(s: State, op: Op, rs: seq<Range>): (r: State)
    requires op.Split? && Enabled(s, op)
  {
    var vma := s.vmas[op.v];
    var piece := Piece(vma, op.at, op.below);
    s.(ranges := Mark(rs, piece.start, piece.end - 1, Wrapper(s.nextWrapper)),
       vmas := s.vmas[op.child := piece.(wrapper := Some(s.nextWrapper))][op.v := Remainder(vma, op.at, op.below)],
       wrappers := s.wrappers[s.nextWrapper := op.child], nextWrapper := s.nextWrapper + 1)
  }

  predicate NeedsCut(r: Range, at: nat) {
    r.end != at - 1
  }

  lemma PagesApart(a: nat, b: nat)
    requires Aligned(a) && Aligned(b) && a < b
    ensures a < b - 1
  {
  }

  lemma BoundaryIn(rs: seq<Range>, vma: Vma, at: nat) returns (i: nat)
    requires Sorted(rs) && Tiled(rs, vma) && vma.wrapper.Some?
    requires Aligned(at) && vma.start < at < vma.end
    ensures Find(rs, at - 1) == Some(i) && i < |rs|
    ensures rs[i].owner == Wrapper(vma.wrapper.value)
    ensures NeedsCut(rs[i], at) ==> rs[i].start < at - 1 < rs[i].end
  {
    assert Covered(rs, at - 1, Wrapper(vma.wrapper.value));
    var r :| r in rs && Contains(r, at - 1) && r.owner == Wrapper(vma.wrapper.value);
    i := Find(rs, at - 1).value;
    Unique(rs, rs[i], r, at - 1);
    PagesApart(rs[i].start, at);
  }

  /** The asserted range at the boundary exists, belongs to the original, and can be cut there. */
  lemma BoundaryRange(s: State, v: nat, at: nat) returns (i: nat)
    requires Inv(s) && v in s.vmas && s.vmas[v].ops.Managed?
    requires Aligned(at) && s.vmas[v].start < at < s.vmas[v].end
    ensures Find(s.ranges, at - 1) == Some(i) && i < |s.ranges|
    ensures s.ranges[i].owner == Wrapper(s.vmas[v].wrapper.value)
    ensures NeedsCut(s.ranges[i], at) ==> s.ranges[i].start < at - 1 < s.ranges[i].end
  {
    i := BoundaryIn(s.ranges, s.vmas[v], at);
  }

  lemma FailureIs(s: State, v: nat, child: nat, piece: Vma)
    requires v in s.vmas && s.vmas[v].wrapper.Some? && child != v
    requires piece.wrapper.Some? ==> piece.wrapper.value != s.vmas[v].wrapper.value
    ensures var vma := s.vmas[v];
            var gone := {vma.wrapper.value} + if piece.wrapper.Some? then {piece.wrapper.value} else {};
            OpenFailure(s, v, child, piece) ==
              State(Without(s.ranges, vma.start, vma.end - 1), s.vmas[v := Disable(vma)][child := Disable(piece)],
                    s.wrappers - gone, s.destroyed + multiset(gone), s.nextWrapper)
  {
    var vma := s.vmas[v];
    var s1 := DestroyVma(s, v, false);
    assert s1.vmas[v].wrapper == None;
    var s2 := DisableVma(s1, v, s1.vmas[v]);
    assert s2.vmas == s.vmas[v := Disable(vma)];
    if piece.wrapper.Some? {
      var w, w2 := vma.wrapper.value, piece.wrapper.value;
      assert s.wrappers - {w} - {w2} == s.wrappers - {w, w2};
      assert multiset({w} + {w2}) == multiset{w} + multiset{w2};
    }
  }

  /** Disabling both vmas and then shrinking the original gives the failed split. */
  lemma ShrinkFailed(s: State, op: Op, f: State)
    requires op.Split? && Linked(s) && Enabled(s, op) && s.vmas[op.v].ops.Managed?
    requires f == SplitFailed(s, op).(vmas := s.vmas[op.v := Disable(s.vmas[op.v])]
                                                    [op.child := Disable(Piece(s.vmas[op.v], op.at, op.below))])
    ensures f.(vmas := f.vmas[op.v := Remainder(f.vmas[op.v], op.at, op.below)]) == SplitFailed(s, op)
  {
    assert f.vmas[op.v := Remainder(f.vmas[op.v], op.at, op.below)] == SplitFailed(s, op).vmas;
  }

  lemma FailedWithoutWrapper(s: State, op: Op)
    requires Linked(s) && op.Split? && Enabled(s, op) && s.vmas[op.v].ops.Managed? && !op.gotWrapper
    ensures Apply(s, op) == SplitFailed(s, op)
  {
    var vma := s.vmas[op.v];
    var piece := Piece(vma, op.at, op.below).(wrapper := None);
    FailureIs(s, op.v, op.child, piece);
    ShrinkFailed(s, op, OpenFailure(s, op.v, op.child, piece));
  }

  /** The state after the wrapper of the child was allocated. */
  function WithWrapper(s: State, child: nat): (r: State) {
    s.(wrappers := s.wrappers[s.nextWrapper := child], nextWrapper := s.nextWrapper + 1)
  }

  lemma OpensSplit(s: State, op: Op)
    requires Linked(s) && op.Split? && Enabled(s, op) && s.vmas[op.v].ops.Managed? && op.gotWrapper
    ensures var vma := s.vmas[op.v];
            CopyVma(s, op.v, op.child, Piece(vma, op.at, op.below), true, op.gotSplit) ==
            OpenSplit(WithWrapper(s, op.child), op.v, op.child,
                      Piece(vma, op.at, op.below).(wrapper := Some(s.nextWrapper)), op.at - 1, op.gotSplit)
  {
    OpenOfPiece(s, op.v, op.child, Piece(s.vmas[op.v], op.at, op.below), op.at, op.below, true, op.gotSplit);
  }

  lemma CutFailure(s: State, op: Op)
    requires Linked(s) && op.Split? && Enabled(s, op) && s.vmas[op.v].ops.Managed? && op.gotWrapper
    requires s.nextWrapper !in s.wrappers
    ensures var vma := s.vmas[op.v];
            var piece := Piece(vma, op.at, op.below);
            OpenFailure(WithWrapper(s, op.child), op.v, op.child, piece.(wrapper := Some(s.nextWrapper)))
            == SplitFailed(s, op).(vmas := s.vmas[op.v := Disable(vma)][op.child := Disable(piece)])
  {
    var vma, s1 := s.vmas[op.v], WithWrapper(s, op.child);
    var w, w2 := vma.wrapper.value, s.nextWrapper;
    FailureIs(s1, op.v, op.child, Piece(vma, op.at, op.below).(wrapper := Some(w2)));
    assert s1.wrappers - ({w} + {w2}) == s.wrappers - {w};
    assert multiset({w} + {w2}) == multiset{w} + multiset{w2};
  }

  lemma CutFails(s: State, op: Op, i: nat)
    requires Linked(s) && op.Split? && Enabled(s, op) && s.vmas[op.v].ops.Managed? && op.gotWrapper
    requires Find(s.ranges, op.at - 1) == Some(i) && s.nextWrapper !in s.wrappers
    requires NeedsCut(s.ranges[i], op.at) && !op.gotSplit
    ensures Apply(s, op) == SplitFailed(s, op)
  {
    OpensSplit(s, op);
    CutFailure(s, op);
    ShrinkFailed(s, op, CopyVma(s, op.v, op.child, Piece(s.vmas[op.v], op.at, op.below), true, false));
  }

  lemma CutWorks(s: State, op: Op, i: nat)
    requires Linked(s) && op.Split? && Enabled(s, op) && s.vmas[op.v].ops.Managed? && op.gotWrapper
    requires Find(s.ranges, op.at - 1) == Some(i)
    requires !NeedsCut(s.ranges[i], op.at) || op.gotSplit
    ensures var rs := if NeedsCut(s.ranges[i], op.at) then SplitAt(s.ranges, i, op.at - 1) else s.ranges;
            Apply(s, op) == SplitDone(s, op, rs)
  {
    OpensSplit(s, op);
    assert Apply(s, op).vmas == SplitDone(s, op, s.ranges).vmas;
  }

  lemma OutcomeFails(s: State, op: Op, i: nat)
    requires Linked(s) && op.Split? && Enabled(s, op) && s.vmas[op.v].ops.Managed?
    requires Find(s.ranges, op.at - 1) == Some(i) && s.nextWrapper !in s.wrappers
    requires !op.gotWrapper || (NeedsCut(s.ranges[i], op.at) && !op.gotSplit)
    ensures Apply(s, op) == SplitFailed(s, op)
  {
    if !op.gotWrapper {
      FailedWithoutWrapper(s, op);
    } else {
      CutFails(s, op, i);
    }
  }

  /** Every split of an enabled vma either fails cleanly or cuts the ranges at the
  boundary and shares them out; it fails exactly when the wrapper, or a needed
  cut, could not be allocated. */
  lemma SplitIsEither(s: State, op: Op) returns (i: nat)
    requires Inv(s) && op.Split? && Enabled(s, op) && s.vmas[op.v].ops.Managed?
    ensures Find(s.ranges, op.at - 1) == Some(i) && i < |s.ranges|
    ensures s.ranges[i].owner == Wrapper(s.vmas[op.v].wrapper.value)
    ensures NeedsCut(s.ranges[i], op.at) ==> s.ranges[i].start < op.at - 1 < s.ranges[i].end
    ensures !op.gotWrapper || (NeedsCut(s.ranges[i], op.at) && !op.gotSplit) ==> Apply(s, op) == SplitFailed(s, op)
    ensures op.gotWrapper && NeedsCut(s.ranges[i], op.at) && op.gotSplit ==>
              Apply(s, op) == SplitDone(s, op, SplitAt(s.ranges, i, op.at - 1))
    ensures op.gotWrapper && !NeedsCut(s.ranges[i], op.at) ==> Apply(s, op) == SplitDone(s, op, s.ranges)
  {
    i := BoundaryRange(s, op.v, op.at);
    if !op.gotWrapper || (NeedsCut(s.ranges[i], op.at) && !op.gotSplit) {
      OutcomeFails(s, op, i);
    } else {
      CutWorks(s, op, i);
    }
  }

  /** Ranges cut at the boundary of a split: same covering, same owners, and no range across it. */
  ghost predicate CutAt(s: State, rs: seq<Range>, v: Vma, at: nat) {
    && Sorted(rs)
    && (forall r :: r in rs ==> Owned(s, r))
    && (forall u :: u in s.vmas ==> Tiled(rs, s.vmas[u]))
    && (forall r :: r in rs && Overlaps(r, v.start, v.end - 1) ==> r.end < at || at <= r.start)
  }

  lemma PieceOwned(s: State, r: Range, piece: Range)
    requires Owned(s, r) && piece.owner == r.owner && r.start <= piece.start && piece.end <= r.end
    ensures Owned(s, piece)
  {
  }

  /** Cutting a managed range in two keeps every vma tiled (also used for policy splits). */
  lemma CutKeeps(s: State, i: nat, newEnd: nat)
    requires Covering(s) && i < |s.ranges| && s.ranges[i].start <= newEnd < s.ranges[i].end && Aligned(newEnd + 1)
    ensures Covering(s.(ranges := SplitAt(s.ranges, i, newEnd)))
  {
    SplitIs(s.ranges, i, newEnd);
    var rs := SplitAt(s.ranges, i, newEnd);
    PieceOwned(s, s.ranges[i], s.ranges[i].(end := newEnd));
    PieceOwned(s, s.ranges[i], s.ranges[i].(start := newEnd + 1));
    assert forall r :: r in rs ==> Owned(s, r);
    forall u | u in s.vmas ensures Tiled(rs, s.vmas[u]) {
      if s.vmas[u].wrapper.Some? {
        var o := Wrapper(s.vmas[u].wrapper.value);
        forall a | s.vmas[u].start <= a < s.vmas[u].end ensures Covered(rs, a, o) {
          assert Covered(s.ranges, a, o);
          SplitCovers(s.ranges, i, newEnd, a, o);
        }
      }
    }
  }

  lemma NothingAcross(rs: seq<Range>, i: nat, at: nat, r: Range)
    requires Sorted(rs) && i < |rs| && Contains(rs[i], at - 1) && r in rs && r != rs[i]
    ensures r.end < at || at <= r.start
  {
    if Contains(r, at - 1) {
      Unique(rs, r, rs[i], at - 1);
    }
  }

  lemma UncutIsCut(s: State, v: Vma, at: nat, i: nat)
    requires Covering(s) && i < |s.ranges| && Contains(s.ranges[i], at - 1) && !NeedsCut(s.ranges[i], at)
    ensures CutAt(s, s.ranges, v, at)
  {
    forall r | r in s.ranges && r != s.ranges[i] ensures r.end < at || at <= r.start {
      NothingAcross(s.ranges, i, at, r);
    }
  }

  lemma CutIsCut(s: State, v: Vma, at: nat, i: nat)
    requires Covering(s) && Aligned(at) && i < |s.ranges| && Contains(s.ranges[i], at - 1) && NeedsCut(s.ranges[i], at)
    ensures CutAt(s, SplitAt(s.ranges, i, at - 1), v, at)
  {
    forall r | r in s.ranges && r != s.ranges[i] ensures r.end < at || at <= r.start {
      NothingAcross(s.ranges, i, at, r);
    }
    CutKeeps(s, i, at - 1);
    SplitIs(s.ranges, i, at - 1);
    var s1 := s.(ranges := SplitAt(s.ranges, i, at - 1));
    assert forall r :: r in s1.ranges ==> Owned(s1, r) && Owned(s, r);
  }

  /** The child is tiled by the ranges repointed to it. */
  lemma ChildTiled(rs: seq<Range>, v: Vma, lo: int, hi: int, w: nat, a: int)
    requires Sorted(rs) && v.wrapper.Some? && Tiled(rs, v) && v.start <= lo <= a <= hi < v.end
    ensures Covered(Mark(rs, lo, hi, Wrapper(w)), a, Wrapper(w))
  {
    assert Covered(rs, a, Wrapper(v.wrapper.value));
    var r :| r in rs && Contains(r, a) && r.owner == Wrapper(v.wrapper.value);
    MarkIs(rs, lo, hi, Wrapper(w));
    assert Marked(r, lo, hi, Wrapper(w)) in Mark(rs, lo, hi, Wrapper(w));
  }

  /** Addresses outside the repointed part keep their owner. */
  lemma RestTiled(rs: seq<Range>, lo: int, hi: int, w: nat, a: int, o: Owner)
    requires Sorted(rs) && Covered(rs, a, o)
    requires forall r :: r in rs && Contains(r, a) ==> !Overlaps(r, lo, hi)
    ensures Covered(Mark(rs, lo, hi, Wrapper(w)), a, o)
  {
    MarkIs(rs, lo, hi, Wrapper(w));
    var r :| r in rs && Contains(r, a) && r.owner == o;
    assert Marked(r, lo, hi, Wrapper(w)) in Mark(rs, lo, hi, Wrapper(w));
  }

  lemma SplitDoneTiles(s: State, op: Op, rs: seq<Range>, u: nat)
    requires Inv(s) && op.Split? && Enabled(s, op) && s.vmas[op.v].ops.Managed?
    requires CutAt(s, rs, s.vmas[op.v], op.at)
    requires u in SplitDone(s, op, rs).vmas
    ensures Tiled(SplitDone(s, op, rs).ranges, SplitDone(s, op, rs).vmas[u])
  {
    var s' := SplitDone(s, op, rs);
    var vma, piece := s.vmas[op.v], Piece(s.vmas[op.v], op.at, op.below);
    var x := s'.vmas[u];
    if x.wrapper.Some? {
      forall a | x.start <= a < x.end ensures Covered(s'.ranges, a, Wrapper(x.wrapper.value)) {
        if u == op.child {
          ChildTiled(rs, vma, piece.start, piece.end - 1, s.nextWrapper, a);
        } else {
          assert Covered(rs, a, Wrapper(x.wrapper.value)) by {
            assert Tiled(rs, s.vmas[u]);
          }
          forall r | r in rs && Contains(r, a) ensures !Overlaps(r, piece.start, piece.end - 1) {
            if Overlaps(r, piece.start, piece.end - 1) {
              OnlyOwnRanges(rs, vma, r);
              OtherVma(s, rs, op.v, u, r, a);
            }
          }
          RestTiled(rs, piece.start, piece.end - 1, s.nextWrapper, a, Wrapper(x.wrapper.value));
        }
      }
    }
  }

  /** A range of vma v does not contain an address of another enabled vma. */
  lemma OtherVma(s: State, rs: seq<Range>, v: nat, u: nat, r: Range, a: int)
    requires Linked(s) && v in s.vmas && u in s.vmas && s.vmas[v].wrapper.Some? && s.vmas[u].wrapper.Some?
    requires Sorted(rs) && Tiled(rs, s.vmas[u])
    requires r in rs && Contains(r, a) && s.vmas[u].start <= a < s.vmas[u].end
    requires r.owner == Wrapper(s.vmas[v].wrapper.value)
    ensures u == v
  {
    OnlyOwnRanges(rs, s.vmas[u], r);
  }

  lemma SplitDoneOwned(s: State, op: Op, rs: seq<Range>, r: Range)
    requires Linked(s) && s.nextWrapper !in s.wrappers && op.Split? && Enabled(s, op) && s.vmas[op.v].ops.Managed?
    requires CutAt(s, rs, s.vmas[op.v], op.at) && r in rs
    ensures var piece := Piece(s.vmas[op.v], op.at, op.below);
            Owned(SplitDone(s, op, rs), Marked(r, piece.start, piece.end - 1, Wrapper(s.nextWrapper)))
  {
    var vma := s.vmas[op.v];
    assert Owned(s, r);
    if Overlaps(r, vma.start, vma.end - 1) {
      OnlyOwnRanges(rs, vma, r);
    }
  }

  lemma SplitDoneLinked(s: State, op: Op, rs: seq<Range>)
    requires Linked(s) && Accounted(s) && op.Split? && Enabled(s, op) && s.vmas[op.v].ops.Managed?
    ensures Linked(SplitDone(s, op, rs)) && Accounted(SplitDone(s, op, rs))
  {
  }

  lemma SplitDoneAllOwned(s: State, op: Op, rs: seq<Range>)
    requires Linked(s) && s.nextWrapper !in s.wrappers && op.Split? && Enabled(s, op) && s.vmas[op.v].ops.Managed?
    requires CutAt(s, rs, s.vmas[op.v], op.at)
    ensures Sorted(SplitDone(s, op, rs).ranges)
    ensures forall r' :: r' in SplitDone(s, op, rs).ranges ==> Owned(SplitDone(s, op, rs), r')
  {
    var s' := SplitDone(s, op, rs);
    var piece := Piece(s.vmas[op.v], op.at, op.below);
    MarkIs(rs, piece.start, piece.end - 1, Wrapper(s.nextWrapper));
    forall i | 0 <= i < |rs| ensures Owned(s', s'.ranges[i]) {
      SplitDoneOwned(s, op, rs, rs[i]);
    }
  }

  lemma SplitDoneCovers(s: State, op: Op, rs: seq<Range>)
    requires Inv(s) && op.Split? && Enabled(s, op) && s.vmas[op.v].ops.Managed?
    requires CutAt(s, rs, s.vmas[op.v], op.at)
    ensures Covering(SplitDone(s, op, rs))
  {
    var s' := SplitDone(s, op, rs);
    SplitDoneAllOwned(s, op, rs);
    forall u | u in s'.vmas ensures Tiled(s'.ranges, s'.vmas[u]) {
      SplitDoneTiles(s, op, rs, u);
    }
  }

  lemma SplitDoneKeeps(s: State, op: Op, rs: seq<Range>)
    requires Inv(s) && op.Split? && Enabled(s, op) && s.vmas[op.v].ops.Managed?
    requires CutAt(s, rs, s.vmas[op.v], op.at)
    ensures Inv(SplitDone(s, op, rs))
  {
    SplitDoneLinked(s, op, rs);
    SplitDoneCovers(s, op, rs);
  }

  /** Removing or orphaning the ranges of one enabled vma, and its wrapper, leaves the others tiled. */
  lemma DestroyKeeps(s: State, v: nat, s': State, zombie: bool)
    requires Inv(s) && v in s.vmas && s.vmas[v].ops.Managed?
    requires s'.ranges == DestroyVma(s, v, zombie).ranges
    requires s'.wrappers == s.wrappers - {s.vmas[v].wrapper.value}
    requires forall u :: u in s.vmas && u != v ==> u in s'.vmas && s'.vmas[u] == s.vmas[u]
    requires forall u :: u in s'.vmas && (u == v || u !in s.vmas) ==> s'.vmas[u].wrapper.None?
    ensures Covering(s')
  {
    var vma := s.vmas[v];
    WithoutIs(s.ranges, vma.start, vma.end - 1);
    MarkIs(s.ranges, vma.start, vma.end - 1, Zombie);
    forall r' | r' in s'.ranges ensures Owned(s', r') {
      if r'.owner.Wrapper? {
        assert r' in s.ranges && !Overlaps(r', vma.start, vma.end - 1);
        assert Owned(s, r');
      }
    }
    forall u | u in s'.vmas ensures Tiled(s'.ranges, s'.vmas[u]) {
      if s'.vmas[u].wrapper.Some? {
        SurvivorTiled(s, v, s', zombie, u);
      }
    }
  }

  lemma SurvivorTiled(s: State, v: nat, s': State, zombie: bool, u: nat)
    requires Inv(s) && v in s.vmas && s.vmas[v].ops.Managed? && u in s.vmas && u != v && s.vmas[u].wrapper.Some?
    requires s'.ranges == DestroyVma(s, v, zombie).ranges
    ensures Tiled(s'.ranges, s.vmas[u])
  {
    var vma, o := s.vmas[v], Wrapper(s.vmas[u].wrapper.value);
    forall a | s.vmas[u].start <= a < s.vmas[u].end ensures Covered(s'.ranges, a, o) {
      assert Covered(s.ranges, a, o);
      var r :| r in s.ranges && Contains(r, a) && r.owner == o;
      if Overlaps(r, vma.start, vma.end - 1) {
        OnlyOwnRanges(s.ranges, vma, r);
        OtherVma(s, s.ranges, v, u, r, a);
      }
      SurvivorStays(s.ranges, vma, r);
    }
  }

  lemma SurvivorStays(rs: seq<Range>, vma: Vma, r: Range)
    requires Sorted(rs) && r in rs && !Overlaps(r, vma.start, vma.end - 1)
    ensures r in Without(rs, vma.start, vma.end - 1) && r in Mark(rs, vma.start, vma.end - 1, Zombie)
  {
    WithoutIs(rs, vma.start, vma.end - 1);
    MarkIs(rs, vma.start, vma.end - 1, Zombie);
    assert Marked(r, vma.start, vma.end - 1, Zombie) == r;
  }

  lemma SplitFailedKeeps(s: State, op: Op)
    requires Inv(s) && op.Split? && Enabled(s, op) && s.vmas[op.v].ops.Managed?
    ensures Inv(SplitFailed(s, op))
  {
    DestroyKeeps(s, op.v, SplitFailed(s, op), false);
    SplitFailedLinked(s, op);
  }

  lemma SplitFailedLinked(s: State, op: Op)
    requires Linked(s) && Accounted(s) && op.Split? && Enabled(s, op) && s.vmas[op.v].ops.Managed?
    ensures Linked(SplitFailed(s, op)) && Accounted(SplitFailed(s, op))
  {
  }

  lemma CloseKeeps(s: State, v: nat, zombie: bool)
    requires Inv(s) && v in s.vmas
    ensures Inv(Apply(s, Close(v, zombie)))
  {
    var s' := Apply(s, Close(v, zombie));
    if s.vmas[v].ops.Managed? {
      DestroyKeeps(s, v, s', zombie);
    }
    CloseLinked(s, v, zombie);
  }

  lemma CloseLinked(s: State, v: nat, zombie: bool)
    requires Linked(s) && Accounted(s) && v in s.vmas
    ensures Linked(Apply(s, Close(v, zombie))) && Accounted(Apply(s, Close(v, zombie)))
  {
  }

  lemma CutSplitKeeps(s: State, op: Op, i: nat)
    requires Inv(s) && op.Split? && Enabled(s, op) && s.vmas[op.v].ops.Managed?
    requires i < |s.ranges| && Contains(s.ranges[i], op.at - 1) && NeedsCut(s.ranges[i], op.at)
    ensures Inv(SplitDone(s, op, SplitAt(s.ranges, i, op.at - 1)))
  {
    CutIsCut(s, s.vmas[op.v], op.at, i);
    SplitDoneKeeps(s, op, SplitAt(s.ranges, i, op.at - 1));
  }

  lemma UncutSplitKeeps(s: State, op: Op, i: nat)
    requires Inv(s) && op.Split? && Enabled(s, op) && s.vmas[op.v].ops.Managed?
    requires i < |s.ranges| && Contains(s.ranges[i], op.at - 1) && !NeedsCut(s.ranges[i], op.at)
    ensures Inv(SplitDone(s, op, s.ranges))
  {
    UncutIsCut(s, s.vmas[op.v], op.at, i);
    SplitDoneKeeps(s, op, s.ranges);
  }

  lemma DoneKeeps(s: State, op: Op, i: nat, rs: seq<Range>)
    requires Inv(s) && op.Split? && Enabled(s, op) && s.vmas[op.v].ops.Managed?
    requires i < |s.ranges| && Contains(s.ranges[i], op.at - 1)
    requires rs == if NeedsCut(s.ranges[i], op.at) then SplitAt(s.ranges, i, op.at - 1) else s.ranges
    ensures Inv(SplitDone(s, op, rs))
  {
    if NeedsCut(s.ranges[i], op.at) {
      CutSplitKeeps(s, op, i);
    } else {
      UncutSplitKeeps(s, op, i);
    }
  }

  lemma FailedSplitKeeps(s: State, op: Op, i: nat)
    requires Inv(s) && op.Split? && Enabled(s, op) && s.vmas[op.v].ops.Managed?
    requires Find(s.ranges, op.at - 1) == Some(i)
    requires !op.gotWrapper || (NeedsCut(s.ranges[i], op.at) && !op.gotSplit)
    ensures Inv(Apply(s, op))
  {
    OutcomeFails(s, op, i);
    SplitFailedKeeps(s, op);
  }

  lemma DoneSplitKeeps(s: State, op: Op, i: nat)
    requires Inv(s) && op.Split? && Enabled(s, op) && s.vmas[op.v].ops.Managed?
    requires Find(s.ranges, op.at - 1) == Some(i)
    requires op.gotWrapper && (!NeedsCut(s.ranges[i], op.at) || op.gotSplit)
    ensures Inv(Apply(s, op))
  {
    CutWorks(s, op, i);
    DoneKeeps(s, op, i, if NeedsCut(s.ranges[i], op.at) then SplitAt(s.ranges, i, op.at - 1) else s.ranges);
  }

  lemma ManagedSplitKeeps(s: State, op: Op)
    requires Inv(s) && op.Split? && Enabled(s, op) && s.vmas[op.v].ops.Managed?
    ensures Inv(Apply(s, op))
  {
    var i := BoundaryRange(s, op.v, op.at);
    if !op.gotWrapper || (NeedsCut(s.ranges[i], op.at) && !op.gotSplit) {
      FailedSplitKeeps(s, op, i);
    } else {
      DoneSplitKeeps(s, op, i);
    }
  }

  lemma DisabledSplitKeeps(s: State, op: Op)
    requires Inv(s) && op.Split? && Enabled(s, op) && s.vmas[op.v].ops.Disabled?
    ensures Inv(Apply(s, op))
  {
    DisabledKeeps(s, Apply(s, op));
  }

  /** Adding, copying or shrinking disabled vmas touches nothing else. */
  lemma DisabledKeeps(s: State, s': State)
    requires Inv(s) && s'.ranges == s.ranges && s'.wrappers == s.wrappers
    requires s'.destroyed == s.destroyed && s'.nextWrapper == s.nextWrapper
    requires forall u :: u in s.vmas && s.vmas[u].ops.Managed? ==> u in s'.vmas && s'.vmas[u] == s.vmas[u]
    requires forall u :: u in s'.vmas ==>
               (u in s.vmas && s'.vmas[u] == s.vmas[u])
               || (s'.vmas[u].ops.Disabled? && s'.vmas[u].wrapper.None? && s'.vmas[u].start < s'.vmas[u].end)
    ensures Inv(s')
  {
    forall r | r in s'.ranges ensures Owned(s', r) {
      assert Owned(s, r);
    }
  }

  /** The driver's test tells copies from splits: a fork or a move leaves the child disabled. */
  lemma CopyKeeps(s: State, op: Op)
    requires Inv(s) && (op.Fork? || op.Move?) && Enabled(s, op)
    ensures Inv(Apply(s, op))
    ensures var s' := Apply(s, op);
            && s'.ranges == s.ranges && s'.wrappers == s.wrappers
            && op.child in s'.vmas && s'.vmas[op.child].ops.Disabled?
            && forall u :: u in s.vmas ==> u in s'.vmas && s'.vmas[u] == s.vmas[u]
  {
    DisabledKeeps(s, Apply(s, op));
  }

  /** Adding a range that meets no other keeps every vma tiled. */
  lemma InsertKeeps(s: State, s': State, r: Range)
    requires Covering(s) && WellFormed(r) && Free(s.ranges, r.start, r.end)
    requires s'.ranges == Insert(s.ranges, r) && Owned(s', r)
    requires forall w :: w in s.wrappers ==> w in s'.wrappers && s'.wrappers[w] == s.wrappers[w]
    requires forall u :: u in s.vmas ==> u in s'.vmas && s'.vmas[u] == s.vmas[u]
    requires forall u :: u in s'.vmas && u !in s.vmas ==> Tiled(s'.ranges, s'.vmas[u])
    ensures Covering(s')
  {
    InsertIs(s.ranges, r);
    forall x | x in s'.ranges ensures Owned(s', x) {
      assert x == r || Owned(s, x);
    }
    forall u | u in s.vmas ensures Tiled(s'.ranges, s.vmas[u]) {
      if s.vmas[u].wrapper.Some? {
        var o := Wrapper(s.vmas[u].wrapper.value);
        forall a | s.vmas[u].start <= a < s.vmas[u].end ensures Covered(s'.ranges, a, o) {
          assert Covered(s.ranges, a, o);
          var x :| x in s.ranges && Contains(x, a) && x.owner == o;
          assert x in s'.ranges;
        }
      }
    }
  }

  lemma MmapKeeps(s: State, op: Op)
    requires Inv(s) && op.Mmap? && Enabled(s, op)
    ensures Inv(Apply(s, op))
  {
    var s' := Apply(s, op);
    if op.pmBusy {
      DisabledKeeps(s, s');
    } else if op.gotWrapper && op.gotRange && Free(s.ranges, op.start, op.end - 1) {
      var r := Range(op.start, op.end - 1, Wrapper(s.nextWrapper));
      InsertIs(s.ranges, r);
      assert forall a :: op.start <= a < op.end ==> Contains(r, a);
      assert r in s'.ranges;
      InsertKeeps(s, s', r);
      MmapLinked(s, op);
    } else {
      assert forall r :: r in s'.ranges ==> Owned(s, r) && Owned(s', r);
    }
  }

  lemma MmapLinked(s: State, op: Op)
    requires Linked(s) && Accounted(s) && op.Mmap? && Enabled(s, op)
    ensures Linked(Apply(s, op)) && Accounted(Apply(s, op))
  {
  }

  lemma PolicySplitKeeps(s: State, at: nat, gotSplit: bool)
    requires Inv(s) && Aligned(at) && at > 0
    ensures Inv(ApplyPolicySplit(s, at, gotSplit))
  {
    var i := Find(s.ranges, at);
    if i.Some? && at != s.ranges[i.value].start {
      CutKeeps(s, i.value, at - 1);
    }
  }

  lemma ExternalKeeps(s: State, start: nat, end: nat)
    requires Inv(s) && Enabled(s, CreateExternal(start, end))
    ensures Inv(Apply(s, CreateExternal(start, end)))
  {
    if Free(s.ranges, start, end) {
      InsertKeeps(s, Apply(s, CreateExternal(start, end)), Range(start, end, External));
    }
  }

  lemma InvKept(s: State, op: Op)
    requires Inv(s) && Enabled(s, op)
    ensures Inv(Apply(s, op))
  {
    match op {
      case Mmap(_, _, _, _, _, _, _) => MmapKeeps(s, op);
      case Fork(_, _, _) => CopyKeeps(s, op);
      case Move(_, _, _, _) => CopyKeeps(s, op);
      case Split(v, _, _, _, _, _) =>
        if s.vmas[v].ops.Managed? {
          ManagedSplitKeeps(s, op);
        } else {
          DisabledSplitKeeps(s, op);
        }
      case Close(v, zombie) => CloseKeeps(s, v, zombie);
      case PolicySplit(at, gotSplit) => PolicySplitKeeps(s, at, gotSplit);
      case CreateExternal(start, end) => ExternalKeeps(s, start, end);
      case CleanUpZombies => ZombiesKeep(s);
    }
  }

  lemma ZombiesKeep(s: State)
    requires Inv(s)
    ensures Inv(s.(ranges := NoZombies(s.ranges)))
  {
    NoZombiesIs(s.ranges);
    var s' := s.(ranges := NoZombies(s.ranges));
    assert forall r :: r in s'.ranges ==> Owned(s, r) && Owned(s', r);
    forall u | u in s.vmas ensures Tiled(s'.ranges, s.vmas[u]) {
      if s.vmas[u].wrapper.Some? {
        var o := Wrapper(s.vmas[u].wrapper.value);
        forall a | s.vmas[u].start <= a < s.vmas[u].end ensures Covered(s'.ranges, a, o) {
          assert Covered(s.ranges, a, o);
          var x :| x in s.ranges && Contains(x, a) && x.owner == o;
          assert x in s'.ranges;
        }
      }
    }
  }

  // --------------------------------------------------------------- theorems

  /** ops is a possible sequence of kernel and user calls.  Linked is part of the
  invariant below, so it never stops a sequence. */
  predicate Valid(s: State, ops: seq<Op>)
    decreases |ops|
  {
    ops == [] || (Linked(s) && Enabled(s, ops[0]) && Valid(Apply(s, ops[0]), ops[1..]))
  }

  function After(s: State, ops: seq<Op>): (r: State)
    requires Valid(s, ops)
    decreases |ops|
  {
    if ops == [] then s else After(Apply(s, ops[0]), ops[1..])
  }

  lemma {:induction false} InvAlways(s: State, ops: seq<Op>)
    requires Inv(s) && Valid(s, ops)
    ensures Inv(After(s, ops))
    decreases |ops|
  {
    if ops != [] {
      InvKept(s, ops[0]);
      InvAlways(Apply(s, ops[0]), ops[1..]);
    }
  }

  /** What uvm_destroy_vma_managed asserts about a vma. */
  ghost predicate ExactlyTiled(rs: seq<Range>, v: Vma) {
    && v.wrapper.Some?
    && (forall r :: r in rs && Overlaps(r, v.start, v.end - 1) ==> r.owner == Wrapper(v.wrapper.value) && Inside(r, v))
    && SizeIn(rs, v.start, v.end - 1) == v.end - v.start
  }

  lemma TiledExactly(s: State, v: nat)
    requires Inv(s) && v in s.vmas && s.vmas[v].ops.Managed?
    ensures ExactlyTiled(s.ranges, s.vmas[v])
  {
    var vma := s.vmas[v];
    forall r | r in s.ranges && Overlaps(r, vma.start, vma.end - 1)
      ensures r.owner == Wrapper(vma.wrapper.value) && Inside(r, vma)
    {
      OnlyOwnRanges(s.ranges, vma, r);
      assert Owned(s, r);
    }
    TilesAddUp(s.ranges, vma.start, vma.end - 1, Wrapper(vma.wrapper.value));
  }

  /** After any sequence of mmap, fork, move, split, policy split and close, with
  any failures: ranges are in order and disjoint, every enabled managed vma is
  exactly tiled by ranges whose wrapper is that vma, a range with a wrapper lies
  in that wrapper's vma, and every wrapper is live or was destroyed once. */
  lemma VmasCoverTheirRanges(ops: seq<Op>)
    requires Valid(START, ops)
    ensures var s := After(START, ops);
            && (forall i, j :: 0 <= i < j < |s.ranges| ==> s.ranges[i].end < s.ranges[j].start)
            && (forall v :: v in s.vmas && s.vmas[v].ops.Managed? ==> ExactlyTiled(s.ranges, s.vmas[v]))
            && (forall r :: r in s.ranges ==> Owned(s, r))
            && Linked(s) && Accounted(s)
  {
    InvAlways(START, ops);
    var s := After(START, ops);
    forall v | v in s.vmas && s.vmas[v].ops.Managed? ensures ExactlyTiled(s.ranges, s.vmas[v]) {
      TiledExactly(s, v);
    }
  }

  /** A split that fails leaves both vmas disabled, none of the original's ranges,
  and destroys each of the wrappers involved exactly once. */
  lemma FailedSplitGivesUpBoth(ops: seq<Op>, op: Op)
    requires Valid(START, ops) && Linked(After(START, ops)) && Enabled(After(START, ops), op)
    requires op.Split? && After(START, ops).vmas[op.v].ops.Managed?
    requires var s := After(START, ops); var i := Find(s.ranges, op.at - 1);
             !op.gotWrapper || (i.Some? && NeedsCut(s.ranges[i.value], op.at) && !op.gotSplit)
    ensures var s := After(START, ops); var s' := Apply(s, op); var w := s.vmas[op.v].wrapper.value;
            && s'.vmas[op.v].ops.Disabled? && op.child in s'.vmas && s'.vmas[op.child].ops.Disabled?
            && Free(s'.ranges, s.vmas[op.v].start, s.vmas[op.v].end - 1)
            && (forall r :: r in s'.ranges ==> r.owner != Wrapper(w))
            && s.destroyed[w] == 0 && s'.destroyed[w] == 1
            && (op.gotWrapper ==> s'.nextWrapper == s.nextWrapper + 1 && s'.destroyed[s.nextWrapper] == 1)
  {
    InvAlways(START, ops);
    FailedSplitOutcome(After(START, ops), op);
  }

  lemma FailedSplitOutcome(s: State, op: Op)
    requires Inv(s) && op.Split? && Enabled(s, op) && s.vmas[op.v].ops.Managed?
    requires var i := Find(s.ranges, op.at - 1);
             !op.gotWrapper || (i.Some? && NeedsCut(s.ranges[i.value], op.at) && !op.gotSplit)
    ensures var s' := Apply(s, op); var w := s.vmas[op.v].wrapper.value;
            && op.v in s'.vmas && s'.vmas[op.v].ops.Disabled? && op.child in s'.vmas && s'.vmas[op.child].ops.Disabled?
            && Free(s'.ranges, s.vmas[op.v].start, s.vmas[op.v].end - 1)
            && (forall r :: r in s'.ranges ==> r.owner != Wrapper(w))
            && s.destroyed[w] == 0 && s'.destroyed[w] == 1
            && (op.gotWrapper ==> s'.nextWrapper == s.nextWrapper + 1 && s'.destroyed[s.nextWrapper] == 1)
  {
    var i := SplitIsEither(s, op);
    GivesUp(s, op);
  }

  lemma GivesUp(s: State, op: Op)
    requires Linked(s) && Accounted(s) && Sorted(s.ranges) && (forall r :: r in s.ranges ==> Owned(s, r))
    requires op.Split? && Enabled(s, op) && s.vmas[op.v].ops.Managed?
    ensures var s' := SplitFailed(s, op); var w := s.vmas[op.v].wrapper.value;
            && op.v in s'.vmas && s'.vmas[op.v].ops.Disabled? && op.child in s'.vmas && s'.vmas[op.child].ops.Disabled?
            && Free(s'.ranges, s.vmas[op.v].start, s.vmas[op.v].end - 1)
            && (forall r :: r in s'.ranges ==> r.owner != Wrapper(w))
            && s.destroyed[w] == 0 && s'.destroyed[w] == 1
            && (op.gotWrapper ==> s'.nextWrapper == s.nextWrapper + 1 && s'.destroyed[s.nextWrapper] == 1)
  {
    var vma := s.vmas[op.v];
    WithoutIs(s.ranges, vma.start, vma.end - 1);
    var left := Without(s.ranges, vma.start, vma.end - 1);
    assert forall i :: 0 <= i < |left| ==> left[i] in left;
    forall r | r in left ensures r.owner != Wrapper(vma.wrapper.value) {
      assert r in s.ranges && Owned(s, r) && !Overlaps(r, vma.start, vma.end - 1);
    }
  }

  /** What the loop of uvm_destroy_vma_managed leaves of the ranges. */
  function Cleared(rs: seq<Range>, lo: int, hi: int, zombie: bool): (r: seq<Range>) {
    if rs == [] then [] else ClearedOne(rs[0], lo, hi, zombie) + Cleared(rs[1..], lo, hi, zombie)
  }

  function ClearedOne(r: Range, lo: int, hi: int, zombie: bool): (r': seq<Range>) {
    if !Overlaps(r, lo, hi) then [r] else if zombie then [r.(owner := Zombie)] else []
  }

  lemma {:induction false} ClearedIs(rs: seq<Range>, lo: int, hi: int)
    ensures Cleared(rs, lo, hi, true) == Mark(rs, lo, hi, Zombie)
    ensures Cleared(rs, lo, hi, false) == Without(rs, lo, hi)
  {
    if rs != [] {
      ClearedIs(rs[1..], lo, hi);
      assert Mark(rs, lo, hi, Zombie) == [Marked(rs[0], lo, hi, Zombie)] + Mark(rs[1..], lo, hi, Zombie);
    }
  }

  /** Ranges that start beyond the interval are not touched. */
  lemma {:induction false} BeyondIsKept(rest: seq<Range>, lo: int, hi: int, zombie: bool)
    requires Sorted(rest) && (rest != [] ==> rest[0].start > hi)
    ensures Cleared(rest, lo, hi, zombie) == rest && SizeIn(rest, lo, hi) == 0
  {
    if rest != [] {
      assert |rest| > 1 ==> rest[0].end < rest[1].start;
      BeyondIsKept(rest[1..], lo, hi, zombie);
    }
  }

  lemma OwnersAfterCut(rs: seq<Range>, i: nat, newEnd: nat, v: Vma)
    requires Sorted(rs) && ExactlyTiled(rs, v) && i < |rs| && rs[i].start <= newEnd < rs[i].end && Aligned(newEnd + 1)
    requires rs[i].owner == Wrapper(v.wrapper.value)
    ensures Sorted(SplitAt(rs, i, newEnd))
    ensures forall r :: r in SplitAt(rs, i, newEnd) && Overlaps(r, v.start, v.end - 1) ==>
              r.owner == Wrapper(v.wrapper.value)
  {
    SplitIs(rs, i, newEnd);
  }

  /** What the kernel may pass to the open callback of a copy of v. */
  predicate IsKernelCopy(v: Vma, copy: Vma, at: nat, below: bool) {
    && copy.wrapper == v.wrapper && copy.start < copy.end
    && (|| copy.mm != v.mm
        || copy.end <= v.start || v.end <= copy.start
        || (Aligned(at) && v.start < at < v.end && copy == Piece(v, at, below)))
  }

  /** What the driver asserts about the boundary of a split. */
  ghost predicate Boundary(s: State, v: nat, at: nat) {
    && at > 0 && Aligned(at) && v in s.vmas && Sorted(s.ranges) && ExactlyTiled(s.ranges, s.vmas[v])
    && Find(s.ranges, at - 1).Some?
    && s.ranges[Find(s.ranges, at - 1).value].owner == Wrapper(s.vmas[v].wrapper.value)
  }

  lemma OriginalFound(s: State, v: nat)
    requires Linked(s) && v in s.vmas && s.vmas[v].ops.Managed?
    ensures s.vmas[v].wrapper.Some? && s.vmas[v].wrapper.value in s.wrappers && s.wrappers[s.vmas[v].wrapper.value] == v
  {
  }

  lemma OpenFacts(s: State, v: nat, vma: Vma, at: nat, below: bool)
    requires Inv(s) && v in s.vmas && s.vmas[v].ops.Managed? && IsKernelCopy(s.vmas[v], vma, at, below)
    requires vma.mm == s.vmas[v].mm && (vma.start == s.vmas[v].start || vma.end == s.vmas[v].end)
    ensures vma == Piece(s.vmas[v], at, below) && s.vmas[v].start < at < s.vmas[v].end && Boundary(s, v, at)
  {
    var i := BoundaryRange(s, v, at);
    TiledExactly(s, v);
  }

  lemma OpenOfPiece(s: State, v: nat, child: nat, vma: Vma, at: nat, below: bool, gotWrapper: bool, gotSplit: bool)
    requires v in s.vmas && s.vmas[v].wrapper.Some? && s.vmas[v].wrapper.value in s.wrappers
    requires s.wrappers[s.vmas[v].wrapper.value] == v && s.vmas[v].start < at < s.vmas[v].end
    requires vma == Piece(s.vmas[v], at, below)
    ensures Open(s, child, vma, gotWrapper, gotSplit) ==
              if !gotWrapper then OpenFailure(s, v, child, vma.(wrapper := None))
              else OpenSplit(WithWrapper(s, child), v, child, vma.(wrapper := Some(s.nextWrapper)), at - 1, gotSplit)
  {
    var parent := s.vmas[v];
    assert vma.mm == parent.mm && (vma.start == parent.start || vma.end == parent.end);
    assert (if vma.start == parent.start then vma.end - 1 else vma.start - 1) == at - 1;
    assert vma.(wrapper := None).(wrapper := Some(s.nextWrapper)) == vma.(wrapper := Some(s.nextWrapper));
  }

  // ------------------------------------------------------------ the VA space

  class VaSpace {
    var ranges: seq<Range>
    var vmas: map<nat, Vma>
    var wrappers: map<nat, nat>
    var destroyed: multiset<nat>
    var nextWrapper: nat

    function Value(): (s: State)
      reads this
    {
      State(ranges, vmas, wrappers, destroyed, nextWrapper)
    }

    constructor ()
      ensures Value() == START
    {
      ranges, vmas, wrappers, destroyed, nextWrapper := [], map[], map[], multiset{}, 0;
    }

    /** uvm_vma_wrapper_destroy. */
    method DestroyWrapper(w: nat)
      modifies this`wrappers, this`destroyed
      ensures Value() == DropWrapper(old(Value()), w)
    {
      wrappers := wrappers - {w};
      destroyed := destroyed + multiset{w};
    }

    /** The loop of uvm_destroy_vma_managed, with its assertions. */
    method DestroyRanges(vma: Vma, zombie: bool) returns (size: int)
      requires Sorted(ranges) && ExactlyTiled(ranges, vma)
      modifies this`ranges
      ensures ranges == Cleared(old(ranges), vma.start, vma.end - 1, zombie)
      ensures size == vma.end - vma.start
    {
      ghost var all := ranges;
      var done, rest := [], ranges;
      var lo, hi := vma.start, vma.end - 1;
      size := 0;
      while rest != [] && rest[0].start <= hi
        invariant Sorted(rest)
        invariant forall r :: r in rest ==> r in all
        invariant size + SizeIn(rest, lo, hi) == SizeIn(all, lo, hi)
        invariant done + Cleared(rest, lo, hi, zombie) == Cleared(all, lo, hi, zombie)
        decreases |rest|
      {
        var r, kept := rest[0], [rest[0]];
        assert r in all;
        if r.end >= lo {
          assert r.owner == Wrapper(vma.wrapper.value) && r.start >= vma.start && r.end < vma.end;
          size := size + (r.end - r.start + 1);
          kept := if zombie then [r.(owner := Zombie)] else [];
        }
        TailSorted(rest);
        Regroup(done, kept, Cleared(rest[1..], lo, hi, zombie));
        done, rest := done + kept, rest[1..];
      }
      BeyondIsKept(rest, lo, hi, zombie);
      ranges := done + rest;
    }

    /** uvm_destroy_vma_managed: the size assertion holds at the end. */
    method DestroyVmaManaged(v: nat, zombie: bool)
      requires v in vmas && Sorted(ranges) && ExactlyTiled(ranges, vmas[v])
      modifies this
      ensures Value() == DestroyVma(old(Value()), v, zombie)
    {
      var vma := vmas[v];
      ClearedIs(ranges, vma.start, vma.end - 1);
      var size := DestroyRanges(vma, zombie);
      if vma.wrapper.Some? {
        DestroyWrapper(vma.wrapper.value);
      }
      vmas := vmas[v := vma.(wrapper := None)];
      assert size == vma.end - vma.start;
    }

    method DisableManaged(v: nat, vma: Vma)
      modifies this
      ensures Value() == DisableVma(old(Value()), v, vma)
    {
      vmas := vmas[v := Disable(vma)];
      if vma.wrapper.Some? {
        DestroyWrapper(vma.wrapper.value);
      }
    }

    method OpenFailed(original: nat, child: nat, vma: Vma)
      requires original in vmas && Sorted(ranges) && ExactlyTiled(ranges, vmas[original])
      modifies this
      ensures Value() == OpenFailure(old(Value()), original, child, vma)
    {
      DestroyVmaManaged(original, false);
      DisableManaged(original, vmas[original]);
      DisableManaged(child, vma);
    }

    /** The loop of uvm_vm_open_managed that points the child's ranges to it. */
    method Repoint(vma: Vma, w: nat, original: nat)
      requires Sorted(ranges)
      requires forall r :: r in ranges && Overlaps(r, vma.start, vma.end - 1) ==> r.owner == Wrapper(original)
      modifies this`ranges
      ensures ranges == Mark(old(ranges), vma.start, vma.end - 1, Wrapper(w))
    {
      ghost var all := ranges;
      var i := 0;
      while i < |ranges| && ranges[i].start <= vma.end - 1
        invariant 0 <= i <= |ranges| == |all|
        invariant forall k :: 0 <= k < i ==> ranges[k] == Mark(all, vma.start, vma.end - 1, Wrapper(w))[k]
        invariant forall k :: i <= k < |all| ==> ranges[k] == all[k]
      {
        if ranges[i].end >= vma.start {
          assert all[i] in all;
          assert ranges[i].owner == Wrapper(original);
          ranges := ranges[i := ranges[i].(owner := Wrapper(w))];
        }
        i := i + 1;
      }
      assert forall k :: i <= k < |all| ==> all[k].start > vma.end - 1;
    }

    /** uvm_vm_open_managed.  The kernel passes a copy of the enabled vma v: of
    another process, elsewhere, or one side of v cut at `at`. */
    method OpenManaged(v: nat, child: nat, vma: Vma, gotWrapper: bool, gotSplit: bool, ghost at: nat, ghost below: bool)
      requires Inv(Value()) && v in vmas && vmas[v].ops.Managed? && child !in vmas
      requires IsKernelCopy(vmas[v], vma, at, below)
      modifies this
      ensures Value() == Open(old(Value()), child, vma, gotWrapper, gotSplit)
    {
      OriginalFound(Value(), v);
      var original := wrappers[vma.wrapper.value];
      if vma.mm != vmas[original].mm || (vma.start != vmas[original].start && vma.end != vmas[original].end) {
        DisableManaged(child, vma.(wrapper := None));
      } else {
        OpenFacts(Value(), v, vma, at, below);
        OpenOfPiece(Value(), v, child, vma, at, below, gotWrapper, gotSplit);
        var newEnd := if vma.start == vmas[original].start then vma.end - 1 else vma.start - 1;
        SplitOpened(original, child, vma, newEnd, gotWrapper, gotSplit);
      }
    }

    /** The split case, with its assertions about the range at the boundary. */
    method SplitOpened(original: nat, child: nat, vma: Vma, newEnd: nat, gotWrapper: bool, gotSplit: bool)
      requires vma.start < vma.end && Boundary(Value(), original, newEnd + 1)
      requires vmas[original].start <= vma.start && vma.end <= vmas[original].end
      modifies this
      ensures Value() == if !gotWrapper then OpenFailure(old(Value()), original, child, vma.(wrapper := None))
                         else OpenSplit(WithWrapper(old(Value()), child), original, child,
                                        vma.(wrapper := Some(old(nextWrapper))), newEnd, gotSplit)
    {
      if !gotWrapper {
        OpenFailed(original, child, vma.(wrapper := None));
        return;
      }
      var w := nextWrapper;
      wrappers, nextWrapper := wrappers[w := child], w + 1;
      SplitWrapped(original, child, vma.(wrapper := Some(w)), newEnd, gotSplit);
    }

    /** The same once the child has its wrapper. */
    method SplitWrapped(original: nat, child: nat, vma: Vma, newEnd: nat, gotSplit: bool)
      requires vma.start < vma.end && vma.wrapper.Some? && Boundary(Value(), original, newEnd + 1)
      requires vmas[original].start <= vma.start && vma.end <= vmas[original].end
      modifies this
      ensures Value() == OpenSplit(old(Value()), original, child, vma, newEnd, gotSplit)
    {
      var i := Find(ranges, newEnd).value;
      if ranges[i].end != newEnd && !gotSplit {
        OpenFailed(original, child, vma);
      } else {
        ShareOut(original, vma, vma.wrapper.value, i, newEnd);
        vmas := vmas[child := vma];
      }
    }

    /** Cut the range at the boundary if one spans it, then point the child's ranges to it. */
    method ShareOut(original: nat, vma: Vma, w: nat, i: nat, newEnd: nat)
      requires original in vmas && vma.start < vma.end
      requires vmas[original].start <= vma.start && vma.end <= vmas[original].end
      requires Sorted(ranges) && ExactlyTiled(ranges, vmas[original]) && Aligned(newEnd + 1)
      requires i < |ranges| && Contains(ranges[i], newEnd) && ranges[i].owner == Wrapper(vmas[original].wrapper.value)
      modifies this`ranges
      ensures ranges == Mark(if old(ranges)[i].end != newEnd then SplitAt(old(ranges), i, newEnd) else old(ranges),
                             vma.start, vma.end - 1, Wrapper(w))
    {
      if ranges[i].end != newEnd {
        assert ranges[i].start < newEnd < ranges[i].end;
        OwnersAfterCut(ranges, i, newEnd, vmas[original]);
        ranges := SplitAt(ranges, i, newEnd);
      }
      Repoint(vma, w, vmas[original].wrapper.value);
    }
  }
}
