/** What the modules share: options, and lists of identifiers without repetition. */
module Common {

  datatype Option<T> = None | Some(value: T)

  function One(b: bool): (n: nat) {
    if b then 1 else 0
  }

  predicate NoDup(xs: seq<nat>) {
    forall i, j :: 0 <= i < j < |xs| ==> xs[i] != xs[j]
  }

  /** Taking the head of a list takes the only copy of it. */
  lemma TakenOnce(xs: seq<nat>, x: nat)
    requires xs != [] && NoDup(xs)
    ensures x in xs[1..] <==> x in xs && x != xs[0]
    ensures NoDup(xs[1..])
  {
    if x in xs && x != xs[0] {
      var i :| 0 <= i < |xs| && xs[i] == x;
      assert xs[1..][i - 1] == x;
    }
  }

  /** Adding at either end. */
  lemma Added(xs: seq<nat>, x: nat, y: nat)
    ensures y in [x] + xs <==> y == x || y in xs
    ensures y in xs + [x] <==> y == x || y in xs
  {
  }

  lemma AddedOnce(xs: seq<nat>, x: nat)
    requires NoDup(xs) && x !in xs
    ensures NoDup(xs + [x]) && NoDup([x] + xs)
  {
  }

  lemma Regroup<T>(a: seq<T>, b: seq<T>, c: seq<T>)
    ensures a + (b + c) == (a + b) + c
  {
  }

  /** The steps acts lead through the states of run. */
  predicate Path<S, A>(step: (S, A, S) -> bool, run: seq<S>, acts: seq<A>) {
    |run| == |acts| + 1 && forall i :: 0 <= i < |acts| ==> step(run[i], acts[i], run[i + 1])
  }

  lemma Extend<S, A>(step: (S, A, S) -> bool, run: seq<S>, acts: seq<A>, a: A, s: S)
      returns (run': seq<S>, acts': seq<A>)
    requires Path(step, run, acts) && step(run[|acts|], a, s)
    ensures Path(step, run', acts') && run'[|acts'|] == s && run'[0] == run[0] && run <= run'
  {
    run', acts' := run + [s], acts + [a];
  }

  lemma Extend3<S, A>(step: (S, A, S) -> bool, run: seq<S>, acts: seq<A>, a1: A, s1: S, a2: A, s2: S, a3: A, s3: S)
      returns (run': seq<S>, acts': seq<A>)
    requires Path(step, run, acts) && step(run[|acts|], a1, s1) && step(s1, a2, s2) && step(s2, a3, s3)
    ensures Path(step, run', acts') && run'[|acts'|] == s3 && run'[0] == run[0] && run <= run'
  {
    run', acts' := Extend(step, run, acts, a1, s1);
    run', acts' := Extend(step, run', acts', a2, s2);
    run', acts' := Extend(step, run', acts', a3, s3);
  }
}
