/** Runs of a state machine, and the induction that carries an invariant along a whole run. */
module Runs {

  ghost predicate IsRun<S(!new)>(run: seq<S>, init: S -> bool, next: (S, S) -> bool) {
    && run != []
    && init(run[0])
    && forall i :: 0 <= i < |run| - 1 ==> next(run[i], run[i + 1])
  }

  lemma {:induction false} InvariantAt<S(!new)>(
      run: seq<S>, init: S -> bool, next: (S, S) -> bool, inv: S -> bool, i: nat)
    requires IsRun(run, init, next)
    requires forall s :: init(s) ==> inv(s)
    requires forall s, s' :: inv(s) && next(s, s') ==> inv(s')
    requires i < |run|
    ensures inv(run[i])
  {
    if i == 0 {
    } else {
      InvariantAt(run, init, next, inv, i - 1);
      assert next(run[i - 1], run[i - 1 + 1]);
    }
  }

  /** Every state of every run satisfies an inductive invariant. */
  lemma InvariantOnRun<S(!new)>(run: seq<S>, init: S -> bool, next: (S, S) -> bool, inv: S -> bool)
    requires IsRun(run, init, next)
    requires forall s :: init(s) ==> inv(s)
    requires forall s, s' :: inv(s) && next(s, s') ==> inv(s')
    ensures forall i :: 0 <= i < |run| ==> inv(run[i])
  {
    forall i | 0 <= i < |run| ensures inv(run[i]) {
      InvariantAt(run, init, next, inv, i);
    }
  }

  /** What every step keeps, once true, stays true for the rest of the run. */
  lemma {:induction false} StaysOnRun<S(!new)>(
      run: seq<S>, init: S -> bool, next: (S, S) -> bool, inv: S -> bool, p: S -> bool, i: nat, j: nat)
    requires IsRun(run, init, next) && forall k :: 0 <= k < |run| ==> inv(run[k])
    requires forall s, s' :: inv(s) && p(s) && next(s, s') ==> p(s')
    requires i <= j < |run| && p(run[i])
    ensures p(run[j])
  {
    if i < j {
      StaysOnRun(run, init, next, inv, p, i, j - 1);
      assert next(run[j - 1], run[j - 1 + 1]);
    }
  }

  // ---- runs with the moves that made them ----

  /** Thread or party `t` takes step `e`. */
  datatype Move<E> = Move(t: nat, e: E)

  ghost predicate IsTrace<S(!new), M(!new)>(run: seq<S>, trace: seq<M>, init: S -> bool, step: (S, M, S) -> bool) {
    && |run| == |trace| + 1 && init(run[0])
    && forall k :: 0 <= k < |trace| ==> step(run[k], trace[k], run[k + 1])
  }

  /** Every run has a trace, so what holds of all traces holds of all runs. */
  lemma {:induction false} TraceOf<S(!new), M(!new)>(
      run: seq<S>, init: S -> bool, next: (S, S) -> bool, step: (S, M, S) -> bool) returns (trace: seq<M>)
    requires IsRun(run, init, next)
    requires forall s, s' :: next(s, s') ==> exists m :: step(s, m, s')
    ensures IsTrace(run, trace, init, step)
  {
    var n := |run| - 1;
    if n == 0 {
      return [];
    }
    var before := run[..n];
    forall i | 0 <= i < |before| - 1 ensures next(before[i], before[i + 1]) {
      assert next(run[i], run[i + 1]);
    }
    trace := TraceOf(before, init, next, step);
    assert next(run[n - 1], run[n - 1 + 1]);
    var m :| step(run[n - 1], m, run[n]);
    trace := trace + [m];
  }

  lemma {:induction false} TraceInvariant<S(!new), M(!new)>(
      run: seq<S>, trace: seq<M>, init: S -> bool, step: (S, M, S) -> bool, inv: S -> bool, i: nat)
    requires IsTrace(run, trace, init, step) && i < |run|
    requires forall s :: init(s) ==> inv(s)
    requires forall s, m, s' :: inv(s) && step(s, m, s') ==> inv(s')
    ensures inv(run[i])
  {
    if i > 0 {
      TraceInvariant(run, trace, init, step, inv, i - 1);
      assert step(run[i - 1], trace[i - 1], run[i - 1 + 1]);
    }
  }

  lemma TraceIsRun<S(!new), M(!new)>(
      run: seq<S>, trace: seq<M>, init: S -> bool, step: (S, M, S) -> bool, next: (S, S) -> bool)
    requires IsTrace(run, trace, init, step)
    requires forall s, m, s' :: step(s, m, s') ==> next(s, s')
    ensures IsRun(run, init, next)
  {
    forall i | 0 <= i < |run| - 1 ensures next(run[i], run[i + 1]) {
      assert step(run[i], trace[i], run[i + 1]);
    }
  }
}
