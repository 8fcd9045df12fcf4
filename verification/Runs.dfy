/** Runs of several threads: a step function says what each thread does next, if it
    can move at all. */
module Runs {
  import opened Chunk

  type StepFn<!S, !T> = (S, T) -> Option<S>

  /** The state after an interleaving, if every step was possible. */
  function Run<S, T>(next: StepFn<S, T>, x: S, ts: seq<T>): Option<S>
    decreases |ts|
  {
    if ts == [] then Some(x)
    else match next(x, ts[0]) case None => None case Some(y) => Run(next, y, ts[1..])
  }

  lemma {:induction false} RunAppend<S, T>(next: StepFn<S, T>, x: S, ts: seq<T>, more: seq<T>)
    requires Run(next, x, ts).Some?
    ensures Run(next, x, ts + more) == Run(next, Run(next, x, ts).value, more)
    decreases |ts|
  {
    if ts == [] {
      assert ts + more == more;
    } else {
      assert (ts + more)[0] == ts[0] && (ts + more)[1..] == ts[1..] + more;
      RunAppend(next, next(x, ts[0]).value, ts[1..], more);
    }
  }

  lemma RunFirst<S, T>(next: StepFn<S, T>, x: S, t: T, ts: seq<T>)
    requires next(x, t).Some?
    ensures Run(next, x, [t] + ts) == Run(next, next(x, t).value, ts)
  {
    assert ([t] + ts)[1..] == ts;
  }

  /** No thread can move. */
  ghost predicate Ended<S, T(!new)>(next: StepFn<S, T>, x: S) {
    forall t: T :: next(x, t).None?
  }

  ghost predicate Finishes<S, T>(next: StepFn<S, T>, done: S -> bool, x: S, ts: seq<T>) {
    Run(next, x, ts).Some? && done(Run(next, x, ts).value)
  }

  /** Every step keeps the invariant and uses up part of what is left. */
  ghost predicate Decreasing<S(!new), T(!new)>(next: StepFn<S, T>, inv: S -> bool, left: S -> int) {
    && (forall x: S :: inv(x) ==> left(x) >= 0)
    && (forall x: S, t: T :: inv(x) && next(x, t).Some? ==>
          inv(next(x, t).value) && left(next(x, t).value) < left(x))
  }

  lemma {:induction false} RunKeeps<S(!new), T(!new)>(
      next: StepFn<S, T>, inv: S -> bool, left: S -> int, x: S, ts: seq<T>)
    requires Decreasing(next, inv, left) && inv(x) && Run(next, x, ts).Some?
    ensures inv(Run(next, x, ts).value)
    ensures left(Run(next, x, ts).value) + |ts| <= left(x)
    decreases |ts|
  {
    if ts != [] {
      RunKeeps(next, inv, left, next(x, ts[0]).value, ts[1..]);
    }
  }

  /** From every reachable state some continuation leads to an end. */
  lemma {:induction false} CanEnd<S(!new), T(!new)>(
      next: StepFn<S, T>, inv: S -> bool, left: S -> int, x: S) returns (ts: seq<T>)
    requires Decreasing(next, inv, left) && inv(x)
    ensures Run(next, x, ts).Some? && inv(Run(next, x, ts).value) && Ended(next, Run(next, x, ts).value)
    decreases left(x)
  {
    ts := [];
    if !Ended(next, x) {
      var t :| next(x, t).Some?;
      ts := CanEnd(next, inv, left, next(x, t).value);
      RunFirst(next, x, t, ts);
      ts := [t] + ts;
    }
  }

  /** If a run ends only when everybody is done, it can be continued until then. */
  lemma CanFinish<S(!new), T(!new)>(
      next: StepFn<S, T>, inv: S -> bool, left: S -> int, done: S -> bool, x: S, ts: seq<T>)
    requires Decreasing(next, inv, left) && inv(x) && Run(next, x, ts).Some?
    requires forall y: S :: inv(y) && Ended(next, y) ==> done(y)
    ensures exists more :: Finishes(next, done, x, ts + more)
  {
    RunKeeps(next, inv, left, x, ts);
    var more := CanEnd(next, inv, left, Run(next, x, ts).value);
    RunAppend(next, x, ts, more);
    assert Finishes(next, done, x, ts + more);
  }
}
