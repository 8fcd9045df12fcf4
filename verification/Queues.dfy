/** What travels on a queue between two threads: the elements of a sequence in
    order, then one poison pill (None). */
module Queues {
  import opened Chunk

  function Item<T>(xs: seq<T>, i: nat): Option<T> {
    if i < |xs| then Some(xs[i]) else None
  }

  /** The queue holds elements t, t + 1, ... of what travels on it. */
  ghost predicate Window<T>(xs: seq<T>, q: seq<Option<T>>, t: int) {
    && 0 <= t && t + |q| <= |xs| + 1
    && forall i :: 0 <= i < |q| ==> q[i] == Item(xs, t + i)
  }

  lemma Push<T>(xs: seq<T>, q: seq<Option<T>>, t: int)
    requires Window(xs, q, t) && t + |q| <= |xs|
    ensures Window(xs, q + [Item(xs, t + |q|)], t)
  {
  }

  lemma Pop<T>(xs: seq<T>, q: seq<Option<T>>, t: int)
    requires Window(xs, q, t) && q != []
    ensures q[0] == Item(xs, t) && Window(xs, q[1..], t + 1)
  {
  }

  /** The elements on a queue, without the pill. */
  function Waiting<T>(q: seq<Option<T>>): seq<T> {
    if q == [] then [] else (if q[0].Some? then [q[0].value] else []) + Waiting(q[1..])
  }

  function Upto(i: int, n: nat): int { if i <= n then i else n }

  lemma {:induction false} WaitingWindow<T>(xs: seq<T>, q: seq<Option<T>>, t: nat)
    requires Window(xs, q, t)
    ensures t <= |xs| ==> Waiting(q) == xs[t..Upto(t + |q|, |xs|)]
    ensures t > |xs| ==> Waiting(q) == []
    decreases |q|
  {
    if q != [] {
      Pop(xs, q, t);
      WaitingWindow(xs, q[1..], t + 1);
    }
  }
}
