/** The single-producer single-consumer channel as a transition system: a ring
    buffer, a mutex, two condition variables and a poison flag, with one program
    counter per thread. A step is an unlocked test, a lock, a re-test, going to
    sleep, an index update, a signal or an unlock; the poison is a third party that
    sets its flag and signals twice, without the mutex. */
module Channel {
  import opened Arithmetic
  import opened Chunk

  // ---- The ring ----

  /** `cap` is the requested capacity plus the slot that always stays empty. */
  datatype Ring<T> = Ring(cap: nat, rd: nat, wr: nat, poisoned: bool, elts: seq<T>)

  ghost predicate WellSized<T>(r: Ring<T>) {
    r.rd < r.cap && r.wr < r.cap && |r.elts| == r.cap
  }

  function After(cap: nat, idx: nat): nat
    requires cap > 0
  {
    (idx + 1) % cap
  }

  /** channel_is_full and channel_is_empty: both are false once poisoned. */
  predicate IsFull<T>(r: Ring<T>)
    requires r.cap > 0
  {
    r.rd == After(r.cap, r.wr) && !r.poisoned
  }

  predicate IsEmpty<T>(r: Ring<T>) {
    r.rd == r.wr && !r.poisoned
  }

  function Store<T>(r: Ring<T>, slot: nat, v: T): Ring<T>
    requires slot < |r.elts|
  {
    r.(elts := r.elts[slot := v])
  }

  function Commit<T>(r: Ring<T>): Ring<T>
    requires r.cap > 0
  {
    r.(wr := After(r.cap, r.wr))
  }

  function Release<T>(r: Ring<T>): Ring<T>
    requires r.cap > 0
  {
    r.(rd := After(r.cap, r.rd))
  }

  /** The memory behind a channel, and what a thread does to it in one step. */
  class RingBuffer<T> {
    const cap: nat
    const elts: array<T>
    var rd: nat
    var wr: nat
    var poisoned: bool

    ghost function View(): Ring<T>
      reads this, elts
    {
      Ring(cap, rd, wr, poisoned, elts[..])
    }

    ghost predicate Valid()
      reads this, elts
    {
      WellSized(View())
    }

    /** channel_new: one slot more than the capacity asked for. */
    constructor (capacity: nat, blank: T)
      ensures Valid() && View() == Ring(capacity + 1, 0, 0, false, seq(capacity + 1, _ => blank))
      ensures fresh(elts)
    {
      cap := capacity + 1;
      elts := new T[capacity + 1](_ => blank);
      rd, wr, poisoned := 0, 0, false;
    }

    method Fill(slot: nat, v: T)
      requires Valid() && slot < cap
      modifies elts
      ensures Valid() && View() == Store(old(View()), slot, v)
    {
      elts[slot] := v;
    }

    /** The locked part of channel_send_reserved. */
    method Advance() returns (wasEmpty: bool)
      requires Valid()
      modifies `wr
      ensures Valid() && View() == Commit(old(View())) && wasEmpty == IsEmpty(old(View()))
    {
      wasEmpty := rd == wr && !poisoned;
      wr := After(cap, wr);
    }

    /** The locked part of channel_ack. */
    method Recycle() returns (wasFull: bool)
      requires Valid()
      modifies `rd
      ensures Valid() && View() == Release(old(View())) && wasFull == IsFull(old(View()))
    {
      wasFull := rd == After(cap, wr) && !poisoned;
      rd := After(cap, rd);
    }

    method Poison()
      requires Valid()
      modifies `poisoned
      ensures Valid() && View() == old(View()).(poisoned := true)
    {
      poisoned := true;
    }
  }

  // ---- Threads ----

  datatype Owner = Free | ByProducer | ByConsumer

  /** Where the producer is: in channel_reserve, with a reserved slot, or in
      channel_send_reserved. PGoing: about to wait, the re-test done and the mutex
      held. PNull: a call failed because of the poison. */
  datatype PPc =
    | PCheck | PTest | PLock | PRetest | PGoing | PAsleep | PWoken | PUnlock | PCheck2
    | PReserved(slot: nat) | PFilled(slot: nat)
    | PSendLock | PUpdate | PSignal(wasEmpty: bool) | PSendUnlock | PNull

  /** Where the consumer is: in channel_peek, with a peeked slot and the element
      it read there, or in channel_ack. */
  datatype CPc<T> =
    | CCheck | CTest | CLock | CRetest | CGoing | CAsleep | CWoken | CUnlock | CCheck2
    | CPeeked(slot: nat, elt: T)
    | CAckLock(elt: T) | CUpdate(elt: T) | CSignal(wasFull: bool) | CAckUnlock | CNull

  /** Where channel_poison is: not running, or about to signal either side. */
  datatype KPc = KIdle | KSignalSend | KSignalRecv

  /** sent: the elements committed so far; acked: the elements the consumer
      peeked and acknowledged, as it read them. */
  datatype Chan<T> = Chan(
    ring: Ring<T>, mutex: Owner, p: PPc, c: CPc<T>, k: KPc, sent: seq<T>, acked: seq<T>)

  function Initial<T>(capacity: nat, elts: seq<T>): Chan<T>
    requires |elts| == capacity + 1
  {
    Chan(Ring(capacity + 1, 0, 0, false, elts), Free, PCheck, CCheck, KIdle, [], [])
  }

  /** One step of the producer; `v` is what it writes when it fills a slot. None
      when it is blocked. */
  function ProducerStep<T>(s: Chan<T>, v: T): Option<Chan<T>>
    requires WellSized(s.ring)
  {
    match s.p
    case PCheck => Some(s.(p := if s.ring.poisoned then PNull else PTest))
    case PTest => Some(s.(p := if IsFull(s.ring) then PLock else PCheck2))
    case PLock => if s.mutex == Free then Some(s.(mutex := ByProducer, p := PRetest)) else None
    case PRetest => Some(s.(p := if IsFull(s.ring) then PGoing else PUnlock))
    case PGoing => Some(s.(mutex := Free, p := PAsleep))
    case PAsleep => None
    case PWoken => if s.mutex == Free then Some(s.(mutex := ByProducer, p := PRetest)) else None
    case PUnlock => Some(s.(mutex := Free, p := PCheck2))
    case PCheck2 => Some(s.(p := if s.ring.poisoned then PNull else PReserved(s.ring.wr)))
    case PReserved(slot) =>
      if slot < s.ring.cap then Some(s.(ring := Store(s.ring, slot, v), p := PFilled(slot))) else None
    case PFilled(slot) => Some(s.(p := if s.ring.poisoned || slot != s.ring.wr then PNull else PSendLock))
    case PSendLock => if s.mutex == Free then Some(s.(mutex := ByProducer, p := PUpdate)) else None
    case PUpdate =>
      Some(s.(ring := Commit(s.ring), p := PSignal(IsEmpty(s.ring)), sent := s.sent + [s.ring.elts[s.ring.wr]]))
    case PSignal(wasEmpty) =>
      Some(s.(p := PSendUnlock, c := if wasEmpty && s.c == CAsleep then CWoken else s.c))
    case PSendUnlock => Some(s.(mutex := Free, p := PCheck))
    case PNull => None
  }

  function ConsumerStep<T>(s: Chan<T>): Option<Chan<T>>
    requires WellSized(s.ring)
  {
    match s.c
    case CCheck => Some(s.(c := if s.ring.poisoned then CNull else CTest))
    case CTest => Some(s.(c := if IsEmpty(s.ring) then CLock else CCheck2))
    case CLock => if s.mutex == Free then Some(s.(mutex := ByConsumer, c := CRetest)) else None
    case CRetest => Some(s.(c := if IsEmpty(s.ring) then CGoing else CUnlock))
    case CGoing => Some(s.(mutex := Free, c := CAsleep))
    case CAsleep => None
    case CWoken => if s.mutex == Free then Some(s.(mutex := ByConsumer, c := CRetest)) else None
    case CUnlock => Some(s.(mutex := Free, c := CCheck2))
    case CCheck2 =>
      Some(s.(c := if s.ring.poisoned then CNull else CPeeked(s.ring.rd, s.ring.elts[s.ring.rd])))
    case CPeeked(slot, elt) => Some(s.(c := if s.ring.poisoned || slot != s.ring.rd then CNull else CAckLock(elt)))
    case CAckLock(elt) => if s.mutex == Free then Some(s.(mutex := ByConsumer, c := CUpdate(elt))) else None
    case CUpdate(elt) =>
      Some(s.(ring := Release(s.ring), c := CSignal(IsFull(s.ring)), acked := s.acked + [elt]))
    case CSignal(wasFull) =>
      Some(s.(c := CAckUnlock, p := if wasFull && s.p == PAsleep then PWoken else s.p))
    case CAckUnlock => Some(s.(mutex := Free, c := CCheck))
    case CNull => None
  }

  /** channel_poison's signals, each to whoever sleeps at that moment. */
  function PoisonStep<T>(s: Chan<T>): Option<Chan<T>> {
    match s.k
    case KIdle => None
    case KSignalSend => Some(s.(k := KSignalRecv, p := if s.p == PAsleep then PWoken else s.p))
    case KSignalRecv => Some(s.(k := KIdle, c := if s.c == CAsleep then CWoken else s.c))
  }

  /** Who moves. WakeProducer and WakeConsumer are spurious wake-ups. `Again`: the
      client asks anew although it still holds a slot it has not passed on, or after
      a failure. */
  datatype Move<T> =
    | Produce(v: T) | Consume | WakeProducer | WakeConsumer | Poison | PoisonSignal
    | ProducerAgain | ConsumerAgain

  function Next<T>(s: Chan<T>, m: Move<T>): Option<Chan<T>>
    requires WellSized(s.ring)
  {
    match m
    case Produce(v) => ProducerStep(s, v)
    case Consume => ConsumerStep(s)
    case WakeProducer => if s.p == PAsleep then Some(s.(p := PWoken)) else None
    case WakeConsumer => if s.c == CAsleep then Some(s.(c := CWoken)) else None
    case Poison => if s.k == KIdle then Some(s.(ring := s.ring.(poisoned := true), k := KSignalSend)) else None
    case PoisonSignal => PoisonStep(s)
    case ProducerAgain => if s.p.PReserved? || s.p.PFilled? || s.p.PNull? then Some(s.(p := PCheck)) else None
    case ConsumerAgain => if s.c.CPeeked? || s.c.CNull? then Some(s.(c := CCheck)) else None
  }

  /** No queued element lives in this slot. */
  ghost predicate SlotFree<T>(s: Chan<T>, slot: nat)
    requires s.ring.cap > 0
  {
    forall k :: 0 <= k < Count(s) ==> SlotOf(s, k) != slot
  }

  /** The slot of the k-th queued element. */
  function SlotOf<T>(s: Chan<T>, k: nat): nat
    requires s.ring.cap > 0
  {
    (|s.acked| + k) % s.ring.cap
  }

  // ---- Invariant ----

  function Count<T>(s: Chan<T>): int { |s.sent| - |s.acked| }

  predicate PHolds(p: PPc) {
    p == PRetest || p == PGoing || p == PUnlock || p == PUpdate || p.PSignal? || p == PSendUnlock
  }

  predicate CHolds<T>(c: CPc<T>) { c.CRetest? || c.CGoing? || c.CUnlock? || c.CUpdate? || c.CSignal? || c.CAckUnlock? }

  /** The ring holds exactly the elements sent and not yet acknowledged. */
  ghost predicate Fifo<T>(s: Chan<T>) {
    && WellSized(s.ring)
    && 0 <= Count(s) <= s.ring.cap - 1
    && s.acked == s.sent[..|s.acked|]
    && s.ring.rd == |s.acked| % s.ring.cap
    && s.ring.wr == |s.sent| % s.ring.cap
    && forall i :: |s.acked| <= i < |s.sent| ==> s.ring.elts[i % s.ring.cap] == s.sent[i]
  }

  ghost predicate Locking<T>(s: Chan<T>) {
    && (s.mutex == ByProducer <==> PHolds(s.p))
    && (s.mutex == ByConsumer <==> CHolds(s.c))
  }

  predicate Room<T>(s: Chan<T>) { Count(s) < s.ring.cap - 1 }

  /** What each side may rely on at its program point. */
  ghost predicate Points<T>(s: Chan<T>)
    requires Fifo(s)
  {
    && (s.p == PUnlock || s.p == PCheck2 ==> Room(s) || s.ring.poisoned)
    && (s.p.PReserved? || s.p.PFilled? ==> Room(s) && s.p.slot == s.ring.wr)
    && (s.p == PSendLock || s.p == PUpdate ==> Room(s))
    && (s.c.CUnlock? || s.c.CCheck2? ==> Count(s) > 0 || s.ring.poisoned)
    && (s.c.CPeeked? ==> s.c.slot == s.ring.rd)
    && (s.c.CPeeked? || s.c.CAckLock? || s.c.CUpdate? ==> Count(s) > 0 && s.c.elt == s.sent[|s.acked|])
    && (s.p == PNull || s.c == CNull ==> s.ring.poisoned)
  }

  /** About to sleep or asleep, not woken. */
  predicate PSleeps(p: PPc) { p == PGoing || p == PAsleep }

  predicate CSleeps<T>(c: CPc<T>) { c.CGoing? || c.CAsleep? }

  /** A sleeper that has not been woken has nothing to do, unless the other side
      is just about to signal it. */
  ghost predicate Wakeups<T>(s: Chan<T>) {
    !s.ring.poisoned ==>
      && (CSleeps(s.c) ==> Count(s) == 0 || s.p == PSignal(true))
      && (PSleeps(s.p) ==> !Room(s) || s.c == CSignal(true))
  }

  /** A sleeper that the poison's signal has passed over is not signalled by the
      other side either. */
  ghost predicate Passed<T>(s: Chan<T>) {
    && (s.k != KIdle ==> s.ring.poisoned)
    && (s.ring.poisoned && s.k != KSignalSend && PSleeps(s.p) ==> s.c != CSignal(true))
    && (s.ring.poisoned && s.k == KIdle && CSleeps(s.c) ==> s.p != PSignal(true))
  }

  ghost predicate Inv<T>(s: Chan<T>) {
    Fifo(s) && Locking(s) && Points(s) && Wakeups(s) && Passed(s)
  }

  // ---- Index tests ----

  /** The index tests say exactly how many elements are queued. */
  lemma TestsCount<T>(s: Chan<T>)
    requires Fifo(s)
    ensures s.ring.rd == s.ring.wr <==> Count(s) == 0
    ensures s.ring.rd == After(s.ring.cap, s.ring.wr) <==> !Room(s)
    ensures After(s.ring.cap, s.ring.wr) == (|s.sent| + 1) % s.ring.cap
    ensures After(s.ring.cap, s.ring.rd) == (|s.acked| + 1) % s.ring.cap
  {
    var a, b, cap := |s.acked|, |s.sent|, s.ring.cap;
    ModNext(a, cap);
    ModNext(b, cap);
    if a < b { ModDistinct(a, b, cap); }
    if b + 1 < a + cap { ModDistinct(a, b + 1, cap); } else { ModTurn(a, cap); }
  }

  // ---- Preservation ----

  lemma StoreKeeps<T>(s: Chan<T>, v: T)
    requires Fifo(s) && Room(s)
    ensures Fifo(s.(ring := Store(s.ring, s.ring.wr, v)))
    ensures Count(s) > 0 ==> s.ring.rd != s.ring.wr
  {
    forall i | |s.acked| <= i < |s.sent|
      ensures i % s.ring.cap != s.ring.wr
    {
      ModDistinct(i, |s.sent|, s.ring.cap);
    }
  }

  lemma CommitKeeps<T>(s: Chan<T>)
    requires Fifo(s) && Room(s)
    ensures Fifo(s.(ring := Commit(s.ring), sent := s.sent + [s.ring.elts[s.ring.wr]]))
  {
    TestsCount(s);
  }

  lemma ReleaseKeeps<T>(s: Chan<T>, elt: T)
    requires Fifo(s) && Count(s) > 0 && elt == s.sent[|s.acked|]
    ensures Fifo(s.(ring := Release(s.ring), acked := s.acked + [elt]))
  {
    TestsCount(s);
    assert s.sent[..|s.acked| + 1] == s.sent[..|s.acked|] + [elt];
  }

  /** Steps that write a slot or move an index. */
  lemma ProducerMoves<T>(s: Chan<T>, v: T)
    requires Inv(s) && (s.p.PReserved? || s.p == PUpdate)
    ensures ProducerStep(s, v).Some? && Inv(ProducerStep(s, v).value)
  {
    TestsCount(s);
    if s.p.PReserved? {
      StoreKeeps(s, v);
    } else {
      CommitKeeps(s);
    }
  }

  /** Steps that leave the ring alone. */
  lemma ProducerWaits<T>(s: Chan<T>, v: T)
    requires Inv(s) && !s.p.PReserved? && s.p != PUpdate && ProducerStep(s, v).Some?
    ensures Inv(ProducerStep(s, v).value)
  {
    TestsCount(s);
    SameRing(s, ProducerStep(s, v).value);
  }

  lemma SameRing<T>(s: Chan<T>, s': Chan<T>)
    requires Fifo(s) && s'.ring == s.ring && s'.sent == s.sent && s'.acked == s.acked
    ensures Fifo(s')
  {
  }

  lemma ConsumerMoves<T>(s: Chan<T>)
    requires Inv(s) && s.c.CUpdate?
    ensures ConsumerStep(s).Some? && Inv(ConsumerStep(s).value)
  {
    TestsCount(s);
    ReleaseKeeps(s, s.c.elt);
  }

  lemma ConsumerPeeks<T>(s: Chan<T>)
    requires Inv(s) && s.c.CCheck2?
    ensures Inv(ConsumerStep(s).value)
  {
    TestsCount(s);
    SameRing(s, ConsumerStep(s).value);
    if !s.ring.poisoned {
      assert s.ring.elts[|s.acked| % s.ring.cap] == s.sent[|s.acked|];
    }
  }

  lemma ConsumerTests<T>(s: Chan<T>)
    requires Inv(s) && (s.c.CTest? || s.c.CRetest?)
    ensures Inv(ConsumerStep(s).value)
  {
    TestsCount(s);
    SameRing(s, ConsumerStep(s).value);
  }

  lemma ConsumerAcks<T>(s: Chan<T>)
    requires Inv(s) && (s.c.CPeeked? || s.c.CAckLock? || s.c.CSignal? || s.c.CAckUnlock?)
    requires ConsumerStep(s).Some?
    ensures Inv(ConsumerStep(s).value)
  {
    SameRing(s, ConsumerStep(s).value);
  }

  lemma ConsumerWaits<T>(s: Chan<T>)
    requires Inv(s) && (s.c.CCheck? || s.c.CLock? || s.c.CGoing? || s.c.CWoken? || s.c.CUnlock?)
    requires ConsumerStep(s).Some?
    ensures Inv(ConsumerStep(s).value)
  {
    SameRing(s, ConsumerStep(s).value);
  }

  lemma ConsumerKeeps<T>(s: Chan<T>)
    requires Inv(s) && ConsumerStep(s).Some?
    ensures Inv(ConsumerStep(s).value)
  {
    if s.c.CUpdate? {
      ConsumerMoves(s);
    } else if s.c.CCheck2? {
      ConsumerPeeks(s);
    } else if s.c.CTest? || s.c.CRetest? {
      ConsumerTests(s);
    } else if s.c.CPeeked? || s.c.CAckLock? || s.c.CSignal? || s.c.CAckUnlock? {
      ConsumerAcks(s);
    } else {
      ConsumerWaits(s);
    }
  }

  lemma ProducerKeeps<T>(s: Chan<T>, v: T)
    requires Inv(s) && ProducerStep(s, v).Some?
    ensures Inv(ProducerStep(s, v).value)
  {
    if s.p.PReserved? || s.p == PUpdate { ProducerMoves(s, v); } else { ProducerWaits(s, v); }
  }

  lemma PoisonKeeps<T>(s: Chan<T>)
    requires Inv(s) && Next(s, Poison).Some?
    ensures Inv(Next(s, Poison).value)
  {
  }

  lemma SignalKeeps<T>(s: Chan<T>)
    requires Inv(s) && s.k != KIdle
    ensures Inv(Next(s, PoisonSignal).value)
  {
    SameRing(s, Next(s, PoisonSignal).value);
  }

  lemma WakeKeeps<T>(s: Chan<T>, m: Move<T>)
    requires Inv(s) && (m.WakeProducer? || m.WakeConsumer?) && Next(s, m).Some?
    ensures Inv(Next(s, m).value)
  {
    SameRing(s, Next(s, m).value);
  }

  lemma AgainKeeps<T>(s: Chan<T>, m: Move<T>)
    requires Inv(s) && (m.ProducerAgain? || m.ConsumerAgain?) && Next(s, m).Some?
    ensures Inv(Next(s, m).value)
  {
    SameRing(s, Next(s, m).value);
  }

  lemma NextKeeps<T>(s: Chan<T>, m: Move<T>)
    requires Inv(s) && Next(s, m).Some?
    ensures Inv(Next(s, m).value)
  {
    match m
    case Produce(v) => ProducerKeeps(s, v);
    case Consume => ConsumerKeeps(s);
    case WakeProducer => WakeKeeps(s, m);
    case WakeConsumer => WakeKeeps(s, m);
    case Poison => PoisonKeeps(s);
    case PoisonSignal => SignalKeeps(s);
    case ProducerAgain => AgainKeeps(s, m);
    case ConsumerAgain => AgainKeeps(s, m);
  }

  /** The state after a run, if every move was possible when its turn came. */
  ghost function Run<T>(s: Chan<T>, ms: seq<Move<T>>): (r: Option<Chan<T>>)
    requires Inv(s)
    ensures r.Some? ==> Inv(r.value)
    decreases |ms|
  {
    if ms == [] then Some(s)
    else
      match Next(s, ms[0])
      case None => None
      case Some(s') => NextKeeps(s, ms[0]); Run(s', ms[1..])
  }

  lemma RunStep<T>(s: Chan<T>, m: Move<T>, s': Chan<T>, ms: seq<Move<T>>)
    requires Inv(s) && Next(s, m) == Some(s')
    ensures Inv(s') && Run(s, [m] + ms) == Run(s', ms)
  {
    NextKeeps(s, m);
    assert ([m] + ms)[1..] == ms;
  }

  lemma InitialInv<T>(capacity: nat, elts: seq<T>)
    requires |elts| == capacity + 1
    ensures Inv(Initial(capacity, elts))
  {
  }

  /** A state that some interleaving reaches from a new channel. */
  ghost predicate Reaches<T>(capacity: nat, elts: seq<T>, ms: seq<Move<T>>, s: Chan<T>)
    requires |elts| == capacity + 1
  {
    InitialInv(capacity, elts);
    Run(Initial(capacity, elts), ms) == Some(s)
  }

  lemma NextKeepsCap<T>(s: Chan<T>, m: Move<T>)
    requires WellSized(s.ring) && Next(s, m).Some?
    ensures Next(s, m).value.ring.cap == s.ring.cap
  {
  }

  lemma {:induction false} RunKeepsCap<T>(s: Chan<T>, ms: seq<Move<T>>)
    requires Inv(s)
    ensures Run(s, ms).Some? ==> Run(s, ms).value.ring.cap == s.ring.cap
    decreases |ms|
  {
    if ms != [] && Next(s, ms[0]).Some? {
      NextKeeps(s, ms[0]);
      NextKeepsCap(s, ms[0]);
      RunKeepsCap(Next(s, ms[0]).value, ms[1..]);
    }
  }

  // ---- Results ----

  function Queue<T>(s: Chan<T>): seq<T>
    requires 0 <= Count(s)
  {
    s.sent[|s.acked|..]
  }

  lemma FifoAt<T>(s: Chan<T>, k: nat)
    requires Fifo(s) && k < Count(s)
    ensures s.ring.elts[(s.ring.rd + k) % s.ring.cap] == s.sent[|s.acked| + k]
  {
    ModSum(|s.acked|, k, s.ring.cap);
  }

  /** In every interleaving, poison included: what the consumer acknowledged is a
      prefix of what was sent, at most the requested capacity is queued, and the
      slots from rd hold the difference in order. */
  lemma FifoAlways<T>(capacity: nat, elts: seq<T>, ms: seq<Move<T>>, s: Chan<T>)
    requires |elts| == capacity + 1 && Reaches(capacity, elts, ms, s)
    ensures s.acked <= s.sent && |Queue(s)| <= capacity && WellSized(s.ring)
    ensures forall k :: 0 <= k < |Queue(s)| ==> s.ring.elts[(s.ring.rd + k) % s.ring.cap] == Queue(s)[k]
  {
    InitialInv(capacity, elts);
    RunKeepsCap(Initial(capacity, elts), ms);
    forall k | 0 <= k < |Queue(s)|
      ensures s.ring.elts[(s.ring.rd + k) % s.ring.cap] == Queue(s)[k]
    {
      FifoAt(s, k);
    }
  }

  /** Each step refines a bounded FIFO queue: it leaves the queue alone, appends
      one element when there is room, or removes the first; and it will signal the
      other side exactly if the queue was empty, respectively full. */
  lemma RefinesQueue<T>(s: Chan<T>, m: Move<T>)
    requires Inv(s) && Next(s, m).Some?
    ensures Count(Next(s, m).value) >= 0
    ensures var q, q' := Queue(s), Queue(Next(s, m).value);
      || q' == q
      || (m.Produce? && s.p == PUpdate && |q| < s.ring.cap - 1 && q' == q + [s.ring.elts[s.ring.wr]]
          && Next(s, m).value.p == PSignal(q == [] && !s.ring.poisoned))
      || (m.Consume? && s.c.CUpdate? && q != [] && q[0] == s.c.elt && q' == q[1..]
          && Next(s, m).value.c == CSignal(|q| == s.ring.cap - 1 && !s.ring.poisoned))
  {
    if m.Produce? && s.p == PUpdate {
      CommitRefines(s, m.v);
    } else if m.Consume? && s.c.CUpdate? {
      ReleaseRefines(s);
    } else {
      HistoryKept(s, m);
    }
  }

  lemma CommitRefines<T>(s: Chan<T>, v: T)
    requires Inv(s) && s.p == PUpdate
    ensures var s' := ProducerStep(s, v).value;
      && Count(s') >= 0 && |Queue(s)| < s.ring.cap - 1 && Queue(s') == Queue(s) + [s.ring.elts[s.ring.wr]]
      && s'.p == PSignal(Queue(s) == [] && !s.ring.poisoned)
  {
    TestsCount(s);
    assert Queue(s) == [] <==> Count(s) == 0;
  }

  lemma ReleaseRefines<T>(s: Chan<T>)
    requires Inv(s) && s.c.CUpdate?
    ensures var s' := ConsumerStep(s).value;
      && Count(s') >= 0 && Queue(s) != [] && Queue(s)[0] == s.c.elt && Queue(s') == Queue(s)[1..]
      && s'.c == CSignal(|Queue(s)| == s.ring.cap - 1 && !s.ring.poisoned)
  {
    TestsCount(s);
  }

  lemma HistoryKept<T>(s: Chan<T>, m: Move<T>)
    requires WellSized(s.ring) && Next(s, m).Some?
    requires !(m.Produce? && s.p == PUpdate) && !(m.Consume? && s.c.CUpdate?)
    ensures Next(s, m).value.sent == s.sent && Next(s, m).value.acked == s.acked
  {
  }

  lemma NextSlotFree<T>(s: Chan<T>)
    requires Inv(s) && Room(s)
    ensures SlotFree(s, s.ring.wr)
  {
    forall k | 0 <= k < Count(s)
      ensures SlotOf(s, k) != s.ring.wr
    {
      ModDistinct(|s.acked| + k, |s.sent|, s.ring.cap);
    }
  }

  predicate Reserved(p: PPc) { p.PReserved? || p.PFilled? }

  /** The slot handed to the producer is free, the slot handed to the consumer
      is committed and still holds what it read, and they never coincide. */
  ghost predicate SlotsApart<T>(s: Chan<T>)
    requires Fifo(s)
  {
    && (Reserved(s.p) ==> SlotFree(s, s.p.slot))
    && (s.c.CPeeked? ==> Queue(s) != [] && s.c.slot < |s.ring.elts| && s.ring.elts[s.c.slot] == s.c.elt == Queue(s)[0])
    && (Reserved(s.p) && s.c.CPeeked? ==> s.p.slot != s.c.slot)
  }

  lemma InvSlotsApart<T>(s: Chan<T>)
    requires Inv(s)
    ensures SlotsApart(s)
  {
    if Reserved(s.p) {
      NextSlotFree(s);
      TestsCount(s);
    }
    if s.c.CPeeked? {
      assert s.ring.elts[|s.acked| % s.ring.cap] == s.sent[|s.acked|];
    }
  }

  /** In every interleaving, poison included. */
  lemma SlotExclusion<T>(capacity: nat, elts: seq<T>, ms: seq<Move<T>>, s: Chan<T>)
    requires |elts| == capacity + 1 && Reaches(capacity, elts, ms, s)
    ensures Fifo(s) && SlotsApart(s)
  {
    InitialInv(capacity, elts);
    InvSlotsApart(s);
  }

  /** No lost wake-up, in every interleaving without poison: an unsignalled
      sleeping consumer means an empty ring and an unsignalled sleeping producer a
      full one, except while the other side holds the mutex between its index
      update and its signal; so the two are never both asleep, and some thread can
      always move. */
  lemma NoLostWakeup<T>(capacity: nat, elts: seq<T>, ms: seq<Move<T>>, s: Chan<T>, v: T)
    requires |elts| == capacity + 1 && Reaches(capacity, elts, ms, s)
    requires capacity >= 1 && !s.ring.poisoned
    ensures s.c == CAsleep ==> Queue(s) == [] || (s.p == PSignal(true) && s.mutex == ByProducer)
    ensures s.p == PAsleep ==> |Queue(s)| == capacity || (s.c == CSignal(true) && s.mutex == ByConsumer)
    ensures !(s.p == PAsleep && s.c == CAsleep)
    ensures ProducerStep(s, v).Some? || ConsumerStep(s).Some?
  {
    InitialInv(capacity, elts);
    RunKeepsCap(Initial(capacity, elts), ms);
  }

  // ---- The poison ----

  /** Nobody starts to poison again and nobody wakes by itself. */
  predicate Quiet<T>(m: Move<T>) { !m.Poison? && !m.WakeProducer? && !m.WakeConsumer? }

  /** Once the poison's signal to the producer is behind, a producer sleeps if and
      only if it did before: no step takes it to sleep or wakes it. */
  lemma ProducerPassed<T>(s: Chan<T>, m: Move<T>)
    requires Inv(s) && s.ring.poisoned && s.k != KSignalSend && Quiet(m) && Next(s, m).Some?
    ensures PSleeps(Next(s, m).value.p) <==> PSleeps(s.p)
    ensures Next(s, m).value.ring.poisoned && Next(s, m).value.k != KSignalSend
  {
  }

  lemma ConsumerPassed<T>(s: Chan<T>, m: Move<T>)
    requires Inv(s) && s.ring.poisoned && s.k == KIdle && Quiet(m) && Next(s, m).Some?
    ensures CSleeps(Next(s, m).value.c) <==> CSleeps(s.c)
    ensures Next(s, m).value.ring.poisoned && Next(s, m).value.k == KIdle
  {
  }

  lemma {:induction false} ProducerPassedRun<T>(s: Chan<T>, ms: seq<Move<T>>)
    requires Inv(s) && s.ring.poisoned && s.k != KSignalSend && Run(s, ms).Some?
    requires forall i :: 0 <= i < |ms| ==> Quiet(ms[i])
    ensures PSleeps(Run(s, ms).value.p) <==> PSleeps(s.p)
    decreases |ms|
  {
    if ms != [] {
      NextKeeps(s, ms[0]);
      ProducerPassed(s, ms[0]);
      ProducerPassedRun(Next(s, ms[0]).value, ms[1..]);
    }
  }

  lemma {:induction false} ConsumerPassedRun<T>(s: Chan<T>, ms: seq<Move<T>>)
    requires Inv(s) && s.ring.poisoned && s.k == KIdle && Run(s, ms).Some?
    requires forall i :: 0 <= i < |ms| ==> Quiet(ms[i])
    ensures CSleeps(Run(s, ms).value.c) <==> CSleeps(s.c)
    decreases |ms|
  {
    if ms != [] {
      NextKeeps(s, ms[0]);
      ConsumerPassed(s, ms[0]);
      ConsumerPassedRun(Next(s, ms[0]).value, ms[1..]);
    }
  }

  lemma SignalWakes<T>(s: Chan<T>)
    requires Inv(s) && s.k != KIdle
    ensures var s' := Next(s, PoisonSignal).value;
      && s'.ring.poisoned && s'.k == (if s.k == KSignalSend then KSignalRecv else KIdle)
      && (s.k == KSignalSend ==> (PSleeps(s'.p) <==> s.p == PGoing))
      && (s.k == KSignalRecv ==> (CSleeps(s'.c) <==> s.c == CGoing))
  {
  }

  /** Whom the poison wakes, exactly: after its signal to one side, that side sleeps
      in any continuation if and only if, when the signal was sent, it had done its
      re-test and was about to wait; then it sleeps for good. */
  lemma PoisonMisses<T>(s: Chan<T>, ms: seq<Move<T>>)
    requires Inv(s) && s.k != KIdle && Run(s, [PoisonSignal] + ms).Some?
    requires forall i :: 0 <= i < |ms| ==> Quiet(ms[i])
    ensures var e := Run(s, [PoisonSignal] + ms).value;
      && (s.k == KSignalSend ==> (PSleeps(e.p) <==> s.p == PGoing))
      && (s.k == KSignalRecv ==> (CSleeps(e.c) <==> s.c == CGoing))
  {
    var s' := Next(s, PoisonSignal).value;
    RunStep(s, PoisonSignal, s', ms);
    SignalWakes(s);
    if s.k == KSignalSend {
      ProducerPassedRun(s', ms);
    } else {
      ConsumerPassedRun(s', ms);
    }
  }

  /** A consumer that finds the ring empty and is about to wait. */
  function Going<T>(s: Chan<T>): Chan<T> { s.(c := CGoing, mutex := ByConsumer) }

  lemma GoesToWait<T>(s: Chan<T>, ms: seq<Move<T>>)
    requires Inv(s) && s.c == CCheck && s.mutex == Free && Count(s) == 0 && !s.ring.poisoned && !s.p.PSignal?
    ensures Inv(Going(s)) && Run(s, [Consume, Consume, Consume, Consume] + ms) == Run(Going(s), ms)
  {
    TestsCount(s);
    var s1, s2, s3 := s.(c := CTest), s.(c := CLock), s.(c := CRetest, mutex := ByConsumer);
    RunStep(s, Consume, s1, [Consume, Consume, Consume] + ms);
    RunStep(s1, Consume, s2, [Consume, Consume] + ms);
    RunStep(s2, Consume, s3, [Consume] + ms);
    RunStep(s3, Consume, Going(s), ms);
    assert [Consume, Consume, Consume, Consume] + ms == [Consume] + ([Consume, Consume, Consume] + ms);
    assert [Consume, Consume, Consume] + ms == [Consume] + ([Consume, Consume] + ms);
    assert [Consume, Consume] + ms == [Consume] + ([Consume] + ms);
  }

  /** The poison passes whoever is about to wait. */
  lemma PoisonPasses<T>(s: Chan<T>, ms: seq<Move<T>>)
    requires Inv(s) && s.k == KIdle && !s.c.CAsleep? && s.p != PAsleep
    ensures var s' := s.(ring := s.ring.(poisoned := true));
      Inv(s') && Run(s, [Poison, PoisonSignal, PoisonSignal] + ms) == Run(s', ms)
  {
    var s1 := s.(ring := s.ring.(poisoned := true), k := KSignalSend);
    var s2, s3 := s1.(k := KSignalRecv), s1.(k := KIdle);
    RunStep(s, Poison, s1, [PoisonSignal, PoisonSignal] + ms);
    RunStep(s1, PoisonSignal, s2, [PoisonSignal] + ms);
    RunStep(s2, PoisonSignal, s3, ms);
    assert [Poison, PoisonSignal, PoisonSignal] + ms == [Poison] + ([PoisonSignal, PoisonSignal] + ms);
    assert [PoisonSignal, PoisonSignal] + ms == [PoisonSignal] + ([PoisonSignal] + ms);
  }

  /** Then it sleeps. */
  lemma FallsAsleep<T>(s: Chan<T>, ms: seq<Move<T>>)
    requires Inv(s) && s.c == CGoing
    ensures var s' := s.(c := CAsleep, mutex := Free);
      Inv(s') && Run(s, [Consume] + ms) == Run(s', ms)
  {
    RunStep(s, Consume, s.(c := CAsleep, mutex := Free), ms);
  }

  /** Such a waiter exists: a consumer that finds a new channel empty and is
      overtaken by the whole poison between its re-test and its wait. */
  lemma MissedWaiter<T>(capacity: nat, elts: seq<T>)
    requires |elts| == capacity + 1
    ensures exists ms, s ::
      Reaches(capacity, elts, ms, s) && s.ring.poisoned && s.k == KIdle && s.c == CAsleep
  {
    InitialInv(capacity, elts);
    var s0 := Initial(capacity, elts);
    var s1 := Going(s0);
    var s2 := s1.(ring := s1.ring.(poisoned := true));
    var end: seq<Move<T>> := [];
    var last := [Consume] + end;
    var late := [Poison, PoisonSignal, PoisonSignal] + last;
    GoesToWait(s0, late);
    PoisonPasses(s1, last);
    FallsAsleep(s2, end);
    assert Reaches(capacity, elts, [Consume, Consume, Consume, Consume] + late, s2.(c := CAsleep, mutex := Free));
  }

  // ---- Bounded progress ----

  function PWeight(p: PPc): nat {
    match p
    case PSignal(_) => 19 case PSendUnlock => 15 case PCheck => 14 case PTest => 13
    case PLock => 12 case PWoken => 12 case PRetest => 11 case PGoing => 10 case PAsleep => 9
    case PUnlock => 8 case PCheck2 => 7 case PReserved(_) => 6 case PFilled(_) => 5
    case PSendLock => 4 case PUpdate => 3 case PNull => 0
  }

  function CWeight<T>(c: CPc<T>): nat {
    match c
    case CSignal(_) => 19 case CAckUnlock => 15 case CCheck => 14 case CTest => 13
    case CLock => 12 case CWoken => 12 case CRetest => 11 case CGoing => 10 case CAsleep => 9
    case CUnlock => 8 case CCheck2 => 7 case CPeeked(_, _) => 6
    case CAckLock(_) => 4 case CUpdate(_) => 3 case CNull => 0
  }

  /** Every element sent or acknowledged pays for at most seventeen steps. */
  function Potential<T>(s: Chan<T>): int {
    PWeight(s.p) + CWeight(s.c) - 17 * (|s.sent| + |s.acked|)
  }

  lemma StepPays<T>(s: Chan<T>, m: Move<T>)
    requires WellSized(s.ring) && Next(s, m).Some? && (m.Produce? || m.Consume?)
    ensures Potential(Next(s, m).value) < Potential(s)
  {
    match m
    case Produce(v) => ProducerPays(s, v);
    case Consume => ConsumerPays(s);
  }

  lemma ProducerPays<T>(s: Chan<T>, v: T)
    requires WellSized(s.ring) && ProducerStep(s, v).Some?
    ensures Potential(ProducerStep(s, v).value) < Potential(s)
  {
  }

  lemma ConsumerPays<T>(s: Chan<T>)
    requires WellSized(s.ring) && ConsumerStep(s).Some?
    ensures Potential(ConsumerStep(s).value) < Potential(s)
  {
  }

  /** Without spurious wake-ups nobody spins: in every run, the number of steps is
      bounded by the number of elements sent and acknowledged. Together with
      NoLostWakeup, elements keep flowing for as long as both clients go on. */
  lemma BoundedWait<T>(s: Chan<T>, ms: seq<Move<T>>)
    requires Inv(s) && Run(s, ms).Some?
    requires forall i :: 0 <= i < |ms| ==> ms[i].Produce? || ms[i].Consume?
    ensures var e := Run(s, ms).value;
      |ms| <= 38 + 17 * (|e.sent| - |s.sent| + |e.acked| - |s.acked|)
  {
    PotentialFalls(s, ms);
  }

  lemma {:induction false} PotentialFalls<T>(s: Chan<T>, ms: seq<Move<T>>)
    requires Inv(s) && Run(s, ms).Some?
    requires forall i :: 0 <= i < |ms| ==> ms[i].Produce? || ms[i].Consume?
    ensures Potential(Run(s, ms).value) + |ms| <= Potential(s)
    decreases |ms|
  {
    if ms != [] {
      NextKeeps(s, ms[0]);
      StepPays(s, ms[0]);
      PotentialFalls(Next(s, ms[0]).value, ms[1..]);
    }
  }

  // ---- A producer that the poison misses ----

  lemma RunUnfold<T>(s: Chan<T>, ms: seq<Move<T>>)
    requires Inv(s) && ms != []
    ensures Run(s, ms).Some? ==> Next(s, ms[0]).Some?
    ensures Next(s, ms[0]).Some? ==>
      Inv(Next(s, ms[0]).value) && Run(s, ms) == Run(Next(s, ms[0]).value, ms[1..])
  {
    if Next(s, ms[0]).Some? {
      NextKeeps(s, ms[0]);
    }
  }

  lemma {:induction false} RunAppend<T>(s: Chan<T>, ms: seq<Move<T>>, more: seq<Move<T>>)
    requires Inv(s) && Run(s, ms).Some?
    ensures Run(s, ms + more) == Run(Run(s, ms).value, more)
    decreases |ms|
  {
    if ms == [] {
      assert ms + more == more;
    } else {
      var all := ms + more;
      assert all[0] == ms[0] && all[1..] == ms[1..] + more;
      RunUnfold(s, ms);
      RunUnfold(s, all);
      RunAppend(Next(s, ms[0]).value, ms[1..], more);
    }
  }

  /** The producer alone is running, and is awake. */
  ghost predicate Solo<T>(s: Chan<T>) {
    Inv(s) && s.c == CCheck && s.k == KIdle && !s.ring.poisoned && s.p != PAsleep
  }

  lemma SoloStep<T>(s: Chan<T>, v: T)
    requires Solo(s) && s.p != PGoing
    ensures var r := ProducerStep(s, v);
      && r.Some? && Solo(r.value) && r.value.ring.cap == s.ring.cap && r.value.acked == s.acked
      && Potential(r.value) < Potential(s)
  {
    ProducerKeeps(s, v);
    ProducerPays(s, v);
    NextKeepsCap(s, Produce(v));
  }

  lemma SoloBound<T>(s: Chan<T>)
    requires Inv(s)
    ensures Potential(s) >= -17 * (2 * |s.acked| + s.ring.cap)
  {
  }

  /** A producer left alone fills the ring and ends up about to wait. */
  lemma {:induction false} FillsRing<T>(s: Chan<T>, v: T) returns (ms: seq<Move<T>>)
    requires Solo(s)
    ensures Run(s, ms).Some? && Solo(Run(s, ms).value) && Run(s, ms).value.p == PGoing
    decreases Potential(s) + 17 * (2 * |s.acked| + s.ring.cap)
  {
    ms := [];
    if s.p != PGoing {
      var s' := ProducerStep(s, v).value;
      SoloStep(s, v);
      SoloBound(s');
      ms := FillsRing(s', v);
      RunStep(s, Produce(v), s', ms);
      ms := [Produce(v)] + ms;
    }
  }

  /** The waiter that hairgap can really lose, for the consumer of this channel is the
      one who poisons it: a producer that has filled a new channel of any capacity is
      overtaken by the whole poison between its re-test and its wait, and sleeps. */
  lemma MissedProducer<T>(capacity: nat, elts: seq<T>, v: T)
    requires |elts| == capacity + 1
    ensures exists ms, s ::
      Reaches(capacity, elts, ms, s) && s.ring.poisoned && s.k == KIdle && s.p == PAsleep && s.c == CCheck
  {
    InitialInv(capacity, elts);
    var s0 := Initial(capacity, elts);
    var ms := FillsRing(s0, v);
    var s1 := Run(s0, ms).value;
    var s2 := s1.(ring := s1.ring.(poisoned := true));
    var end: seq<Move<T>> := [];
    var last := [Produce(v)] + end;
    var late := [Poison, PoisonSignal, PoisonSignal] + last;
    PoisonPasses(s1, last);
    RunStep(s2, Produce(v), s2.(p := PAsleep, mutex := Free), end);
    RunAppend(s0, ms, late);
    assert Reaches(capacity, elts, ms + late, s2.(p := PAsleep, mutex := Free));
  }

  // ---- Calls that need not wait ----

  /** With room in the ring, channel_reserve hands out the next slot in three steps of
      its own, without the mutex; with an element in it, channel_peek hands out the
      first. */
  lemma ReserveAtOnce<T>(s: Chan<T>, v: T)
    requires Inv(s) && !s.ring.poisoned && s.p == PCheck && Room(s)
    ensures Run(s, [Produce(v), Produce(v), Produce(v)]) == Some(s.(p := PReserved(s.ring.wr)))
  {
    var end: seq<Move<T>> := [];
    var one := [Produce(v)] + end;
    var two := [Produce(v)] + one;
    TestsCount(s);
    RunStep(s, Produce(v), s.(p := PTest), two);
    RunStep(s.(p := PTest), Produce(v), s.(p := PCheck2), one);
    RunStep(s.(p := PCheck2), Produce(v), s.(p := PReserved(s.ring.wr)), end);
    assert [Produce(v), Produce(v), Produce(v)] == [Produce(v)] + two;
  }

  lemma PeekAtOnce<T>(s: Chan<T>)
    requires Inv(s) && !s.ring.poisoned && s.c == CCheck && Queue(s) != []
    ensures Run(s, [Consume, Consume, Consume]) == Some(s.(c := CPeeked(s.ring.rd, Queue(s)[0])))
  {
    var end: seq<Move<T>> := [];
    var one := [Consume] + end;
    var two := [Consume] + one;
    TestsCount(s);
    FifoAt(s, 0);
    DivisionIs(s.ring.rd, s.ring.cap, 0, s.ring.rd);
    RunStep(s, Consume, s.(c := CTest), two);
    RunStep(s.(c := CTest), Consume, s.(c := CCheck2), one);
    RunStep(s.(c := CCheck2), Consume, s.(c := CPeeked(s.ring.rd, Queue(s)[0])), end);
    assert [Consume, Consume, Consume] == [Consume] + two;
  }

  // ---- What the poison stops ----

  /** In channel_reserve: no slot has been handed out by this call. */
  predicate Reserving(p: PPc) { p != PNull && !Reserved(p) && !Committing(p) && !p.PSignal? && p != PSendUnlock }

  /** Past the poison check of channel_send_reserved, the element not yet counted. */
  predicate Committing(p: PPc) { p == PSendLock || p == PUpdate }

  /** In channel_peek. */
  predicate Peeking<T>(c: CPc<T>) { !c.CNull? && !c.CPeeked? && !Acknowledging(c) && !c.CSignal? && !c.CAckUnlock? }

  predicate Acknowledging<T>(c: CPc<T>) { c.CAckLock? || c.CUpdate? }

  function OneIf(b: bool): nat { if b then 1 else 0 }

  /** The other side wakes a sleeping producer, and the client may ask anew. */
  lemma ProducerLeftAlone<T>(s: Chan<T>, m: Move<T>)
    requires WellSized(s.ring) && Next(s, m).Some? && !m.Produce?
    ensures var s' := Next(s, m).value;
      && s'.sent == s.sent && (s.ring.poisoned ==> s'.ring.poisoned)
      && (s'.p == s.p || (s.p == PAsleep && s'.p == PWoken) || (m.ProducerAgain? && s'.p == PCheck))
      && (m.ProducerAgain? ==> Reserved(s.p) || s.p == PNull)
  {
  }

  /** After the poison: no slot is handed out and no send gets past its check. */
  lemma PoisonedProduce<T>(s: Chan<T>, v: T)
    requires WellSized(s.ring) && s.ring.poisoned && ProducerStep(s, v).Some?
    ensures var s' := ProducerStep(s, v).value;
      && s'.ring.poisoned
      && (Reserved(s'.p) ==> Reserved(s.p) && s'.p.slot == s.p.slot)
      && (Reserved(s.p) ==> s'.p.PFilled? || s'.p == PNull)
      && |s'.sent| + OneIf(Committing(s'.p)) <= |s.sent| + OneIf(Committing(s.p))
      && (s.p == PNull || Reserving(s.p) ==> s'.p == PNull || Reserving(s'.p))
      && |s'.sent| >= |s.sent|
  {
  }

  lemma PoisonedProducerStep<T>(s: Chan<T>, m: Move<T>)
    requires Inv(s) && s.ring.poisoned && Next(s, m).Some?
    ensures var s' := Next(s, m).value;
      && s'.ring.poisoned
      && (Reserved(s'.p) ==> Reserved(s.p) && s'.p.slot == s.p.slot)
      && (Reserved(s.p) && m.Produce? ==> s'.p.PFilled? || s'.p == PNull)
      && |s'.sent| + OneIf(Committing(s'.p)) <= |s.sent| + OneIf(Committing(s.p))
      && (s.p == PNull || Reserving(s.p) ==> s'.p == PNull || Reserving(s'.p))
      && |s'.sent| >= |s.sent|
  {
    if m.Produce? {
      PoisonedProduce(s, m.v);
    } else {
      ProducerLeftAlone(s, m);
    }
  }

  /** The other side wakes a sleeping consumer, and the client may ask anew. */
  lemma ConsumerLeftAlone<T>(s: Chan<T>, m: Move<T>)
    requires WellSized(s.ring) && Next(s, m).Some? && !m.Consume?
    ensures var s' := Next(s, m).value;
      && s'.acked == s.acked
      && (s'.c == s.c || (s.c.CAsleep? && s'.c.CWoken?) || (m.ConsumerAgain? && s'.c.CCheck?))
      && (m.ConsumerAgain? ==> s.c.CPeeked? || s.c.CNull?)
  {
  }

  lemma PoisonedConsume<T>(s: Chan<T>)
    requires WellSized(s.ring) && s.ring.poisoned && ConsumerStep(s).Some?
    ensures var s' := ConsumerStep(s).value;
      && !s'.c.CPeeked?
      && |s'.acked| + OneIf(Acknowledging(s'.c)) <= |s.acked| + OneIf(Acknowledging(s.c))
      && (s.c.CNull? || Peeking(s.c) ==> s'.c.CNull? || Peeking(s'.c))
      && |s'.acked| >= |s.acked|
  {
  }

  lemma PoisonedConsumerStep<T>(s: Chan<T>, m: Move<T>)
    requires Inv(s) && s.ring.poisoned && Next(s, m).Some?
    ensures var s' := Next(s, m).value;
      && (s'.c.CPeeked? ==> s.c.CPeeked? && s'.c == s.c)
      && |s'.acked| + OneIf(Acknowledging(s'.c)) <= |s.acked| + OneIf(Acknowledging(s.c))
      && (s.c.CNull? || Peeking(s.c) ==> s'.c.CNull? || Peeking(s'.c))
      && |s'.acked| >= |s.acked|
  {
    if m.Consume? {
      PoisonedConsume(s);
    } else {
      ConsumerLeftAlone(s, m);
    }
  }

  /** A poisoned channel is stopped on both sides, whatever the interleaving. On every
      continuation: a reserved slot is one that was reserved before and has not been
      left since; at most one element more is sent, and that only by a send that was
      past its check; a call in channel_reserve gets no slot. The same for peeked
      elements and acknowledgements. */
  lemma {:induction false} PoisonStops<T>(s: Chan<T>, ms: seq<Move<T>>)
    requires Inv(s) && s.ring.poisoned && Run(s, ms).Some?
    ensures var e := Run(s, ms).value;
      && e.ring.poisoned
      && (Reserved(e.p) ==> Reserved(s.p) && e.p.slot == s.p.slot)
      && |s.sent| <= |e.sent| <= |s.sent| + (if s.p == PSendLock || s.p == PUpdate then 1 else 0)
      && (s.p == PNull || Reserving(s.p) ==> e.p == PNull || Reserving(e.p))
      && (e.c.CPeeked? ==> s.c.CPeeked? && e.c == s.c)
      && |s.acked| <= |e.acked| <= |s.acked| + (if s.c.CAckLock? || s.c.CUpdate? then 1 else 0)
      && (s.c.CNull? || Peeking(s.c) ==> e.c.CNull? || Peeking(e.c))
    decreases |ms|
  {
    if ms != [] {
      NextKeeps(s, ms[0]);
      PoisonedProducerStep(s, ms[0]);
      PoisonedConsumerStep(s, ms[0]);
      PoisonStops(Next(s, ms[0]).value, ms[1..]);
    }
  }

  /** Once left, a reserved slot is never held again: at every point of a continuation
      that ends with a slot in hand it has been in hand. */
  lemma PoisonNeverHandsOut<T>(s: Chan<T>, before: seq<Move<T>>, after: seq<Move<T>>)
    requires Inv(s) && s.ring.poisoned && Run(s, before + after).Some?
    ensures Run(s, before).Some?
    ensures var m, e := Run(s, before).value, Run(s, before + after).value;
      && (Reserved(e.p) ==> Reserved(m.p) && m.p.slot == e.p.slot)
      && (e.c.CPeeked? ==> m.c == e.c)
  {
    RunPrefix(s, before, after);
    RunAppend(s, before, after);
    PoisonStops(s, before);
    PoisonStops(Run(s, before).value, after);
  }

  lemma {:induction false} RunPrefix<T>(s: Chan<T>, before: seq<Move<T>>, after: seq<Move<T>>)
    requires Inv(s) && Run(s, before + after).Some?
    ensures Run(s, before).Some?
    decreases |before|
  {
    if before != [] {
      assert (before + after)[0] == before[0] && (before + after)[1..] == before[1..] + after;
      NextKeeps(s, before[0]);
      RunPrefix(Next(s, before[0]).value, before[1..], after);
    }
  }

  /** A call begun after the poison ends at once, with NULL: the first step of its
      thread is its last, whatever the others do meanwhile. */
  lemma {:induction false} PoisonedCallFails<T>(s: Chan<T>, ms: seq<Move<T>>)
    requires Inv(s) && s.ring.poisoned && Run(s, ms).Some?
    requires forall i :: 0 <= i < |ms| ==> !ms[i].ProducerAgain? && !ms[i].ConsumerAgain?
    ensures var e := Run(s, ms).value;
      && (s.p == PCheck ==> e.p == if exists i :: 0 <= i < |ms| && ms[i].Produce? then PNull else PCheck)
      && (s.c == CCheck ==> e.c == if exists i :: 0 <= i < |ms| && ms[i].Consume? then CNull else CCheck)
      && (s.p == PNull ==> e.p == PNull)
      && (s.c == CNull ==> e.c == CNull)
    decreases |ms|
  {
    if ms != [] {
      NextKeeps(s, ms[0]);
      PoisonedFirst(s, ms[0]);
      PoisonedCallFails(Next(s, ms[0]).value, ms[1..]);
      assert forall i :: 0 < i < |ms| ==> ms[i] == ms[1..][i - 1];
    }
  }

  lemma PoisonedFirst<T>(s: Chan<T>, m: Move<T>)
    requires Inv(s) && s.ring.poisoned && Next(s, m).Some? && !m.ProducerAgain? && !m.ConsumerAgain?
    ensures var s' := Next(s, m).value;
      && s'.ring.poisoned
      && (s.p == PCheck ==> s'.p == if m.Produce? then PNull else PCheck)
      && (s.c == CCheck ==> s'.c == if m.Consume? then CNull else CCheck)
      && (s.p == PNull ==> s'.p == PNull) && (s.c == CNull ==> s'.c == CNull)
  {
    if !m.Produce? {
      ProducerLeftAlone(s, m);
    }
    if !m.Consume? {
      ConsumerLeftAlone(s, m);
    }
  }
}
