/** Three threads joined by two channels, at the level of the channels' own steps:
    unlocked tests, the mutex, going to sleep, signals and spurious wake-ups. The
    first thread sends a given sequence that ends with a pill; the one in the middle
    peeks, acknowledges and sends on, as encode_loop or decloop does, and poisons the
    first channel when it fails; the last one receives until the pill. */
module Composed {
  import opened Chunk
  import opened Channel

  /** What the middle thread does about an element: nothing, send one on, leave, leave
      after poisoning the first channel, or crash the process. */
  datatype Act<T> = Skip | Pass(v: T) | Quit | Fail | Abort

  predicate Leaves<T>(act: Act<T>) { act.Quit? || act.Fail? || act.Abort? }

  type TurnOf<!S, !A, !B> = (S, A) -> (S, Act<B>)

  /** ackFirst: acknowledge before sending on (decloop) or after it (encode_loop). */
  datatype Params<!S, !A, !B> = Params(turn: TurnOf<S, A, B>, ackFirst: bool, start: S, src: seq<Option<A>>)

  /** In channel_peek; in channel_ack, with something still to do about the element;
      in channel_send, with the acknowledgement still due or not; poisoning; sending
      the pill; finished. */
  datatype Middle<S, B> =
    | MRecv(s: S) | MAck(s: S, act: Act<B>) | MSend(s: S, v: B, due: bool) | MPoison | MPill | MDone

  /** exited: the process has called exit. */
  datatype Joint<S, A, B> = Joint(c1: Chan<Option<A>>, m: Middle<S, B>, c2: Chan<Option<B>>, exited: bool)

  /** The messages that the middle thread sends on. */
  function Outs<S, A, B>(turn: TurnOf<S, A, B>, s: S, src: seq<Option<A>>): seq<Option<B>>
    decreases |src|
  {
    if src == [] then []
    else if src[0].None? then [None]
    else
      var (s', act) := turn(s, src[0].value);
      Owed(act, if Leaves(act) then [] else Outs(turn, s', src[1..]))
  }

  /** What is still to be sent on for an element, before what comes later. */
  function Owed<B>(act: Act<B>, later: seq<Option<B>>): seq<Option<B>> {
    match act case Skip => later case Pass(v) => [Some(v)] + later case _ => [None]
  }

  /** The pill is the last element and the only one. */
  predicate PillLast<T>(src: seq<Option<T>>) {
    src != [] && forall i :: 0 <= i < |src| ==> (src[i].None? <==> i == |src| - 1)
  }

  /** The middle thread leaves early only on the last element before the pill. */
  ghost predicate QuitsLast<S, A, B>(turn: TurnOf<S, A, B>, s: S, src: seq<Option<A>>)
    decreases |src|
  {
    src != [] && src[0].Some? ==>
      var (s', act) := turn(s, src[0].value);
      if act.Quit? then |src| == 2 else Leaves(act) || QuitsLast(turn, s', src[1..])
  }

  /** The middle thread meets an element that makes it fail or crash. */
  ghost predicate Fails<S, A, B>(turn: TurnOf<S, A, B>, s: S, src: seq<Option<A>>)
    decreases |src|
  {
    src != [] && src[0].Some? &&
      var (s', act) := turn(s, src[0].value);
      act.Fail? || act.Abort? || (!act.Quit? && Fails(turn, s', src[1..]))
  }

  ghost predicate Usable<S, A, B>(k: Params<S, A, B>) {
    PillLast(k.src) && QuitsLast(k.turn, k.start, k.src)
  }

  function All<S, A, B>(k: Params<S, A, B>): seq<Option<B>> { Outs(k.turn, k.start, k.src) }

  ghost predicate Faulty<S, A, B>(k: Params<S, A, B>) { Fails(k.turn, k.start, k.src) }

  // ---- Steps ----

  predicate HeadDone<T>(src: seq<T>, c: Chan<T>) { c.p == PCheck && |c.sent| >= |src| }

  predicate TailDone<T>(c: Chan<Option<T>>) {
    c.c == CCheck && c.acked != [] && c.acked[|c.acked| - 1].None?
  }

  ghost predicate Sized<S, A, B>(x: Joint<S, A, B>) { WellSized(x.c1.ring) && WellSized(x.c2.ring) }

  /** The first thread has not been given a slot for an element: it exits. Without
      a slot for the pill, or when a send fails, it only stops. */
  predicate Exits<T>(src: seq<Option<T>>, c: Chan<Option<T>>, c': Chan<Option<T>>) {
    c'.p == PNull && !c.p.PFilled? && |c.sent| < |src| && src[|c.sent|].Some?
  }

  function HeadStep<S, A, B>(k: Params<S, A, B>, x: Joint<S, A, B>): Option<Joint<S, A, B>>
    requires Sized(x)
  {
    if HeadDone(k.src, x.c1) then None
    else
      match ProducerStep(x.c1, if |x.c1.sent| < |k.src| then k.src[|x.c1.sent|] else None)
      case None => None
      case Some(c) => Some(x.(c1 := c, exited := x.exited || Exits(k.src, x.c1, c)))
  }

  /** What to do about the element that was peeked. */
  function Decide<S, A, B>(k: Params<S, A, B>, s: S, elt: Option<A>): Middle<S, B> {
    if elt.None? then MPill
    else
      var (s', act) := k.turn(s, elt.value);
      if act.Pass? && !k.ackFirst then MSend(s', act.v, true) else MAck(s', act)
  }

  function AfterAck<S, B>(s: S, act: Act<B>): Middle<S, B> {
    match act case Skip => MRecv(s) case Pass(v) => MSend(s, v, false) case Quit => MPill case _ => MPoison
  }

  function AfterSend<S, B>(s: S, due: bool): Middle<S, B> {
    if due then MAck(s, Skip) else MRecv(s)
  }

  /** channel_poison: the flag, then a signal to either side. */
  function Poisoning<T>(c: Chan<T>): Option<Chan<T>>
    requires WellSized(c.ring)
  {
    Channel.Next(c, if c.ring.poisoned then PoisonSignal else Poison)
  }

  function MiddleStep<S, A, B>(k: Params<S, A, B>, x: Joint<S, A, B>): Option<Joint<S, A, B>>
    requires Sized(x)
  {
    match x.m
    case MRecv(s) =>
      (match ConsumerStep(x.c1)
       case None => None
       case Some(c) => Some(x.(c1 := c, m := if c.c.CPeeked? then Decide(k, s, c.c.elt) else x.m)))
    case MAck(s, act) =>
      (match ConsumerStep(x.c1)
       case None => None
       case Some(c) =>
         var last := x.c1.c.CAckUnlock?;
         Some(x.(c1 := c, m := if last then AfterAck(s, act) else x.m, exited := x.exited || (last && act.Abort?))))
    case MSend(s, v, due) =>
      (match ProducerStep(x.c2, Some(v))
       case None => None
       case Some(c) => Some(x.(c2 := c, m := if x.c2.p == PSendUnlock then AfterSend(s, due) else x.m)))
    case MPoison =>
      (match Poisoning(x.c1)
       case None => None
       case Some(c) => Some(x.(c1 := c, m := if x.c1.k == KSignalRecv then MPill else x.m)))
    case MPill =>
      (match ProducerStep(x.c2, None)
       case None => None
       case Some(c) => Some(x.(c2 := c, m := if x.c2.p == PSendUnlock then MDone else x.m)))
    case MDone => None
  }

  function TailStep<S, A, B>(x: Joint<S, A, B>): Option<Joint<S, A, B>>
    requires Sized(x)
  {
    if TailDone(x.c2) then None
    else match ConsumerStep(x.c2) case None => None case Some(c) => Some(x.(c2 := c))
  }

  /** A thread moves, or a sleeper of either channel wakes up spuriously. */
  datatype Mover = Head | Mid | Tail | Wake1(producer: bool) | Wake2(producer: bool)

  function Woken<T>(c: Chan<T>, producer: bool): Option<Chan<T>>
    requires WellSized(c.ring)
  {
    Channel.Next(c, if producer then WakeProducer else WakeConsumer)
  }

  function Step<S, A, B>(k: Params<S, A, B>, x: Joint<S, A, B>, t: Mover): Option<Joint<S, A, B>>
    requires Sized(x)
  {
    if x.exited then None
    else
      match t
      case Head => HeadStep(k, x)
      case Mid => MiddleStep(k, x)
      case Tail => TailStep(x)
      case Wake1(b) => (match Woken(x.c1, b) case None => None case Some(c) => Some(x.(c1 := c)))
      case Wake2(b) => (match Woken(x.c2, b) case None => None case Some(c) => Some(x.(c2 := c)))
  }

  function Begin<S, A, B>(
      k: Params<S, A, B>, cap1: nat, e1: seq<Option<A>>, cap2: nat, e2: seq<Option<B>>): Joint<S, A, B>
    requires |e1| == cap1 + 1 && |e2| == cap2 + 1
  {
    Joint(Initial(cap1, e1), MRecv(k.start), Initial(cap2, e2), false)
  }

  predicate Finished<S, A, B>(k: Params<S, A, B>, x: Joint<S, A, B>) {
    !x.exited && HeadDone(k.src, x.c1) && x.m == MDone && TailDone(x.c2)
  }

  /** All have finished; or the process has exited; or, the channel being poisoned,
      the other two have finished and the first thread has given up or sleeps on,
      missed by the poison. */
  predicate Over<S, A, B>(k: Params<S, A, B>, x: Joint<S, A, B>) {
    || x.exited
    || (x.m == MDone && TailDone(x.c2)
        && (HeadDone(k.src, x.c1) || (x.c1.ring.poisoned && (x.c1.p == PNull || x.c1.p == PAsleep))))
  }

  /** No thread can move: at most a spurious wake-up can still happen. */
  ghost predicate Still<S, A, B>(k: Params<S, A, B>, x: Joint<S, A, B>)
    requires Sized(x)
  {
    Step(k, x, Head).None? && Step(k, x, Mid).None? && Step(k, x, Tail).None?
  }

  // ---- Invariant ----

  predicate Filled(p: PPc) { p.PFilled? || p == PSendLock || p == PUpdate }

  /** The producer has counted its element in. */
  predicate Sent(p: PPc) { p.PSignal? || p == PSendUnlock }

  predicate Receiving<T>(c: CPc<T>) {
    c.CCheck? || c.CTest? || c.CLock? || c.CRetest? || c.CGoing? || c.CAsleep? || c.CWoken? || c.CUnlock? || c.CCheck2?
  }

  /** The consumer has counted its element out. */
  predicate Released<T>(c: CPc<T>) { c.CSignal? || c.CAckUnlock? }

  predicate Acking<T>(c: CPc<T>) { c.CPeeked? || c.CAckLock? || c.CUpdate? || Released(c) }

  /** Who sends v next on c has v in the slot once it has filled it. */
  ghost predicate Writes<T>(c: Chan<T>, v: T) {
    WellSized(c.ring) && (Filled(c.p) ==> c.ring.elts[c.ring.wr] == v)
  }

  /** The first thread sends src, in order. */
  ghost predicate HeadInv<T>(src: seq<T>, c: Chan<T>) {
    && c.sent <= src
    && (c.p != PCheck && !Sent(c.p) ==> |c.sent| < |src| && Writes(c, src[|c.sent|]))
  }

  /** A thread sends v on c, `later` coming after it. */
  ghost predicate Sending<T>(c: Chan<T>, v: T, later: seq<T>, all: seq<T>) {
    if Sent(c.p) then c.sent + later == all
    else c.sent + [v] + later == all && Writes(c, v)
  }

  /** How many elements the middle thread has dealt with, the one in hand included. */
  function Taken<T>(c: CPc<T>, acked: nat): nat { if Released(c) then acked else acked + 1 }

  ghost predicate Rest<S, A, B>(k: Params<S, A, B>, s: S, n: nat) {
    && n < |k.src| && QuitsLast(k.turn, s, k.src[n..])
    && (Fails(k.turn, s, k.src[n..]) ==> Faulty(k))
  }

  /** Only a middle thread that has failed has anything to do with the poison. */
  ghost predicate PoisonInv<S, B>(m: Middle<S, B>, poisoned: bool, p: KPc) {
    && (poisoned || p != KIdle ==> m.MPoison? || m.MPill? || m.MDone?)
    && (if m.MPoison? then poisoned <==> p != KIdle else p == KIdle)
  }

  ghost predicate MiddleInv<S, A, B>(
      k: Params<S, A, B>, c: CPc<Option<A>>, acked: nat, poisoned: bool, m: Middle<S, B>, c2: Chan<Option<B>>)
  {
    match m
    case MRecv(s) =>
      && Receiving(c) && c2.p == PCheck
      && Rest(k, s, acked) && c2.sent + Outs(k.turn, s, k.src[acked..]) == All(k)
    case MAck(s, act) =>
      && Acking(c) && c2.p == PCheck
      && var n := Taken(c, acked);
         && (act.Quit? ==> n + 1 == |k.src|)
         && (act.Fail? || act.Abort? ==> Faulty(k))
         && (Leaves(act) ==> c2.sent + [None] == All(k))
         && (!Leaves(act) ==> Rest(k, s, n) && c2.sent + Owed(act, Outs(k.turn, s, k.src[n..])) == All(k))
    case MSend(s, v, due) =>
      && (if due then c.CPeeked? else c.CCheck?)
      && var n := if due then acked + 1 else acked;
         Rest(k, s, n) && Sending(c2, Some(v), Outs(k.turn, s, k.src[n..]), All(k))
    case MPoison => c.CCheck? && c2.p == PCheck && c2.sent + [None] == All(k)
    case MPill =>
      (c.CPeeked? || c.CCheck?) && (acked + 1 == |k.src| || poisoned) && Sending(c2, None, [], All(k))
    case MDone =>
      (c.CPeeked? || c.CCheck?) && (acked + 1 == |k.src| || poisoned) && c2.p == PCheck && c2.sent == All(k)
  }

  /** Whether an element is acknowledged before or after its message is sent on. */
  predicate InTurn<S, A, B>(k: Params<S, A, B>, m: Middle<S, B>) {
    && (m.MSend? ==> (m.due <==> !k.ackFirst))
    && (m.MAck? && m.act.Pass? ==> k.ackFirst)
  }

  /** The last thread asks no more once it has everything. */
  predicate TailInv<T>(c: CPc<T>, acked: nat, n: nat) {
    acked <= n && (acked == n ==> Released(c) || c.CCheck?)
  }

  ghost predicate Steady<T>(c: Chan<T>) { Inv(c) && c.ring.cap >= 2 }

  ghost predicate Calm<T>(c: Chan<T>) { Steady(c) && !c.ring.poisoned }

  ghost predicate JointInv<S, A, B>(k: Params<S, A, B>, x: Joint<S, A, B>) {
    && Steady(x.c1) && Calm(x.c2)
    && HeadInv(k.src, x.c1)
    && InTurn(k, x.m) && PoisonInv(x.m, x.c1.ring.poisoned, x.c1.k)
    && MiddleInv(k, x.c1.c, |x.c1.acked|, x.c1.ring.poisoned, x.m, x.c2)
    && TailInv(x.c2.c, |x.c2.acked|, |All(k)|)
    && (x.m.MPoison? || x.c1.ring.poisoned || x.exited ==> Faulty(k))
  }

  // ---- What one channel step leaves alone ----

  ghost predicate MaybeWokenC<T>(c: CPc<T>, c': CPc<T>) { c' == c || (c.CAsleep? && c'.CWoken?) }

  ghost predicate MaybeWokenP(p: PPc, p': PPc) { p' == p || (p == PAsleep && p' == PWoken) }

  lemma ProducerStepSteady<T>(c: Chan<T>, v: T)
    requires Steady(c) && ProducerStep(c, v).Some?
    ensures var c' := ProducerStep(c, v).value;
      && Steady(c') && c'.ring.poisoned == c.ring.poisoned && c'.k == c.k
      && c'.acked == c.acked && MaybeWokenC(c.c, c'.c)
      && c'.sent == (if c.p == PUpdate then c.sent + [c.ring.elts[c.ring.wr]] else c.sent)
      && (c'.p == PNull ==> c.ring.poisoned)
  {
    ProducerKeeps(c, v);
  }

  lemma ConsumerStepCalm<T>(c: Chan<T>)
    requires Calm(c) && ConsumerStep(c).Some?
    ensures var c' := ConsumerStep(c).value;
      && Calm(c') && c'.k == c.k && c'.sent == c.sent && MaybeWokenP(c.p, c'.p)
      && c'.ring.elts == c.ring.elts && c'.ring.wr == c.ring.wr
      && |c'.acked| == |c.acked| + if c.c.CUpdate? then 1 else 0
  {
    ConsumerKeeps(c);
  }

  lemma WokenSteady<T>(c: Chan<T>, producer: bool)
    requires Steady(c) && Woken(c, producer).Some?
    ensures var c' := Woken(c, producer).value;
      && Steady(c') && c'.k == c.k && c'.sent == c.sent && c'.acked == c.acked && c'.ring == c.ring
      && MaybeWokenP(c.p, c'.p) && MaybeWokenC(c.c, c'.c)
  {
    WakeKeeps(c, if producer then WakeProducer else WakeConsumer);
  }

  lemma PoisoningSteady<T>(c: Chan<T>)
    requires Steady(c) && c.c.CCheck? && (c.ring.poisoned <==> c.k != KIdle)
    ensures Poisoning(c).Some?
    ensures var c' := Poisoning(c).value;
      && Steady(c') && c'.ring.poisoned && c'.sent == c.sent && c'.acked == c.acked && c'.c == c.c
      && c'.ring.elts == c.ring.elts && c'.ring.wr == c.ring.wr && MaybeWokenP(c.p, c'.p)
      && (if c.k == KSignalRecv then c'.k == KIdle else c'.k != KIdle)
  {
    if c.ring.poisoned {
      SignalKeeps(c);
    } else {
      PoisonKeeps(c);
    }
  }

  /** The places of a producer's step. */
  lemma ProducerPlaces<T>(c: Chan<T>, v: T)
    requires Steady(c) && ProducerStep(c, v).Some?
    ensures var c' := ProducerStep(c, v).value;
      && (c.p == PUpdate ==> Sent(c'.p))
      && (Sent(c.p) && c.p != PSendUnlock ==> Sent(c'.p))
      && (c.p == PSendUnlock ==> c'.p == PCheck)
      && (c.p != PUpdate && !Sent(c.p) ==> !Sent(c'.p) && c'.p != PCheck)
      && (Writes(c, v) && c.p != PUpdate ==> Writes(c', v))
  {
    ProducerKeeps(c, v);
  }

  // ---- Every step keeps the invariant ----

  lemma HeadNext<T>(src: seq<T>, c: Chan<T>, c': Chan<T>)
    requires HeadInv(src, c) && WellSized(c.ring) && WellSized(c'.ring)
    requires c.p == PCheck ==> |c.sent| < |src|
    requires c'.sent == if c.p == PUpdate then c.sent + [c.ring.elts[c.ring.wr]] else c.sent
    requires c.p == PUpdate ==> Sent(c'.p)
    requires Sent(c.p) ==> Sent(c'.p) || c'.p == PCheck
    requires |c.sent| < |src| && c.p != PUpdate && Writes(c, src[|c.sent|]) ==> Writes(c', src[|c.sent|])
    ensures HeadInv(src, c')
  {
  }

  lemma HeadSends<T>(src: seq<T>, c: Chan<T>, v: T)
    requires Steady(c) && HeadInv(src, c) && ProducerStep(c, v).Some?
    requires |c.sent| < |src| ==> v == src[|c.sent|]
    requires c.p == PCheck ==> |c.sent| < |src|
    ensures HeadInv(src, ProducerStep(c, v).value)
  {
    ProducerStepSteady(c, v);
    ProducerPlaces(c, v);
    HeadNext(src, c, ProducerStep(c, v).value);
  }

  lemma HeadStays<T>(src: seq<T>, c: Chan<T>, c': Chan<T>)
    requires HeadInv(src, c) && WellSized(c'.ring) && MaybeWokenP(c.p, c'.p)
    requires c'.sent == c.sent && c'.ring.elts == c.ring.elts && c'.ring.wr == c.ring.wr
    ensures HeadInv(src, c')
  {
  }

  /** The middle thread does not see wake-ups of its own first channel, nor what
      the last thread does to the second. */
  lemma MiddleStays<S, A, B>(
      k: Params<S, A, B>, c: CPc<Option<A>>, c': CPc<Option<A>>, acked: nat, b: bool, m: Middle<S, B>,
      d: Chan<Option<B>>, d': Chan<Option<B>>)
    requires MiddleInv(k, c, acked, b, m, d) && MaybeWokenC(c, c') && MaybeWokenP(d.p, d'.p)
    requires WellSized(d'.ring) && d'.sent == d.sent && d'.ring.elts == d.ring.elts && d'.ring.wr == d.ring.wr
    ensures MiddleInv(k, c', acked, b, m, d')
  {
  }

  lemma HeadKeeps<S, A, B>(k: Params<S, A, B>, x: Joint<S, A, B>)
    requires JointInv(k, x) && HeadStep(k, x).Some?
    ensures JointInv(k, HeadStep(k, x).value)
  {
    var v := if |x.c1.sent| < |k.src| then k.src[|x.c1.sent|] else None;
    var c := ProducerStep(x.c1, v).value;
    ProducerStepSteady(x.c1, v);
    HeadSends(k.src, x.c1, v);
    MiddleStays(k, x.c1.c, c.c, |x.c1.acked|, c.ring.poisoned, x.m, x.c2, x.c2);
  }

  lemma SendStep<T>(c: Chan<T>, v: T, later: seq<T>, all: seq<T>)
    requires Calm(c) && Sending(c, v, later, all) && ProducerStep(c, v).Some?
    ensures var c' := ProducerStep(c, v).value;
      if c.p == PSendUnlock then c'.p == PCheck && c'.sent + later == all else Sending(c', v, later, all)
  {
    ProducerStepSteady(c, v);
    ProducerPlaces(c, v);
  }

  /** A peeked element is dealt with as the turn says. */
  lemma Decided<S, A, B>(
      k: Params<S, A, B>, s: S, n: nat, c: CPc<Option<A>>, d: Chan<Option<B>>)
    requires PillLast(k.src) && Rest(k, s, n) && c.CPeeked? && c.elt == k.src[n]
    requires WellSized(d.ring) && d.p == PCheck && d.sent + Outs(k.turn, s, k.src[n..]) == All(k)
    ensures MiddleInv(k, c, n, false, Decide(k, s, c.elt), d)
  {
    var src := k.src[n..];
    assert src[0] == c.elt && src[1..] == k.src[n + 1..];
    if c.elt.None? {
      assert d.sent + [None] + [] == d.sent + [None];
    } else {
      var (s', act) := k.turn(s, c.elt.value);
      if act.Pass? {
        var later := Outs(k.turn, s', src[1..]);
        assert d.sent + ([Some(act.v)] + later) == d.sent + [Some(act.v)] + later;
      }
    }
  }

  /** The middle thread has moved on its first channel, which nobody has poisoned. */
  lemma MiddleFrame<S, A, B>(k: Params<S, A, B>, x: Joint<S, A, B>, c: Chan<Option<A>>, m: Middle<S, B>)
    requires JointInv(k, x) && Calm(c) && !x.c1.ring.poisoned && HeadInv(k.src, c)
    requires MiddleInv(k, c.c, |c.acked|, false, m, x.c2)
    requires InTurn(k, m) && PoisonInv(m, false, c.k) && (m.MPoison? ==> Faulty(k))
    ensures JointInv(k, x.(c1 := c, m := m))
  {
  }

  /** What Decide chooses is in turn and has nothing to do with the poison. */
  lemma DecidedInTurn<S, A, B>(k: Params<S, A, B>, s: S, elt: Option<A>)
    ensures InTurn(k, Decide(k, s, elt)) && PoisonInv(Decide(k, s, elt), false, KIdle)
    ensures !Decide(k, s, elt).MPoison?
  {
  }

  lemma MiddlePeeks<S, A, B>(k: Params<S, A, B>, x: Joint<S, A, B>, c: Chan<Option<A>>)
    requires PillLast(k.src) && JointInv(k, x) && x.m.MRecv? && ConsumerStep(x.c1) == Some(c) && c.c.CPeeked?
    ensures JointInv(k, MiddleStep(k, x).value)
  {
    var n := |x.c1.acked|;
    ConsumerStepCalm(x.c1);
    HeadStays(k.src, x.c1, c);
    assert c.c.elt == c.sent[n] == k.src[n];
    Decided(k, x.m.s, n, c.c, x.c2);
    DecidedInTurn(k, x.m.s, c.c.elt);
    MiddleFrame(k, x, c, Decide(k, x.m.s, c.c.elt));
  }

  lemma MiddleWaits<S, A, B>(k: Params<S, A, B>, x: Joint<S, A, B>, c: Chan<Option<A>>)
    requires JointInv(k, x) && x.m.MRecv? && ConsumerStep(x.c1) == Some(c) && !c.c.CPeeked?
    ensures JointInv(k, MiddleStep(k, x).value)
  {
    ConsumerStepCalm(x.c1);
    HeadStays(k.src, x.c1, c);
    assert Receiving(c.c);
    MiddleFrame(k, x, c, x.m);
  }

  lemma MiddleReceives<S, A, B>(k: Params<S, A, B>, x: Joint<S, A, B>)
    requires PillLast(k.src) && JointInv(k, x) && x.m.MRecv? && MiddleStep(k, x).Some?
    ensures JointInv(k, MiddleStep(k, x).value)
  {
    var c := ConsumerStep(x.c1).value;
    if c.c.CPeeked? { MiddlePeeks(k, x, c); } else { MiddleWaits(k, x, c); }
  }

  lemma AckedNext<S, A, B>(
      k: Params<S, A, B>, s: S, act: Act<B>, n: nat, d: Chan<Option<B>>)
    requires MiddleInv(k, CAckUnlock, n, false, MAck(s, act), d) && WellSized(d.ring)
    ensures MiddleInv(k, CCheck, n, false, AfterAck(s, act), d)
  {
    match act
    case Skip =>
    case Quit => assert d.sent + [None] + [] == d.sent + [None];
    case Pass(v) =>
      var later := Outs(k.turn, s, k.src[n..]);
      assert d.sent + ([Some(v)] + later) == d.sent + [Some(v)] + later;
    case _ =>
  }

  lemma AckingNext<S, A, B>(
      k: Params<S, A, B>, s: S, act: Act<B>, c: CPc<Option<A>>, n: nat, c': CPc<Option<A>>, n': nat, d: Chan<Option<B>>)
    requires MiddleInv(k, c, n, false, MAck(s, act), d) && Acking(c') && Taken(c', n') == Taken(c, n)
    ensures MiddleInv(k, c', n', false, MAck(s, act), d)
  {
  }

  lemma MiddleAcks<S, A, B>(k: Params<S, A, B>, x: Joint<S, A, B>)
    requires JointInv(k, x) && x.m.MAck? && MiddleStep(k, x).Some?
    ensures JointInv(k, MiddleStep(k, x).value)
  {
    var c, s, act := ConsumerStep(x.c1).value, x.m.s, x.m.act;
    ConsumerStepCalm(x.c1);
    HeadStays(k.src, x.c1, c);
    if x.c1.c.CAckUnlock? {
      AckedNext(k, s, act, |x.c1.acked|, x.c2);
    } else {
      AckingNext(k, s, act, x.c1.c, |x.c1.acked|, c.c, |c.acked|, x.c2);
    }
  }

  lemma MiddleSends<S, A, B>(k: Params<S, A, B>, x: Joint<S, A, B>)
    requires JointInv(k, x) && x.m.MSend? && MiddleStep(k, x).Some?
    ensures JointInv(k, MiddleStep(k, x).value)
  {
    var n := if x.m.due then |x.c1.acked| + 1 else |x.c1.acked|;
    ProducerStepSteady(x.c2, Some(x.m.v));
    SendStep(x.c2, Some(x.m.v), Outs(k.turn, x.m.s, k.src[n..]), All(k));
  }

  lemma MiddleStops<S, A, B>(k: Params<S, A, B>, x: Joint<S, A, B>)
    requires JointInv(k, x) && x.m.MPill? && MiddleStep(k, x).Some?
    ensures JointInv(k, MiddleStep(k, x).value)
  {
    ProducerStepSteady(x.c2, None);
    SendStep(x.c2, None, [], All(k));
    var c := ProducerStep(x.c2, None).value;
    assert c.sent + [] == c.sent;
  }

  lemma MiddlePoisons<S, A, B>(k: Params<S, A, B>, x: Joint<S, A, B>)
    requires JointInv(k, x) && x.m.MPoison?
    ensures MiddleStep(k, x).Some? && JointInv(k, MiddleStep(k, x).value)
  {
    var c := Poisoning(x.c1).value;
    PoisoningSteady(x.c1);
    HeadStays(k.src, x.c1, c);
    assert x.c2.sent + [None] + [] == x.c2.sent + [None];
  }

  lemma {:induction false} OutsPillLast<S, A, B>(turn: TurnOf<S, A, B>, s: S, src: seq<Option<A>>)
    requires PillLast(src)
    ensures PillLast(Outs(turn, s, src))
    decreases |src|
  {
    if src[0].Some? {
      var (s', act) := turn(s, src[0].value);
      assert forall i :: 0 <= i < |src| - 1 ==> src[1..][i] == src[i + 1];
      OutsPillLast(turn, s', src[1..]);
    }
  }

  lemma PrefixOf<T>(sent: seq<T>, later: seq<T>, all: seq<T>)
    requires sent + later == all
    ensures sent <= all && |all| == |sent| + |later|
  {
  }

  lemma SendingPrefix<T>(c: Chan<T>, v: T, later: seq<T>, all: seq<T>)
    requires Sending(c, v, later, all)
    ensures c.sent <= all && (!Sent(c.p) ==> |c.sent| < |all|)
  {
    if Sent(c.p) {
      PrefixOf(c.sent, later, all);
    } else {
      assert c.sent + ([v] + later) == all;
      PrefixOf(c.sent, [v] + later, all);
    }
  }

  lemma SendsPrefix<S, A, B>(
      k: Params<S, A, B>, c: CPc<Option<A>>, n: nat, b: bool, m: Middle<S, B>, d: Chan<Option<B>>)
    requires MiddleInv(k, c, n, b, m, d)
    ensures d.sent <= All(k)
    ensures (m.MSend? || m.MPill?) && !Sent(d.p) ==> |d.sent| < |All(k)|
  {
    match m
    case MSend(s, v, due) => SendingPrefix(d, Some(v), Outs(k.turn, s, k.src[if due then n + 1 else n..]), All(k));
    case MPill => SendingPrefix(d, None, [], All(k));
    case _ =>
  }

  /** What the middle thread has sent is a prefix of what it is to send. */
  lemma SentIsPrefix<S, A, B>(k: Params<S, A, B>, x: Joint<S, A, B>)
    requires JointInv(k, x)
    ensures x.c2.sent <= All(k) && x.c2.acked <= All(k) && x.c1.sent <= k.src
  {
    SendsPrefix(k, x.c1.c, |x.c1.acked|, x.c1.ring.poisoned, x.m, x.c2);
  }

  lemma TailKnows<S, A, B>(k: Params<S, A, B>, x: Joint<S, A, B>)
    requires PillLast(k.src) && JointInv(k, x)
    ensures TailDone(x.c2) <==> x.c2.c == CCheck && |x.c2.acked| == |All(k)|
    ensures PillLast(All(k))
  {
    OutsPillLast(k.turn, k.start, k.src);
    SentIsPrefix(k, x);
  }

  lemma TailKeeps<S, A, B>(k: Params<S, A, B>, x: Joint<S, A, B>)
    requires PillLast(k.src) && JointInv(k, x) && TailStep(x).Some?
    ensures JointInv(k, TailStep(x).value)
  {
    var c := ConsumerStep(x.c2).value;
    TailKnows(k, x);
    ConsumerStepCalm(x.c2);
    MiddleStays(k, x.c1.c, x.c1.c, |x.c1.acked|, x.c1.ring.poisoned, x.m, x.c2, c);
    SentIsPrefix(k, x);
  }

  lemma WakeUpKeeps<S, A, B>(k: Params<S, A, B>, x: Joint<S, A, B>, t: Mover)
    requires JointInv(k, x) && (t.Wake1? || t.Wake2?) && Step(k, x, t).Some?
    ensures JointInv(k, Step(k, x, t).value)
  {
    var y := Step(k, x, t).value;
    if t.Wake1? {
      WokenSteady(x.c1, t.producer);
      HeadStays(k.src, x.c1, y.c1);
    } else {
      WokenSteady(x.c2, t.producer);
    }
    MiddleStays(k, x.c1.c, y.c1.c, |x.c1.acked|, x.c1.ring.poisoned, x.m, x.c2, y.c2);
  }

  lemma StepKeeps<S, A, B>(k: Params<S, A, B>, x: Joint<S, A, B>, t: Mover)
    requires PillLast(k.src) && JointInv(k, x) && Step(k, x, t).Some?
    ensures JointInv(k, Step(k, x, t).value)
  {
    match t
    case Head => HeadKeeps(k, x);
    case Tail => TailKeeps(k, x);
    case Wake1(_) => WakeUpKeeps(k, x, t);
    case Wake2(_) => WakeUpKeeps(k, x, t);
    case Mid =>
      match x.m
      case MRecv(_) => MiddleReceives(k, x);
      case MAck(_, _) => MiddleAcks(k, x);
      case MSend(_, _, _) => MiddleSends(k, x);
      case MPoison => MiddlePoisons(k, x);
      case MPill => MiddleStops(k, x);
  }

  // ---- No deadlock ----

  /** A blocked producer waits for the mutex, or has given up, or sleeps with the ring
      full unless its signal is on the way; after the poison it may just sleep. */
  lemma BlockedProducer<T>(c: Chan<T>, v: T)
    requires Steady(c) && ProducerStep(c, v).None?
    ensures
      || c.mutex == ByConsumer
      || (c.mutex == Free && c.p == PAsleep && (!Room(c) || c.ring.poisoned))
      || (c.p == PNull && c.ring.poisoned)
  {
  }

  lemma BlockedConsumer<T>(c: Chan<T>)
    requires Calm(c) && ConsumerStep(c).None?
    ensures c.mutex == ByProducer || (c.mutex == Free && c.c == CAsleep && Count(c) == 0)
  {
  }

  /** A thread that holds a mutex can move. */
  lemma HolderMoves<T>(c: Chan<T>, v: T)
    requires Steady(c)
    ensures c.mutex == ByProducer ==> c.p != PCheck && !c.p.PAsleep? && ProducerStep(c, v).Some?
    ensures c.mutex == ByConsumer ==> !c.c.CCheck? && !c.c.CPeeked? && ConsumerStep(c).Some?
  {
  }

  /** Why the first and the last thread do not move: finished, the middle thread
      has the mutex, or the ring between them is full, respectively empty. */
  lemma HeadWaits<S, A, B>(k: Params<S, A, B>, x: Joint<S, A, B>)
    requires JointInv(k, x) && HeadStep(k, x).None?
    ensures x.c1.mutex != ByProducer
    ensures
      || HeadDone(k.src, x.c1)
      || x.c1.mutex == ByConsumer
      || (x.c1.ring.poisoned && (x.c1.p == PNull || x.c1.p == PAsleep))
      || (!x.c1.ring.poisoned && !Room(x.c1) && |x.c1.sent| < |k.src|)
  {
    var v := if |x.c1.sent| < |k.src| then k.src[|x.c1.sent|] else None;
    HolderMoves(x.c1, v);
    if !HeadDone(k.src, x.c1) {
      BlockedProducer(x.c1, v);
    }
  }

  lemma TailWaits<S, A, B>(k: Params<S, A, B>, x: Joint<S, A, B>)
    requires PillLast(k.src) && JointInv(k, x) && TailStep(x).None?
    ensures x.c2.mutex != ByConsumer
    ensures TailDone(x.c2) ==> |x.c2.acked| == |All(k)|
    ensures TailDone(x.c2) || x.c2.mutex == ByProducer || (Count(x.c2) == 0 && x.c2.c == CAsleep)
  {
    HolderMoves(x.c2, None);
    TailKnows(k, x);
    if !TailDone(x.c2) {
      BlockedConsumer(x.c2);
    }
  }

  lemma ReceiverMoves<S, A, B>(k: Params<S, A, B>, x: Joint<S, A, B>)
    requires PillLast(k.src) && JointInv(k, x) && HeadStep(k, x).None? && (x.m.MRecv? || x.m.MAck?)
    ensures MiddleStep(k, x).Some?
  {
    HeadWaits(k, x);
    HolderMoves(x.c1, None);
    if ConsumerStep(x.c1).None? {
      BlockedConsumer(x.c1);
    }
  }

  lemma SenderMoves<S, A, B>(k: Params<S, A, B>, x: Joint<S, A, B>)
    requires PillLast(k.src) && JointInv(k, x) && TailStep(x).None? && (x.m.MSend? || x.m.MPill?)
    ensures MiddleStep(k, x).Some?
  {
    var v := if x.m.MSend? then Some(x.m.v) else None;
    TailWaits(k, x);
    HolderMoves(x.c2, v);
    SendsPrefix(k, x.c1.c, |x.c1.acked|, x.c1.ring.poisoned, x.m, x.c2);
    if ProducerStep(x.c2, v).None? {
      BlockedProducer(x.c2, v);
    }
  }

  lemma DoneFinishes<S, A, B>(k: Params<S, A, B>, x: Joint<S, A, B>)
    requires PillLast(k.src) && JointInv(k, x) && HeadStep(k, x).None? && TailStep(x).None? && x.m == MDone
    ensures Over(k, x)
  {
    HeadWaits(k, x);
    TailWaits(k, x);
    HolderMoves(x.c1, None);
    HolderMoves(x.c2, None);
  }

  lemma StillIsOver<S, A, B>(k: Params<S, A, B>, x: Joint<S, A, B>)
    requires PillLast(k.src) && JointInv(k, x) && Still(k, x)
    ensures Over(k, x)
  {
    if !x.exited {
      if x.m.MRecv? || x.m.MAck? {
        ReceiverMoves(k, x);
      } else if x.m.MSend? || x.m.MPill? {
        SenderMoves(k, x);
      } else if x.m.MPoison? {
        MiddlePoisons(k, x);
      } else {
        DoneFinishes(k, x);
      }
    }
  }

  lemma OverIsStill<S, A, B>(k: Params<S, A, B>, x: Joint<S, A, B>)
    requires Sized(x) && Over(k, x)
    ensures Still(k, x)
  {
  }

  /** In every reachable state some thread can move until it is over: no cycle of
      sleepers and mutexes, and no lost wake-up but the poison's, across both
      channels. */
  lemma NeverStuck<S, A, B>(k: Params<S, A, B>, x: Joint<S, A, B>)
    requires PillLast(k.src) && JointInv(k, x)
    ensures Still(k, x) <==> Over(k, x)
  {
    if Still(k, x) {
      StillIsOver(k, x);
    }
    if Over(k, x) {
      OverIsStill(k, x);
    }
  }

  // ---- Bounded runs ----

  /** What the poison may still add. */
  function PoisonLoad<S, B>(m: Middle<S, B>, k: KPc): nat {
    match m
    case MPoison => (match k case KIdle => 12 case KSignalSend => 11 case KSignalRecv => 6)
    case MPill => 0
    case MDone => 0
    case _ => 13
  }

  function Load<S, A, B>(x: Joint<S, A, B>): int {
    Potential(x.c1) + Potential(x.c2) + PoisonLoad(x.m, x.c1.k)
  }

  lemma WokenLoad<T>(c: Chan<T>, producer: bool)
    requires WellSized(c.ring) && Woken(c, producer).Some?
    ensures Potential(Woken(c, producer).value) < Potential(c) + 4
  {
  }

  lemma PoisoningLoad<T>(c: Chan<T>)
    requires WellSized(c.ring) && Poisoning(c).Some?
    ensures Potential(Poisoning(c).value) <= Potential(c) + if c.k == KIdle then 0 else 3
  {
  }

  lemma ConsumerStepK<T>(c: Chan<T>, v: T)
    requires WellSized(c.ring)
    ensures ConsumerStep(c).Some? ==> ConsumerStep(c).value.k == c.k
    ensures ProducerStep(c, v).Some? ==> ProducerStep(c, v).value.k == c.k
  {
  }

  lemma ReceivingLoad<S, A, B>(k: Params<S, A, B>, x: Joint<S, A, B>)
    requires Sized(x) && (x.m.MRecv? || x.m.MAck?) && MiddleStep(k, x).Some?
    ensures Load(MiddleStep(k, x).value) < Load(x)
  {
    ConsumerPays(x.c1);
  }

  lemma SendingLoad<S, A, B>(k: Params<S, A, B>, x: Joint<S, A, B>)
    requires Sized(x) && (x.m.MSend? || x.m.MPill?) && MiddleStep(k, x).Some?
    ensures Load(MiddleStep(k, x).value) < Load(x)
  {
    ProducerPays(x.c2, if x.m.MSend? then Some(x.m.v) else None);
  }

  lemma FailingLoad<S, A, B>(k: Params<S, A, B>, x: Joint<S, A, B>)
    requires Sized(x) && x.m.MPoison? && MiddleStep(k, x).Some?
    requires x.c1.ring.poisoned <==> x.c1.k != KIdle
    ensures Load(MiddleStep(k, x).value) < Load(x)
  {
    PoisoningLoad(x.c1);
  }

  lemma MiddleLoad<S, A, B>(k: Params<S, A, B>, x: Joint<S, A, B>)
    requires JointInv(k, x) && MiddleStep(k, x).Some?
    ensures Load(MiddleStep(k, x).value) < Load(x)
  {
    if x.m.MRecv? || x.m.MAck? {
      ReceivingLoad(k, x);
    } else if x.m.MPoison? {
      FailingLoad(k, x);
    } else {
      SendingLoad(k, x);
    }
  }

  lemma StepLoad<S, A, B>(k: Params<S, A, B>, x: Joint<S, A, B>, t: Mover)
    requires JointInv(k, x) && Step(k, x, t).Some?
    ensures Load(Step(k, x, t).value) < Load(x) + if t.Wake1? || t.Wake2? then 4 else 0
  {
    match t
    case Head =>
      var v := if |x.c1.sent| < |k.src| then k.src[|x.c1.sent|] else None;
      ProducerPays(x.c1, v);
      ConsumerStepK(x.c1, v);
    case Tail => ConsumerPays(x.c2);
    case Wake1(b) => WokenLoad(x.c1, b);
    case Wake2(b) => WokenLoad(x.c2, b);
    case Mid => MiddleLoad(k, x);
  }

  /** The state after an interleaving, if every step was possible. */
  ghost function Result<S, A, B>(k: Params<S, A, B>, x: Joint<S, A, B>, ts: seq<Mover>): (r: Option<Joint<S, A, B>>)
    requires PillLast(k.src) && JointInv(k, x)
    ensures r.Some? ==> JointInv(k, r.value)
    decreases |ts|
  {
    if ts == [] then Some(x)
    else
      match Step(k, x, ts[0])
      case None => None
      case Some(y) => StepKeeps(k, x, ts[0]); Result(k, y, ts[1..])
  }

  /** How many spurious wake-ups an interleaving has. */
  function Spurious(ts: seq<Mover>): nat {
    if ts == [] then 0 else (if ts[0].Wake1? || ts[0].Wake2? then 1 else 0) + Spurious(ts[1..])
  }

  lemma {:induction false} LoadFalls<S, A, B>(k: Params<S, A, B>, x: Joint<S, A, B>, ts: seq<Mover>)
    requires PillLast(k.src) && JointInv(k, x) && Result(k, x, ts).Some?
    ensures Load(Result(k, x, ts).value) + |ts| <= Load(x) + 4 * Spurious(ts)
    decreases |ts|
  {
    if ts != [] {
      StepKeeps(k, x, ts[0]);
      StepLoad(k, x, ts[0]);
      LoadFalls(k, Step(k, x, ts[0]).value, ts[1..]);
    }
  }

  lemma LoadAtLeast<S, A, B>(k: Params<S, A, B>, x: Joint<S, A, B>)
    requires PillLast(k.src) && JointInv(k, x)
    ensures Load(x) >= -34 * (|k.src| + |All(k)|)
  {
    SentIsPrefix(k, x);
  }

  // ---- Results ----

  /** New channels of at least one element, and blanks in their slots. */
  ghost predicate Fresh<A, B>(cap1: nat, e1: seq<Option<A>>, cap2: nat, e2: seq<Option<B>>) {
    cap1 >= 1 && cap2 >= 1 && |e1| == cap1 + 1 && |e2| == cap2 + 1
  }

  lemma BeginInv<S, A, B>(k: Params<S, A, B>, cap1: nat, e1: seq<Option<A>>, cap2: nat, e2: seq<Option<B>>)
    requires Usable(k) && Fresh(cap1, e1, cap2, e2)
    ensures JointInv(k, Begin(k, cap1, e1, cap2, e2))
  {
    InitialInv(cap1, e1);
    InitialInv(cap2, e2);
    OutsPillLast(k.turn, k.start, k.src);
    assert k.src[0..] == k.src;
    assert [] + All(k) == All(k);
  }

  /** Where an interleaving leads from the beginning. */
  ghost predicate Leads<S, A, B>(
      k: Params<S, A, B>, cap1: nat, e1: seq<Option<A>>, cap2: nat, e2: seq<Option<B>>,
      ts: seq<Mover>, x: Joint<S, A, B>): (b: bool)
    requires Usable(k) && Fresh(cap1, e1, cap2, e2)
    ensures b ==> JointInv(k, x)
  {
    BeginInv(k, cap1, e1, cap2, e2);
    Result(k, Begin(k, cap1, e1, cap2, e2), ts) == Some(x)
  }

  /** Three threads over two real channels, in every interleaving: what the last
      thread has received is a prefix of what is to be sent on; but for spurious
      wake-ups the run is bounded; it ends only when it is over, and then, unless the
      process has exited, everything has been received, the pill last. If nothing
      fails there is no poison and no exit, and over means that all have finished. */
  lemma JointProgress<S, A, B>(
      k: Params<S, A, B>, cap1: nat, e1: seq<Option<A>>, cap2: nat, e2: seq<Option<B>>,
      ts: seq<Mover>, x: Joint<S, A, B>)
    requires Usable(k) && Fresh(cap1, e1, cap2, e2) && Leads(k, cap1, e1, cap2, e2, ts, x)
    ensures JointInv(k, x) && x.c2.acked <= All(k)
    ensures |ts| <= 69 + 34 * (|k.src| + |All(k)|) + 4 * Spurious(ts)
    ensures Still(k, x) <==> Over(k, x)
    ensures Over(k, x) && !x.exited ==> x.c2.acked == All(k)
    ensures !Faulty(k) ==> !x.c1.ring.poisoned && !x.exited && (Over(k, x) <==> Finished(k, x))
  {
    BeginInv(k, cap1, e1, cap2, e2);
    LoadFalls(k, Begin(k, cap1, e1, cap2, e2), ts);
    LoadAtLeast(k, x);
    NeverStuck(k, x);
    TailKnows(k, x);
    SentIsPrefix(k, x);
  }

  ghost predicate Completes<S, A, B>(k: Params<S, A, B>, x: Joint<S, A, B>, ts: seq<Mover>)
    requires PillLast(k.src) && JointInv(k, x)
  {
    Result(k, x, ts).Some? && Over(k, Result(k, x, ts).value)
  }

  lemma CompletesAfter<S, A, B>(k: Params<S, A, B>, x: Joint<S, A, B>, t: Mover, ts: seq<Mover>)
    requires PillLast(k.src) && JointInv(k, x) && Step(k, x, t).Some?
    requires JointInv(k, Step(k, x, t).value) && Completes(k, Step(k, x, t).value, ts)
    ensures Completes(k, x, [t] + ts)
  {
    assert ([t] + ts)[1..] == ts;
  }

  /** The steps that remain at most, without spurious wake-ups. */
  function Remaining<S, A, B>(k: Params<S, A, B>, x: Joint<S, A, B>): int {
    Load(x) + 34 * (|k.src| + |All(k)|)
  }

  lemma Advances<S, A, B>(k: Params<S, A, B>, x: Joint<S, A, B>) returns (t: Mover)
    requires PillLast(k.src) && JointInv(k, x) && !Over(k, x)
    ensures Step(k, x, t).Some?
    ensures JointInv(k, Step(k, x, t).value) && 0 <= Remaining(k, Step(k, x, t).value) < Remaining(k, x)
  {
    NeverStuck(k, x);
    t := if Step(k, x, Head).Some? then Head else if Step(k, x, Mid).Some? then Mid else Tail;
    StepKeeps(k, x, t);
    StepLoad(k, x, t);
    LoadAtLeast(k, Step(k, x, t).value);
  }

  lemma CompletesNow<S, A, B>(k: Params<S, A, B>, x: Joint<S, A, B>)
    requires PillLast(k.src) && JointInv(k, x) && Over(k, x)
    ensures Completes(k, x, [])
  {
  }

  /** From every reachable state it can be brought to an end. */
  lemma {:induction false} CanFinish<S, A, B>(k: Params<S, A, B>, x: Joint<S, A, B>) returns (ts: seq<Mover>)
    requires PillLast(k.src) && JointInv(k, x)
    ensures Completes(k, x, ts)
    decreases Remaining(k, x)
  {
    if Over(k, x) {
      CompletesNow(k, x);
      ts := [];
    } else {
      var t := Advances(k, x);
      ts := CanFinish(k, Step(k, x, t).value);
      CompletesAfter(k, x, t, ts);
      ts := [t] + ts;
    }
  }

  // ---- The first thread under the poison ----

  predicate ElementAt<T>(src: seq<Option<T>>, i: nat) { i < |src| && src[i].Some? }

  /** Waiting in channel_reserve for a slot for an element, not for the pill. */
  predicate Asks<T>(src: seq<Option<T>>, c: Chan<Option<T>>) { Reserving(c.p) && ElementAt(src, |c.sent|) }

  /** What the first thread does next, if the channel is poisoned, is to ask for a slot
      for an element: it is asking already, or it is past the poison check of a send
      after which it does. */
  predicate DoomedHead<T>(src: seq<Option<T>>, c: Chan<Option<T>>) {
    if Committing(c.p) then ElementAt(src, |c.sent| + 1)
    else if Sent(c.p) || Reserving(c.p) then ElementAt(src, |c.sent|)
    else false
  }

  ghost predicate FallenJoint<S, A, B>(k: Params<S, A, B>, x: Joint<S, A, B>) {
    PillLast(k.src) && JointInv(k, x) && x.c1.ring.poisoned && !x.exited
  }

  lemma HeadFate<T>(src: seq<Option<T>>, c: Chan<Option<T>>, v: Option<T>)
    requires Steady(c) && c.ring.poisoned && !HeadDone(src, c) && ProducerStep(c, v).Some?
    ensures var c' := ProducerStep(c, v).value;
      && (Exits(src, c, c') <==> c'.p == PNull && Asks(src, c))
      && (!Exits(src, c, c') ==> (DoomedHead(src, c') <==> DoomedHead(src, c)))
      && |c'.sent| + OneIf(Committing(c'.p)) <= |c.sent| + OneIf(Committing(c.p))
  {
    PoisonedProducerStep(c, Produce(v));
  }

  lemma OthersFate<T>(src: seq<Option<T>>, c: Chan<Option<T>>, c': Chan<Option<T>>)
    requires MaybeWokenP(c.p, c'.p) && c'.sent == c.sent
    ensures DoomedHead(src, c') <==> DoomedHead(src, c)
    ensures Committing(c'.p) <==> Committing(c.p)
  {
  }

  /** Under the poison the process exits exactly when the first thread is refused a slot
      that it asks for an element; nothing else changes whether it will ask for one. */
  lemma FallenJointStep<S, A, B>(k: Params<S, A, B>, x: Joint<S, A, B>, t: Mover)
    requires FallenJoint(k, x) && Step(k, x, t).Some?
    ensures var y := Step(k, x, t).value;
      && (y.exited <==> t == Head && y.c1.p == PNull && Asks(k.src, x.c1))
      && (!y.exited ==> FallenJoint(k, y) && (DoomedHead(k.src, y.c1) <==> DoomedHead(k.src, x.c1)))
      && |y.c1.sent| + OneIf(Committing(y.c1.p)) <= |x.c1.sent| + OneIf(Committing(x.c1.p))
  {
    var y := Step(k, x, t).value;
    StepKeeps(k, x, t);
    match t
    case Head =>
      var v := if |x.c1.sent| < |k.src| then k.src[|x.c1.sent|] else None;
      ProducerStepSteady(x.c1, v);
      HeadFate(k.src, x.c1, v);
    case Mid =>
      if x.m.MPoison? {
        PoisoningSteady(x.c1);
        OthersFate(k.src, x.c1, y.c1);
      }
    case Tail =>
    case Wake1(b) =>
      WokenSteady(x.c1, b);
      OthersFate(k.src, x.c1, y.c1);
    case Wake2(_) =>
  }

  lemma {:induction false} NeverExits<S, A, B>(k: Params<S, A, B>, x: Joint<S, A, B>, ts: seq<Mover>)
    requires FallenJoint(k, x) && Result(k, x, ts).Some?
    ensures var e := Result(k, x, ts).value;
      && (!DoomedHead(k.src, x.c1) ==> !e.exited)
      && |e.c1.sent| <= |x.c1.sent| + OneIf(Committing(x.c1.p))
    decreases |ts|
  {
    if ts != [] {
      var y := Step(k, x, ts[0]).value;
      FallenJointStep(k, x, ts[0]);
      DoomedAsks(k.src, x.c1);
      if !y.exited {
        NeverExits(k, y, ts[1..]);
      }
    }
  }

  lemma DoomedAsks<T>(src: seq<Option<T>>, c: Chan<Option<T>>)
    ensures Asks(src, c) ==> DoomedHead(src, c)
  {
  }

  ghost predicate LeadsToExit<S, A, B>(k: Params<S, A, B>, x: Joint<S, A, B>, ts: seq<Mover>)
    requires PillLast(k.src) && JointInv(k, x)
  {
    Result(k, x, ts).Some? && Result(k, x, ts).value.exited
  }

  /** The steps that the first thread needs at most, its wake-up included. */
  function HeadSteps<T>(c: Chan<T>, n: nat): int {
    Potential(c) + 34 * n + 4 * OneIf(PSleeps(c.p))
  }

  /** A doomed first thread that is awake can move. */
  lemma DoomedAwake<S, A, B>(k: Params<S, A, B>, x: Joint<S, A, B>)
    requires FallenJoint(k, x) && DoomedHead(k.src, x.c1) && x.c1.p != PAsleep
    ensures HeadStep(k, x).Some?
    ensures HeadSteps(HeadStep(k, x).value.c1, |k.src|) < HeadSteps(x.c1, |k.src|)
  {
    var v := if |x.c1.sent| < |k.src| then k.src[|x.c1.sent|] else None;
    HolderMoves(x.c1, v);
    if ProducerStep(x.c1, v).None? {
      BlockedProducer(x.c1, v);
    }
    ProducerPays(x.c1, v);
    StaysAwake(x.c1, v);
  }

  /** One that sleeps can be woken. */
  lemma DoomedWakes<S, A, B>(k: Params<S, A, B>, x: Joint<S, A, B>)
    requires FallenJoint(k, x) && x.c1.p == PAsleep
    ensures Step(k, x, Wake1(true)).Some?
    ensures HeadSteps(Step(k, x, Wake1(true)).value.c1, |k.src|) < HeadSteps(x.c1, |k.src|)
  {
  }

  lemma DoomedMoves<S, A, B>(k: Params<S, A, B>, x: Joint<S, A, B>) returns (t: Mover)
    requires FallenJoint(k, x) && DoomedHead(k.src, x.c1)
    ensures Step(k, x, t).Some?
    ensures var y := Step(k, x, t).value;
      0 <= HeadSteps(y.c1, |k.src|) < HeadSteps(x.c1, |k.src|)
  {
    if x.c1.p == PAsleep {
      t := Wake1(true);
      DoomedWakes(k, x);
    } else {
      t := Head;
      DoomedAwake(k, x);
    }
    StepKeeps(k, x, t);
    HeadStepsLeft(k, Step(k, x, t).value);
  }

  lemma HeadStepsLeft<S, A, B>(k: Params<S, A, B>, x: Joint<S, A, B>)
    requires PillLast(k.src) && JointInv(k, x)
    ensures HeadSteps(x.c1, |k.src|) >= 0
  {
    SentIsPrefix(k, x);
  }

  /** A poisoned producer does not go to sleep. */
  lemma StaysAwake<T>(c: Chan<T>, v: T)
    requires Steady(c) && c.ring.poisoned && ProducerStep(c, v).Some?
    ensures PSleeps(ProducerStep(c, v).value.p) ==> PSleeps(c.p)
  {
  }

  lemma {:induction false} DoomedExits<S, A, B>(k: Params<S, A, B>, x: Joint<S, A, B>) returns (ts: seq<Mover>)
    requires FallenJoint(k, x) && DoomedHead(k.src, x.c1)
    ensures LeadsToExit(k, x, ts)
    decreases HeadSteps(x.c1, |k.src|)
  {
    var t := DoomedMoves(k, x);
    var y := Step(k, x, t).value;
    FallenJointStep(k, x, t);
    StepKeeps(k, x, t);
    if y.exited {
      ts := [];
    } else {
      ts := DoomedExits(k, y);
    }
    assert ([t] + ts)[1..] == ts;
    ts := [t] + ts;
  }

  /** Exactly when the poison can take the process down, at the level of locks and
      sleepers: from any reachable poisoned state some run exits if and only if the
      first thread is to ask for another slot for an element. And whatever the run, at
      most one element more is sent on the poisoned channel, by a send that was past
      its poison check. */
  lemma PoisonedJoint<S, A, B>(k: Params<S, A, B>, x: Joint<S, A, B>)
    requires FallenJoint(k, x)
    ensures (exists ts :: LeadsToExit(k, x, ts)) <==> DoomedHead(k.src, x.c1)
    ensures forall ts :: Result(k, x, ts).Some? ==>
      |Result(k, x, ts).value.c1.sent|
        <= |x.c1.sent| + if x.c1.p == PSendLock || x.c1.p == PUpdate then 1 else 0
  {
    if DoomedHead(k.src, x.c1) {
      var ts := DoomedExits(k, x);
    }
    forall ts | Result(k, x, ts).Some?
      ensures LeadsToExit(k, x, ts) ==> DoomedHead(k.src, x.c1)
      ensures |Result(k, x, ts).value.c1.sent|
        <= |x.c1.sent| + if x.c1.p == PSendLock || x.c1.p == PUpdate then 1 else 0
    {
      NeverExits(k, x, ts);
    }
  }
}
