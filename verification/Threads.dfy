/** The sender's and the receiver's three threads over their two channels, down to
    the channels' own steps. */
module Threads {
  import opened Wire
  import opened Config
  import opened Erasure
  import opened Chunk
  import opened Chunking
  import opened Queues
  import opened Stream
  import opened Decoder
  import opened Session
  import opened Delivery
  import opened Composed
  import S = SendPipeline
  import R = ReceivePipeline

  /** A sequence as it travels on a channel, the pill last. */
  function Pilled<T>(xs: seq<T>): (q: seq<Option<T>>)
    ensures PillLast(q) && |q| == |xs| + 1
    ensures forall i :: 0 <= i <= |xs| ==> q[i] == Item(xs, i)
  {
    seq(|xs| + 1, i requires i >= 0 => Item(xs, i))
  }

  lemma PilledFirst<T>(xs: seq<T>)
    requires xs != []
    ensures Pilled(xs) == [Some(xs[0])] + Pilled(xs[1..])
    ensures Pilled(xs)[1..] == Pilled(xs[1..])
  {
    assert forall i :: 0 <= i <= |xs[1..]| ==> Item(xs[1..], i) == Item(xs, i + 1);
  }

  lemma PilledNone<T>()
    ensures Pilled<T>([]) == [None]
  {
  }

  // ---- The sender ----

  /** encode_loop: every chunk gets the next number. */
  function EncoderTurn(n: nat, data: bytes): (nat, Act<S.Numbered>) { (n + 1, Pass(S.Numbered(n, data))) }

  function SenderParams(input: bytes, size: nat): Params<nat, bytes, S.Numbered>
    requires size >= 1
  {
    Params(EncoderTurn, false, 0, Pilled(Chunks(input, size)))
  }

  lemma {:induction false} SenderOuts(all: seq<bytes>, n: nat)
    requires n <= |all|
    ensures Outs(EncoderTurn, n, Pilled(all[n..])) == Pilled(S.Numbering(all)[n..])
    ensures QuitsLast(EncoderTurn, n, Pilled(all[n..])) && !Fails(EncoderTurn, n, Pilled(all[n..]))
    decreases |all| - n
  {
    var cs, ns := all[n..], S.Numbering(all)[n..];
    if n == |all| {
      PilledNone<bytes>();
      PilledNone<S.Numbered>();
    } else {
      assert cs[1..] == all[n + 1..] && ns[1..] == S.Numbering(all)[n + 1..];
      assert cs[0] == all[n] && ns[0] == S.Numbered(n, all[n]);
      PilledFirst(cs);
      PilledFirst(ns);
      SenderOuts(all, n + 1);
    }
  }

  lemma SenderUsable(input: bytes, size: nat)
    requires size >= 1
    ensures Usable(SenderParams(input, size)) && !Faulty(SenderParams(input, size))
    ensures All(SenderParams(input, size)) == Pilled(S.Numbering(Chunks(input, size)))
  {
    var all := Chunks(input, size);
    assert all[0..] == all && S.Numbering(all)[0..] == S.Numbering(all);
    SenderOuts(all, 0);
  }

  lemma {:induction false} EncoderOutsLength(n: nat, src: seq<Option<bytes>>)
    requires PillLast(src)
    ensures |Outs(EncoderTurn, n, src)| == |src|
    decreases |src|
  {
    if src[0].Some? {
      RestPillLast(src, 1);
      EncoderOutsLength(n + 1, src[1..]);
    }
  }

  lemma RestPillLast<T>(src: seq<Option<T>>, n: nat)
    requires PillLast(src) && n < |src|
    ensures PillLast(src[n..])
  {
    assert forall i :: 0 <= i < |src| - n ==> src[n..][i] == src[n + i];
  }

  /** The encoding thread acknowledges a chunk only after it has sent it on. */
  lemma AcksAfterSending(k: Params<nat, bytes, S.Numbered>, x: Joint<nat, bytes, S.Numbered>)
    requires k.turn == EncoderTurn && !k.ackFirst && PillLast(k.src) && JointInv(k, x) && !Faulty(k)
    ensures |x.c1.acked| <= |x.c2.sent|
  {
    EncoderOutsLength(k.start, k.src);
    var acked := |x.c1.acked|;
    match x.m
    case MRecv(s) =>
      RestPillLast(k.src, acked);
      EncoderOutsLength(s, k.src[acked..]);
    case MAck(s, act) =>
      if !Leaves(act) {
        var n := Taken(x.c1.c, acked);
        RestPillLast(k.src, n);
        EncoderOutsLength(s, k.src[n..]);
      }
    case MSend(s, v, due) =>
      RestPillLast(k.src, acked + 1);
      EncoderOutsLength(s, k.src[acked + 1..]);
    case _ =>
  }

  /** The sending side over its channels: in every interleaving of its threads, at
      every step of the locking, the sending thread has received a prefix of the
      numbered chunks, and no chunk's buffer is released before it is sent on; it can
      always go on to the end, a run ends nowhere else, and there it has received every
      chunk once, in order, numbered, the pill last. */
  lemma SenderOverChannels(
      input: bytes, size: nat, cap1: nat, e1: seq<Option<bytes>>, cap2: nat, e2: seq<Option<S.Numbered>>,
      ts: seq<Mover>, x: Joint<nat, bytes, S.Numbered>)
    requires size >= 1 && Fresh(cap1, e1, cap2, e2)
    ensures Usable(SenderParams(input, size))
    ensures var k, sent := SenderParams(input, size), Pilled(S.Numbering(Chunks(input, size)));
      Leads(k, cap1, e1, cap2, e2, ts, x) ==>
        && JointInv(k, x) && x.c2.acked <= sent && |x.c1.acked| <= |x.c2.sent|
        && |ts| <= 137 + 68 * |Chunks(input, size)| + 4 * Spurious(ts)
        && (Finished(k, x) <==> Still(k, x))
        && (Finished(k, x) ==> x.c2.acked == sent)
        && (exists more :: Completes(k, x, more))
  {
    var k := SenderParams(input, size);
    SenderUsable(input, size);
    if Leads(k, cap1, e1, cap2, e2, ts, x) {
      AcksAfterSending(k, x);
      JointProgress(k, cap1, e1, cap2, e2, ts, x);
      var more := CanFinish(k, x);
      assert Completes(k, x, more);
    }
  }

  // ---- The receiver ----

  function Reaction(b: Option<bytes>, end: Option<Stop>): Act<bytes> {
    match end
    case Some(Error(_)) => Fail
    case Some(Crash) => Abort
    case Some(_) => Quit
    case None => if b.Some? then Pass(b.value) else Skip
  }

  /** decloop: what the decoder's turn means for the channels. */
  function ReceiverTurn(turn: TurnFn): TurnOf<DecState, bytes, bytes> {
    (s, raw) => var (s', b, end) := turn(s, raw); (s', Reaction(b, end))
  }

  function ReceiverParams(turn: TurnFn, trace: seq<bytes>): Params<DecState, bytes, bytes> {
    Params(ReceiverTurn(turn), true, FRESH, Pilled(Forwarded(trace)))
  }

  lemma {:induction false} ReceiverOuts(turn: TurnFn, s: DecState, fw: seq<bytes>)
    ensures Outs(ReceiverTurn(turn), s, Pilled(fw)) == Pilled(Loop(turn, s, fw).blocks)
    ensures Fails(ReceiverTurn(turn), s, Pilled(fw)) <==> R.Fatal(Loop(turn, s, fw).stop)
    decreases |fw|
  {
    PilledNone<bytes>();
    if fw != [] {
      var (s', b, end) := turn(s, fw[0]);
      PilledFirst(fw);
      if end.None? {
        ReceiverOuts(turn, s', fw[1..]);
        if b.Some? {
          PilledFirst(Loop(turn, s, fw).blocks);
        }
      }
    }
  }

  lemma QuitsFirst(turn: TurnFn, s: DecState, pkt: bytes, later: seq<bytes>)
    requires var (s', _, end) := turn(s, pkt);
      && (end.Some? && !R.Fatal(end.value) ==> later == [])
      && (end.None? ==> QuitsLast(ReceiverTurn(turn), s', Pilled(later)))
    ensures QuitsLast(ReceiverTurn(turn), s, Pilled([pkt] + later))
  {
    var (s', b, end) := turn(s, pkt);
    var act := Reaction(b, end);
    PilledFirst([pkt] + later);
    assert ([pkt] + later)[1..] == later && |[pkt] + later| == 1 + |later|;
    assert ReceiverTurn(turn)(s, pkt) == (s', act);
    assert act.Quit? ==> later == [];
  }

  /** On a packet of a stream the decoder takes the end for reached only at END. */
  lemma StreamTurn(st: Stream, s: DecState, a: Session, l: Label)
    requires Valid(st) && SessionOk(st, a) && InStream(st, l) && Refines(st, s, a)
    ensures var (s', _, end) := Turn(st.code, s, Raw(st, l));
      && (end.Some? && !R.Fatal(end.value) ==> TypeOf(Raw(st, l)) == End)
      && (end.None? ==> Refines(st, s', SessionTurn(st, a, l).0))
  {
    TurnRefines(st, s, a, l);
    RawIsEnd(st, l);
  }

  lemma {:induction false} StreamQuitsLast(st: Stream, s: DecState, a: Session, ls: seq<Label>)
    requires Valid(st) && SessionOk(st, a) && AllInStream(st, ls) && Refines(st, s, a)
    requires R.EndLast(RawAll(st, ls))
    ensures QuitsLast(ReceiverTurn(DecoderTurn(st.code)), s, Pilled(RawAll(st, ls)))
    decreases |ls|
  {
    if ls != [] {
      var raw, later := Raw(st, ls[0]), RawAll(st, ls[1..]);
      RawAllFirst(st, ls);
      EndLastRest(raw, later);
      StreamTurn(st, s, a, ls[0]);
      var (s', b, end) := Turn(st.code, s, raw);
      if end.None? {
        StreamQuitsLast(st, s', SessionTurn(st, a, ls[0]).0, ls[1..]);
      }
      QuitsFirst(DecoderTurn(st.code), s, raw, later);
    }
  }

  lemma EndLastRest(pkt: bytes, later: seq<bytes>)
    requires R.EndLast([pkt] + later)
    ensures R.EndLast(later) && (TypeOf(pkt) == End ==> later == [])
  {
    var fw := [pkt] + later;
    assert fw[0] == pkt && forall i :: 0 <= i < |later| ==> later[i] == fw[i + 1];
  }

  lemma ReceiverUsable(st: Stream, ls: seq<Label>)
    requires Valid(st) && AllInStream(st, ls)
    ensures var k, o := ReceiverParams(DecoderTurn(st.code), RawAll(st, ls)), Receive(st.code, RawAll(st, ls));
      Usable(k) && All(k) == Pilled(o.blocks) && (Faulty(k) <==> R.Fatal(o.stop))
  {
    var trace := RawAll(st, ls);
    ForwardedIsCut(st, ls);
    R.ForwardedEndLast(trace);
    StreamQuitsLast(st, FRESH, Idle(false), Cut(ls));
    ReceiverOuts(DecoderTurn(st.code), FRESH, Forwarded(trace));
  }

  /** What holds wherever an interleaving of the receiver's threads leads, if they
      are to hand on these blocks. */
  ghost predicate Delivers(
      k: Params<DecState, bytes, bytes>, ts: seq<Mover>, x: Joint<DecState, bytes, bytes>, blocks: seq<bytes>)
    requires Usable(k)
  {
    && JointInv(k, x) && x.c2.acked <= Pilled(blocks) && (x.m.MSend? ==> x.c1.c.CCheck?)
    && |ts| <= 103 + 34 * (|k.src| + |blocks|) + 4 * Spurious(ts)
    && (Over(k, x) <==> Still(k, x))
    && (Over(k, x) && !x.exited ==> x.c2.acked == Pilled(blocks))
    && (exists more :: Completes(k, x, more))
  }

  /** The receiving side over its channels, for any packets of a stream in any order
      and number, decoding errors and the poison included. In every interleaving of
      the three threads, at every step of the locking: the writer has received a
      prefix of what the sequential receiver hands on, and a packet is acknowledged
      before its block is sent on; the run can be brought to an
      end and ends nowhere else; there the process has exited or the writer has
      received all of it, the pill last. Without an error nothing is poisoned, nobody
      exits, and at the end all three have finished. */
  lemma ReceiverOverChannels(
      st: Stream, ls: seq<Label>, cap1: nat, e1: seq<Option<bytes>>, cap2: nat, e2: seq<Option<bytes>>,
      ts: seq<Mover>, x: Joint<DecState, bytes, bytes>)
    requires Valid(st) && AllInStream(st, ls) && Fresh(cap1, e1, cap2, e2)
    ensures var k, o := ReceiverParams(DecoderTurn(st.code), RawAll(st, ls)), Receive(st.code, RawAll(st, ls));
      && Usable(k)
      && (Leads(k, cap1, e1, cap2, e2, ts, x) ==>
            && Delivers(k, ts, x, o.blocks)
            && (!o.stop.Error? ==> !x.c1.ring.poisoned && !x.exited && (Over(k, x) <==> Finished(k, x))))
  {
    var k := ReceiverParams(DecoderTurn(st.code), RawAll(st, ls));
    ReceiverUsable(st, ls);
    if Leads(k, cap1, e1, cap2, e2, ts, x) {
      JointProgress(k, cap1, e1, cap2, e2, ts, x);
      var more := CanFinish(k, x);
      assert Completes(k, x, more);
      ReceiveIsSession(st, ls);
      SessionStops(st, Idle(false), Cut(ls));
    }
  }

  /** For a sufficient in-order lossy delivery of an input: nothing fails, and at the
      end the writer has received exactly the blocks that make up the input. */
  lemma InputOverChannels(
      code: Code, cfg: SenderConfig, input: bytes, ls: seq<Label>, from: seq<nat>,
      cap1: nat, e1: seq<Option<bytes>>, cap2: nat, e2: seq<Option<bytes>>,
      ts: seq<Mover>, x: Joint<DecState, bytes, bytes>)
    requires R.Sufficient(code, cfg, input, ls, from) && Fresh(cap1, e1, cap2, e2)
    ensures var st := StreamOf(code, cfg, input);
      && Valid(st) && AllInStream(st, ls)
      && var k := ReceiverParams(DecoderTurn(code), RawAll(st, ls));
         && Usable(k)
         && (Leads(k, cap1, e1, cap2, e2, ts, x) ==>
               && (Finished(k, x) <==> Still(k, x))
               && (Finished(k, x) ==> Concat(Waiting(x.c2.acked)) == input)
               && (exists more :: Completes(k, x, more)))
  {
    var st := StreamOf(code, cfg, input);
    EndToEnd(code, cfg, input, ls, from);
    ReceiverOverChannels(st, ls, cap1, e1, cap2, e2, ts, x);
    WaitingPilled(Receive(code, RawAll(st, ls)).blocks);
  }

  lemma WaitingPilled<T>(xs: seq<T>)
    ensures Waiting(Pilled(xs)) == xs
  {
    WaitingWindow(xs, Pilled(xs), 0);
  }
}
