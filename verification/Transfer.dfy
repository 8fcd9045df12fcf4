/** Both sides together: the sender's threads, a lossy link on bytes, and the
    receiver's threads. */
module Transfer {
  import opened Wire
  import opened Config
  import opened Erasure
  import opened Chunk
  import opened Chunking
  import opened Encoder
  import opened Stream
  import opened Decoder
  import opened Delivery
  import opened Queues
  import opened Composed
  import T = Threads
  import S = SendPipeline
  import R = ReceivePipeline

  function PacketsOf(code: Code, cfg: SenderConfig, c: S.Numbered): seq<bytes>
    requires Accepted(cfg)
  {
    ChunkPackets(code, cfg.pktSize, c.num % 0x1_0000_0000_0000_0000, c.data, EmissionCount(cfg, |c.data|))
  }

  /** What goes on the wire for the first k chunks that the sending thread received. */
  function DataPackets(code: Code, cfg: SenderConfig, chunks: seq<S.Numbered>, k: nat): seq<bytes>
    requires Accepted(cfg) && k <= |chunks|
  {
    if k == 0 then [] else DataPackets(code, cfg, chunks, k - 1) + PacketsOf(code, cfg, chunks[k - 1])
  }

  function OnTheWire(code: Code, cfg: SenderConfig, chunks: seq<S.Numbered>): seq<bytes>
    requires Accepted(cfg)
  {
    seq(SALVE_LEN, _ => BEGIN_PKT) + DataPackets(code, cfg, chunks, |chunks|) + seq(SALVE_LEN, _ => END_PKT)
  }

  lemma ChunkPacketsAreLabels(st: Stream, c: nat)
    requires Valid(st) && c < |st.chunks|
    ensures AllInStream(st, ChunkLabels(st, c))
    ensures PacketsOf(st.code, st.cfg, S.Numbered(c, st.chunks[c])) == RawAll(st, ChunkLabels(st, c))
  {
    assert c % 0x1_0000_0000_0000_0000 == c;
    ChunkRaws(st, c);
  }

  lemma {:induction false} DataPacketsAreLabels(st: Stream, k: nat)
    requires Valid(st) && k <= |st.chunks|
    ensures AllInStream(st, DataLabels(st, k))
    ensures DataPackets(st.code, st.cfg, S.Numbering(st.chunks), k) == RawAll(st, DataLabels(st, k))
  {
    if k > 0 {
      DataPacketsAreLabels(st, k - 1);
      ChunkPacketsAreLabels(st, k - 1);
      RawAllAppend(st, DataLabels(st, k - 1), ChunkLabels(st, k - 1));
    }
  }

  lemma WireIsLabels(st: Stream, chunks: seq<S.Numbered>)
    requires Valid(st) && chunks == S.Numbering(st.chunks)
    ensures AllInStream(st, SenderLabels(st))
    ensures OnTheWire(st.code, st.cfg, chunks) == RawAll(st, SenderLabels(st))
  {
    var data := DataLabels(st, |st.chunks|);
    DataPacketsAreLabels(st, |st.chunks|);
    RawSalve(st, LBegin);
    RawSalve(st, LEnd);
    RawAllAppend(st, Salve(LBegin), data);
    RawAllAppend(st, Salve(LBegin) + data, Salve(LEnd));
  }

  /** Whatever the interleaving of the sender's threads, once they have finished
      the packets on the wire are those of the input's stream. */
  lemma ThreadedSender(k: S.Params, code: Code, cfg: SenderConfig, input: bytes, ts: seq<S.Thread>, x: S.State)
    requires Sound(code) && Accepted(cfg) && |input| < FIRST_RESERVED
    requires S.Usable(k) && k.size == ChunkSize(cfg)
    requires S.Run(k, S.Start(input), ts) == Some(x) && S.Finished(x)
    ensures var st := StreamOf(code, cfg, input);
      && Valid(st) && AllInStream(st, SenderLabels(st))
      && OnTheWire(code, cfg, x.sent) == RawAll(st, SenderLabels(st))
  {
    StreamOfValid(code, cfg, input);
    S.SenderProgress(k, input, ts);
    WireIsLabels(StreamOf(code, cfg, input), x.sent);
  }

  // ---- The link, on bytes ----

  /** Each packet that arrives is a keepalive (None) or comes from a place on the
      wire; places never go back. Losses and repeats are free. */
  ghost predicate Arrives(wire: seq<bytes>, got: seq<bytes>, from: seq<Option<nat>>) {
    && |from| == |got|
    && (forall i :: 0 <= i < |got| ==>
          if from[i].None? then got[i] == KEEPALIVE_PKT
          else from[i].value < |wire| && got[i] == wire[from[i].value])
    && (forall i, j :: 0 <= i < j < |got| && from[i].Some? && from[j].Some? ==> from[i].value <= from[j].value)
  }

  /** What the packets that arrived are. */
  function LabelsOf(st: Stream, from: seq<Option<nat>>): (ls: seq<Label>)
    requires Accepted(st.cfg)
    requires forall i :: 0 <= i < |from| && from[i].Some? ==> from[i].value < |SenderLabels(st)|
    ensures |ls| == |from|
    ensures forall i :: 0 <= i < |from| ==>
      ls[i] == if from[i].None? then LKeepAlive else SenderLabels(st)[from[i].value]
  {
    seq(|from|, i requires 0 <= i < |from| =>
      if from[i].None? then LKeepAlive else SenderLabels(st)[from[i].value])
  }

  function Places(from: seq<Option<nat>>): (ps: seq<nat>)
    ensures |ps| == |from|
    ensures forall i :: 0 <= i < |from| && from[i].Some? ==> ps[i] == from[i].value
  {
    seq(|from|, i requires 0 <= i < |from| => if from[i].Some? then from[i].value else 0)
  }

  lemma SenderLabelsAreNotKeepAlive(st: Stream)
    requires Accepted(st.cfg)
    ensures forall i :: 0 <= i < |SenderLabels(st)| ==> !SenderLabels(st)[i].LKeepAlive?
  {
  }

  lemma ArrivalIsDelivery(st: Stream, got: seq<bytes>, from: seq<Option<nat>>)
    requires Valid(st) && AllInStream(st, SenderLabels(st))
    requires Arrives(RawAll(st, SenderLabels(st)), got, from)
    ensures var ls := LabelsOf(st, from);
      && InOrder(st, ls, Places(from))
      && AllInStream(st, ls) && got == RawAll(st, ls)
  {
    var ls := LabelsOf(st, from);
    SenderLabelsAreNotKeepAlive(st);
    assert InOrder(st, ls, Places(from));
    InOrderStaged(st, ls, Places(from));
  }

  /** What the arrival must contain: BEGIN, END and a decodable set of packets of
      each nonempty chunk. */
  ghost predicate Suffices(st: Stream, from: seq<Option<nat>>)
    requires Accepted(st.cfg)
  {
    && (forall i :: 0 <= i < |from| && from[i].Some? ==> from[i].value < |SenderLabels(st)|)
    && var ls := LabelsOf(st, from);
       LBegin in ls && LEnd in ls && AllDone(st, ls, |st.chunks|)
  }

  /** The sender's half: every interleaving can be continued until its threads
      finish, and however they finish, the wire has carried the input's stream. */
  lemma SenderCompletes(k: S.Params, code: Code, cfg: SenderConfig, input: bytes, ts: seq<S.Thread>)
    requires Sound(code) && Accepted(cfg) && |input| < FIRST_RESERVED
    requires S.Usable(k) && k.size == ChunkSize(cfg) && S.Run(k, S.Start(input), ts).Some?
    ensures exists more :: S.Finishes(k, S.Start(input), ts + more)
    ensures var st := StreamOf(code, cfg, input);
      && Valid(st) && AllInStream(st, SenderLabels(st))
      && forall more :: S.Finishes(k, S.Start(input), ts + more) ==>
           OnTheWire(code, cfg, S.Run(k, S.Start(input), ts + more).value.sent) == RawAll(st, SenderLabels(st))
  {
    var st := StreamOf(code, cfg, input);
    StreamOfValid(code, cfg, input);
    SenderLabelsInStream(st);
    S.SenderFinishes(k, input, ts);
    forall more | S.Finishes(k, S.Start(input), ts + more)
      ensures OnTheWire(code, cfg, S.Run(k, S.Start(input), ts + more).value.sent) == RawAll(st, SenderLabels(st))
    {
      ThreadedSender(k, code, cfg, input, ts + more, S.Run(k, S.Start(input), ts + more).value);
    }
  }

  /** The whole transfer. For every input and accepted configuration, every
      interleaving of the sender's threads, every in-order lossy arrival of the
      packets with at least one BEGIN, one END and a decodable set of each nonempty
      chunk, and every interleaving of the receiver's threads: the receiver's run
      can be continued until its threads finish, it ends in no other way, and once
      they have finished the receiver has written exactly the input. */
  lemma WholeTransfer(
      ks: S.Params, ts: seq<S.Thread>, kr: R.Params, tr: seq<R.Thread>,
      code: Code, cfg: SenderConfig, input: bytes, got: seq<bytes>, from: seq<Option<nat>>)
    requires Sound(code) && Accepted(cfg) && |input| < FIRST_RESERVED
    requires S.Usable(ks) && ks.size == ChunkSize(cfg) && S.Finishes(ks, S.Start(input), ts)
    requires Arrives(OnTheWire(code, cfg, S.Run(ks, S.Start(input), ts).value.sent), got, from)
    requires Suffices(StreamOf(code, cfg, input), from)
    requires R.Usable(kr) && kr.turn == DecoderTurn(code) && R.Run(kr, R.Start(got), tr).Some?
    ensures var y := R.Run(kr, R.Start(got), tr).value;
      && (exists more :: R.Finishes(kr, R.Start(got), tr + more))
      && (R.Finished(y) <==> forall t :: R.Next(kr, y, t).None?)
      && (R.Finished(y) ==> Concat(y.written) == input)
  {
    var st := StreamOf(code, cfg, input);
    ThreadedSender(ks, code, cfg, input, ts, S.Run(ks, S.Start(input), ts).value);
    ArrivalIsDelivery(st, got, from);
    R.ThreadedEndToEnd(kr, code, cfg, input, LabelsOf(st, from), Places(from), tr);
  }

  // ---- The same over the channels' own steps ----

  /** What is on the wire once the sending thread has received its last chunk. */
  lemma WireOverChannels(
      code: Code, cfg: SenderConfig, input: bytes,
      cap1: nat, e1: seq<Option<bytes>>, cap2: nat, e2: seq<Option<S.Numbered>>,
      ts: seq<Mover>, x: Joint<nat, bytes, S.Numbered>)
    requires Sound(code) && Accepted(cfg) && |input| < FIRST_RESERVED && Fresh(cap1, e1, cap2, e2)
    ensures var k, st := T.SenderParams(input, ChunkSize(cfg)), StreamOf(code, cfg, input);
      && Usable(k) && Valid(st) && AllInStream(st, SenderLabels(st))
      && (Leads(k, cap1, e1, cap2, e2, ts, x) ==>
            && (Finished(k, x) <==> Still(k, x))
            && (exists more :: Completes(k, x, more))
            && (Finished(k, x) ==> OnTheWire(code, cfg, Waiting(x.c2.acked)) == RawAll(st, SenderLabels(st))))
  {
    var k, st := T.SenderParams(input, ChunkSize(cfg)), StreamOf(code, cfg, input);
    StreamOfValid(code, cfg, input);
    SenderLabelsInStream(st);
    T.SenderOverChannels(input, ChunkSize(cfg), cap1, e1, cap2, e2, ts, x);
    T.WaitingPilled(S.Numbering(st.chunks));
    WireIsLabels(st, S.Numbering(st.chunks));
  }

  /** The whole transfer, all six threads down to their locks, sleeps and signals. For
      every input and accepted configuration, every interleaving of the sender's
      threads over their channels, every sufficient in-order lossy arrival of what they
      put on the wire, and every interleaving of the receiver's threads over theirs:
      either side can always be brought to its end and ends nowhere else, and then the
      blocks that the writer has received are exactly the input. */
  lemma TransferOverChannels(
      code: Code, cfg: SenderConfig, input: bytes,
      cap1: nat, e1: seq<Option<bytes>>, cap2: nat, e2: seq<Option<S.Numbered>>,
      ts: seq<Mover>, x: Joint<nat, bytes, S.Numbered>,
      got: seq<bytes>, from: seq<Option<nat>>,
      cap3: nat, e3: seq<Option<bytes>>, cap4: nat, e4: seq<Option<bytes>>,
      tr: seq<Mover>, y: Joint<DecState, bytes, bytes>)
    requires Sound(code) && Accepted(cfg) && |input| < FIRST_RESERVED
    requires Fresh(cap1, e1, cap2, e2) && Fresh(cap3, e3, cap4, e4)
    requires Suffices(StreamOf(code, cfg, input), from)
    ensures var ks, kr := T.SenderParams(input, ChunkSize(cfg)), T.ReceiverParams(DecoderTurn(code), got);
      && Usable(ks)
      && (Leads(ks, cap1, e1, cap2, e2, ts, x) ==>
            && (Finished(ks, x) <==> Still(ks, x))
            && (exists more :: Completes(ks, x, more))
            && (Finished(ks, x) && Arrives(OnTheWire(code, cfg, Waiting(x.c2.acked)), got, from) ==>
                  && Usable(kr)
                  && (Leads(kr, cap3, e3, cap4, e4, tr, y) ==>
                        && (Finished(kr, y) <==> Still(kr, y))
                        && (Finished(kr, y) ==> Concat(Waiting(y.c2.acked)) == input)
                        && (exists more :: Completes(kr, y, more)))))
  {
    var ks, st := T.SenderParams(input, ChunkSize(cfg)), StreamOf(code, cfg, input);
    WireOverChannels(code, cfg, input, cap1, e1, cap2, e2, ts, x);
    if Leads(ks, cap1, e1, cap2, e2, ts, x) && Finished(ks, x)
      && Arrives(OnTheWire(code, cfg, Waiting(x.c2.acked)), got, from)
    {
      ArrivalIsDelivery(st, got, from);
      T.InputOverChannels(code, cfg, input, LabelsOf(st, from), Places(from), cap3, e3, cap4, e4, tr, y);
    }
  }
}
