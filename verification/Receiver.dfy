/** The three loops of src/lib/hgap_receive.c, each run alone on what reaches it. */
module Receiver {
  import opened Wire
  import opened Config
  import opened Erasure
  import opened Chunk
  import opened Chunking
  import opened Encoder
  import opened Stream
  import opened Decoder
  import opened Session

  /** hgapr_net_reader over the packets that recvfrom returns before it times out. */
  method NetReader(trace: seq<bytes>) returns (sent: seq<bytes>)
    ensures sent == Forwarded(trace)
  {
    sent := [];
    var i := 0;
    var more := true;
    while more && i < |trace|
      invariant 0 <= i <= |trace|
      invariant if more then sent + Forwarded(trace[i..]) == Forwarded(trace) else sent == Forwarded(trace)
      decreases more, |trace| - i
    {
      ghost var before, rest := sent, trace[i..];
      var pkt := trace[i];
      sent := sent + [pkt];
      i := i + 1;
      assert trace[i..] == rest[1..];
      if TypeOf(pkt) == End {
        more := false;
      } else {
        assert Forwarded(rest) == [pkt] + Forwarded(rest[1..]);
        assert sent + Forwarded(rest[1..]) == before + ([pkt] + Forwarded(rest[1..]));
      }
    }
  }

  lemma DecloopStep(
      code: Code, s: DecState, pkts: seq<bytes>, before: seq<bytes>, s': DecState, b: Option<bytes>, o: Outcome)
    requires pkts != [] && Turn(code, s, pkts[0]) == (s', b, None)
    requires before + Decloop(code, s, pkts).blocks == o.blocks && Decloop(code, s, pkts).stop == o.stop
    ensures (if b.Some? then before + [b.value] else before) + Decloop(code, s', pkts[1..]).blocks == o.blocks
    ensures Decloop(code, s', pkts[1..]).stop == o.stop
  {
    if b.Some? {
      var tail := Decloop(code, s', pkts[1..]).blocks;
      assert before + ([b.value] + tail) == before + [b.value] + tail;
    }
  }

  lemma TurnCoherent(code: Code, s: DecState, raw: bytes)
    requires FullMessages(code) && Coherent(code, s) && WellFormed(raw) && Fitting(s, raw)
    ensures Coherent(code, Turn(code, s, raw).0)
    ensures Turn(code, s, raw).2 != Some(Crash)
  {
    ReadCoherent(code, s, raw);
    var (s', n) := ReadStep(code, s, raw);
    if n > 0 {
      EmitCoherent(code, s', n);
    }
  }

  /** One turn of decloop on the decoder object. */
  method RunTurn(dec: Decoder, raw: bytes) returns (block: Option<bytes>, stop: Option<Stop>)
    requires FullMessages(dec.code) && Coherent(dec.code, dec.View()) && WellFormed(raw) && Fitting(dec.View(), raw)
    modifies dec, dec.chunk
    ensures (dec.View(), block, stop) == Turn(dec.code, old(dec.View()), raw)
    ensures Coherent(dec.code, dec.View())
  {
    ReadCoherent(dec.code, dec.View(), raw);
    TurnCoherent(dec.code, dec.View(), raw);
    var n := dec.Read(raw);
    if n == 0 { return None, None; }
    if n == -EOT { return None, Some(Eot); }
    if n < 0 { return None, Some(Error(-n)); }
    var buf := new byte[n](_ => 0);
    var e := dec.Emit(buf, n);
    match e
    case Emitted(b) => return Some(buf[..|b|]), None;
    case Failed(err) => return None, Some(Error(err));
    case Aborted => return None, Some(Crash);
  }

  /** decloop on the packets of the net reader, the poison pill coming last. */
  method RunDecloop(code: Code, pkts: seq<bytes>) returns (blocks: seq<bytes>, stop: Stop)
    requires FullMessages(code) && OrderlyFrom(code, FRESH, pkts)
    ensures Outcome(blocks, stop) == Decloop(code, FRESH, pkts)
  {
    var dec := new Decoder(code);
    blocks := [];
    ghost var o := Decloop(code, FRESH, pkts);
    var i := 0;
    while i < |pkts|
      invariant 0 <= i <= |pkts|
      invariant Coherent(code, dec.View()) && OrderlyFrom(code, dec.View(), pkts[i..])
      invariant blocks + Decloop(code, dec.View(), pkts[i..]).blocks == o.blocks
      invariant Decloop(code, dec.View(), pkts[i..]).stop == o.stop
      invariant fresh(dec) && fresh(dec.chunk) && dec.code == code
    {
      ghost var s, rest, before := dec.View(), pkts[i..], blocks;
      var b, end := RunTurn(dec, pkts[i]);
      assert rest[0] == pkts[i] && rest[1..] == pkts[i + 1..];
      if end.Some? { return blocks, end.value; }
      DecloopStep(code, s, rest, before, dec.View(), b, o);
      if b.Some? { blocks := blocks + [b.value]; }
      i := i + 1;
    }
    return blocks, Pill;
  }

  /** writer: appends the blocks to the output in the order they come. */
  method Writer(blocks: seq<bytes>) returns (out: bytes)
    ensures out == Concat(blocks)
  {
    out := [];
    for i := 0 to |blocks|
      invariant out == Concat(blocks[..i])
    {
      assert blocks[..i + 1] == blocks[..i] + [blocks[i]];
      ConcatAppend(blocks[..i], [blocks[i]]);
      assert Concat([blocks[i]]) == blocks[i] + Concat([]);
      out := out + blocks[i];
    }
    assert blocks[..|blocks|] == blocks;
  }

  lemma RawFitting(st: Stream, s: DecState, a: Session, l: Label)
    requires Valid(st) && SessionOk(st, a) && InStream(st, l) && Refines(st, s, a)
    ensures WellFormed(Raw(st, l)) && Fitting(s, Raw(st, l))
  {
    RawControl(st);
    if l.LData? {
      RawData(st, l.c, l.id);
      SidesAgree(st.cfg, l.c, |st.chunks[l.c]|, l.id);
    }
  }

  /** Packets of one stream, in any order, are what decloop's buffers expect. */
  lemma {:induction false} StreamIsOrderly(st: Stream, s: DecState, a: Session, ls: seq<Label>)
    requires Valid(st) && SessionOk(st, a) && AllInStream(st, ls) && Refines(st, s, a)
    ensures OrderlyFrom(st.code, s, RawAll(st, ls))
    decreases |ls|
  {
    if ls != [] {
      RawFitting(st, s, a, ls[0]);
      TurnRefines(st, s, a, ls[0]);
      var raws := RawAll(st, ls);
      assert raws[1..] == RawAll(st, ls[1..]);
      if Turn(st.code, s, raws[0]).2.None? {
        StreamIsOrderly(st, Turn(st.code, s, raws[0]).0, SessionTurn(st, a, ls[0]).0, ls[1..]);
      }
    }
  }
}
