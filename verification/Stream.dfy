/** A whole transfer as the sender produces it: the sequence of packets, each
    with a label that says what it is. */
module Stream {
  import opened Wire
  import opened Arithmetic
  import opened Config
  import opened Erasure
  import opened Chunk
  import opened Chunking
  import opened Encoder

  /** What a packet of a transfer is: data packets name their chunk and symbol id. */
  datatype Label = LBegin | LData(c: nat, id: u32) | LEnd | LKeepAlive

  datatype Stream = Stream(code: Code, cfg: SenderConfig, chunks: seq<bytes>)

  /** A sound code, an accepted configuration, chunks no longer than the read
      buffer and numbers below the reserved range. */
  ghost predicate Valid(st: Stream) {
    && Sound(st.code)
    && Accepted(st.cfg)
    && |st.chunks| <= FIRST_RESERVED
    && forall c :: 0 <= c < |st.chunks| ==> |st.chunks[c]| <= ChunkSize(st.cfg)
  }

  predicate InStream(st: Stream, l: Label) {
    l.LData? ==> l.c < |st.chunks|
  }

  predicate AllInStream(st: Stream, ls: seq<Label>) {
    forall i :: 0 <= i < |ls| ==> InStream(st, ls[i])
  }

  /** The bytes of a packet of the stream. */
  ghost function Raw(st: Stream, l: Label): bytes
    requires Valid(st) && InStream(st, l)
  {
    match l
    case LBegin => BEGIN_PKT
    case LEnd => END_PKT
    case LKeepAlive => KEEPALIVE_PKT
    case LData(c, id) => DataPacket(st.code, st.cfg.pktSize, c, st.chunks[c], id)
  }

  ghost function RawAll(st: Stream, ls: seq<Label>): (s: seq<bytes>)
    requires Valid(st) && AllInStream(st, ls)
    ensures |s| == |ls|
    ensures forall i :: 0 <= i < |ls| ==> s[i] == Raw(st, ls[i])
  {
    seq(|ls|, i requires 0 <= i < |ls| => Raw(st, ls[i]))
  }

  lemma RawAllAppend(st: Stream, xs: seq<Label>, ys: seq<Label>)
    requires Valid(st) && AllInStream(st, xs) && AllInStream(st, ys)
    ensures AllInStream(st, xs + ys)
    ensures RawAll(st, xs + ys) == RawAll(st, xs) + RawAll(st, ys)
  {
  }

  lemma RawAllFirst(st: Stream, ls: seq<Label>)
    requires Valid(st) && AllInStream(st, ls) && ls != []
    ensures RawAll(st, ls) == [Raw(st, ls[0])] + RawAll(st, ls[1..])
  {
  }

  /** The packets of chunk c, as the emission loop sends them. */
  function ChunkLabels(st: Stream, c: nat): (ls: seq<Label>)
    requires Accepted(st.cfg) && c < |st.chunks|
    ensures |ls| == EmissionCount(st.cfg, |st.chunks[c]|)
    ensures forall i :: 0 <= i < |ls| ==> ls[i] == LData(c, i % 0x1_0000_0000)
  {
    seq(EmissionCount(st.cfg, |st.chunks[c]|), i requires i >= 0 => LData(c, i % 0x1_0000_0000))
  }

  /** The data packets of the first k chunks, in sending order. */
  function DataLabels(st: Stream, k: nat): (ls: seq<Label>)
    requires Accepted(st.cfg) && k <= |st.chunks|
    ensures forall i :: 0 <= i < |ls| ==> ls[i].LData? && ls[i].c < k
  {
    if k == 0 then [] else DataLabels(st, k - 1) + ChunkLabels(st, k - 1)
  }

  function Salve(l: Label): seq<Label> { seq(SALVE_LEN, _ => l) }

  /** Everything send_loop sends, apart from keepalives. */
  function SenderLabels(st: Stream): seq<Label>
    requires Accepted(st.cfg)
  {
    Salve(LBegin) + DataLabels(st, |st.chunks|) + Salve(LEnd)
  }

  lemma SenderLabelsInStream(st: Stream)
    requires Accepted(st.cfg)
    ensures AllInStream(st, SenderLabels(st))
  {
  }

  /** hgap_sender_control: the same control packet, 32 times. */
  method SendControl(pkt: bytes) returns (sent: seq<bytes>)
    ensures sent == seq(SALVE_LEN, _ => pkt)
  {
    sent := [];
    for i := 0 to SALVE_LEN
      invariant sent == seq(i, _ => pkt)
    {
      sent := sent + [pkt];
    }
  }

  /** The packets of a chunk carry at least redund times its bytes, and one packet
      less, if there is more than one, would not. */
  lemma RedundancyReached(st: Stream, c: nat, n: nat)
    requires Accepted(st.cfg) && c < |st.chunks| && n == EmissionCount(st.cfg, |st.chunks[c]|)
    ensures var m := st.chunks[c];
      var payload := if |m| + 24 < st.cfg.pktSize then |m| else st.cfg.pktSize - 24;
      && n >= 1
      && (n * payload) as real >= st.cfg.redund * |m| as real
      && (n == 1 || ((n - 1) * payload) as real < st.cfg.redund * |m| as real)
  {
    var len := |st.chunks[c]|;
    CountReaches(n, len, BlockSize(st.cfg.pktSize, len), st.cfg.redund);
  }

  lemma SentReaches(st: Stream, c: nat, sent: seq<bytes>)
    requires Accepted(st.cfg) && c < |st.chunks| && |sent| == |ChunkLabels(st, c)|
    ensures var m := st.chunks[c];
      var payload := if |m| + 24 < st.cfg.pktSize then |m| else st.cfg.pktSize - 24;
      && |sent| >= 1
      && (|sent| * payload) as real >= st.cfg.redund * |m| as real
      && (|sent| == 1 || ((|sent| - 1) * payload) as real < st.cfg.redund * |m| as real)
  {
    RedundancyReached(st, c, |sent|);
  }

  lemma CountReaches(n: nat, len: nat, block: nat, r: real)
    requires r >= 1.0 && (len > 0 ==> 0 < block <= len) && n == PacketCount(len, block, r)
    ensures n >= 1 && Enough(n, len, block, r) && (n == 1 || !Enough(n - 1, len, block, r))
  {
    PacketCountLeast(len, block, r, n);
    if n > 1 {
      PacketCountLeast(len, block, r, n - 1);
    }
  }

  lemma ChunkRaws(st: Stream, c: nat)
    requires Valid(st) && c < |st.chunks|
    ensures var m := st.chunks[c]; var n := EmissionCount(st.cfg, |m|);
      && AllInStream(st, ChunkLabels(st, c))
      && RawAll(st, ChunkLabels(st, c)) == ChunkPackets(st.code, st.cfg.pktSize, c, m, n)
  {
    var m, labels := st.chunks[c], ChunkLabels(st, c);
    var packets := ChunkPackets(st.code, st.cfg.pktSize, c, m, |labels|);
    forall i | 0 <= i < |labels|
      ensures packets[i] == Raw(st, labels[i])
    {
      assert labels[i] == LData(c, i % 0x1_0000_0000);
    }
    assert RawAll(st, labels) == packets;
  }

  /** One turn of encode_loop and send_loop: a fresh chunk, encoded and emitted. */
  method SendOne(st: Stream, enc: HgapEncoder, pkt: array<byte>, c: nat) returns (sent: seq<bytes>)
    requires Valid(st) && c < |st.chunks|
    requires enc.pktSize == st.cfg.pktSize == pkt.Length && enc.nextChunkNum == c
    modifies enc`nextChunkNum, pkt
    ensures enc.nextChunkNum == c + 1
    ensures AllInStream(st, ChunkLabels(st, c))
    ensures sent == RawAll(st, ChunkLabels(st, c))
    ensures var m := st.chunks[c];
      var payload := if |m| + 24 < st.cfg.pktSize then |m| else st.cfg.pktSize - 24;
      && |sent| >= 1
      && (|sent| * payload) as real >= st.cfg.redund * |m| as real
      && (|sent| == 1 || ((|sent| - 1) * payload) as real < st.cfg.redund * |m| as real)
  {
    var m := st.chunks[c];
    var chunk := new EncChunk();
    SidesAgree(st.cfg, c, |m|, 0);
    var r := InitChunk(st.code, enc, chunk, m);
    assert r == SUCCESS;
    sent := SendChunk(st.code, chunk, pkt, st.cfg.redund, st.cfg.pktSize, m);
    ChunkRaws(st, c);
    SentReaches(st, c, sent);
  }

  /** The main loop of send_loop, fed by encode_loop. */
  method SendChunks(st: Stream, enc: HgapEncoder, pkt: array<byte>) returns (sent: seq<bytes>)
    requires Valid(st) && enc.pktSize == st.cfg.pktSize == pkt.Length && enc.nextChunkNum == 0
    modifies enc`nextChunkNum, pkt
    ensures AllInStream(st, DataLabels(st, |st.chunks|))
    ensures sent == RawAll(st, DataLabels(st, |st.chunks|))
  {
    sent := [];
    for c := 0 to |st.chunks|
      invariant enc.nextChunkNum == c
      invariant AllInStream(st, DataLabels(st, c))
      invariant sent == RawAll(st, DataLabels(st, c))
    {
      var packets := SendOne(st, enc, pkt, c);
      RawAllAppend(st, DataLabels(st, c), ChunkLabels(st, c));
      sent := sent + packets;
    }
  }

  lemma RawSalve(st: Stream, l: Label)
    requires Valid(st) && !l.LData?
    ensures AllInStream(st, Salve(l))
    ensures RawAll(st, Salve(l)) == seq(SALVE_LEN, _ => Raw(st, l))
  {
  }

  /** send_loop: handwave, every chunk encoded and emitted in turn, teardown. The
      packets sent are exactly the labelled trace. */
  method SendTransfer(st: Stream) returns (sent: seq<bytes>)
    requires Valid(st)
    ensures AllInStream(st, SenderLabels(st))
    ensures sent == RawAll(st, SenderLabels(st))
  {
    var enc := new HgapEncoder(st.cfg.pktSize);
    var pkt := new byte[st.cfg.pktSize](_ => 0);
    var begin := SendControl(BEGIN_PKT);
    var data := SendChunks(st, enc, pkt);
    var end := SendControl(END_PKT);
    sent := begin + data + end;
    RawSalve(st, LBegin);
    RawSalve(st, LEnd);
    RawAllAppend(st, Salve(LBegin), DataLabels(st, |st.chunks|));
    RawAllAppend(st, Salve(LBegin) + DataLabels(st, |st.chunks|), Salve(LEnd));
  }

  /** The stream that hgap_send makes of an input. */
  function StreamOf(code: Code, cfg: SenderConfig, input: bytes): Stream
    requires Accepted(cfg)
  {
    Stream(code, cfg, Chunks(input, ChunkSize(cfg)))
  }

  lemma StreamOfValid(code: Code, cfg: SenderConfig, input: bytes)
    requires Sound(code) && Accepted(cfg) && |input| < FIRST_RESERVED
    ensures Valid(StreamOf(code, cfg, input))
  {
    ChunksBounded(input, ChunkSize(cfg));
  }

  // ---- What a transfer consists of ----

  /** The labels of the packets of chunk c among these. */
  function PacketsOfChunk(ls: seq<Label>, c: nat): (r: seq<Label>)
    ensures forall i :: 0 <= i < |r| ==> r[i].LData? && r[i].c == c
  {
    if ls == [] then []
    else
      var front, last := PacketsOfChunk(ls[..|ls| - 1], c), ls[|ls| - 1];
      if last.LData? && last.c == c then front + [last] else front
  }

  lemma {:induction false} PacketsOfAppend(xs: seq<Label>, ys: seq<Label>, c: nat)
    ensures PacketsOfChunk(xs + ys, c) == PacketsOfChunk(xs, c) + PacketsOfChunk(ys, c)
    decreases |ys|
  {
    if ys == [] {
      assert xs + ys == xs;
    } else {
      var front := ys[..|ys| - 1];
      assert (xs + ys)[..|xs + ys| - 1] == xs + front;
      PacketsOfAppend(xs, front, c);
    }
  }

  predicate AllOf(ls: seq<Label>, c: nat) {
    forall i :: 0 <= i < |ls| ==> ls[i].LData? && ls[i].c == c
  }

  predicate NoneOf(ls: seq<Label>, c: nat) {
    forall i :: 0 <= i < |ls| ==> !(ls[i].LData? && ls[i].c == c)
  }

  lemma {:induction false} PacketsOfAll(ls: seq<Label>, c: nat)
    requires AllOf(ls, c)
    ensures PacketsOfChunk(ls, c) == ls
  {
    if ls != [] {
      var front, last := ls[..|ls| - 1], ls[|ls| - 1];
      PacketsOfAll(front, c);
      assert ls == front + [last];
    }
  }

  lemma {:induction false} PacketsOfNone(ls: seq<Label>, c: nat)
    requires NoneOf(ls, c)
    ensures PacketsOfChunk(ls, c) == []
  {
    if ls != [] {
      PacketsOfNone(ls[..|ls| - 1], c);
    }
  }

  lemma PacketsOfOther(all: seq<Label>, xs: seq<Label>, ys: seq<Label>, c: nat, ps: seq<Label>)
    requires all == xs + ys && NoneOf(ys, c) && PacketsOfChunk(xs, c) == ps
    ensures PacketsOfChunk(all, c) == ps
  {
    PacketsOfAppend(xs, ys, c);
    PacketsOfNone(ys, c);
  }

  lemma PacketsOfFirst(all: seq<Label>, xs: seq<Label>, ys: seq<Label>, c: nat)
    requires all == xs + ys && NoneOf(xs, c) && AllOf(ys, c)
    ensures PacketsOfChunk(all, c) == ys
  {
    PacketsOfAppend(xs, ys, c);
    PacketsOfNone(xs, c);
    PacketsOfAll(ys, c);
  }

  lemma LabelsOfChunk(st: Stream, k: nat, c: nat)
    requires Accepted(st.cfg) && k < |st.chunks|
    ensures k == c ==> AllOf(ChunkLabels(st, k), c)
    ensures k != c ==> NoneOf(ChunkLabels(st, k), c)
    ensures k <= c ==> NoneOf(DataLabels(st, k), c)
  {
  }

  lemma {:induction false} PacketsOfData(st: Stream, k: nat, c: nat)
    requires Accepted(st.cfg) && c < k <= |st.chunks|
    ensures PacketsOfChunk(DataLabels(st, k), c) == ChunkLabels(st, c)
  {
    var all, front, last := DataLabels(st, k), DataLabels(st, k - 1), ChunkLabels(st, k - 1);
    LabelsOfChunk(st, k - 1, c);
    if c == k - 1 {
      PacketsOfFirst(all, front, last, c);
    } else {
      PacketsOfData(st, k - 1, c);
      PacketsOfOther(all, front, last, c, ChunkLabels(st, c));
    }
  }

  lemma PacketsInTransfer(st: Stream, c: nat)
    requires Accepted(st.cfg) && c < |st.chunks|
    ensures PacketsOfChunk(SenderLabels(st), c) == ChunkLabels(st, c)
  {
    var begin, data, ps := Salve(LBegin), DataLabels(st, |st.chunks|), ChunkLabels(st, c);
    PacketsOfData(st, |st.chunks|, c);
    PacketsOfAppend(begin, data, c);
    PacketsOfNone(begin, c);
    assert [] + ps == ps;
    PacketsOfOther(SenderLabels(st), begin + data, Salve(LEnd), c, ps);
  }

  /** A transfer packet by packet: 32 BEGIN, then only data packets, then 32 END. */
  lemma TransferShape(st: Stream)
    requires Accepted(st.cfg)
    ensures var ls := SenderLabels(st);
      && |ls| >= 64
      && (forall i :: 0 <= i < 32 ==> ls[i] == LBegin)
      && (forall i :: 32 <= i < |ls| - 32 ==> ls[i].LData?)
      && (forall i :: |ls| - 32 <= i < |ls| ==> ls[i] == LEnd)
  {
  }

  /** Of every chunk a transfer carries the symbols 0, 1, 2, ..., as many as the
      configured redundancy asks for and not one more. */
  lemma TransferRedundancy(st: Stream, c: nat)
    requires Accepted(st.cfg) && c < |st.chunks|
    ensures var ps, m := PacketsOfChunk(SenderLabels(st), c), st.chunks[c];
      var payload := if |m| + 24 < st.cfg.pktSize then |m| else st.cfg.pktSize - 24;
      && (forall i :: 0 <= i < |ps| ==> ps[i] == LData(c, i % 0x1_0000_0000))
      && |ps| >= 1
      && (|ps| * payload) as real >= st.cfg.redund * |m| as real
      && (|ps| == 1 || ((|ps| - 1) * payload) as real < st.cfg.redund * |m| as real)
  {
    PacketsInTransfer(st, c);
    RedundancyReached(st, c, |PacketsOfChunk(SenderLabels(st), c)|);
  }

  /** What a data packet is on the wire: a header of 24 bytes in network order with
      the chunk's number, its length, the symbol's id and the payload's size, then the
      chunk itself if it fits in one packet, else that symbol of it. */
  lemma DataOnWire(st: Stream, c: nat, id: u32)
    requires Valid(st) && c < |st.chunks|
    ensures var raw, m := Raw(st, LData(c, id)), st.chunks[c];
      var payload := if |m| + 24 < st.cfg.pktSize then |m| else st.cfg.pktSize - 24;
      && |raw| == 24 + payload <= st.cfg.pktSize
      && (forall i :: 0 <= i < 8 ==> raw[i] == c / Pow256(7 - i) % 256)
      && (forall i :: 8 <= i < 16 ==> raw[i] == |m| / Pow256(15 - i) % 256)
      && (forall i :: 16 <= i < 20 ==> raw[i] == id / Pow256(19 - i) % 256)
      && (forall i :: 20 <= i < 24 ==> raw[i] == payload / Pow256(23 - i) % 256)
      && raw[24..] == if |m| == payload then m else st.code.symbol(m, payload, id)
  {
    var raw, m := Raw(st, LData(c, id)), st.chunks[c];
    var hdr := DataHeader(st.cfg.pktSize, c, |m|, id);
    SidesAgree(st.cfg, c, |m|, id);
    HeaderInOrder(hdr, HeaderBytes(hdr));
    assert raw[..24] == HeaderBytes(hdr);
    assert raw[24..] == Body(st.code, st.cfg.pktSize, m, id);
  }

  /** How an input is cut up, for every accepted configuration: every chunk but the
      last is worth exactly n_pkt source blocks of pkt_size - 24 bytes. */
  lemma ChunksOfInput(code: Code, cfg: SenderConfig, input: bytes)
    requires Accepted(cfg)
    ensures var cs, size := StreamOf(code, cfg, input).chunks, cfg.nPkt * (cfg.pktSize - 24);
      && size > 0 && |cs| == |input| / size + 1
      && (forall c :: 0 <= c < |cs| - 1 ==>
            |cs[c]| == size && Blocks(|cs[c]|, cfg.pktSize - 24) == cfg.nPkt)
      && |cs[|cs| - 1]| == |input| % size
      && Concat(cs) == input
  {
    ChunksPartition(input, ChunkSize(cfg));
    BlocksOfMultiple(cfg.nPkt, cfg.pktSize - 24);
  }

  lemma BlocksOfMultiple(n: nat, block: nat)
    requires block > 0
    ensures Blocks(n * block, block) == n
  {
    DivisionIs(n * block + block - 1, block, n, block - 1);
  }
}
