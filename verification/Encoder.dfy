/** The sending side of src/lib/encoding.c and the emission loop of send_loop. */
module Encoder {
  import opened Wire
  import opened Arithmetic
  import opened Config
  import opened Erasure
  import opened Chunk

  /** The payload of packet `id` of a chunk: the chunk itself when it fits in one
      packet, a code symbol otherwise. */
  function Body(code: Code, pktSize: nat, m: bytes, id: u32): bytes
    requires pktSize >= HEADER_LEN
  {
    if |m| <= pktSize - HEADER_LEN then m else code.symbol(m, BlockSize(pktSize, |m|), id)
  }

  function DataHeader(pktSize: nat, num: u64, len: nat, id: u32): Header
    requires pktSize >= HEADER_LEN
  {
    Header(num, len % 0x1_0000_0000_0000_0000, id, BlockSize(pktSize, len) % 0x1_0000_0000)
  }

  function DataPacket(code: Code, pktSize: nat, num: u64, m: bytes, id: u32): bytes
    requires pktSize >= HEADER_LEN
  {
    HeaderBytes(DataHeader(pktSize, num, |m|, id)) + Body(code, pktSize, m, id)
  }

  class HgapEncoder {
    const pktSize: nat
    var nextChunkNum: u64

    constructor (pktSize: nat)
      ensures this.pktSize == pktSize && nextChunkNum == 0
    {
      this.pktSize := pktSize;
      nextChunkNum := 0;
    }
  }

  /** A chunk that hgap_enc_chunk_init prepared for message m with number num. */
  predicate Prepared(pktSize: nat, num: u64, m: bytes, c: ChunkState)
    requires pktSize >= HEADER_LEN
  {
    && c.num == num && c.len == |m| && c.data == Some(m)
    && c.pktSize == BlockSize(pktSize, |m|) + HEADER_LEN
    && (!IsSmall(c.len, c.pktSize) ==> c.wh == Encoding(m, BlockSize(pktSize, |m|)))
  }

  /** hgap_enc_chunk_init: takes the next number and prepares the chunk, unless
      wirehair refuses the message. total_gen is left as it was. */
  method InitChunk(code: Code, enc: HgapEncoder, chunk: EncChunk, toEnc: bytes) returns (r: int)
    requires enc.pktSize >= HEADER_LEN
    modifies enc`nextChunkNum, chunk
    ensures chunk.num == old(enc.nextChunkNum)
    ensures enc.nextChunkNum == (old(enc.nextChunkNum) + 1) % 0x1_0000_0000_0000_0000
    ensures chunk.nextPktId == 0 && chunk.totalGen == old(chunk.totalGen)
    ensures r == SUCCESS <==>
      |toEnc| <= enc.pktSize - HEADER_LEN || code.accepts(|toEnc|, BlockSize(enc.pktSize, |toEnc|))
    ensures r == SUCCESS ==> Prepared(enc.pktSize, old(enc.nextChunkNum), toEnc, chunk.View())
    ensures r != SUCCESS ==> r == ERR_WIREHAIR_ERROR
  {
    chunk.num := enc.nextChunkNum;
    enc.nextChunkNum := (enc.nextChunkNum + 1) % 0x1_0000_0000_0000_0000;
    chunk.len := |toEnc|;
    chunk.pktSize := if enc.pktSize < |toEnc| + HEADER_LEN then enc.pktSize else |toEnc| + HEADER_LEN;
    chunk.nextPktId := 0;
    chunk.data := Some(toEnc);
    if !IsSmall(chunk.len, chunk.pktSize) {
      var block := PayloadSize(chunk.pktSize);
      if !code.accepts(|toEnc|, block) {
        chunk.wh := NoState;
        return ERR_WIREHAIR_ERROR;
      }
      chunk.wh := Encoding(toEnc, block);
    }
    return SUCCESS;
  }

  /** The double that hgap_enc_chunk_emit returns: 0/0 for the empty chunk. */
  datatype Redundancy = NaN | Value(r: real)

  function RedundancyOf(total: nat, len: nat): Redundancy {
    if len == 0 then NaN else Value(total as real / len as real)
  }

  /** The IEEE comparison `cur < wanted`: false for NaN. */
  predicate Below(cur: Redundancy, wanted: real) {
    cur.Value? && cur.r < wanted
  }

  /** A packet in a buffer: header bytes first, the payload after them. */
  method WritePacket(pkt: array<byte>, hdr: Header, payload: bytes)
    requires pkt.Length >= HEADER_LEN + |payload|
    modifies pkt
    ensures pkt[..HEADER_LEN + |payload|] == HeaderBytes(hdr) + payload
  {
    forall i | 0 <= i < |payload| { pkt[HEADER_LEN + i] := payload[i]; }
    assert pkt[HEADER_LEN..][..|payload|] == payload;
    WriteHeader(hdr, pkt);
    assert pkt[..HEADER_LEN + |payload|] == pkt[..HEADER_LEN] + pkt[HEADER_LEN..][..|payload|];
  }

  /** hgap_enc_chunk_emit: writes the next packet of the chunk at the start of
      the caller's buffer. The small-packet check in it cannot fail. */
  method Emit(code: Code, chunk: EncChunk, pkt: array<byte>, ghost pktSize: nat, ghost m: bytes)
    returns (size: nat, redund: Redundancy)
    requires FullBlocks(code)
    requires pktSize >= HEADER_LEN && Prepared(pktSize, chunk.num, m, chunk.View())
    requires pkt.Length >= chunk.pktSize
    modifies chunk`nextPktId, chunk`totalGen, pkt
    ensures size == chunk.pktSize
    ensures pkt[..size] == DataPacket(code, pktSize, chunk.num, m, old(chunk.nextPktId) % 0x1_0000_0000)
    ensures chunk.nextPktId == old(chunk.nextPktId) + 1
    ensures chunk.totalGen == old(chunk.totalGen) + BlockSize(pktSize, |m|)
    ensures redund == RedundancyOf(chunk.totalGen, |m|)
  {
    var id := chunk.nextPktId;
    chunk.nextPktId := id + 1;
    var payloadSize;
    var payload;
    if IsSmall(chunk.len, chunk.pktSize) {
      payloadSize := chunk.len;
      assert payloadSize + HEADER_LEN == chunk.pktSize;
      forall i | 0 <= i < chunk.pktSize { pkt[i] := 0; }
      payload := chunk.data.value;
    } else {
      payloadSize := PayloadSize(chunk.pktSize);
      payload := code.symbol(chunk.wh.message, chunk.wh.block, id % 0x1_0000_0000);
    }
    var hdr := Header(chunk.num, chunk.len % 0x1_0000_0000_0000_0000, id % 0x1_0000_0000, payloadSize % 0x1_0000_0000);
    WritePacket(pkt, hdr, payload);
    size := chunk.pktSize;
    chunk.totalGen := chunk.totalGen + payloadSize;
    redund := RedundancyOf(chunk.totalGen, chunk.len);
  }

  // ---- How many packets the emission loop produces ----

  /** n packets of `block` bytes reach redundancy r for a chunk of `len` bytes. */
  predicate Enough(n: nat, len: nat, block: nat, r: real) {
    (n * block) as real >= r * len as real
  }

  function Ceiling(x: real): int {
    -((-x).Floor)
  }

  function PacketCount(len: nat, block: nat, r: real): (n: int)
    requires len > 0 ==> block > 0
  {
    if len == 0 then 1 else Ceiling(r * len as real / block as real)
  }

  /** The count is the least number, at least one, that reaches the redundancy;
      so at least one packet per source block is sent. */
  lemma PacketCountLeast(len: nat, block: nat, r: real, n: nat)
    requires r >= 1.0 && (len > 0 ==> 0 < block <= len)
    ensures PacketCount(len, block, r) >= 1
    ensures n >= 1 ==> (Enough(n, len, block, r) <==> n >= PacketCount(len, block, r))
    ensures len > 0 ==> PacketCount(len, block, r) >= Blocks(len, block)
  {
    if len > 0 {
      CountFromEnough(len, block, r, n);
      CountCovers(len, block, r);
      BlocksLeast(len, block, PacketCount(len, block, r));
    } else {
      assert r * 0.0 == 0.0;
    }
  }

  lemma CountCovers(len: nat, block: nat, r: real)
    requires r >= 1.0 && 0 < block && len > 0
    ensures PacketCount(len, block, r) >= 1
    ensures PacketCount(len, block, r) * block >= len
  {
    var x, l := r * len as real, len as real;
    ScaleUp(r, l);
    assert x >= l > 0.0;
    Cross(x, block as real, 0.0);
    assert x / block as real > 0.0;
    var count: nat := PacketCount(len, block, r);
    CountFromEnough(len, block, r, count);
    RealOrder(count * block, len, x);
  }

  lemma RealOrder(a: nat, b: nat, x: real)
    requires a as real >= x >= b as real
    ensures a >= b
  {
  }

  lemma ScaleUp(r: real, l: real)
    requires r >= 1.0 && l >= 0.0
    ensures r * l >= l
  {
  }

  lemma CountFromEnough(len: nat, block: nat, r: real, n: nat)
    requires len > 0 && block > 0
    ensures Enough(n, len, block, r) <==> n >= PacketCount(len, block, r)
  {
    var x := r * len as real / block as real;
    Cross(r * len as real, block as real, n as real);
    assert (n * block) as real == n as real * block as real;
    assert x <= n as real <==> -(n as real) <= -x;
    var minus: int := -(n as int);
    assert -(n as real) == minus as real;
  }

  lemma BlocksLeast(len: nat, block: nat, n: nat)
    requires block > 0 && n * block >= len
    ensures Blocks(len, block) <= n
  {
    var k := Blocks(len, block);
    assert k * block <= len + block - 1;
    if n < k {
      MultipleGap(n, k, block);
    }
  }

  /** The packets of one chunk, with ids 0, 1, 2, ... */
  function ChunkPackets(code: Code, pktSize: nat, num: u64, m: bytes, n: nat): (s: seq<bytes>)
    requires pktSize >= HEADER_LEN
    ensures |s| == n
    ensures forall i :: 0 <= i < n ==> s[i] == DataPacket(code, pktSize, num, m, i % 0x1_0000_0000)
  {
    seq(n, i requires 0 <= i < n => DataPacket(code, pktSize, num, m, i % 0x1_0000_0000))
  }

  /** The loop test of send_loop agrees with the real inequality, NaN included. */
  lemma LoopTest(n: nat, len: nat, block: nat, r: real)
    ensures Below(RedundancyOf(n * block, len), r) <==> len > 0 && !Enough(n, len, block, r)
  {
    if len > 0 {
      Cross((n * block) as real, len as real, r);
    }
  }

  /** The do-while loop of send_loop over one fresh chunk. */
  method SendChunk(code: Code, chunk: EncChunk, pkt: array<byte>, wanted: real, ghost pktSize: nat, ghost m: bytes)
    returns (sent: seq<bytes>)
    requires FullBlocks(code) && wanted >= 1.0
    requires pktSize > HEADER_LEN && Prepared(pktSize, chunk.num, m, chunk.View())
    requires chunk.nextPktId == 0 && chunk.totalGen == 0
    requires pkt.Length >= chunk.pktSize
    modifies chunk`nextPktId, chunk`totalGen, pkt
    ensures PacketCount(|m|, BlockSize(pktSize, |m|), wanted) >= 1
    ensures sent == ChunkPackets(code, pktSize, chunk.num, m, PacketCount(|m|, BlockSize(pktSize, |m|), wanted))
  {
    ghost var block := BlockSize(pktSize, |m|);
    ghost var count := PacketCount(|m|, block, wanted);
    PacketCountLeast(|m|, block, wanted, 0);
    sent := [];
    var again := true;
    while again
      invariant Prepared(pktSize, chunk.num, m, chunk.View())
      invariant chunk.nextPktId == |sent| && chunk.totalGen == |sent| * block
      invariant sent == ChunkPackets(code, pktSize, chunk.num, m, |sent|)
      invariant |sent| <= count && (again <==> |sent| < count)
      decreases count - |sent|
    {
      ghost var n := |sent|;
      var size, redund := Emit(code, chunk, pkt, pktSize, m);
      sent := sent + [pkt[..size]];
      again := Below(redund, wanted);
      assert (n + 1) * block == n * block + block;
      LoopTest(n + 1, |m|, block, wanted);
      PacketCountLeast(|m|, block, wanted, n + 1);
    }
  }

  /** How many packets send_loop emits for a chunk of this length. */
  function EmissionCount(cfg: SenderConfig, len: nat): (n: nat)
    requires Accepted(cfg)
    ensures n >= 1
  {
    PacketCountLeast(len, BlockSize(cfg.pktSize, len), cfg.redund, 0);
    PacketCount(len, BlockSize(cfg.pktSize, len), cfg.redund)
  }

  // ---- Both sides agree on every chunk an accepted configuration produces ----

  lemma ChunkSizeBound(cfg: SenderConfig)
    requires Accepted(cfg)
    ensures ChunkSize(cfg) <= MAX_CHUNK_SIZE
  {
    var p := cfg.pktSize - HEADER_LEN;
    assert cfg.nPkt * p <= cfg.nPkt * 1500;
  }

  lemma CodedRange(cfg: SenderConfig, len: nat)
    requires Accepted(cfg) && cfg.pktSize - HEADER_LEN < len <= ChunkSize(cfg)
    ensures 2 <= Blocks(len, cfg.pktSize - HEADER_LEN) <= cfg.nPkt
  {
    var p := cfg.pktSize - HEADER_LEN;
    BlocksLeast(len, p, cfg.nPkt);
    QuotientAtLeast(len + p - 1, p, 2);
  }

  /** A coded chunk has between 2 and 64000 blocks of the payload size; nothing is
      truncated in its header; the header makes the receiver classify it as the
      sender did, with the same block size, and is never too big for it. */
  lemma SidesAgree(cfg: SenderConfig, num: u64, len: nat, id: u32)
    requires Accepted(cfg) && len <= ChunkSize(cfg)
    ensures var hdr := DataHeader(cfg.pktSize, num, len, id);
      && hdr.chunkSize == len <= MAX_CHUNK_SIZE
      && hdr.dataSize == BlockSize(cfg.pktSize, len)
      && (IsSmall(len, hdr.dataSize + HEADER_LEN) <==> len <= cfg.pktSize - HEADER_LEN)
      && (IsSmall(len, hdr.dataSize + HEADER_LEN) ==> hdr.dataSize == len)
      && (!IsSmall(len, hdr.dataSize + HEADER_LEN) ==>
            && hdr.dataSize == cfg.pktSize - HEADER_LEN > 0
            && 2 <= Blocks(len, hdr.dataSize) <= cfg.nPkt <= MAX_N_PKT)
  {
    ChunkSizeBound(cfg);
    if len > cfg.pktSize - HEADER_LEN {
      CodedRange(cfg, len);
    }
  }
}
