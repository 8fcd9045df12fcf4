/** struct hgap_enc_chunk, shared by the sending and the receiving side. */
module Chunk {
  import opened Wire

  datatype Option<+T> = None | Some(value: T)

  /** The wirehair state a chunk may own. */
  datatype WhState =
    | NoState
    | Encoding(message: bytes, block: nat)
    | Decoding(len: nat, block: nat, got: map<nat, bytes>)

  datatype ChunkState = ChunkState(
    num: u64, len: nat, pktSize: nat, nextPktId: nat, wh: WhState, data: Option<bytes>, totalGen: nat)

  /** A chunk straight out of hgap_enc_chunk_new: all zero bytes. */
  const ZERO_CHUNK := ChunkState(0, 0, 0, 0, NoState, None, 0)

  /** hgap_enc_chunk_pkt_payload_size, with the size_t wrap-around that a zeroed chunk meets. */
  function PayloadSize(pktSize: nat): nat {
    if pktSize >= HEADER_LEN then pktSize - HEADER_LEN else pktSize + 0x1_0000_0000_0000_0000 - HEADER_LEN
  }

  /** hgap_enc_chunk_is_small. */
  predicate IsSmall(len: nat, pktSize: nat) {
    len <= PayloadSize(pktSize)
  }

  /** The block size the sender uses for a chunk of this length. */
  function BlockSize(pktSize: nat, len: nat): nat
    requires pktSize >= HEADER_LEN
  {
    if pktSize <= len + HEADER_LEN then pktSize - HEADER_LEN else len
  }

  class EncChunk {
    var num: u64
    var len: nat
    var pktSize: nat
    var nextPktId: nat
    var wh: WhState
    var data: Option<bytes>
    var totalGen: nat

    ghost function View(): ChunkState
      reads this
    {
      ChunkState(num, len, pktSize, nextPktId, wh, data, totalGen)
    }

    constructor ()
      ensures View() == ZERO_CHUNK
    {
      num, len, pktSize, nextPktId, wh, data, totalGen := 0, 0, 0, 0, NoState, None, 0;
    }
  }
}
