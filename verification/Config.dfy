/** Error codes, limits and the numeric checks on a sender configuration. */
module Config {
  import opened Wire

  const SUCCESS: int := 0
  const EOT: int := 1
  const ERR_MTU_TOO_SMALL: int := 3
  const ERR_MTU_TOO_BIG: int := 4
  const ERR_INVALID_ADDR: int := 5
  const ERR_BAD_IN_FD: int := 7
  const ERR_BAD_N_PKT: int := 10
  const ERR_BAD_REDUND: int := 11
  const ERR_WIREHAIR_ERROR: int := 12
  const ERR_BUFFER_TOO_SMALL: int := 13
  const ERR_INCOMPLETE_CHUNK: int := 14
  const ERR_BAD_CHUNK: int := 15

  const MAX_PKT_SIZE: nat := 1500
  const MAX_N_PKT: nat := 64000
  const MAX_CHUNK_SIZE: nat := MAX_PKT_SIZE * MAX_N_PKT

  /** The part of struct hgap_config that the sender's checks read. The address
      lookup and the file test are environment answers. */
  datatype SenderConfig = SenderConfig(pktSize: nat, nPkt: u32, redund: real, addrOk: bool, inOk: bool)

  /** hgap_check_config_sender: the first failing check decides the code. */
  function CheckSender(c: SenderConfig): (r: int)
    ensures r == SUCCESS <==> Accepted(c) && c.addrOk && c.inOk
    ensures r == SUCCESS <==>
      25 <= c.pktSize <= 1500 && c.addrOk && c.inOk && 1 <= c.nPkt <= 64000 && c.redund >= 1.0
    ensures r == ERR_MTU_TOO_SMALL <==> c.pktSize <= 24
    ensures r == ERR_MTU_TOO_BIG <==> c.pktSize > 1500
    ensures r == ERR_INVALID_ADDR <==> 25 <= c.pktSize <= 1500 && !c.addrOk
    ensures r == ERR_BAD_IN_FD <==> 25 <= c.pktSize <= 1500 && c.addrOk && !c.inOk
    ensures r == ERR_BAD_N_PKT <==>
      25 <= c.pktSize <= 1500 && c.addrOk && c.inOk && (c.nPkt == 0 || c.nPkt > 64000)
    ensures r == ERR_BAD_REDUND <==>
      25 <= c.pktSize <= 1500 && c.addrOk && c.inOk && 1 <= c.nPkt <= 64000 && c.redund < 1.0
    ensures r in {0, 3, 4, 5, 7, 10, 11}
  {
    if c.pktSize <= HEADER_LEN then ERR_MTU_TOO_SMALL
    else if c.pktSize > MAX_PKT_SIZE then ERR_MTU_TOO_BIG
    else if !c.addrOk then ERR_INVALID_ADDR
    else if !c.inOk then ERR_BAD_IN_FD
    else if c.nPkt < 1 || c.nPkt > MAX_N_PKT then ERR_BAD_N_PKT
    else if c.redund < 1.0 then ERR_BAD_REDUND
    else SUCCESS
  }

  /** The numeric bounds that acceptance guarantees. */
  predicate Accepted(c: SenderConfig) {
    && HEADER_LEN < c.pktSize <= MAX_PKT_SIZE
    && 1 <= c.nPkt <= MAX_N_PKT
    && c.redund >= 1.0
  }

  /** The read-buffer size computed in hgap_send. */
  function ChunkSize(c: SenderConfig): nat
    requires c.pktSize >= HEADER_LEN
  {
    c.nPkt * (c.pktSize - HEADER_LEN)
  }
}
