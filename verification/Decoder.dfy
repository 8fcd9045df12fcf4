/** The receiving side of src/lib/encoding.c, and decloop which drives it. Each
    operation is a function on decoder states; the class Decoder performs it in
    place and is proved to agree with the function. */
module Decoder {
  import opened Wire
  import opened Config
  import opened Erasure
  import opened Chunk

  datatype Phase = New | Started | InData | Stopped

  function Rank(p: Phase): nat {
    match p case New => 0 case Started => 1 case InData => 2 case Stopped => 3
  }

  datatype DecState = DecState(phase: Phase, chunk: ChunkState, complete: bool, emitted: bool)

  /** hgap_decoder_new: a zeroed chunk whose number is -1 as a uint64_t. */
  const FRESH := DecState(New, ZERO_CHUNK.(num := NO_MORE_CHUNK), true, true)

  function Prefix(s: bytes, n: nat): bytes {
    if n <= |s| then s[..n] else s
  }

  // ---- Chunk operations ----

  /** hgap_dec_chunk_init. A refused wirehair state is only visible as NoState. */
  function DecInit(code: Code, c: ChunkState, hdr: Header): ChunkState {
    var c := c.(data := None, num := hdr.chunkNum, len := hdr.chunkSize,
                pktSize := hdr.dataSize + HEADER_LEN, nextPktId := hdr.dataId);
    if IsSmall(c.len, c.pktSize) then c
    else if code.accepts(c.len, hdr.dataSize) then c.(wh := Decoding(c.len, hdr.dataSize, map[]))
    else c.(wh := NoState)
  }

  /** hgap_dec_chunk_read. Without a wirehair state it returns -1, the same
      value as -EOT. */
  function DecRead(code: Code, c: ChunkState, hdr: Header, data: bytes): (ChunkState, int) {
    if c.data.Some? then (c, c.len)
    else
      var c := c.(nextPktId := hdr.dataId + 1);
      if IsSmall(c.len, c.pktSize) then (c.(data := Some(Prefix(data, c.len))), c.len)
      else if !c.wh.Decoding? then (c, -1)
      else
        var got := c.wh.got[hdr.dataId := Prefix(data, c.wh.block)];
        (c.(wh := c.wh.(got := got)), if code.decodable(c.wh.len, c.wh.block, got.Keys) then c.len else 0)
  }

  /** wirehair_reconstruct. */
  function Reconstruct(code: Code, wh: WhState): Option<bytes> {
    if wh.Decoding? && code.decodable(wh.len, wh.block, wh.got.Keys)
    then Some(code.recover(wh.len, wh.block, wh.got)) else None
  }

  // ---- Decoder operations ----

  /** hgap_decoder_update_state: the new phase, and whether to handle the packet. */
  function UpdatePhase(p: Phase, kind: PktType): (Phase, bool) {
    match kind
    case Begin => (if p == New then Started else p, false)
    case Data => (if p == Started then InData else p, true)
    case End => (if Rank(p) >= 1 then Stopped else p, false)
    case _ => (p, false)
  }

  function Absorb(code: Code, s: DecState, hdr: Header, data: bytes): (DecState, int) {
    var (c, ready) := DecRead(code, s.chunk, hdr, data);
    (s.(chunk := c, complete := s.complete || ready > 0), ready)
  }

  /** The part of hgap_decoder_read that handles a data packet. */
  function ReadData(code: Code, s: DecState, hdr: Header, data: bytes): (DecState, int) {
    if hdr.chunkNum != s.chunk.num then
      if !s.complete then (s, -ERR_INCOMPLETE_CHUNK)
      else if hdr.chunkSize > MAX_CHUNK_SIZE then (s, -ERR_BAD_CHUNK)
      else Absorb(code, s.(chunk := DecInit(code, s.chunk, hdr), complete := false, emitted := false), hdr, data)
    else if s.complete then (s, if s.emitted then 0 else s.chunk.len)
    else Absorb(code, s, hdr, data)
  }

  /** hgap_decoder_read on a raw packet. */
  function ReadStep(code: Code, s: DecState, raw: bytes): (DecState, int) {
    var (phase, handle) := UpdatePhase(s.phase, TypeOf(raw));
    var s := s.(phase := phase);
    if Rank(phase) < Rank(InData) then (s, 0)
    else if phase == Stopped then (s, -EOT)
    else if !handle then (s, 0)
    else
      var p := Parse(raw);
      ReadData(code, s, p.hdr, p.data)
  }

  /** What hgap_decoder_emit does: hands out a block, returns an error code, or
      exits the process on the internal check that the data is there. */
  datatype EmitResult = Emitted(block: bytes) | Failed(error: int) | Aborted

  function EmitStep(code: Code, s: DecState, len: nat): (DecState, EmitResult) {
    if !s.complete then (s, Failed(ERR_INCOMPLETE_CHUNK))
    else if len < s.chunk.len then (s, Failed(ERR_BUFFER_TOO_SMALL))
    else if IsSmall(s.chunk.len, s.chunk.pktSize) then
      if s.chunk.data.None? then (s, Aborted) else (s.(emitted := true), Emitted(s.chunk.data.value))
    else
      match Reconstruct(code, s.chunk.wh)
      case None => (s, Failed(ERR_WIREHAIR_ERROR))
      case Some(m) => (s.(emitted := true), Emitted(m))
  }

  // ---- decloop ----

  /** Why decloop left its loop. */
  datatype Stop = Pill | Eot | Error(code: int) | Crash

  datatype Outcome = Outcome(blocks: seq<bytes>, stop: Stop)

  /** One turn of decloop on a packet: the state, the block it sends on, and
      whether the loop ends. */
  function Turn(code: Code, s: DecState, raw: bytes): (DecState, Option<bytes>, Option<Stop>) {
    var (s, n) := ReadStep(code, s, raw);
    if n == 0 then (s, None, None)
    else if n == -EOT then (s, None, Some(Eot))
    else if n < 0 then (s, None, Some(Error(-n)))
    else
      var (s, e) := EmitStep(code, s, n);
      match e
      case Emitted(b) => (s, Some(b), None)
      case Failed(err) => (s, None, Some(Error(err)))
      case Aborted => (s, None, Some(Crash))
  }

  function Prepend(b: Option<bytes>, o: Outcome): Outcome {
    if b.Some? then o.(blocks := [b.value] + o.blocks) else o
  }

  /** What a decoding loop does with one packet. */
  type TurnFn = (DecState, bytes) -> (DecState, Option<bytes>, Option<Stop>)

  function DecoderTurn(code: Code): TurnFn { (s, raw) => Turn(code, s, raw) }

  /** The loop over the packets that reach it, followed by the poison pill. */
  function Loop(turn: TurnFn, s: DecState, pkts: seq<bytes>): Outcome
    decreases |pkts|
  {
    if pkts == [] then Outcome([], Pill)
    else
      var (s, b, stop) := turn(s, pkts[0]);
      if stop.Some? then Outcome([], stop.value) else Prepend(b, Loop(turn, s, pkts[1..]))
  }

  function Decloop(code: Code, s: DecState, pkts: seq<bytes>): Outcome {
    Loop(DecoderTurn(code), s, pkts)
  }

  /** What the net reader passes on: everything up to the first END packet. */
  function Forwarded(pkts: seq<bytes>): seq<bytes> {
    if pkts == [] then []
    else if TypeOf(pkts[0]) == End then [pkts[0]]
    else [pkts[0]] + Forwarded(pkts[1..])
  }

  /** It is the packets up to and including the first END, or all of them. */
  lemma {:induction false} ForwardedExact(pkts: seq<bytes>)
    ensures var fw := Forwarded(pkts);
      && fw <= pkts
      && (forall i :: 0 <= i < |fw| - 1 ==> TypeOf(fw[i]) != End)
      && (|fw| < |pkts| ==> fw != [] && TypeOf(fw[|fw| - 1]) == End)
  {
    if pkts != [] && TypeOf(pkts[0]) != End {
      ForwardedExact(pkts[1..]);
    }
  }

  /** A whole reception: net reader, decoder, writer. */
  function Receive(code: Code, pkts: seq<bytes>): Outcome {
    Decloop(code, FRESH, Forwarded(pkts))
  }

  // ---- Lifecycle, for packets of any content and in any order ----

  /** A packet that carries the payload its header announces. */
  predicate WellFormed(raw: bytes) {
    TypeOf(raw) == Data ==> Parse(raw).ok
  }

  datatype Op = DoRead(raw: bytes) | DoEmit(len: nat)

  /** Any client of the decoder: reads and emits in any order. */
  function RunOps(code: Code, ops: seq<Op>): DecState {
    if ops == [] then FRESH
    else
      var s := RunOps(code, ops[..|ops| - 1]);
      match ops[|ops| - 1]
      case DoRead(raw) => ReadStep(code, s, raw).0
      case DoEmit(len) => EmitStep(code, s, len).0
  }

  predicate NoSession(s: DecState) { s.chunk.num == NO_MORE_CHUNK }

  /** What every reachable state satisfies. */
  ghost predicate Coherent(code: Code, s: DecState) {
    && (s.emitted ==> s.complete)
    && (NoSession(s) ==> s.chunk == FRESH.chunk && s.complete && s.emitted)
    && (!NoSession(s) ==>
          && s.chunk.num < FIRST_RESERVED
          && Rank(s.phase) >= Rank(InData)
          && s.chunk.pktSize >= HEADER_LEN
          && (IsSmall(s.chunk.len, s.chunk.pktSize) ==>
                && (s.complete ==> s.chunk.data.Some?)
                && (s.chunk.data.Some? ==> |s.chunk.data.value| == s.chunk.len)
                && (s.chunk.data.Some? && !s.complete ==> s.chunk.len == 0))
          && (!IsSmall(s.chunk.len, s.chunk.pktSize) ==>
                && s.chunk.data.None?
                && (s.chunk.wh.Decoding? ==> s.chunk.wh.len == s.chunk.len)
                && (s.complete ==> Reconstruct(code, s.chunk.wh).Some?)))
  }

  /** A packet of the chunk in progress announces enough payload for it. */
  predicate Fitting(s: DecState, raw: bytes) {
    TypeOf(raw) == Data && Parse(raw).hdr.chunkNum == s.chunk.num ==>
      Parse(raw).hdr.dataSize + HEADER_LEN >= s.chunk.pktSize
  }

  lemma AbsorbCoherent(code: Code, s: DecState, hdr: Header, data: bytes)
    requires Coherent(code, s) && !NoSession(s) && !s.complete
    requires hdr.chunkNum == s.chunk.num
    requires IsSmall(s.chunk.len, s.chunk.pktSize) ==> |data| >= s.chunk.len
    ensures Coherent(code, Absorb(code, s, hdr, data).0)
  {
  }

  lemma InitCoherent(code: Code, s: DecState, hdr: Header)
    requires hdr.chunkNum < FIRST_RESERVED && Rank(s.phase) >= Rank(InData)
    ensures Coherent(code, s.(chunk := DecInit(code, s.chunk, hdr), complete := false, emitted := false))
  {
  }

  lemma ReadCoherent(code: Code, s: DecState, raw: bytes)
    requires Coherent(code, s) && WellFormed(raw) && Fitting(s, raw)
    ensures Coherent(code, ReadStep(code, s, raw).0)
    ensures var (s', n) := ReadStep(code, s, raw);
      n > 0 ==> !NoSession(s') && s'.complete && !s'.emitted && n == s'.chunk.len
  {
    var (phase, handle) := UpdatePhase(s.phase, TypeOf(raw));
    if phase == InData && handle {
      var s1, p := s.(phase := phase), Parse(raw);
      if p.hdr.chunkNum != s1.chunk.num {
        if s1.complete && p.hdr.chunkSize <= MAX_CHUNK_SIZE {
          InitCoherent(code, s1, p.hdr);
          var s2 := s1.(chunk := DecInit(code, s1.chunk, p.hdr), complete := false, emitted := false);
          AbsorbCoherent(code, s2, p.hdr, p.data);
        }
      } else if !s1.complete {
        AbsorbCoherent(code, s1, p.hdr, p.data);
      }
    }
  }

  lemma EmitCoherent(code: Code, s: DecState, len: nat)
    requires Coherent(code, s)
    ensures Coherent(code, EmitStep(code, s, len).0)
  {
  }

  /** Packets that are well formed and, chunk by chunk, of one payload size: all
      that any sender emits. */
  ghost predicate Orderly(code: Code, ops: seq<Op>) {
    ops != [] ==>
      var s, last := RunOps(code, ops[..|ops| - 1]), ops[|ops| - 1];
      && Orderly(code, ops[..|ops| - 1])
      && (last.DoRead? ==> WellFormed(last.raw) && Fitting(s, last.raw))
  }

  lemma {:induction false} ReachableCoherent(code: Code, ops: seq<Op>)
    requires Orderly(code, ops)
    ensures Coherent(code, RunOps(code, ops))
  {
    if ops != [] {
      var front, last := ops[..|ops| - 1], ops[|ops| - 1];
      ReachableCoherent(code, front);
      match last
      case DoRead(raw) => ReadCoherent(code, RunOps(code, front), raw);
      case DoEmit(len) => EmitCoherent(code, RunOps(code, front), len);
    }
  }

  /** The same for the packets that decloop meets. */
  ghost predicate OrderlyFrom(code: Code, s: DecState, pkts: seq<bytes>)
    decreases |pkts|
  {
    pkts != [] ==>
      && WellFormed(pkts[0]) && Fitting(s, pkts[0])
      && (Turn(code, s, pkts[0]).2.None? ==> OrderlyFrom(code, Turn(code, s, pkts[0]).0, pkts[1..]))
  }

  /** In every reachable state, a read that announces n > 0 bytes makes an emit
      with n bytes succeed with exactly n bytes; the emit's internal check can
      only trip while no chunk has ever been started, and then it does. */
  lemma ReadEmitContract(code: Code, ops: seq<Op>, raw: bytes, len: nat)
    requires FullMessages(code)
    requires Orderly(code, ops + [DoRead(raw)])
    ensures var (s, n) := ReadStep(code, RunOps(code, ops), raw);
      n > 0 ==> EmitStep(code, s, n).1.Emitted? && |EmitStep(code, s, n).1.block| == n
    ensures var s := RunOps(code, ops);
      EmitStep(code, s, len).1.Aborted? <==> NoSession(s)
  {
    assert (ops + [DoRead(raw)])[..|ops|] == ops;
    ReachableCoherent(code, ops);
    ReadCoherent(code, RunOps(code, ops), raw);
  }

  /** Why an emit can fail in a reachable state: the chunk is not complete, or the
      buffer is too small for it. Rebuilding a complete chunk never fails. */
  lemma EmitFailures(code: Code, ops: seq<Op>, len: nat)
    requires Orderly(code, ops)
    ensures var s := RunOps(code, ops); var e := EmitStep(code, s, len).1;
      && (e == Failed(ERR_INCOMPLETE_CHUNK) <==> !s.complete)
      && (e == Failed(ERR_BUFFER_TOO_SMALL) <==> s.complete && len < s.chunk.len)
      && e != Failed(ERR_WIREHAIR_ERROR)
      && (e.Failed? ==> EmitStep(code, s, len).0 == s)
  {
    ReachableCoherent(code, ops);
  }

  /** One step never lowers the phase; a stopped decoder is frozen and answers EOT. */
  lemma PhaseStep(code: Code, s: DecState, raw: bytes, len: nat)
    ensures Rank(s.phase) <= Rank(ReadStep(code, s, raw).0.phase)
    ensures EmitStep(code, s, len).0.phase == s.phase
    ensures s.phase == Stopped ==> ReadStep(code, s, raw) == (s, -EOT)
  {
  }

  lemma {:induction false} PhaseNeverDecreases(code: Code, ops: seq<Op>, more: seq<Op>)
    ensures Rank(RunOps(code, ops).phase) <= Rank(RunOps(code, ops + more).phase)
    decreases |more|
  {
    if more == [] {
      assert ops + more == ops;
    } else {
      var front := more[..|more| - 1];
      PhaseNeverDecreases(code, ops, front);
      assert (ops + more)[..|ops + more| - 1] == ops + front;
      var s := RunOps(code, ops + front);
      match more[|more| - 1]
      case DoRead(raw) => PhaseStep(code, s, raw, 0);
      case DoEmit(len) => PhaseStep(code, s, [], len);
    }
  }

  // ---- What a read does, case by case ----

  /** A data packet that reaches the chunk handling. */
  predicate Handled(s: DecState, raw: bytes) {
    TypeOf(raw) == Data && (s.phase == Started || s.phase == InData)
  }

  predicate OtherChunk(s: DecState, raw: bytes)
    requires TypeOf(raw) == Data
  {
    Parse(raw).hdr.chunkNum != s.chunk.num
  }

  /** The phases: BEGIN starts a new decoder, data follows the start, END stops a
      started one; nothing else changes the phase, and no packet but a handled data
      packet changes anything else. */
  lemma PhaseExact(code: Code, s: DecState, raw: bytes)
    ensures var (s', r), t := ReadStep(code, s, raw), TypeOf(raw);
      && (s'.phase == Started <==> (s.phase == New && t == Begin) || (s.phase == Started && t != Data && t != End))
      && (s'.phase == InData <==> (s.phase == Started && t == Data) || (s.phase == InData && t != End))
      && (s'.phase == Stopped <==> s.phase == Stopped || (s.phase != New && t == End))
      && (!Handled(s, raw) ==>
            s' == s.(phase := s'.phase) && r == if s'.phase == Stopped then -1 else 0)
  {
  }

  /** The two errors, exactly: a packet of another chunk while this one is incomplete,
      and a chunk of more than 96000000 bytes. Neither touches the chunk. */
  lemma ReadErrors(code: Code, s: DecState, raw: bytes)
    ensures var (s', r) := ReadStep(code, s, raw);
      && (r == -14 <==> Handled(s, raw) && OtherChunk(s, raw) && !s.complete)
      && (r == -15 <==>
            Handled(s, raw) && OtherChunk(s, raw) && s.complete && Parse(raw).hdr.chunkSize > 96000000)
      && (r < 0 ==> r == -1 || r == -14 || r == -15)
      && (r == -14 || r == -15 ==> s' == s.(phase := InData))
    ensures ERR_INCOMPLETE_CHUNK == 14 && ERR_BAD_CHUNK == 15 && EOT == 1
  {
  }

  /** The first packet of another chunk, when the last one is complete: a chunk that
      fits is there at once, with the first bytes of the payload; a coded one is there
      if this symbol alone suffices. A later emit hands out exactly that. */
  lemma FirstPacket(code: Code, s: DecState, raw: bytes)
    requires Handled(s, raw) && OtherChunk(s, raw) && s.complete && Parse(raw).ok
    requires Parse(raw).hdr.chunkSize <= 96000000
    ensures var (s', r), h, data := ReadStep(code, s, raw), Parse(raw).hdr, Parse(raw).data;
      && s'.chunk.num == h.chunkNum && s'.chunk.len == h.chunkSize && !s'.emitted
      && (s'.complete <==> r > 0)
      && (h.chunkSize <= h.dataSize ==>
            r == h.chunkSize
            && (r > 0 ==> EmitStep(code, s', r).1 == Emitted(data[..h.chunkSize])))
      && (h.chunkSize > h.dataSize && code.accepts(h.chunkSize, h.dataSize) ==>
            var got := map[h.dataId := data[..h.dataSize]];
            && r == (if code.decodable(h.chunkSize, h.dataSize, {h.dataId}) then h.chunkSize else 0)
            && (r > 0 ==> EmitStep(code, s', r).1 == Emitted(code.recover(h.chunkSize, h.dataSize, got))))
  {
    var h := Parse(raw).hdr;
    var s1 := s.(phase := InData);
    var s2 := s1.(chunk := DecInit(code, s1.chunk, h), complete := false, emitted := false);
    assert ReadStep(code, s, raw) == Absorb(code, s2, h, Parse(raw).data);
    assert map[][h.dataId := Prefix(Parse(raw).data, h.dataSize)].Keys == {h.dataId};
  }

  /** A further packet of an incomplete coded chunk adds its symbol; the chunk is there
      if and only if the symbols collected now suffice. */
  lemma FurtherPacket(code: Code, s: DecState, raw: bytes)
    requires Handled(s, raw) && !OtherChunk(s, raw) && !s.complete
    requires s.chunk.data.None? && s.chunk.wh.Decoding? && !IsSmall(s.chunk.len, s.chunk.pktSize)
    ensures var (s', r), h := ReadStep(code, s, raw), Parse(raw).hdr;
      var wh := s.chunk.wh;
      && s'.chunk.wh == wh.(got := wh.got[h.dataId := Prefix(Parse(raw).data, wh.block)])
      && r == (if code.decodable(wh.len, wh.block, wh.got.Keys + {h.dataId}) then s.chunk.len else 0)
      && (s'.complete <==> r > 0) && s'.emitted == s.emitted
  {
    var wh, h := s.chunk.wh, Parse(raw).hdr;
    assert wh.got[h.dataId := Prefix(Parse(raw).data, wh.block)].Keys == wh.got.Keys + {h.dataId};
  }

  /** A further packet of a complete chunk changes nothing: it announces the chunk again
      until it has been emitted, and 0 from then on. */
  lemma CompletePacket(code: Code, s: DecState, raw: bytes)
    requires Handled(s, raw) && !OtherChunk(s, raw) && s.complete
    ensures ReadStep(code, s, raw) == (s.(phase := InData), if s.emitted then 0 else s.chunk.len)
  {
  }

  /** The code -1 of a missing wirehair state reads as EOT: a started decoder that
      meets a chunk needing the code answers EOT to a data packet if and only if
      the code refused that chunk. No END is involved. */
  lemma RefusalReadsAsEnd(code: Code, s: DecState, raw: bytes)
    requires Rank(Started) <= Rank(s.phase) <= Rank(InData) && s.complete
    requires TypeOf(raw) == Data && Parse(raw).hdr.chunkNum != s.chunk.num
    requires var h := Parse(raw).hdr; h.dataSize < h.chunkSize <= MAX_CHUNK_SIZE
    ensures var h := Parse(raw).hdr;
      Turn(code, s, raw).2 == Some(Eot) <==> !code.accepts(h.chunkSize, h.dataSize)
    ensures Turn(code, s, raw).0.phase == InData
  {
    var p := Parse(raw);
    var s1 := s.(phase := InData);
    var s2 := s1.(chunk := DecInit(code, s1.chunk, p.hdr), complete := false, emitted := false);
    assert ReadStep(code, s, raw) == Absorb(code, s2, p.hdr, p.data);
  }

  /** A packet that announces a chunk of 64001 one-byte blocks. */
  const REFUSED_PKT: bytes := HeaderBytes(Header(0, 64001, 0, 1)) + [0]

  lemma RefusedPacket()
    ensures TypeOf(REFUSED_PKT) == Data && Parse(REFUSED_PKT) == Parsed(Header(0, 64001, 0, 1), [0], true)
  {
    ParseRoundTrip(Header(0, 64001, 0, 1), [0]);
  }

  lemma BeginTurn(code: Code)
    ensures Turn(code, FRESH, BEGIN_PKT) == (FRESH.(phase := Started), None, None)
  {
    ControlRoundTrip(BEGIN_BEACON);
  }

  lemma RefusedTurn(s: DecState)
    requires s == FRESH.(phase := Started)
    ensures Turn(Ranged(), s, REFUSED_PKT).2 == Some(Eot)
  {
    RefusedPacket();
    assert !Ranged().accepts(64001, 1);
    RefusalReadsAsEnd(Ranged(), s, REFUSED_PKT);
  }

  /** One such case: after BEGIN, that packet ends the transfer as EOT under a sound
      code. No END was ever sent. */
  lemma RefusalInstance()
    ensures Sound(Ranged()) && TypeOf(REFUSED_PKT) == Data && Parse(REFUSED_PKT).ok
    ensures Decloop(Ranged(), FRESH, [BEGIN_PKT, REFUSED_PKT]) == Outcome([], Eot)
  {
    var started, pkts := FRESH.(phase := Started), [BEGIN_PKT, REFUSED_PKT];
    RangedIsSound();
    RefusedPacket();
    BeginTurn(Ranged());
    RefusedTurn(started);
    assert pkts[1..] == [REFUSED_PKT];
    assert Decloop(Ranged(), started, [REFUSED_PKT]) == Outcome([], Eot);
  }

  /** Before a BEGIN arrives the decoder only waits: no block, no error, no end. */
  lemma {:induction false} NothingBeforeBegin(code: Code, pkts: seq<bytes>)
    requires forall i :: 0 <= i < |pkts| ==> TypeOf(pkts[i]) != Begin
    ensures Decloop(code, FRESH, pkts) == Outcome([], Pill)
  {
    if pkts != [] {
      assert ReadStep(code, FRESH, pkts[0]) == (FRESH, 0);
      NothingBeforeBegin(code, pkts[1..]);
    }
  }

  /** Once a chunk is emitted, repeats of its packets never make decloop emit it
      again or stop, whatever comes between them short of an END or a packet of
      another chunk: repeated BEGINs, keepalives, unknown packets. */
  lemma {:induction false} SessionEmittedOnce(code: Code, s: DecState, pkts: seq<bytes>)
    requires s.phase == InData && s.complete && s.emitted
    requires forall i :: 0 <= i < |pkts| ==>
      && TypeOf(pkts[i]) != End
      && (TypeOf(pkts[i]) == Data ==> Parse(pkts[i]).hdr.chunkNum == s.chunk.num)
    ensures Decloop(code, s, pkts) == Outcome([], Pill)
  {
    if pkts != [] {
      assert ReadStep(code, s, pkts[0]) == (s, 0);
      SessionEmittedOnce(code, s, pkts[1..]);
    }
  }

  // ---- The decoder object ----

  class Decoder {
    const code: Code
    const chunk: EncChunk
    var phase: Phase
    var complete: bool
    var emitted: bool

    ghost function View(): DecState
      reads this, chunk
    {
      DecState(phase, chunk.View(), complete, emitted)
    }

    constructor (code: Code)
      ensures this.code == code && View() == FRESH && fresh(chunk)
    {
      this.code := code;
      chunk := new EncChunk();
      phase, complete, emitted := New, true, true;
      new;
      chunk.num := NO_MORE_CHUNK;
    }

    method UpdateState(raw: bytes) returns (handle: bool)
      modifies this`phase
      ensures (phase, handle) == UpdatePhase(old(phase), TypeOf(raw))
    {
      match TypeOf(raw)
      case Begin =>
        if phase == New { phase := Started; }
        return false;
      case Data =>
        if phase == Started { phase := InData; }
        return true;
      case End =>
        if Rank(phase) >= Rank(Started) { phase := Stopped; }
        return false;
      case _ =>
        return false;
    }

    method InitChunk(hdr: Header)
      modifies chunk
      ensures chunk.View() == DecInit(code, old(chunk.View()), hdr)
    {
      chunk.data := None;
      chunk.num := hdr.chunkNum;
      chunk.len := hdr.chunkSize;
      chunk.pktSize := hdr.dataSize + HEADER_LEN;
      chunk.nextPktId := hdr.dataId;
      if !IsSmall(chunk.len, chunk.pktSize) {
        chunk.wh := if code.accepts(chunk.len, PayloadSize(chunk.pktSize))
          then Decoding(chunk.len, PayloadSize(chunk.pktSize), map[]) else NoState;
      }
    }

    method ReadChunk(hdr: Header, data: bytes) returns (ready: int)
      modifies chunk
      ensures (chunk.View(), ready) == DecRead(code, old(chunk.View()), hdr, data)
    {
      if chunk.data.Some? { return chunk.len; }
      chunk.nextPktId := hdr.dataId;
      var id := chunk.nextPktId;
      chunk.nextPktId := chunk.nextPktId + 1;
      if IsSmall(chunk.len, chunk.pktSize) {
        chunk.data := Some(Prefix(data, chunk.len));
        return chunk.len;
      }
      if !chunk.wh.Decoding? { return -1; }
      var got := chunk.wh.got[id := Prefix(data, chunk.wh.block)];
      chunk.wh := chunk.wh.(got := got);
      return if code.decodable(chunk.wh.len, chunk.wh.block, got.Keys) then chunk.len else 0;
    }

    /** hgap_decoder_read. */
    method Read(raw: bytes) returns (r: int)
      modifies this, chunk
      ensures (View(), r) == ReadStep(code, old(View()), raw)
    {
      var handle := UpdateState(raw);
      if Rank(phase) < Rank(InData) { return 0; }
      if phase == Stopped { return -EOT; }
      if !handle { return 0; }
      var p := Parse(raw);
      if p.hdr.chunkNum != chunk.num {
        if !complete { return -ERR_INCOMPLETE_CHUNK; }
        if p.hdr.chunkSize > MAX_CHUNK_SIZE { return -ERR_BAD_CHUNK; }
        InitChunk(p.hdr);
        complete := false;
        emitted := false;
      } else if complete {
        return if emitted then 0 else chunk.len;
      }
      r := ReadChunk(p.hdr, p.data);
      if r > 0 { complete := true; }
    }

    /** hgap_decoder_emit into a caller's buffer of at least `len` bytes. */
    method Emit(out: array<byte>, len: nat) returns (r: EmitResult)
      requires out.Length >= len
      requires FullMessages(code) && Coherent(code, View())
      modifies this`emitted, out
      ensures (View(), r) == EmitStep(code, old(View()), len)
      ensures r.Emitted? ==> |r.block| <= out.Length && out[..|r.block|] == r.block
      ensures !r.Emitted? ==> out[..] == old(out[..])
    {
      if !complete { return Failed(ERR_INCOMPLETE_CHUNK); }
      if len < chunk.len { return Failed(ERR_BUFFER_TOO_SMALL); }
      var block;
      if IsSmall(chunk.len, chunk.pktSize) {
        if chunk.data.None? { return Aborted; }
        block := chunk.data.value;
      } else {
        var m := Reconstruct(code, chunk.wh);
        if m.None? { return Failed(ERR_WIREHAIR_ERROR); }
        block := m.value;
      }
      forall i | 0 <= i < |block| { out[i] := block[i]; }
      emitted := true;
      return Emitted(block);
    }
  }
}
