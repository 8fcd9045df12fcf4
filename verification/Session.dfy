/** The decoder on packets of one stream, seen from above: a machine that only
    tracks which chunk is in progress and which symbol ids of it have arrived.
    The byte-level decoder refines this machine, whatever the order and the
    multiplicity of the packets. */
module Session {
  import opened Wire
  import opened Config
  import opened Erasure
  import opened Chunk
  import opened Encoder
  import opened Stream
  import opened Decoder

  /** Waiting for BEGIN, waiting for data, or working on chunk c with these ids. */
  datatype Session = Idle(started: bool) | Active(c: nat, ids: set<nat>)

  /** The ids suffice to rebuild the chunk. An empty chunk never counts as rebuilt. */
  predicate Complete(st: Stream, c: nat, ids: set<nat>)
    requires c < |st.chunks| && Accepted(st.cfg)
  {
    var len, block := |st.chunks[c]|, st.cfg.pktSize - HEADER_LEN;
    ids != {} && len > 0 && (len <= block || st.code.decodable(len, block, ids))
  }

  lemma CompleteMonotone(st: Stream, c: nat, ids: set<nat>, more: set<nat>)
    requires Valid(st) && c < |st.chunks| && Complete(st, c, ids) && ids <= more
    ensures Complete(st, c, more)
  {
    var len, block := |st.chunks[c]|, st.cfg.pktSize - HEADER_LEN;
    if len > block {
      assert st.code.decodable(len, block, ids);
    }
  }

  predicate SessionOk(st: Stream, a: Session) {
    a.Active? ==> a.c < |st.chunks| && a.ids != {}
  }

  function Enter(st: Stream, c: nat, id: u32): (Session, Option<nat>, Option<Stop>)
    requires Accepted(st.cfg) && c < |st.chunks|
  {
    (Active(c, {id}), if Complete(st, c, {id}) then Some(c) else None, None)
  }

  /** One packet: the new session, the chunk emitted, and whether the run ends. */
  function SessionTurn(st: Stream, a: Session, l: Label): (r: (Session, Option<nat>, Option<Stop>))
    requires Accepted(st.cfg) && SessionOk(st, a) && InStream(st, l)
    ensures SessionOk(st, r.0)
    ensures r.1.Some? ==> r.1.value < |st.chunks|
  {
    match l
    case LKeepAlive => (a, None, None)
    case LBegin => (if a.Idle? then Idle(true) else a, None, None)
    case LEnd => if a == Idle(false) then (a, None, None) else (a, None, Some(Eot))
    case LData(c, id) =>
      if a == Idle(false) then (a, None, None)
      else if a.Idle? then Enter(st, c, id)
      else if a.c != c then
        if Complete(st, a.c, a.ids) then Enter(st, c, id) else (a, None, Some(Error(ERR_INCOMPLETE_CHUNK)))
      else
        var ids := a.ids + {id};
        (Active(c, ids), if !Complete(st, c, a.ids) && Complete(st, c, ids) then Some(c) else None, None)
  }

  datatype SessionOutcome = SessionOutcome(emitted: seq<nat>, stop: Stop)

  function RunSession(st: Stream, a: Session, ls: seq<Label>): (o: SessionOutcome)
    requires Accepted(st.cfg) && SessionOk(st, a) && AllInStream(st, ls)
    ensures forall i :: 0 <= i < |o.emitted| ==> o.emitted[i] < |st.chunks|
    decreases |ls|
  {
    if ls == [] then SessionOutcome([], Pill)
    else
      var (a', e, stop) := SessionTurn(st, a, ls[0]);
      if stop.Some? then SessionOutcome([], stop.value)
      else
        var o := RunSession(st, a', ls[1..]);
        if e.Some? then o.(emitted := [e.value] + o.emitted) else o
  }

  /** The blocks that go with a list of chunk numbers. */
  function Pick(st: Stream, cs: seq<nat>): (bs: seq<bytes>)
    requires forall i :: 0 <= i < |cs| ==> cs[i] < |st.chunks|
    ensures |bs| == |cs|
    ensures forall i :: 0 <= i < |cs| ==> bs[i] == st.chunks[cs[i]]
  {
    seq(|cs|, i requires 0 <= i < |cs| => st.chunks[cs[i]])
  }

  // ---- Refinement ----

  /** The decoder's chunk, between two turns of decloop, while the session is on
      chunk c with these ids. */
  ghost predicate Tracks(st: Stream, s: DecState, c: nat, ids: set<nat>)
    requires Valid(st) && c < |st.chunks|
  {
    var m, block := st.chunks[c], st.cfg.pktSize - HEADER_LEN;
    && s.chunk.num == c && s.chunk.len == |m|
    && s.chunk.pktSize == BlockSize(st.cfg.pktSize, |m|) + HEADER_LEN
    && s.complete == s.emitted == Complete(st, c, ids)
    && (|m| <= block ==> s.chunk.data.Some? && s.chunk.data.value == m)
    && (|m| > block ==>
          && s.chunk.data.None?
          && s.chunk.wh.Decoding? && s.chunk.wh.len == |m| && s.chunk.wh.block == block
          && Genuine(st.code, m, block, s.chunk.wh.got)
          && s.chunk.wh.got.Keys <= ids
          && (s.complete ==> st.code.decodable(|m|, block, s.chunk.wh.got.Keys))
          && (!s.complete ==> s.chunk.wh.got.Keys == ids))
  }

  ghost predicate Refines(st: Stream, s: DecState, a: Session)
    requires Valid(st) && SessionOk(st, a)
  {
    match a
    case Idle(started) => s == FRESH.(phase := if started then Started else New)
    case Active(c, ids) => s.phase == InData && Tracks(st, s, c, ids)
  }

  /** What the decoder reads out of a data packet of the stream. */
  lemma RawData(st: Stream, c: nat, id: u32)
    requires Valid(st) && c < |st.chunks|
    ensures var raw, hdr := Raw(st, LData(c, id)), DataHeader(st.cfg.pktSize, c, |st.chunks[c]|, id);
      && TypeOf(raw) == Data
      && Parse(raw) == Parsed(hdr, Body(st.code, st.cfg.pktSize, st.chunks[c], id), true)
  {
    var m := st.chunks[c];
    SidesAgree(st.cfg, c, |m|, id);
    ParseRoundTrip(DataHeader(st.cfg.pktSize, c, |m|, id), Body(st.code, st.cfg.pktSize, m, id));
  }

  lemma RawControl(st: Stream)
    requires Valid(st)
    ensures TypeOf(Raw(st, LBegin)) == Begin
    ensures TypeOf(Raw(st, LEnd)) == End
    ensures TypeOf(Raw(st, LKeepAlive)) == KeepAlive
  {
    ControlRoundTrip(BEGIN_BEACON);
    ControlRoundTrip(NO_MORE_CHUNK);
    ControlRoundTrip(KEEP_ALIVE);
  }

  /** A decoder that has just reset itself for chunk c. */
  ghost predicate JustReset(st: Stream, s: DecState, c: nat)
    requires Valid(st) && c < |st.chunks|
  {
    var m, block := st.chunks[c], st.cfg.pktSize - HEADER_LEN;
    && s.phase == InData && !s.complete && !s.emitted
    && s.chunk.num == c && s.chunk.len == |m| && s.chunk.data.None?
    && s.chunk.pktSize == BlockSize(st.cfg.pktSize, |m|) + HEADER_LEN
    && (|m| > block ==> s.chunk.wh == Decoding(|m|, block, map[]))
  }

  lemma ResetForChunk(st: Stream, s: DecState, c: nat, id: u32)
    requires Valid(st) && c < |st.chunks| && s.phase == InData
    ensures var hdr := DataHeader(st.cfg.pktSize, c, |st.chunks[c]|, id);
      && hdr.chunkSize <= MAX_CHUNK_SIZE
      && JustReset(st, s.(chunk := DecInit(st.code, s.chunk, hdr), complete := false, emitted := false), c)
  {
    SidesAgree(st.cfg, c, |st.chunks[c]|, id);
  }

  /** The outcome of absorbing one packet of chunk c and emitting when ready. */
  ghost predicate AbsorbedInto(st: Stream, s: DecState, n: int, c: nat, ids: set<nat>)
    requires Valid(st) && c < |st.chunks|
  {
    if Complete(st, c, ids) then
      && n == |st.chunks[c]|
      && EmitStep(st.code, s, n).1 == Emitted(st.chunks[c])
      && EmitStep(st.code, s, n).0.phase == s.phase
      && Tracks(st, EmitStep(st.code, s, n).0, c, ids)
    else n == 0 && Tracks(st, s, c, ids)
  }

  lemma AbsorbFirst(st: Stream, s: DecState, c: nat, id: u32)
    requires Valid(st) && c < |st.chunks| && JustReset(st, s, c)
    ensures var (s', n) := Absorb(st.code, s, DataHeader(st.cfg.pktSize, c, |st.chunks[c]|, id),
                                  Body(st.code, st.cfg.pktSize, st.chunks[c], id));
      s'.phase == InData && AbsorbedInto(st, s', n, c, {id})
  {
    var m, block := st.chunks[c], st.cfg.pktSize - HEADER_LEN;
    if |m| <= block {
      assert m[..|m|] == m;
    } else {
      AbsorbSymbol(st, s, c, {}, id);
      assert {} + {id} == {id};
    }
  }

  lemma AbsorbSymbol(st: Stream, s: DecState, c: nat, ids: set<nat>, id: u32)
    requires Valid(st) && c < |st.chunks|
    requires var m, block := st.chunks[c], st.cfg.pktSize - HEADER_LEN;
      && |m| > block && s.phase == InData && !s.complete && !s.emitted
      && s.chunk.num == c && s.chunk.len == |m| && s.chunk.data.None?
      && s.chunk.pktSize == BlockSize(st.cfg.pktSize, |m|) + HEADER_LEN
      && s.chunk.wh.Decoding? && s.chunk.wh.len == |m| && s.chunk.wh.block == block
      && Genuine(st.code, m, block, s.chunk.wh.got) && s.chunk.wh.got.Keys == ids
    ensures var (s', n) := Absorb(st.code, s, DataHeader(st.cfg.pktSize, c, |st.chunks[c]|, id),
                                  Body(st.code, st.cfg.pktSize, st.chunks[c], id));
      s'.phase == InData && AbsorbedInto(st, s', n, c, ids + {id})
  {
    var m, block := st.chunks[c], st.cfg.pktSize - HEADER_LEN;
    var hdr, body := DataHeader(st.cfg.pktSize, c, |m|, id), Body(st.code, st.cfg.pktSize, m, id);
    assert body == st.code.symbol(m, block, id) && |body| == block;
    assert Prefix(body, block) == body;
    var got := s.chunk.wh.got[id := body];
    assert got.Keys == ids + {id};
    assert Genuine(st.code, m, block, got);
    var (s', n) := Absorb(st.code, s, hdr, body);
    assert s'.chunk.wh == Decoding(|m|, block, got);
    if Complete(st, c, ids + {id}) {
      assert st.code.recover(|m|, block, got) == m;
      assert Reconstruct(st.code, s'.chunk.wh) == Some(m);
    }
  }

  lemma TurnEnter(st: Stream, s: DecState, c: nat, id: u32)
    requires Valid(st) && c < |st.chunks|
    requires s.complete && s.chunk.num != c && Rank(Started) <= Rank(s.phase) <= Rank(InData)
    ensures var (s', b, stop) := Turn(st.code, s, Raw(st, LData(c, id)));
      var (a, e, stop') := Enter(st, c, id);
      && stop == stop' == None
      && b == (if e.Some? then Some(st.chunks[c]) else None)
      && Refines(st, s', a)
  {
    RawData(st, c, id);
    var s1 := s.(phase := InData);
    var hdr := DataHeader(st.cfg.pktSize, c, |st.chunks[c]|, id);
    ResetForChunk(st, s1, c, id);
    var s2 := s1.(chunk := DecInit(st.code, s1.chunk, hdr), complete := false, emitted := false);
    AbsorbFirst(st, s2, c, id);
    var (s3, n) := Absorb(st.code, s2, hdr, Body(st.code, st.cfg.pktSize, st.chunks[c], id));
    assert ReadStep(st.code, s, Raw(st, LData(c, id))) == (s3, n);
  }

  lemma TurnSame(st: Stream, s: DecState, c: nat, ids: set<nat>, id: u32)
    requires Valid(st) && c < |st.chunks| && ids != {}
    requires s.phase == InData && Tracks(st, s, c, ids)
    ensures var (s', b, stop) := Turn(st.code, s, Raw(st, LData(c, id)));
      && stop.None?
      && b == (if !Complete(st, c, ids) && Complete(st, c, ids + {id}) then Some(st.chunks[c]) else None)
      && s'.phase == InData && Tracks(st, s', c, ids + {id})
  {
    RawData(st, c, id);
    var raw, hdr := Raw(st, LData(c, id)), DataHeader(st.cfg.pktSize, c, |st.chunks[c]|, id);
    var m, block := st.chunks[c], st.cfg.pktSize - HEADER_LEN;
    if Complete(st, c, ids) {
      CompleteMonotone(st, c, ids, ids + {id});
      assert ReadStep(st.code, s, raw) == (s, 0);
    } else if |m| <= block {
      assert |m| == 0;
      assert ReadStep(st.code, s, raw) == (s, 0);
    } else {
      AbsorbSymbol(st, s, c, ids, id);
      assert ReadStep(st.code, s, raw) == Absorb(st.code, s, hdr, Body(st.code, st.cfg.pktSize, m, id));
    }
  }

  lemma TurnOther(st: Stream, s: DecState, c: nat, ids: set<nat>, c': nat, id: u32)
    requires Valid(st) && c < |st.chunks| && c' < |st.chunks| && c != c'
    requires s.phase == InData && Tracks(st, s, c, ids) && !Complete(st, c, ids)
    ensures Turn(st.code, s, Raw(st, LData(c', id))).2 == Some(Error(ERR_INCOMPLETE_CHUNK))
  {
    RawData(st, c', id);
  }

  lemma TurnControl(st: Stream, s: DecState, a: Session, l: Label)
    requires Valid(st) && SessionOk(st, a) && !l.LData? && Refines(st, s, a)
    ensures Matches(st, Turn(st.code, s, Raw(st, l)), SessionTurn(st, a, l))
  {
    RawControl(st);
  }

  /** Two turns that stop alike, emit alike and lead to related states. */
  ghost predicate Matches(
      st: Stream, t: (DecState, Option<bytes>, Option<Stop>), u: (Session, Option<nat>, Option<Stop>))
    requires Valid(st) && SessionOk(st, u.0) && (u.1.Some? ==> u.1.value < |st.chunks|)
  {
    && t.2 == u.2
    && (t.2.None? ==>
          && t.1 == (if u.1.Some? then Some(st.chunks[u.1.value]) else None)
          && Refines(st, t.0, u.0))
  }

  /** One packet of the stream: decloop does what the session machine does. */
  lemma TurnRefines(st: Stream, s: DecState, a: Session, l: Label)
    requires Valid(st) && SessionOk(st, a) && InStream(st, l) && Refines(st, s, a)
    ensures Matches(st, Turn(st.code, s, Raw(st, l)), SessionTurn(st, a, l))
  {
    if !l.LData? {
      TurnControl(st, s, a, l);
    } else if a == Idle(false) {
      RawData(st, l.c, l.id);
    } else if a.Idle? || (a.c != l.c && Complete(st, a.c, a.ids)) {
      TurnEnter(st, s, l.c, l.id);
    } else if a.c != l.c {
      TurnOther(st, s, a.c, a.ids, l.c, l.id);
    } else {
      TurnSame(st, s, l.c, a.ids, l.id);
    }
  }

  lemma DecloopUnfold(st: Stream, s: DecState, a: Session, ls: seq<Label>) returns (s': DecState)
    requires Valid(st) && SessionOk(st, a) && AllInStream(st, ls) && Refines(st, s, a) && ls != []
    ensures var (a', e, stop) := SessionTurn(st, a, ls[0]);
      var o := Decloop(st.code, s, RawAll(st, ls));
      && (stop.Some? ==> o == Outcome([], stop.value))
      && (stop.None? ==>
            && Refines(st, s', a')
            && var b := if e.Some? then Some(st.chunks[e.value]) else None;
               o == Prepend(b, Decloop(st.code, s', RawAll(st, ls[1..]))))
  {
    TurnRefines(st, s, a, ls[0]);
    var raws := RawAll(st, ls);
    assert raws[0] == Raw(st, ls[0]);
    assert raws[1..] == RawAll(st, ls[1..]);
    s' := Turn(st.code, s, raws[0]).0;
  }

  lemma PickCons(st: Stream, c: nat, cs: seq<nat>)
    requires c < |st.chunks| && forall i :: 0 <= i < |cs| ==> cs[i] < |st.chunks|
    ensures Pick(st, [c] + cs) == [st.chunks[c]] + Pick(st, cs)
  {
  }

  /** Whole runs: over any packets of the stream, in any order, decloop emits the
      blocks of the session machine and ends as it does. */
  lemma {:induction false} DecloopRefines(st: Stream, s: DecState, a: Session, ls: seq<Label>)
    requires Valid(st) && SessionOk(st, a) && AllInStream(st, ls) && Refines(st, s, a)
    ensures var o := RunSession(st, a, ls);
      Decloop(st.code, s, RawAll(st, ls)) == Outcome(Pick(st, o.emitted), o.stop)
    decreases |ls|
  {
    if ls != [] {
      var s' := DecloopUnfold(st, s, a, ls);
      var (a', e, stop) := SessionTurn(st, a, ls[0]);
      if stop.None? {
        DecloopRefines(st, s', a', ls[1..]);
        if e.Some? {
          PickCons(st, e.value, RunSession(st, a', ls[1..]).emitted);
        }
      }
    }
  }

  /** Even under arbitrary reordering and repetition, every block written is the
      chunk sent under the number it arrived with, no chunk is written twice in a
      row, and the only possible error is an incomplete chunk. */
  lemma AnyOrderIntegrity(st: Stream, ls: seq<Label>)
    requires Valid(st) && AllInStream(st, ls)
    ensures var o, cs := Decloop(st.code, FRESH, RawAll(st, ls)), RunSession(st, Idle(false), ls).emitted;
      && o.blocks == Pick(st, cs)
      && (forall i :: 0 <= i < |cs| - 1 ==> cs[i] != cs[i + 1])
      && o.stop in {Pill, Eot, Error(ERR_INCOMPLETE_CHUNK)}
  {
    DecloopRefines(st, FRESH, Idle(false), ls);
    SessionStops(st, Idle(false), ls);
    SessionNoRepeat(st, Idle(false), ls);
  }

  lemma {:induction false} SessionStops(st: Stream, a: Session, ls: seq<Label>)
    requires Accepted(st.cfg) && SessionOk(st, a) && AllInStream(st, ls)
    ensures RunSession(st, a, ls).stop in {Pill, Eot, Error(ERR_INCOMPLETE_CHUNK)}
    decreases |ls|
  {
    if ls != [] && SessionTurn(st, a, ls[0]).2.None? {
      SessionStops(st, SessionTurn(st, a, ls[0]).0, ls[1..]);
    }
  }

  /** A session emits its chunk at most once: a number can only come back after
      another chunk was emitted in between. */
  lemma {:induction false} SessionNoRepeat(st: Stream, a: Session, ls: seq<Label>)
    requires Valid(st) && SessionOk(st, a) && AllInStream(st, ls)
    ensures var cs := RunSession(st, a, ls).emitted;
      && (forall i :: 0 <= i < |cs| - 1 ==> cs[i] != cs[i + 1])
      && (a.Active? && cs != [] ==> (cs[0] == a.c <==> !Complete(st, a.c, a.ids)))
    decreases |ls|
  {
    if ls != [] && SessionTurn(st, a, ls[0]).2.None? {
      var (a', e, _) := SessionTurn(st, a, ls[0]);
      SessionNoRepeat(st, a', ls[1..]);
      if a.Active? && ls[0].LData? && ls[0].c == a.c && Complete(st, a.c, a.ids) {
        CompleteMonotone(st, a.c, a.ids, a.ids + {ls[0].id});
      }
    }
  }

  // ---- Any client of the decoder, on packets of one stream ----

  ghost predicate ReadsOf(st: Stream, ops: seq<Op>, ls: seq<Label>)
    requires Valid(st) && AllInStream(st, ls)
  {
    && |ls| == |ops|
    && forall i :: 0 <= i < |ops| && ops[i].DoRead? ==> ops[i].raw == Raw(st, ls[i])
  }

  /** A chunk in progress has the packet size that its number has in the stream. */
  ghost predicate SizedBy(st: Stream, s: DecState)
    requires Valid(st)
  {
    !NoSession(s) ==>
      s.chunk.num < |st.chunks| && s.chunk.pktSize == BlockSize(st.cfg.pktSize, |st.chunks[s.chunk.num]|) + HEADER_LEN
  }

  /** Reading keeps the chunk in progress or starts the one in the header. */
  lemma ReadKeepsSize(code: Code, s: DecState, raw: bytes)
    ensures var c, c' := s.chunk, ReadStep(code, s, raw).0.chunk;
      || (c'.num == c.num && c'.pktSize == c.pktSize)
      || (TypeOf(raw) == Data && Parse(raw).Parsed?
          && c'.num == Parse(raw).hdr.chunkNum && c'.pktSize == Parse(raw).hdr.dataSize + HEADER_LEN)
  {
  }

  lemma ReadSized(st: Stream, s: DecState, l: Label)
    requires Valid(st) && InStream(st, l) && SizedBy(st, s)
    ensures WellFormed(Raw(st, l)) && Fitting(s, Raw(st, l))
    ensures SizedBy(st, ReadStep(st.code, s, Raw(st, l)).0)
  {
    ReadKeepsSize(st.code, s, Raw(st, l));
    if l.LData? {
      RawData(st, l.c, l.id);
      SidesAgree(st.cfg, l.c, |st.chunks[l.c]|, l.id);
    } else {
      RawControl(st);
    }
  }

  lemma {:induction false} StreamOps(st: Stream, ops: seq<Op>, ls: seq<Label>)
    requires Valid(st) && AllInStream(st, ls) && ReadsOf(st, ops, ls)
    ensures Orderly(st.code, ops) && SizedBy(st, RunOps(st.code, ops))
  {
    if ops != [] {
      var front, last := ops[..|ops| - 1], ops[|ops| - 1];
      StreamOps(st, front, ls[..|ls| - 1]);
      if last.DoRead? {
        ReadSized(st, RunOps(st.code, front), ls[|ls| - 1]);
      }
    }
  }

  /** Whatever a client did before with packets of the stream, in any order and
      with emits anywhere: a read that announces n > 0 bytes makes an emit of n
      bytes succeed with exactly n bytes. */
  lemma ReadThenEmit(st: Stream, ops: seq<Op>, ls: seq<Label>, l: Label)
    requires Valid(st) && AllInStream(st, ls) && ReadsOf(st, ops, ls) && InStream(st, l)
    ensures var (s, n) := ReadStep(st.code, RunOps(st.code, ops), Raw(st, l));
      n > 0 ==> EmitStep(st.code, s, n).1.Emitted? && |EmitStep(st.code, s, n).1.block| == n
  {
    var more := ops + [DoRead(Raw(st, l))];
    assert ReadsOf(st, more, ls + [l]);
    StreamOps(st, more, ls + [l]);
    ReadEmitContract(st.code, ops, Raw(st, l), 0);
  }
}
