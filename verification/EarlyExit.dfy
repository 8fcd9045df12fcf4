/** How the output of a receiver can be cut short. After a decoding error the decoder
    poisons the first channel; if the net reader then asks for a slot, the process
    exits, whatever the writer still had to write. */
module EarlyExit {
  import opened Wire
  import opened Config
  import opened Erasure
  import opened Chunk
  import opened Chunking
  import opened Encoder
  import opened Queues
  import opened Stream
  import opened Decoder
  import opened Session
  import opened Delivery
  import opened ReceivePipeline

  /** The run ends without everything written that was, or was to be, handed on. */
  ghost predicate CutShort(k: Params, blocks: seq<bytes>, x: State, ts: seq<Thread>) {
    && Run(k, x, ts).Some?
    && Runs.Ended(NextOf(k), Run(k, x, ts).value)
    && Run(k, x, ts).value.written != blocks
  }

  // ---- From the poison on ----

  /** Where a net reader must be, when the channel is poisoned, to ask for another
      slot: waiting for one already, or past the poison check of a send after which
      it asks for one. In recvfrom, or with an END in hand, it is not. */
  predicate Doomed(n: Net) {
    n == NReserve || (n.NSend? && n.item.Some? && TypeOf(n.item.value) != End)
  }

  /** The decoder has poisoned the channel and the process is still running. */
  ghost predicate Fallen(k: Params, fw: seq<bytes>, o: Outcome, x: State) {
    Inv(k, fw, o, x, false) && x.poisoned && !x.exited
  }

  /** A net reader keeps to its fate, and only a doomed one takes the process down. */
  lemma FallenStep(k: Params, fw: seq<bytes>, o: Outcome, x: State, t: Thread)
    requires EndLast(fw) && Fallen(k, fw, o, x) && Next(k, x, t).Some?
    ensures var y := Next(k, x, t).value;
      if y.exited then Doomed(x.n) && y.written == x.written
      else Fallen(k, fw, o, y) && (Doomed(y.n) <==> Doomed(x.n))
  {
    NextKeeps(k, fw, o, x, t, false);
  }

  lemma {:induction false} NotDoomed(k: Params, fw: seq<bytes>, o: Outcome, x: State, ts: seq<Thread>)
    requires EndLast(fw) && Fallen(k, fw, o, x) && !Doomed(x.n) && Run(k, x, ts).Some?
    ensures Fallen(k, fw, o, Run(k, x, ts).value)
    decreases |ts|
  {
    if ts != [] {
      FallenStep(k, fw, o, x, ts[0]);
      NotDoomed(k, fw, o, Next(k, x, ts[0]).value, ts[1..]);
    }
  }

  lemma {:induction false} WrittenGrows(k: Params, x: State, ts: seq<Thread>)
    requires Run(k, x, ts).Some?
    ensures |x.written| <= |Run(k, x, ts).value.written|
    decreases |ts|
  {
    if ts != [] {
      WrittenGrows(k, Next(k, x, ts[0]).value, ts[1..]);
    }
  }

  lemma EndedThreads(k: Params, x: State)
    requires Runs.Ended(NextOf(k), x)
    ensures forall t :: Next(k, x, t).None?
  {
    forall t
      ensures Next(k, x, t).None?
    {
      assert NextOf(k)(x, t).None?;
    }
  }

  /** If the process is still there when nothing can move, the decoder has left its
      loop and everything has been written. */
  lemma EndsComplete(k: Params, fw: seq<bytes>, o: Outcome, x: State)
    requires Usable(k) && Inv(k, fw, o, x, false) && !x.exited && Runs.Ended(NextOf(k), x)
    ensures x.written == o.blocks
  {
    EndedThreads(k, x);
    assert Next(k, x, NetThread).None? && Next(k, x, DecThread).None? && Next(k, x, WriterThread).None?;
    if Left(x.d) {
      Drains(k, fw, o, x, false);
    } else {
      LoopGoesOn(k, fw, o, x);
    }
  }

  /** A decoder in its loop moves, or one of its neighbours does. */
  lemma LoopGoesOn(k: Params, fw: seq<bytes>, o: Outcome, x: State)
    requires Usable(k) && Inv(k, fw, o, x, false) && !x.exited && !Left(x.d)
    ensures NetStep(k, x).Some? || DecStep(k, x).Some? || WriterStep(x).Some?
  {
    if x.d.DSend? {
      assert x.w != WDone;
    } else if x.d == DPeek && x.toDec == [] {
      assert x.n != NDone && !x.poisoned;
    }
  }

  lemma ExitsNow(k: Params, blocks: seq<bytes>, x: State)
    requires x.exited && x.written != blocks
    ensures CutShort(k, blocks, x, [])
  {
  }

  lemma CutShortStep(k: Params, blocks: seq<bytes>, x: State, t: Thread, y: State, ts: seq<Thread>)
    requires Next(k, x, t) == Some(y) && CutShort(k, blocks, y, ts)
    ensures CutShort(k, blocks, x, [t] + ts)
  {
    Runs.RunFirst(NextOf(k), x, t, ts);
  }

  lemma DoomedExits(k: Params, blocks: seq<bytes>, x: State) returns (ts: seq<Thread>)
    requires x.poisoned && !x.exited && Doomed(x.n) && x.written != blocks
    ensures CutShort(k, blocks, x, ts)
  {
    var y := NetStep(k, x).value;
    if y.exited {
      ExitsNow(k, blocks, y);
      CutShortStep(k, blocks, x, NetThread, y, []);
      ts := [NetThread] + [];
    } else {
      var z := NetStep(k, y).value;
      ExitsNow(k, blocks, z);
      CutShortStep(k, blocks, y, NetThread, z, []);
      CutShortStep(k, blocks, x, NetThread, y, [NetThread] + []);
      ts := [NetThread] + ([NetThread] + []);
    }
  }

  /** Exactly when the poison can cost output: from any reachable poisoned state some
      run ends short if and only if the net reader is doomed there and something is
      still to be written. */
  lemma PoisonCutsShort(k: Params, fw: seq<bytes>, o: Outcome, x: State)
    requires Usable(k) && EndLast(fw) && Fallen(k, fw, o, x)
    ensures (exists ts :: CutShort(k, o.blocks, x, ts)) <==> Doomed(x.n) && x.written != o.blocks
  {
    if Doomed(x.n) && x.written != o.blocks {
      var ts := DoomedExits(k, o.blocks, x);
    }
    forall ts | CutShort(k, o.blocks, x, ts)
      ensures Doomed(x.n) && x.written != o.blocks
    {
      var e := Run(k, x, ts).value;
      RunKeeps(k, fw, o, x, ts, false);
      WrittenGrows(k, x, ts);
      if !Doomed(x.n) {
        NotDoomed(k, fw, o, x, ts);
        EndsComplete(k, fw, o, e);
      }
    }
  }

  // ---- From the start ----

  /** The decoder raises no error at an END packet. */
  ghost predicate QuietEnds(turn: TurnFn) {
    forall s, raw :: TypeOf(raw) == End ==> var end := turn(s, raw).2; end.Some? ==> !end.value.Error?
  }

  lemma DecoderEndsQuietly(code: Code)
    ensures QuietEnds(DecoderTurn(code))
  {
  }

  /** Between two packets: the net reader is about to reserve a slot, the decoder has
      dealt with everything so far, and the writer has at most one block to fetch. */
  ghost predicate Between(k: Params, o: Outcome, x: State) {
    && x.n == NReserve && x.toDec == [] && x.d == DPeek && x.w == WRecv && !x.poisoned && !x.exited
    && |x.toOut| <= 1 && (x.toOut != [] ==> x.toOut[0].Some?)
    && var later := Loop(k.turn, x.dec, Forwarded(x.rest));
       later.stop == o.stop && x.written + Waiting(x.toOut) + later.blocks == o.blocks
  }

  /** The net reader receives the next packet and the decoder reads it. */
  function Fed(k: Params, x: State): State
    requires x.rest != []
  {
    var (s, b, end) := k.turn(x.dec, x.rest[0]);
    x.(rest := x.rest[1..], toDec := [Some(x.rest[0])], n := AfterSend(Some(x.rest[0])), dec := s, d := DAck(b, end))
  }

  lemma Feeds(k: Params, blocks: seq<bytes>, o: Outcome, x: State, ts: seq<Thread>) returns (all: seq<Thread>)
    requires Usable(k) && Between(k, o, x) && x.rest != [] && CutShort(k, blocks, Fed(k, x), ts)
    ensures CutShort(k, blocks, x, all)
  {
    var item := Some(x.rest[0]);
    var x1 := x.(n := NRecv);
    var x2 := x.(n := NHold(item), rest := x.rest[1..]);
    var x3 := x2.(n := NSend(item));
    var x4 := x2.(n := AfterSend(item), toDec := [item]);
    assert [] + [item] == [item];
    CutShortStep(k, blocks, x4, DecThread, Fed(k, x), ts);
    CutShortStep(k, blocks, x3, NetThread, x4, [DecThread] + ts);
    CutShortStep(k, blocks, x2, NetThread, x3, [NetThread] + ([DecThread] + ts));
    CutShortStep(k, blocks, x1, NetThread, x2, [NetThread] + ([NetThread] + ([DecThread] + ts)));
    all := [NetThread] + ([NetThread] + ([NetThread] + ([DecThread] + ts)));
    CutShortStep(k, blocks, x, NetThread, x1, all);
    all := [NetThread] + all;
  }

  /** A fatal packet that is not END ends the run at once: the decoder poisons the
      channel while the net reader asks for its next slot, or crashes. */
  lemma FatalPacket(k: Params, blocks: seq<bytes>, y: State) returns (ts: seq<Thread>)
    requires !y.exited && y.written != blocks && y.toDec != []
    requires y.d.DAck? && y.d.end.Some? && Fatal(y.d.end.value)
    requires y.d.end.value.Error? ==> y.n == NReserve
    ensures CutShort(k, blocks, y, ts)
  {
    var z := DecStep(k, y).value;
    if y.d.end == Some(Crash) {
      ts := [];
      ExitsNow(k, blocks, z);
    } else {
      var p := DecStep(k, z).value;
      ts := DoomedExits(k, blocks, p);
      CutShortStep(k, blocks, z, DecThread, p, ts);
      ts := [DecThread] + ts;
    }
    CutShortStep(k, blocks, y, DecThread, z, ts);
    ts := [DecThread] + ts;
  }

  /** After an ordinary packet: the block before it is written, its own is sent on. */
  function Passed(y: State): State
    requires y.d.DAck?
  {
    var z := y.(toDec := [], read := y.read + 1, d := DPeek);
    if y.d.block.None? then z
    else z.(written := z.written + Waiting(z.toOut), toOut := [y.d.block])
  }

  lemma Passes(k: Params, blocks: seq<bytes>, y: State, ts: seq<Thread>) returns (all: seq<Thread>)
    requires Usable(k) && !y.exited && |y.toDec| == 1 && y.d.DAck? && y.d.end.None? && y.w == WRecv
    requires |y.toOut| <= 1 && (y.toOut != [] ==> y.toOut[0].Some?)
    requires CutShort(k, blocks, Passed(y), ts)
    ensures CutShort(k, blocks, y, all)
  {
    var z := y.(toDec := [], read := y.read + 1, d := AfterAck(y.d.block, y.d.end));
    assert y.toDec[1..] == [];
    assert DecStep(k, y) == Some(z);
    all := ts;
    if y.d.block.Some? {
      var z2 := z.(written := z.written + Waiting(z.toOut), toOut := []);
      assert [] + [y.d.block] == [y.d.block];
      CutShortStep(k, blocks, z2, DecThread, Passed(y), ts);
      all := [DecThread] + ts;
      if y.toOut == [] {
        assert z2 == z;
      } else {
        all := Fetches(k, blocks, z, all);
      }
    }
    CutShortStep(k, blocks, y, DecThread, z, all);
    all := [DecThread] + all;
  }

  /** The writer fetches and writes the one block that waits for it. */
  lemma Fetches(k: Params, blocks: seq<bytes>, z: State, ts: seq<Thread>) returns (all: seq<Thread>)
    requires !z.exited && z.w == WRecv && |z.toOut| == 1 && z.toOut[0].Some?
    requires CutShort(k, blocks, z.(written := z.written + Waiting(z.toOut), toOut := []), ts)
    ensures CutShort(k, blocks, z, all)
  {
    var b := z.toOut[0].value;
    var z1 := z.(toOut := [], w := WWrite(b));
    assert Waiting(z.toOut) == [b];
    CutShortStep(k, blocks, z1, WriterThread, z.(written := z.written + [b], toOut := []), ts);
    CutShortStep(k, blocks, z, WriterThread, z1, [WriterThread] + ts);
    all := [WriterThread] + ([WriterThread] + ts);
  }

  lemma PassedIsBetween(k: Params, o: Outcome, x: State)
    requires Between(k, o, x) && x.rest != [] && TypeOf(x.rest[0]) != End && k.turn(x.dec, x.rest[0]).2.None?
    ensures Between(k, o, Passed(Fed(k, x)))
  {
    var b, y := k.turn(x.dec, x.rest[0]).1, Passed(Fed(k, x));
    var fw := Forwarded(x.rest);
    assert fw[0] == x.rest[0] && fw[1..] == Forwarded(x.rest[1..]);
    if b.Some? {
      var tail := Loop(k.turn, y.dec, Forwarded(y.rest)).blocks;
      assert Waiting(y.toOut) == [b.value];
      assert x.written + Waiting(x.toOut) + ([b.value] + tail) == y.written + [b.value] + tail;
    }
  }

  /** What Between says about the first packet, if the end is fatal. */
  lemma FatalAhead(k: Params, o: Outcome, x: State)
    requires QuietEnds(k.turn) && Between(k, o, x) && Fatal(o.stop)
    ensures x.rest != []
    ensures var end := k.turn(x.dec, x.rest[0]).2;
      && (end.Some? ==> end == Some(o.stop) && x.written + Waiting(x.toOut) == o.blocks)
      && (TypeOf(x.rest[0]) == End ==> end == Some(Crash))
  {
    var fw := Forwarded(x.rest);
    if x.rest != [] {
      assert fw[0] == x.rest[0];
      var (s, b, end) := k.turn(x.dec, x.rest[0]);
      if end.Some? {
        assert Loop(k.turn, x.dec, fw) == Outcome([], end.value);
        assert x.written + Waiting(x.toOut) + [] == x.written + Waiting(x.toOut);
      } else {
        assert Loop(k.turn, x.dec, fw) == Prepend(b, Loop(k.turn, s, fw[1..]));
      }
    }
  }

  /** From between two packets, with a fatal end ahead and a block that the writer has
      not fetched, or that is still to come, some run ends short. */
  lemma {:induction false} RunsShort(k: Params, o: Outcome, x: State) returns (ts: seq<Thread>)
    requires Usable(k) && QuietEnds(k.turn) && Between(k, o, x) && Fatal(o.stop) && x.written != o.blocks
    ensures CutShort(k, o.blocks, x, ts)
    decreases |x.rest|
  {
    FatalAhead(k, o, x);
    var y := Fed(k, x);
    if y.d.end.Some? {
      ts := FatalPacket(k, o.blocks, y);
    } else {
      PassedIsBetween(k, o, x);
      StillUnwritten(k, o, Passed(y), x);
      ts := RunsShort(k, o, Passed(y));
      ts := Passes(k, o.blocks, y, ts);
    }
    ts := Feeds(k, o.blocks, o, x, ts);
  }

  lemma StillUnwritten(k: Params, o: Outcome, y: State, x: State)
    requires Between(k, o, y) && x.written != o.blocks && (y.toOut != [] || y.written == x.written)
    ensures y.written != o.blocks
  {
    if y.toOut != [] {
      assert |Waiting(y.toOut)| == 1;
    }
  }

  /** Exactly when an output can be cut short, for any packets: some interleaving of
      the threads ends without having written everything if and only if decoding them
      ends in an error or a crash and at least one block was handed on before. */
  lemma CutShortExactly(k: Params, code: Code, trace: seq<bytes>)
    requires Usable(k) && k.turn == DecoderTurn(code)
    ensures var o := Receive(code, trace);
      (exists ts :: CutShort(k, o.blocks, Start(trace), ts)) <==> Fatal(o.stop) && o.blocks != []
  {
    var o, x := Receive(code, trace), Start(trace);
    if Fatal(o.stop) && o.blocks != [] {
      DecoderEndsQuietly(code);
      assert x.written + Waiting(x.toOut) + o.blocks == o.blocks;
      var ts := RunsShort(k, o, x);
    }
    forall ts | CutShort(k, o.blocks, x, ts)
      ensures Fatal(o.stop) && o.blocks != []
    {
      var e := Run(k, x, ts).value;
      RunFromStart(k, trace, ts, false);
      if !e.exited {
        EndsComplete(k, Forwarded(trace), o, e);
      }
    }
  }

  // ---- Over a stream ----

  /** Over an in-order delivery with a BEGIN: the output can be cut short if and only
      if packets of a chunk after the first broken one arrive and a chunk before it
      is complete. */
  lemma StreamCutShort(k: Params, st: Stream, ls: seq<Label>)
    requires Usable(k) && Valid(st) && k.turn == DecoderTurn(st.code)
    requires AllInStream(st, ls) && Staged(st, ls) && LBegin in ls
    ensures var b := FirstBroken(st, ls, 0);
      (exists ts :: CutShort(k, Pick(st, DoneBelow(st, ls, b)), Start(RawAll(st, ls)), ts))
      <==> SeenAfter(st, ls, b) && exists c :: 0 <= c < b && Done(st, ls, c)
  {
    var b := FirstBroken(st, ls, 0);
    var done := DoneBelow(st, ls, b);
    ExactOutcome(st, ls);
    CutShortExactly(k, st.code, RawAll(st, ls));
    DoneBelowAll(st, ls, b);
    if c :| 0 <= c < b && Done(st, ls, c) {
      assert c in done;
    }
    if done != [] {
      assert Done(st, ls, done[0]);
    }
  }

  lemma {:induction false} DoneBelowAll(st: Stream, ls: seq<Label>, n: nat)
    requires Accepted(st.cfg) && n <= |st.chunks|
    ensures forall c :: 0 <= c < n && Done(st, ls, c) ==> c in DoneBelow(st, ls, n)
  {
    if n > 0 {
      DoneBelowAll(st, ls, n - 1);
    }
  }

  // ---- An instance ----

  /** Four bytes in chunks of two one-byte symbols, sent without redundancy. */
  const SHORT_CFG := SenderConfig(25, 2, 1.0, true, true)
  const SHORT_INPUT: bytes := [1, 2, 3, 4]

  /** The second symbol of the second chunk is lost, everything else up to the first
      packet of the last chunk arrives. */
  const SHORT_LABELS := [LBegin, LData(0, 0), LData(0, 1), LData(1, 0), LData(2, 0)]
  const SHORT_FROM: seq<nat> := [0, 32, 33, 34, 36]

  lemma ShortChunks()
    ensures ChunkSize(SHORT_CFG) == 2 && Chunks(SHORT_INPUT, 2) == [[1, 2], [3, 4], []]
  {
    var input := SHORT_INPUT;
    assert input[..2] == [1, 2] && input[2..] == [3, 4];
    var tail := input[2..];
    assert tail[..2] == [3, 4] && tail[2..] == [];
    assert Chunks(tail[2..], 2) == [[]];
    assert Chunks(tail, 2) == [[3, 4], []];
  }

  lemma ShortCounts()
    ensures EmissionCount(SHORT_CFG, 2) == 2 && EmissionCount(SHORT_CFG, 0) == 1
  {
    PacketCountLeast(2, 1, 1.0, 1);
    PacketCountLeast(2, 1, 1.0, 2);
  }

  lemma IdsOfNext(ls: seq<Label>, l: Label, c: nat)
    ensures IdsOf(ls + [l], c) == if l.LData? && l.c == c then IdsOf(ls, c) + {l.id} else IdsOf(ls, c)
  {
    assert (ls + [l])[..|ls|] == ls;
  }

  lemma ShortIds(c: nat)
    ensures IdsOf(SHORT_LABELS, c) == if c == 0 then {0, 1} else if c <= 2 then {0} else {}
  {
    var none: seq<Label> := [];
    IdsOfNext(none, LBegin, c);
    IdsOfNext([LBegin], LData(0, 0), c);
    IdsOfNext([LBegin, LData(0, 0)], LData(0, 1), c);
    IdsOfNext([LBegin, LData(0, 0), LData(0, 1)], LData(1, 0), c);
    IdsOfNext([LBegin, LData(0, 0), LData(0, 1), LData(1, 0)], LData(2, 0), c);
    assert none + [LBegin] == [LBegin];
    assert [LBegin] + [LData(0, 0)] == [LBegin, LData(0, 0)];
    assert [LBegin, LData(0, 0)] + [LData(0, 1)] == [LBegin, LData(0, 0), LData(0, 1)];
    assert [LBegin, LData(0, 0), LData(0, 1)] + [LData(1, 0)] == [LBegin, LData(0, 0), LData(0, 1), LData(1, 0)];
    assert [LBegin, LData(0, 0), LData(0, 1), LData(1, 0)] + [LData(2, 0)] == SHORT_LABELS;
  }

  lemma ShortData(st: Stream)
    requires st == StreamOf(Systematic(), SHORT_CFG, SHORT_INPUT)
    ensures |st.chunks| == 3
    ensures DataLabels(st, 3) == [LData(0, 0), LData(0, 1), LData(1, 0), LData(1, 1), LData(2, 0)]
  {
    ShortChunks();
    ShortCounts();
    assert |st.chunks[0]| == 2 && |st.chunks[1]| == 2 && |st.chunks[2]| == 0;
    assert ChunkLabels(st, 0) == [LData(0, 0), LData(0, 1)];
    assert ChunkLabels(st, 1) == [LData(1, 0), LData(1, 1)];
    assert ChunkLabels(st, 2) == [LData(2, 0)];
    assert DataLabels(st, 0) == [];
    assert DataLabels(st, 1) == ChunkLabels(st, 0);
    assert DataLabels(st, 2) == ChunkLabels(st, 0) + ChunkLabels(st, 1);
  }

  lemma ShortFrom(all: seq<Label>, data: seq<Label>)
    requires data == [LData(0, 0), LData(0, 1), LData(1, 0), LData(1, 1), LData(2, 0)]
    requires all == Salve(LBegin) + data + Salve(LEnd)
    ensures forall i :: 0 <= i < 5 ==> SHORT_FROM[i] < |all| && all[SHORT_FROM[i]] == SHORT_LABELS[i]
  {
    assert all[0] == LBegin;
    assert forall i :: 0 <= i < 5 ==> all[32 + i] == data[i];
  }

  lemma ShortOrder(st: Stream)
    requires st == StreamOf(Systematic(), SHORT_CFG, SHORT_INPUT)
    ensures InOrder(st, SHORT_LABELS, SHORT_FROM)
  {
    ShortData(st);
    ShortFrom(SenderLabels(st), DataLabels(st, 3));
  }

  lemma ShortDone(st: Stream)
    requires st == StreamOf(Systematic(), SHORT_CFG, SHORT_INPUT)
    ensures |st.chunks| == 3 && Done(st, SHORT_LABELS, 0) && Broken(st, SHORT_LABELS, 1) && Seen(SHORT_LABELS, 2)
    ensures FirstBroken(st, SHORT_LABELS, 0) == 1
  {
    ShortChunks();
    ShortIds(0);
    ShortIds(1);
    ShortIds(2);
    assert |st.chunks[0]| == 2 && |st.chunks[1]| == 2 && Blocks(2, 1) == 2;
    assert Ids(2) <= {0, 1};
    assert 1 in Ids(2) && 1 !in {0};
  }

  lemma ShortPick(st: Stream)
    requires st == StreamOf(Systematic(), SHORT_CFG, SHORT_INPUT)
    ensures |st.chunks| == 3 && FirstBroken(st, SHORT_LABELS, 0) == 1
    ensures DoneBelow(st, SHORT_LABELS, 1) == [0] && Pick(st, [0]) == [st.chunks[0]]
    ensures SeenAfter(st, SHORT_LABELS, 1) && Done(st, SHORT_LABELS, 0)
  {
    ShortDone(st);
    assert DoneBelow(st, SHORT_LABELS, 1) == DoneBelow(st, SHORT_LABELS, 0) + [0];
  }

  lemma ShortStream(st: Stream)
    requires st == StreamOf(Systematic(), SHORT_CFG, SHORT_INPUT)
    ensures Valid(st) && InOrder(st, SHORT_LABELS, SHORT_FROM)
    ensures AllInStream(st, SHORT_LABELS) && Staged(st, SHORT_LABELS) && LBegin in SHORT_LABELS
  {
    SystematicIsSound();
    StreamOfValid(Systematic(), SHORT_CFG, SHORT_INPUT);
    ShortOrder(st);
    InOrderStaged(st, SHORT_LABELS, SHORT_FROM);
    assert SHORT_LABELS[0] == LBegin;
  }

  /** A transfer of four bytes whose output is cut short: the first chunk arrives
      whole and is decoded, but the run ends before it has been written. */
  lemma ShortTransfer(k: Params)
    requires Usable(k) && k.turn == DecoderTurn(Systematic())
    ensures var st := StreamOf(Systematic(), SHORT_CFG, SHORT_INPUT);
      && Valid(st) && InOrder(st, SHORT_LABELS, SHORT_FROM) && AllInStream(st, SHORT_LABELS)
      && DoneBelow(st, SHORT_LABELS, FirstBroken(st, SHORT_LABELS, 0)) == [0]
      && exists ts :: CutShort(k, [st.chunks[0]], Start(RawAll(st, SHORT_LABELS)), ts)
  {
    var st := StreamOf(Systematic(), SHORT_CFG, SHORT_INPUT);
    ShortStream(st);
    ShortPick(st);
    StreamCutShort(k, st, SHORT_LABELS);
  }
}
