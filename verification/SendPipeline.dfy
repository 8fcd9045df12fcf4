/** The three threads of hgap_send over two bounded queues: reader, encoder and
    sender. The queues are the FIFO queues that the channel refines; the last
    element on each is a poison pill (None). */
module SendPipeline {
  import opened Wire
  import opened Chunk
  import opened Chunking
  import opened Queues
  import Runs

  datatype Numbered = Numbered(num: nat, data: bytes)

  /** read_loop: waiting for a slot, filling it, holding a filled one, about to
      send the pill, finished. */
  datatype Reader = RReserve | RRead | RHold(buf: bytes, eof: bool) | RPill | RDone

  /** encode_loop: waiting to peek, holding an encoded chunk, about to
      acknowledge the peeked buffer, about to send the pill, finished. */
  datatype Encoding = EPeek | ESend(chunk: Numbered) | EAck | EPill | EDone

  /** send_loop: waiting for a chunk, emitting one, finished. */
  datatype Sending = SRecv | SEmit(chunk: Numbered) | SDone

  datatype State = State(
    rest: bytes, r: Reader, toEnc: seq<Option<bytes>>,
    e: Encoding, nextNum: nat, toNet: seq<Option<Numbered>>,
    s: Sending, sent: seq<Numbered>)

  /** Read-buffer size and the two channel capacities. */
  datatype Params = Params(size: nat, cap1: nat, cap2: nat)

  ghost predicate Usable(k: Params) { k.size >= 1 && k.cap1 >= 1 && k.cap2 >= 1 }

  function Start(input: bytes): State {
    State(input, RReserve, [], EPeek, 0, [], SRecv, [])
  }

  function ReaderStep(k: Params, x: State): Option<State> {
    match x.r
    case RReserve => if |x.toEnc| < k.cap1 then Some(x.(r := RRead)) else None
    case RRead =>
      var buf := Head(x.rest, k.size);
      Some(x.(r := RHold(buf, |x.rest| < k.size), rest := x.rest[|buf|..]))
    case RHold(buf, eof) => Some(x.(toEnc := x.toEnc + [Some(buf)], r := if eof then RPill else RReserve))
    case RPill => if |x.toEnc| < k.cap1 then Some(x.(toEnc := x.toEnc + [None], r := RDone)) else None
    case RDone => None
  }

  function EncoderStep(k: Params, x: State): Option<State> {
    match x.e
    case EPeek =>
      if x.toEnc == [] then None
      else if x.toEnc[0].None? then Some(x.(e := EPill))
      else Some(x.(e := ESend(Numbered(x.nextNum, x.toEnc[0].value)), nextNum := x.nextNum + 1))
    case ESend(c) => if |x.toNet| < k.cap2 then Some(x.(toNet := x.toNet + [Some(c)], e := EAck)) else None
    case EAck => if x.toEnc == [] then None else Some(x.(toEnc := x.toEnc[1..], e := EPeek))
    case EPill => if |x.toNet| < k.cap2 then Some(x.(toNet := x.toNet + [None], e := EDone)) else None
    case EDone => None
  }

  function SenderStep(x: State): Option<State> {
    match x.s
    case SRecv =>
      if x.toNet == [] then None
      else Some(x.(toNet := x.toNet[1..], s := if x.toNet[0].None? then SDone else SEmit(x.toNet[0].value)))
    case SEmit(c) => Some(x.(sent := x.sent + [c], s := SRecv))
    case SDone => None
  }

  datatype Thread = ReaderThread | EncoderThread | SenderThread

  function Next(k: Params, x: State, t: Thread): Option<State> {
    match t
    case ReaderThread => ReaderStep(k, x)
    case EncoderThread => EncoderStep(k, x)
    case SenderThread => SenderStep(x)
  }

  predicate Finished(x: State) { x.r == RDone && x.e == EDone && x.s == SDone }

  // ---- Invariant ----

  /** The chunks of the input, numbered 0, 1, 2, ... */
  function Numbering(all: seq<bytes>): (ns: seq<Numbered>)
    ensures |ns| == |all|
    ensures forall i :: 0 <= i < |all| ==> ns[i] == Numbered(i, all[i])
  {
    seq(|all|, i requires 0 <= i < |all| => Numbered(i, all[i]))
  }

  /** How many elements have been taken from the first queue, and taken from and
      put on the second. */
  function Taken1(e: Encoding, nextNum: nat): int { if e.ESend? || e == EAck then nextNum - 1 else nextNum }

  function Taken2(s: Sending, sent: nat, n: nat): int {
    match s case SRecv => sent case SEmit(_) => sent + 1 case SDone => n + 1
  }

  function Put2(e: Encoding, nextNum: nat, n: nat): int {
    match e
    case EPeek => nextNum
    case ESend(_) => nextNum - 1
    case EAck => nextNum
    case EPill => n
    case EDone => n + 1
  }

  function Put1(x: State): int { Taken1(x.e, x.nextNum) + |x.toEnc| }

  ghost predicate ReaderInv(k: Params, all: seq<bytes>, r: Reader, rest: bytes, m: int)
    requires k.size >= 1
  {
    var n := |all|;
    && 0 <= m
    && match r
       case RReserve => m < n && all[m..] == Chunks(rest, k.size)
       case RRead => m < n && all[m..] == Chunks(rest, k.size)
       case RHold(buf, eof) =>
         && m < n && all[m] == buf
         && (eof <==> m == n - 1) && (eof ==> rest == [])
         && (!eof ==> all[m + 1..] == Chunks(rest, k.size))
       case RPill => m == n && rest == []
       case RDone => m == n + 1 && rest == []
  }

  /** The reader and the first queue, from which t elements have been taken. */
  ghost predicate ReaderSide(k: Params, all: seq<bytes>, r: Reader, rest: bytes, q: seq<Option<bytes>>, t: int)
    requires k.size >= 1
  {
    && |q| <= k.cap1 && (r == RRead || r.RHold? ==> |q| < k.cap1)
    && Window(all, q, t)
    && ReaderInv(k, all, r, rest, t + |q|)
  }

  ghost predicate EncoderInv(all: seq<bytes>, e: Encoding, nextNum: nat, peeked: bool, allRead: bool) {
    && nextNum <= |all|
    && match e
       case EPeek => true
       case ESend(c) => nextNum >= 1 && peeked && c == Numbered(nextNum - 1, all[nextNum - 1])
       case EAck => nextNum >= 1 && peeked
       case EPill => nextNum == |all| && allRead
       case EDone => nextNum == |all| && allRead
  }

  /** The second queue, on which p elements have been put and from which t have
      been taken. */
  ghost predicate NetSide(k: Params, all: seq<bytes>, q: seq<Option<Numbered>>, t: int, p: int) {
    |q| <= k.cap2 && Window(Numbering(all), q, t) && t + |q| == p
  }

  ghost predicate SenderInv(all: seq<bytes>, s: Sending, sent: seq<Numbered>) {
    && |sent| <= |all|
    && (forall i :: 0 <= i < |sent| ==> sent[i] == Numbered(i, all[i]))
    && (s.SEmit? ==> |sent| < |all| && s.chunk == Numbered(|sent|, all[|sent|]))
    && (s == SDone ==> |sent| == |all|)
  }

  ghost predicate Inv(k: Params, all: seq<bytes>, x: State)
    requires k.size >= 1
  {
    && ReaderSide(k, all, x.r, x.rest, x.toEnc, Taken1(x.e, x.nextNum))
    && EncoderInv(all, x.e, x.nextNum, x.toEnc != [], x.r == RDone)
    && NetSide(k, all, x.toNet, Taken2(x.s, |x.sent|, |all|), Put2(x.e, x.nextNum, |all|))
    && SenderInv(all, x.s, x.sent)
  }

  lemma StartReader(k: Params, input: bytes)
    requires Usable(k)
    ensures ReaderInv(k, Chunks(input, k.size), RReserve, input, 0)
  {
    var all := Chunks(input, k.size);
    assert all[0..] == all;
    assert |all| > 0;
  }

  /** Whatever is to travel, empty queues and idle threads are a beginning. */
  lemma StartEmpty(k: Params, all: seq<bytes>, input: bytes)
    requires Usable(k) && ReaderInv(k, all, RReserve, input, 0)
    ensures Inv(k, all, Start(input))
  {
  }

  lemma StartInv(k: Params, input: bytes)
    requires Usable(k)
    ensures Inv(k, Chunks(input, k.size), Start(input))
  {
    StartReader(k, input);
    StartEmpty(k, Chunks(input, k.size), input);
  }

  lemma ReaderFills(k: Params, all: seq<bytes>, rest: bytes, m: int)
    requires k.size >= 1 && ReaderInv(k, all, RRead, rest, m)
    ensures var buf := Head(rest, k.size);
      ReaderInv(k, all, RHold(buf, |rest| < k.size), rest[|buf|..], m)
  {
    var cs, buf := Chunks(rest, k.size), Head(rest, k.size);
    assert cs == all[m..];
    assert all[m] == cs[0] == buf;
    if |rest| < k.size {
      assert |cs| == 1;
    } else {
      assert cs == [rest[..k.size]] + Chunks(rest[k.size..], k.size);
      assert all[m + 1..] == cs[1..];
    }
  }

  lemma ReaderPuts(k: Params, all: seq<bytes>, r: Reader, rest: bytes, q: seq<Option<bytes>>, t: int)
    requires Usable(k) && ReaderSide(k, all, r, rest, q, t)
    ensures r.RHold? ==>
      ReaderSide(k, all, if r.eof then RPill else RReserve, rest, q + [Some(r.buf)], t)
    ensures r == RPill && |q| < k.cap1 ==> ReaderSide(k, all, RDone, rest, q + [None], t)
  {
    if r.RHold? || r == RPill {
      Push(all, q, t);
    }
  }

  lemma ReaderReads(k: Params, all: seq<bytes>, r: Reader, rest: bytes, q: seq<Option<bytes>>, t: int)
    requires Usable(k) && ReaderSide(k, all, r, rest, q, t)
    ensures r == RReserve && |q| < k.cap1 ==> ReaderSide(k, all, RRead, rest, q, t)
    ensures r == RRead ==>
      var buf := Head(rest, k.size);
      ReaderSide(k, all, RHold(buf, |rest| < k.size), rest[|buf|..], q, t)
  {
    if r == RRead {
      ReaderFills(k, all, rest, t + |q|);
    }
  }

  /** Reader steps only help the encoder. */
  lemma EncoderStays(all: seq<bytes>, e: Encoding, nextNum: nat, peeked: bool, allRead: bool, p: bool, a: bool)
    requires EncoderInv(all, e, nextNum, peeked, allRead) && (peeked ==> p) && (allRead ==> a)
    ensures EncoderInv(all, e, nextNum, p, a)
  {
  }

  /** A reader step concerns the reader's side only. */
  lemma ReaderFrame(k: Params, all: seq<bytes>, x: State, y: State)
    requires Usable(k) && Inv(k, all, x) && x.r != RDone && (x.toEnc != [] ==> y.toEnc != [])
    requires y == x.(r := y.r, rest := y.rest, toEnc := y.toEnc)
    requires ReaderSide(k, all, y.r, y.rest, y.toEnc, Taken1(x.e, x.nextNum))
    ensures Inv(k, all, y)
  {
    EncoderStays(all, x.e, x.nextNum, x.toEnc != [], false, y.toEnc != [], y.r == RDone);
  }

  lemma ReaderKeeps(k: Params, all: seq<bytes>, x: State)
    requires Usable(k) && Inv(k, all, x) && ReaderStep(k, x).Some?
    ensures Inv(k, all, ReaderStep(k, x).value)
  {
    var y, t := ReaderStep(k, x).value, Taken1(x.e, x.nextNum);
    assert ReaderSide(k, all, y.r, y.rest, y.toEnc, t) by {
      ReaderReads(k, all, x.r, x.rest, x.toEnc, t);
      ReaderPuts(k, all, x.r, x.rest, x.toEnc, t);
    }
    ReaderFrame(k, all, x, y);
  }

  lemma ReaderTaken(k: Params, all: seq<bytes>, r: Reader, rest: bytes, q: seq<Option<bytes>>, t: int)
    requires Usable(k) && ReaderSide(k, all, r, rest, q, t) && q != []
    ensures q[0] == Item(all, t) && ReaderSide(k, all, r, rest, q[1..], t + 1)
    ensures q[0].None? ==> t == |all| && r == RDone
  {
    Pop(all, q, t);
  }

  /** Peeking finds the next chunk, or the pill once all chunks are encoded. */
  lemma Peeked(all: seq<bytes>, nextNum: nat, allRead: bool, item: Option<bytes>)
    requires nextNum <= |all| && item == Item(all, nextNum) && (item.None? ==> allRead)
    ensures item.None? ==> EncoderInv(all, EPill, nextNum, true, allRead)
    ensures item.Some? ==> EncoderInv(all, ESend(Numbered(nextNum, item.value)), nextNum + 1, true, allRead)
  {
  }

  /** An encoder step leaves the other threads where they are. */
  lemma EncoderFrame(k: Params, all: seq<bytes>, x: State, y: State)
    requires Usable(k) && Inv(k, all, x)
    requires y == x.(e := y.e, nextNum := y.nextNum, toEnc := y.toEnc, toNet := y.toNet)
    requires ReaderSide(k, all, x.r, x.rest, y.toEnc, Taken1(y.e, y.nextNum))
    requires EncoderInv(all, y.e, y.nextNum, y.toEnc != [], x.r == RDone)
    requires NetSide(k, all, y.toNet, Taken2(x.s, |x.sent|, |all|), Put2(y.e, y.nextNum, |all|))
    ensures Inv(k, all, y)
  {
  }

  lemma EncoderPeeks(k: Params, all: seq<bytes>, x: State)
    requires Usable(k) && Inv(k, all, x) && x.e == EPeek && x.toEnc != []
    ensures Inv(k, all, EncoderStep(k, x).value)
  {
    var y := EncoderStep(k, x).value;
    ReaderTaken(k, all, x.r, x.rest, x.toEnc, x.nextNum);
    Peeked(all, x.nextNum, x.r == RDone, x.toEnc[0]);
    assert Taken1(y.e, y.nextNum) == x.nextNum && Put2(y.e, y.nextNum, |all|) == x.nextNum;
    EncoderFrame(k, all, x, y);
  }

  lemma EncoderAcks(k: Params, all: seq<bytes>, x: State)
    requires Usable(k) && Inv(k, all, x) && x.e == EAck && x.toEnc != []
    ensures Inv(k, all, EncoderStep(k, x).value)
  {
    ReaderTaken(k, all, x.r, x.rest, x.toEnc, x.nextNum - 1);
    EncoderFrame(k, all, x, EncoderStep(k, x).value);
  }

  lemma NetPut(k: Params, all: seq<bytes>, q: seq<Option<Numbered>>, t: int, p: int)
    requires NetSide(k, all, q, t, p) && |q| < k.cap2 && p <= |all|
    ensures NetSide(k, all, q + [Item(Numbering(all), p)], t, p + 1)
  {
    Push(Numbering(all), q, t);
  }

  lemma EncoderPushes(k: Params, all: seq<bytes>, x: State)
    requires Usable(k) && Inv(k, all, x) && EncoderStep(k, x).Some? && (x.e.ESend? || x.e == EPill)
    ensures Inv(k, all, EncoderStep(k, x).value)
  {
    NetPut(k, all, x.toNet, Taken2(x.s, |x.sent|, |all|), Put2(x.e, x.nextNum, |all|));
    EncoderFrame(k, all, x, EncoderStep(k, x).value);
  }

  lemma EncoderKeeps(k: Params, all: seq<bytes>, x: State)
    requires Usable(k) && Inv(k, all, x) && EncoderStep(k, x).Some?
    ensures Inv(k, all, EncoderStep(k, x).value)
  {
    if x.e == EPeek {
      EncoderPeeks(k, all, x);
    } else if x.e == EAck {
      EncoderAcks(k, all, x);
    } else {
      EncoderPushes(k, all, x);
    }
  }

  lemma NetTaken(k: Params, all: seq<bytes>, q: seq<Option<Numbered>>, t: int, p: int)
    requires NetSide(k, all, q, t, p) && q != []
    ensures q[0] == Item(Numbering(all), t) && NetSide(k, all, q[1..], t + 1, p)
  {
    Pop(Numbering(all), q, t);
  }

  lemma SenderTakes(k: Params, all: seq<bytes>, x: State)
    requires Usable(k) && Inv(k, all, x) && x.s == SRecv && x.toNet != []
    ensures Inv(k, all, SenderStep(x).value)
  {
    NetTaken(k, all, x.toNet, |x.sent|, Put2(x.e, x.nextNum, |all|));
  }

  lemma SenderEmits(k: Params, all: seq<bytes>, x: State)
    requires Usable(k) && Inv(k, all, x) && x.s.SEmit?
    ensures Inv(k, all, SenderStep(x).value)
  {
    var y := SenderStep(x).value;
    assert SenderInv(all, y.s, y.sent);
  }

  lemma NextKeeps(k: Params, all: seq<bytes>, x: State, t: Thread)
    requires Usable(k) && Inv(k, all, x) && Next(k, x, t).Some?
    ensures Inv(k, all, Next(k, x, t).value)
  {
    match t
    case ReaderThread => ReaderKeeps(k, all, x);
    case EncoderThread => EncoderKeeps(k, all, x);
    case SenderThread => if x.s == SRecv { SenderTakes(k, all, x); } else { SenderEmits(k, all, x); }
  }

  // ---- Progress ----

  function ReaderLeft(r: Reader, put: int, n: nat): int {
    match r
    case RReserve => 3 * (n - put) + 1
    case RRead => 3 * (n - put)
    case RHold(_, _) => 3 * (n - put) - 1
    case RPill => 1
    case RDone => 0
  }

  function EncoderLeft(e: Encoding, nextNum: nat, n: nat): int {
    match e
    case EPeek => 3 * (n - nextNum) + 2
    case ESend(_) => 3 * (n - nextNum) + 4
    case EAck => 3 * (n - nextNum) + 3
    case EPill => 1
    case EDone => 0
  }

  function SenderLeft(s: Sending, sent: nat, n: nat): int {
    match s
    case SRecv => 2 * (n - sent) + 1
    case SEmit(_) => 2 * (n - sent)
    case SDone => 0
  }

  /** The steps that remain: every step of every thread uses up exactly one. */
  function Left(x: State, n: nat): int {
    ReaderLeft(x.r, Put1(x), n) + EncoderLeft(x.e, x.nextNum, n) + SenderLeft(x.s, |x.sent|, n)
  }

  lemma ReaderUsesOne(k: Params, all: seq<bytes>, x: State)
    requires Usable(k) && Inv(k, all, x) && ReaderStep(k, x).Some?
    ensures Left(ReaderStep(k, x).value, |all|) == Left(x, |all|) - 1
  {
    var y := ReaderStep(k, x).value;
    assert ReaderInv(k, all, x.r, x.rest, Put1(x));
    assert ReaderLeft(y.r, Put1(y), |all|) == ReaderLeft(x.r, Put1(x), |all|) - 1;
  }

  lemma EncoderUsesOne(k: Params, all: seq<bytes>, x: State)
    requires Usable(k) && Inv(k, all, x) && EncoderStep(k, x).Some?
    ensures Left(EncoderStep(k, x).value, |all|) == Left(x, |all|) - 1
  {
    var y := EncoderStep(k, x).value;
    if x.e == EPeek {
      ReaderTaken(k, all, x.r, x.rest, x.toEnc, x.nextNum);
    }
    assert Put1(y) == Put1(x);
    assert EncoderLeft(y.e, y.nextNum, |all|) == EncoderLeft(x.e, x.nextNum, |all|) - 1;
  }

  lemma SenderUsesOne(k: Params, all: seq<bytes>, x: State)
    requires Usable(k) && Inv(k, all, x) && SenderStep(x).Some?
    ensures Left(SenderStep(x).value, |all|) == Left(x, |all|) - 1
  {
    var y := SenderStep(x).value;
    if x.s == SRecv {
      NetTaken(k, all, x.toNet, |x.sent|, Put2(x.e, x.nextNum, |all|));
    }
    assert SenderLeft(y.s, |y.sent|, |all|) == SenderLeft(x.s, |x.sent|, |all|) - 1;
  }

  lemma StepsLeft(k: Params, all: seq<bytes>, x: State, t: Thread)
    requires Usable(k) && Inv(k, all, x) && Next(k, x, t).Some?
    ensures Left(Next(k, x, t).value, |all|) == Left(x, |all|) - 1
  {
    match t
    case ReaderThread => ReaderUsesOne(k, all, x);
    case EncoderThread => EncoderUsesOne(k, all, x);
    case SenderThread => SenderUsesOne(k, all, x);
  }

  lemma LeftNonNegative(k: Params, all: seq<bytes>, x: State)
    requires Usable(k) && Inv(k, all, x)
    ensures Left(x, |all|) >= 0
  {
  }

  /** Who waits for what: for room only when a queue is at its full capacity, for an
      element only when it is empty. */
  lemma WaitsExactly(k: Params, all: seq<bytes>, x: State)
    requires Usable(k) && Inv(k, all, x)
    ensures Next(k, x, ReaderThread).None? <==>
      x.r == RDone || ((x.r == RReserve || x.r == RPill) && |x.toEnc| == k.cap1)
    ensures Next(k, x, EncoderThread).None? <==>
      x.e == EDone || (x.e == EPeek && x.toEnc == []) || ((x.e.ESend? || x.e == EPill) && |x.toNet| == k.cap2)
    ensures Next(k, x, SenderThread).None? <==> x.s == SDone || (x.s == SRecv && x.toNet == [])
  {
  }

  /** As long as some thread is unfinished, some thread can move. */
  lemma NeverStuck(k: Params, all: seq<bytes>, x: State)
    requires Usable(k) && Inv(k, all, x) && !Finished(x)
    ensures exists t :: Next(k, x, t).Some?
  {
    if x.s.SEmit? || (x.s == SRecv && x.toNet != []) {
      assert Next(k, x, SenderThread).Some?;
    } else if x.toNet == [] && x.e != EDone && (x.e != EPeek || x.toEnc != []) {
      assert Next(k, x, EncoderThread).Some?;
    } else {
      assert Next(k, x, ReaderThread).Some?;
    }
  }

  // ---- Runs ----

  function NextOf(k: Params): Runs.StepFn<State, Thread> { (x, t) => Next(k, x, t) }

  /** The state after an interleaving, if every step was possible. */
  function Run(k: Params, x: State, ts: seq<Thread>): Option<State> { Runs.Run(NextOf(k), x, ts) }

  ghost predicate Finishes(k: Params, x: State, ts: seq<Thread>) { Runs.Finishes(NextOf(k), Finished, x, ts) }

  ghost function InvOf(k: Params, all: seq<bytes>): State -> bool
    requires Usable(k)
  {
    x => Inv(k, all, x)
  }

  function LeftOf(n: nat): State -> int { x => Left(x, n) }

  lemma StepsDecrease(k: Params, all: seq<bytes>)
    requires Usable(k)
    ensures Runs.Decreasing(NextOf(k), InvOf(k, all), LeftOf(|all|))
  {
    forall x | Inv(k, all, x)
      ensures Left(x, |all|) >= 0
    {
      LeftNonNegative(k, all, x);
    }
    forall x, t | Inv(k, all, x) && Next(k, x, t).Some?
      ensures Inv(k, all, Next(k, x, t).value) && Left(Next(k, x, t).value, |all|) < Left(x, |all|)
    {
      NextKeeps(k, all, x, t);
      StepsLeft(k, all, x, t);
    }
  }

  lemma RunFromStart(k: Params, input: bytes, ts: seq<Thread>)
    requires Usable(k) && Run(k, Start(input), ts).Some?
    ensures Inv(k, Chunks(input, k.size), Run(k, Start(input), ts).value)
    ensures |ts| <= 8 * |Chunks(input, k.size)| + 4
  {
    var all := Chunks(input, k.size);
    StartInv(k, input);
    StepsDecrease(k, all);
    Runs.RunKeeps(NextOf(k), InvOf(k, all), LeftOf(|all|), Start(input), ts);
    LeftNonNegative(k, all, Run(k, Start(input), ts).value);
  }

  /** In a reachable state nothing can move exactly when all have finished, and
      then everything has been sent. */
  lemma Endings(k: Params, all: seq<bytes>, x: State)
    requires Usable(k) && Inv(k, all, x)
    ensures Finished(x) <==> forall t :: Next(k, x, t).None?
    ensures Finished(x) ==> x.sent == Numbering(all) && x.rest == [] && x.toNet == []
  {
    if !Finished(x) {
      NeverStuck(k, all, x);
    }
  }

  /** Every interleaving is finite and ends only with all three threads finished;
      then all chunks of the input have been sent once each, in order, numbered
      0, 1, 2, ..., the pill being taken last. */
  lemma SenderProgress(k: Params, input: bytes, ts: seq<Thread>)
    requires Usable(k) && Run(k, Start(input), ts).Some?
    ensures var x := Run(k, Start(input), ts).value;
      && |ts| <= 8 * |Chunks(input, k.size)| + 4
      && (Finished(x) <==> forall t :: Next(k, x, t).None?)
      && (Finished(x) ==> x.sent == Numbering(Chunks(input, k.size)) && x.rest == [] && x.toNet == [])
  {
    RunFromStart(k, input, ts);
    Endings(k, Chunks(input, k.size), Run(k, Start(input), ts).value);
  }

  lemma Stops(k: Params, all: seq<bytes>, x: State)
    requires Usable(k) && Inv(k, all, x) && Runs.Ended(NextOf(k), x)
    ensures Finished(x)
  {
    forall t
      ensures Next(k, x, t).None?
    {
      assert NextOf(k)(x, t).None?;
    }
    Endings(k, all, x);
  }

  /** Every interleaving can be continued to one in which all threads finish. */
  lemma SenderFinishes(k: Params, input: bytes, ts: seq<Thread>)
    requires Usable(k) && Run(k, Start(input), ts).Some?
    ensures exists more :: Finishes(k, Start(input), ts + more)
  {
    var all := Chunks(input, k.size);
    StartInv(k, input);
    StepsDecrease(k, all);
    forall x | Inv(k, all, x) && Runs.Ended(NextOf(k), x)
      ensures Finished(x)
    {
      Stops(k, all, x);
    }
    Runs.CanFinish(NextOf(k), InvOf(k, all), LeftOf(|all|), Finished, Start(input), ts);
    var more :| Runs.Finishes(NextOf(k), Finished, Start(input), ts + more);
    assert Finishes(k, Start(input), ts + more);
  }

  // ---- Conservation ----

  function Datas(ns: seq<Numbered>): (ds: seq<bytes>)
    ensures |ds| == |ns| && forall i :: 0 <= i < |ns| ==> ds[i] == ns[i].data
  {
    seq(|ns|, i requires 0 <= i < |ns| => ns[i].data)
  }

  /** The buffer that the encoder has peeked stays on its queue until it is
      acknowledged; it is counted with the encoder. */
  function Unpeeked(e: Encoding, q: seq<Option<bytes>>): seq<Option<bytes>> {
    if (e.ESend? || e == EAck) && q != [] then q[1..] else q
  }

  /** Chunks with the sender, oldest first: sent, and in its hands. */
  function AtSender(s: Sending, sent: seq<Numbered>): seq<bytes> {
    Datas(sent) + if s.SEmit? then [s.chunk.data] else []
  }

  function AtEncoder(e: Encoding): seq<bytes> { if e.ESend? then [e.chunk.data] else [] }

  function AtReader(r: Reader): seq<bytes> { if r.RHold? then [r.buf] else [] }

  /** The chunks in the pipeline, oldest first. */
  function InFlight(x: State): seq<bytes> {
    AtSender(x.s, x.sent) + Datas(Waiting(x.toNet)) + AtEncoder(x.e)
    + Waiting(Unpeeked(x.e, x.toEnc)) + AtReader(x.r)
  }

  /** How many chunks have been read. */
  function ReadSoFar(r: Reader, put: int, n: nat): int {
    if r == RDone then n else if r.RHold? then put + 1 else put
  }

  lemma SenderHas(all: seq<bytes>, s: Sending, sent: seq<Numbered>)
    requires SenderInv(all, s, sent)
    ensures AtSender(s, sent) == all[..Upto(Taken2(s, |sent|, |all|), |all|)]
  {
  }

  lemma DatasOfNumbering(all: seq<bytes>, i: nat, j: nat)
    requires i <= j <= |all|
    ensures Datas(Numbering(all)[i..j]) == all[i..j]
  {
  }

  lemma NetHas(k: Params, all: seq<bytes>, q: seq<Option<Numbered>>, t: nat, p: int)
    requires NetSide(k, all, q, t, p)
    ensures all[..Upto(t, |all|)] + Datas(Waiting(q)) == all[..Upto(p, |all|)]
  {
    WaitingWindow(Numbering(all), q, t);
    if t <= |all| {
      var j := Upto(p, |all|);
      DatasOfNumbering(all, t, j);
      assert all[..t] + all[t..j] == all[..j];
    }
  }

  lemma EncoderAdds(
      all: seq<bytes>, e: Encoding, nextNum: nat, peeked: bool, allRead: bool, before: seq<bytes>)
    requires EncoderInv(all, e, nextNum, peeked, allRead)
    requires before == all[..Upto(Put2(e, nextNum, |all|), |all|)]
    ensures before + AtEncoder(e) == all[..nextNum]
  {
    if e.ESend? {
      assert all[..nextNum - 1] + [all[nextNum - 1]] == all[..nextNum];
    }
  }

  lemma EncoderHas(k: Params, all: seq<bytes>, x: State)
    requires Usable(k) && Inv(k, all, x)
    ensures AtSender(x.s, x.sent) + Datas(Waiting(x.toNet)) + AtEncoder(x.e) == all[..x.nextNum]
  {
    SenderHas(all, x.s, x.sent);
    NetHas(k, all, x.toNet, Taken2(x.s, |x.sent|, |all|), Put2(x.e, x.nextNum, |all|));
    EncoderAdds(all, x.e, x.nextNum, x.toEnc != [], x.r == RDone,
      AtSender(x.s, x.sent) + Datas(Waiting(x.toNet)));
  }

  lemma ReaderAdds(k: Params, all: seq<bytes>, r: Reader, rest: bytes, queued: seq<bytes>, t: nat, m: nat)
    requires Usable(k) && ReaderInv(k, all, r, rest, m) && t <= m && t <= |all|
    requires queued == all[t..Upto(m, |all|)]
    ensures t <= ReadSoFar(r, m, |all|) <= |all|
    ensures queued + AtReader(r) == all[t..ReadSoFar(r, m, |all|)]
  {
    if r.RHold? {
      assert all[t..m] + [all[m]] == all[t..m + 1];
    }
  }

  lemma QueueHas(k: Params, all: seq<bytes>, r: Reader, rest: bytes, q: seq<Option<bytes>>, t: nat, m: nat)
    requires Usable(k) && ReaderSide(k, all, r, rest, q, t) && t <= |all| && m == t + |q|
    ensures Waiting(q) == all[t..Upto(m, |all|)]
    ensures ReaderInv(k, all, r, rest, m)
  {
    WaitingWindow(all, q, t);
  }

  lemma UnpeekedSide(k: Params, all: seq<bytes>, x: State)
    requires Usable(k) && Inv(k, all, x)
    ensures ReaderSide(k, all, x.r, x.rest, Unpeeked(x.e, x.toEnc), x.nextNum)
    ensures x.nextNum + |Unpeeked(x.e, x.toEnc)| == Put1(x) && x.nextNum <= |all|
  {
    if x.e.ESend? || x.e == EAck {
      ReaderTaken(k, all, x.r, x.rest, x.toEnc, x.nextNum - 1);
    }
  }

  lemma UnreadTail(k: Params, all: seq<bytes>, r: Reader, rest: bytes, m: int)
    requires Usable(k) && ReaderInv(k, all, r, rest, m)
    ensures 0 <= ReadSoFar(r, m, |all|) <= |all|
    ensures Concat(all[ReadSoFar(r, m, |all|)..]) == rest
  {
    if r == RReserve || r == RRead || (r.RHold? && !r.eof) {
      ChunksPartition(rest, k.size);
    }
  }

  lemma Glue(all: seq<bytes>, a: seq<bytes>, b: seq<bytes>, c: seq<bytes>, i: nat, j: nat)
    requires i <= j <= |all| && a == all[..i] && b + c == all[i..j]
    ensures a + b + c == all[..j]
  {
    assert a + b + c == a + (b + c);
  }

  lemma ReaderHas(k: Params, all: seq<bytes>, x: State)
    requires Usable(k) && Inv(k, all, x)
    ensures x.nextNum <= ReadSoFar(x.r, Put1(x), |all|) <= |all|
    ensures Waiting(Unpeeked(x.e, x.toEnc)) + AtReader(x.r) == all[x.nextNum..ReadSoFar(x.r, Put1(x), |all|)]
  {
    var q := Unpeeked(x.e, x.toEnc);
    UnpeekedSide(k, all, x);
    QueueHas(k, all, x.r, x.rest, q, x.nextNum, Put1(x));
    ReaderAdds(k, all, x.r, x.rest, Waiting(q), x.nextNum, Put1(x));
  }

  lemma InFlightIsPrefix(k: Params, all: seq<bytes>, x: State)
    requires Usable(k) && Inv(k, all, x)
    ensures 0 <= ReadSoFar(x.r, Put1(x), |all|) <= |all|
    ensures InFlight(x) == all[..ReadSoFar(x.r, Put1(x), |all|)]
  {
    EncoderHas(k, all, x);
    ReaderHas(k, all, x);
    Glue(all, AtSender(x.s, x.sent) + Datas(Waiting(x.toNet)) + AtEncoder(x.e),
      Waiting(Unpeeked(x.e, x.toEnc)), AtReader(x.r), x.nextNum, ReadSoFar(x.r, Put1(x), |all|));
  }

  lemma ConcatSplit(all: seq<bytes>, p: nat)
    requires p <= |all|
    ensures Concat(all[..p]) + Concat(all[p..]) == Concat(all)
  {
    assert all == all[..p] + all[p..];
    ConcatAppend(all[..p], all[p..]);
  }

  lemma Conserved(k: Params, all: seq<bytes>, x: State)
    requires Usable(k) && Inv(k, all, x)
    ensures Concat(InFlight(x)) + x.rest == Concat(all)
  {
    InFlightIsPrefix(k, all, x);
    UnreadTail(k, all, x.r, x.rest, Put1(x));
    ConcatSplit(all, ReadSoFar(x.r, Put1(x), |all|));
  }

  /** In every interleaving the chunks in the pipeline and the unread input
      concatenate to the original input: nothing is lost, repeated or reordered. */
  lemma SenderConservation(k: Params, input: bytes, ts: seq<Thread>)
    requires Usable(k) && Run(k, Start(input), ts).Some?
    ensures var x := Run(k, Start(input), ts).value;
      Concat(InFlight(x)) + x.rest == input
  {
    RunFromStart(k, input, ts);
    Conserved(k, Chunks(input, k.size), Run(k, Start(input), ts).value);
    ChunksPartition(input, k.size);
  }
}
