/** The three threads of hgap_receive over two bounded queues: net reader,
    decoder and writer. The last element on each queue is a poison pill (None).
    After a decoding error the decoder poisons the first channel; a net reader
    that then asks for a slot makes the whole process exit. */
module ReceivePipeline {
  import opened Wire
  import opened Config
  import opened Erasure
  import opened Chunk
  import opened Chunking
  import opened Queues
  import Runs
  import opened Stream
  import opened Decoder
  import opened Session
  import opened Delivery

  /** hgapr_net_reader: waiting for a slot, in recvfrom, about to send what it has
      put in its slot (None for the pill), past the poison check of that send,
      waiting for the pill's slot, finished, finished without a pill. */
  datatype Net =
    | NReserve | NRecv | NHold(item: Option<bytes>) | NSend(item: Option<bytes>) | NPill | NDone | NGaveUp

  /** decloop: waiting to peek, having read a packet that is still to be
      acknowledged, sending a block on, about to poison the first channel, about to
      send the pill, finished. */
  datatype Dec =
    | DPeek | DAck(block: Option<bytes>, end: Option<Stop>) | DSend(out: bytes)
    | DPoison(stop: Stop) | DStopping(stop: Stop) | DDone(stop: Stop)

  datatype Writing = WRecv | WWrite(block: bytes) | WDone

  /** poisoned: the first channel is; exited: the process has called exit. */
  datatype State = State(
    rest: seq<bytes>, n: Net, toDec: seq<Option<bytes>>, poisoned: bool,
    d: Dec, dec: DecState, read: nat, toOut: seq<Option<bytes>>,
    w: Writing, written: seq<bytes>, exited: bool)

  /** The decoder's turn and the two channel capacities. */
  datatype Params = Params(turn: TurnFn, cap1: nat, cap2: nat)

  predicate Usable(k: Params) { k.cap1 >= 1 && k.cap2 >= 1 }

  function Start(trace: seq<bytes>): State {
    State(trace, NReserve, [], false, DPeek, FRESH, 0, [], WRecv, [], false)
  }

  function AfterSend(item: Option<bytes>): Net {
    if item.None? then NDone else if TypeOf(item.value) == End then NPill else NReserve
  }

  function NetStep(k: Params, x: State): Option<State> {
    match x.n
    case NReserve =>
      if x.poisoned then Some(x.(exited := true))
      else if |x.toDec| < k.cap1 then Some(x.(n := NRecv))
      else None
    case NRecv =>
      Some(if x.rest == [] then x.(n := NPill) else x.(n := NHold(Some(x.rest[0])), rest := x.rest[1..]))
    case NHold(item) =>
      Some(x.(n := if !x.poisoned then NSend(item) else if item.Some? then NPill else NGaveUp))
    case NSend(item) => Some(x.(toDec := x.toDec + [item], n := AfterSend(item)))
    case NPill =>
      if x.poisoned then Some(x.(n := NGaveUp))
      else if |x.toDec| < k.cap1 then Some(x.(n := NHold(None)))
      else None
    case NDone => None
    case NGaveUp => None
  }

  /** What decloop does after acknowledging a packet that did not crash it. */
  function AfterAck(b: Option<bytes>, end: Option<Stop>): Dec {
    match end
    case Some(Error(e)) => DPoison(Error(e))
    case Some(stop) => DStopping(stop)
    case None => if b.Some? then DSend(b.value) else DPeek
  }

  function DecStep(k: Params, x: State): Option<State> {
    match x.d
    case DPeek =>
      if x.toDec == [] then None
      else if x.toDec[0].None? then Some(x.(d := DStopping(Pill)))
      else
        var (s, b, end) := k.turn(x.dec, x.toDec[0].value);
        Some(x.(dec := s, d := DAck(b, end)))
    case DAck(b, end) =>
      if x.toDec == [] then None
      else if end == Some(Crash) then Some(x.(exited := true))
      else Some(x.(toDec := x.toDec[1..], read := x.read + 1, d := AfterAck(b, end)))
    case DSend(b) => if |x.toOut| < k.cap2 then Some(x.(toOut := x.toOut + [Some(b)], d := DPeek)) else None
    case DPoison(stop) => Some(x.(poisoned := true, d := DStopping(stop)))
    case DStopping(stop) => if |x.toOut| < k.cap2 then Some(x.(toOut := x.toOut + [None], d := DDone(stop))) else None
    case DDone(_) => None
  }

  function WriterStep(x: State): Option<State> {
    match x.w
    case WRecv =>
      if x.toOut == [] then None
      else Some(x.(toOut := x.toOut[1..], w := if x.toOut[0].None? then WDone else WWrite(x.toOut[0].value)))
    case WWrite(b) => Some(x.(written := x.written + [b], w := WRecv))
    case WDone => None
  }

  datatype Thread = NetThread | DecThread | WriterThread

  function Next(k: Params, x: State, t: Thread): Option<State> {
    if x.exited then None
    else
      match t
      case NetThread => NetStep(k, x)
      case DecThread => DecStep(k, x)
      case WriterThread => WriterStep(x)
  }

  predicate Finished(x: State) { !x.exited && x.n == NDone && x.d.DDone? && x.w == WDone }

  /** The decoder has left its loop. */
  predicate Left(d: Dec) { d.DPoison? || d.DStopping? || d.DDone? }

  // ---- Failure-free packets ----

  /** Decoding these packets raises no error and stops only at an END packet. */
  ghost predicate Clean(turn: TurnFn, s: DecState, pkts: seq<bytes>)
    decreases |pkts|
  {
    pkts != [] ==>
      var (s', _, end) := turn(s, pkts[0]);
      && (end.Some? ==> end == Some(Eot) && TypeOf(pkts[0]) == End)
      && (end.None? ==> Clean(turn, s', pkts[1..]))
  }

  /** What is still to be decoded yields the rest of the outcome. */
  ghost predicate Ahead(turn: TurnFn, s: DecState, pkts: seq<bytes>, o: Outcome, m: int, clean: bool) {
    && 0 <= m <= |o.blocks|
    && (clean ==> Clean(turn, s, pkts))
    && Loop(turn, s, pkts) == Outcome(o.blocks[m..], o.stop)
  }

  /** A packet at which the loop ends. */
  ghost predicate EndsAt(end: Stop, pkt: bytes, o: Outcome, m: int, clean: bool) {
    end == o.stop && m == |o.blocks| && (clean ==> end == Eot && TypeOf(pkt) == End)
  }

  /** What one packet does to what is ahead. */
  ghost predicate TurnAhead(
      turn: TurnFn, s: DecState, b: Option<bytes>, end: Option<Stop>,
      pkt: bytes, later: seq<bytes>, o: Outcome, m: int, clean: bool)
  {
    if end.Some? then EndsAt(end.value, pkt, o, m, clean)
    else if b.Some? then 0 <= m < |o.blocks| && o.blocks[m] == b.value && Ahead(turn, s, later, o, m + 1, clean)
    else Ahead(turn, s, later, o, m, clean)
  }

  lemma AheadTurn(turn: TurnFn, s: DecState, pkts: seq<bytes>, o: Outcome, m: int, clean: bool)
    requires Ahead(turn, s, pkts, o, m, clean) && pkts != []
    ensures var (s', b, end) := turn(s, pkts[0]);
      TurnAhead(turn, s', b, end, pkts[0], pkts[1..], o, m, clean)
  {
    var (s', b, end) := turn(s, pkts[0]);
    var tail := o.blocks[m..];
    if end.None? {
      var later := Loop(turn, s', pkts[1..]);
      if b.Some? {
        assert tail == [b.value] + later.blocks;
        assert o.blocks[m + 1..] == tail[1..] == later.blocks;
      }
    }
  }

  // ---- Invariant ----

  /** How many elements the writer has taken from the second queue. */
  function Taken2(w: Writing, written: nat, b: nat): int {
    match w case WRecv => written case WWrite(_) => written + 1 case WDone => b + 1
  }

  function Put1(x: State): int { x.read + |x.toDec| }

  function Put2(x: State, o: Outcome): int { Taken2(x.w, |x.written|, |o.blocks|) + |x.toOut| }

  /** The net reader holds the m-th of what it forwards, the rest comes after. */
  ghost predicate Holds(fw: seq<bytes>, item: Option<bytes>, rest: seq<bytes>, m: int) {
    && 0 <= m <= |fw| && item == Item(fw, m)
    && (item.Some? && TypeOf(item.value) == End ==> m + 1 == |fw|)
    && (item.Some? && TypeOf(item.value) != End ==> fw[m + 1..] == Forwarded(rest))
  }

  ghost predicate NetInv(fw: seq<bytes>, n: Net, rest: seq<bytes>, m: int, poisoned: bool) {
    && 0 <= m
    && match n
       case NReserve => m <= |fw| && fw[m..] == Forwarded(rest)
       case NRecv => m <= |fw| && fw[m..] == Forwarded(rest)
       case NHold(item) => Holds(fw, item, rest, m)
       case NSend(item) => Holds(fw, item, rest, m)
       case NPill => m <= |fw| && (poisoned || m == |fw|)
       case NDone => m == |fw| + 1
       case NGaveUp => m <= |fw| && poisoned
  }

  /** The net reader and the first queue, from which t elements have been taken. */
  ghost predicate NetSide(
      k: Params, fw: seq<bytes>, n: Net, rest: seq<bytes>, q: seq<Option<bytes>>, t: int, poisoned: bool)
  {
    && |q| <= k.cap1 && (n == NRecv || n.NHold? || n.NSend? ==> |q| < k.cap1)
    && Window(fw, q, t)
    && NetInv(fw, n, rest, t + |q|, poisoned)
  }

  /** The decoder, having taken `read` packets and put m elements on the second queue. */
  ghost predicate DecInv(
      turn: TurnFn, fw: seq<bytes>, o: Outcome, d: Dec, dec: DecState,
      read: nat, peeked: bool, m: int, clean: bool)
  {
    && read <= |fw|
    && match d
       case DPeek => Ahead(turn, dec, fw[read..], o, m, clean)
       case DAck(b, end) =>
         read < |fw| && peeked && TurnAhead(turn, dec, b, end, fw[read], fw[read + 1..], o, m, clean)
       case DSend(b) => 0 <= m < |o.blocks| && o.blocks[m] == b && Ahead(turn, dec, fw[read..], o, m + 1, clean)
       case DPoison(stop) => stop == o.stop && stop.Error? && m == |o.blocks| && !clean
       case DStopping(stop) => stop == o.stop && m == |o.blocks| && (clean ==> read == |fw|)
       case DDone(stop) => stop == o.stop && m == |o.blocks| + 1 && (clean ==> read == |fw|)
  }

  /** The second queue, from which t elements have been taken. */
  ghost predicate OutSide(k: Params, o: Outcome, q: seq<Option<bytes>>, t: int) {
    |q| <= k.cap2 && Window(o.blocks, q, t)
  }

  ghost predicate WriterInv(o: Outcome, w: Writing, written: seq<bytes>) {
    && written <= o.blocks
    && (w.WWrite? ==> |written| < |o.blocks| && w.block == o.blocks[|written|])
    && (w == WDone ==> written == o.blocks)
  }

  /** A stop that poisons the first channel or crashes the process. */
  predicate Fatal(stop: Stop) { stop.Error? || stop == Crash }

  /** What it means that the first channel is poisoned or the process has exited. */
  ghost predicate PoisonInv(o: Outcome, d: Dec, poisoned: bool, exited: bool, clean: bool) {
    && (poisoned || exited ==> Fatal(o.stop) && !clean)
    && (poisoned ==> d.DStopping? || d.DDone?)
  }

  /** What every step keeps; `clean` adds what failure-free packets guarantee. */
  ghost predicate Inv(k: Params, fw: seq<bytes>, o: Outcome, x: State, clean: bool) {
    && NetSide(k, fw, x.n, x.rest, x.toDec, x.read, x.poisoned)
    && DecInv(k.turn, fw, o, x.d, x.dec, x.read, x.toDec != [], Put2(x, o), clean)
    && OutSide(k, o, x.toOut, Taken2(x.w, |x.written|, |o.blocks|))
    && WriterInv(o, x.w, x.written)
    && PoisonInv(o, x.d, x.poisoned, x.exited, clean)
  }

  /** END is forwarded last, if at all. */
  ghost predicate EndLast(fw: seq<bytes>) {
    forall i :: 0 <= i < |fw| - 1 ==> TypeOf(fw[i]) != End
  }

  lemma {:induction false} ForwardedEndLast(trace: seq<bytes>)
    ensures EndLast(Forwarded(trace))
  {
    if trace != [] && TypeOf(trace[0]) != End {
      ForwardedEndLast(trace[1..]);
    }
  }

  lemma StartInv(k: Params, trace: seq<bytes>, clean: bool)
    requires Usable(k) && (clean ==> Clean(k.turn, FRESH, Forwarded(trace)))
    ensures Inv(k, Forwarded(trace), Loop(k.turn, FRESH, Forwarded(trace)), Start(trace), clean)
  {
    var fw, o := Forwarded(trace), Loop(k.turn, FRESH, Forwarded(trace));
    assert fw[0..] == fw && o.blocks[0..] == o.blocks;
  }

  // ---- The net reader's steps ----

  lemma NetReceives(fw: seq<bytes>, rest: seq<bytes>, m: int, poisoned: bool)
    requires NetInv(fw, NRecv, rest, m, poisoned)
    ensures rest == [] ==> NetInv(fw, NPill, rest, m, poisoned)
    ensures rest != [] ==> NetInv(fw, NHold(Some(rest[0])), rest[1..], m, poisoned)
  {
    if rest != [] {
      var tail := Forwarded(rest);
      assert tail == fw[m..];
      assert fw[m] == tail[0] == rest[0];
      if TypeOf(rest[0]) == End {
        assert |tail| == 1;
      } else {
        assert fw[m + 1..] == tail[1..];
      }
    }
  }

  /** The slot is filled with what was held. */
  lemma NetSends(
      k: Params, fw: seq<bytes>, item: Option<bytes>, rest: seq<bytes>, q: seq<Option<bytes>>, t: int, p: bool)
    requires NetSide(k, fw, NSend(item), rest, q, t, p)
    ensures NetSide(k, fw, AfterSend(item), rest, q + [item], t, p)
  {
    Push(fw, q, t);
  }

  /** Steps that leave the queue alone, without the poison and with it. */
  lemma NetMoves(k: Params, fw: seq<bytes>, n: Net, rest: seq<bytes>, q: seq<Option<bytes>>, t: int, p: bool)
    requires NetSide(k, fw, n, rest, q, t, p)
    ensures n == NReserve && |q| < k.cap1 ==> NetSide(k, fw, NRecv, rest, q, t, p)
    ensures n == NRecv && rest == [] ==> NetSide(k, fw, NPill, rest, q, t, p)
    ensures n == NRecv && rest != [] ==> NetSide(k, fw, NHold(Some(rest[0])), rest[1..], q, t, p)
    ensures n.NHold? ==> NetSide(k, fw, NSend(n.item), rest, q, t, p)
    ensures n == NPill && !p && |q| < k.cap1 ==> NetSide(k, fw, NHold(None), rest, q, t, p)
  {
    if n == NRecv {
      NetReceives(fw, rest, t + |q|, p);
    }
  }

  lemma NetGivesUp(k: Params, fw: seq<bytes>, n: Net, rest: seq<bytes>, q: seq<Option<bytes>>, t: int)
    requires NetSide(k, fw, n, rest, q, t, true)
    ensures n.NHold? ==> NetSide(k, fw, NPill, rest, q, t, true) && NetSide(k, fw, NGaveUp, rest, q, t, true)
    ensures n == NPill ==> NetSide(k, fw, NGaveUp, rest, q, t, true)
  {
  }

  /** A net reader's step helps the decoder, if anything. */
  lemma DecStays(
      turn: TurnFn, fw: seq<bytes>, o: Outcome, d: Dec, dec: DecState,
      read: nat, peeked: bool, more: bool, m: int, clean: bool)
    requires DecInv(turn, fw, o, d, dec, read, peeked, m, clean) && (peeked ==> more)
    ensures DecInv(turn, fw, o, d, dec, read, more, m, clean)
  {
  }

  lemma NetFrame(k: Params, fw: seq<bytes>, o: Outcome, x: State, y: State, clean: bool)
    requires Inv(k, fw, o, x, clean) && (x.toDec != [] ==> y.toDec != []) && (y.exited ==> Fatal(o.stop) && !clean)
    requires y == x.(n := y.n, rest := y.rest, toDec := y.toDec, exited := y.exited)
    requires NetSide(k, fw, y.n, y.rest, y.toDec, x.read, x.poisoned)
    ensures Inv(k, fw, o, y, clean)
  {
    DecStays(k.turn, fw, o, x.d, x.dec, x.read, x.toDec != [], y.toDec != [], Put2(x, o), clean);
  }

  lemma NetKeeps(k: Params, fw: seq<bytes>, o: Outcome, x: State, clean: bool)
    requires Inv(k, fw, o, x, clean) && NetStep(k, x).Some?
    ensures Inv(k, fw, o, NetStep(k, x).value, clean)
  {
    var y := NetStep(k, x).value;
    assert NetSide(k, fw, y.n, y.rest, y.toDec, x.read, x.poisoned) by {
      NetMoves(k, fw, x.n, x.rest, x.toDec, x.read, x.poisoned);
      if x.poisoned { NetGivesUp(k, fw, x.n, x.rest, x.toDec, x.read); }
      if x.n.NSend? { NetSends(k, fw, x.n.item, x.rest, x.toDec, x.read, x.poisoned); }
    }
    NetFrame(k, fw, o, x, y, clean);
  }

  // ---- The decoder's steps ----

  lemma NetTaken(k: Params, fw: seq<bytes>, n: Net, rest: seq<bytes>, q: seq<Option<bytes>>, t: int, p: bool)
    requires NetSide(k, fw, n, rest, q, t, p) && q != []
    ensures q[0] == Item(fw, t) && NetSide(k, fw, n, rest, q[1..], t + 1, p)
  {
    Pop(fw, q, t);
  }

  lemma NetPoisoned(k: Params, fw: seq<bytes>, n: Net, rest: seq<bytes>, q: seq<Option<bytes>>, t: int, p: bool)
    requires NetSide(k, fw, n, rest, q, t, p)
    ensures NetSide(k, fw, n, rest, q, t, true)
  {
  }

  lemma DecFrame(k: Params, fw: seq<bytes>, o: Outcome, x: State, y: State, clean: bool)
    requires WriterInv(o, x.w, x.written) && PoisonInv(o, y.d, y.poisoned, y.exited, clean)
    requires y == x.(d := y.d, dec := y.dec, read := y.read, toDec := y.toDec,
                     poisoned := y.poisoned, toOut := y.toOut, exited := y.exited)
    requires NetSide(k, fw, x.n, x.rest, y.toDec, y.read, y.poisoned)
    requires DecInv(k.turn, fw, o, y.d, y.dec, y.read, y.toDec != [], Put2(y, o), clean)
    requires OutSide(k, o, y.toOut, Taken2(x.w, |x.written|, |o.blocks|))
    ensures Inv(k, fw, o, y, clean)
  {
  }

  /** Peeking finds the next packet, or the pill after the last one. */
  lemma Peeked(
      turn: TurnFn, fw: seq<bytes>, o: Outcome, dec: DecState, read: nat, item: Option<bytes>, m: int, clean: bool)
    requires DecInv(turn, fw, o, DPeek, dec, read, true, m, clean) && item == Item(fw, read)
    ensures item.None? ==> DecInv(turn, fw, o, DStopping(Pill), dec, read, true, m, clean)
    ensures item.Some? ==>
      var (s, b, end) := turn(dec, item.value);
      DecInv(turn, fw, o, DAck(b, end), s, read, true, m, clean)
  {
    var pkts := fw[read..];
    if item.None? {
      assert pkts == [];
    } else {
      assert pkts[0] == item.value && pkts[1..] == fw[read + 1..];
      AheadTurn(turn, dec, pkts, o, m, clean);
    }
  }

  lemma DecPeeks(k: Params, fw: seq<bytes>, o: Outcome, x: State, clean: bool)
    requires Inv(k, fw, o, x, clean) && x.d == DPeek && x.toDec != []
    ensures Inv(k, fw, o, DecStep(k, x).value, clean)
  {
    NetTaken(k, fw, x.n, x.rest, x.toDec, x.read, x.poisoned);
    Peeked(k.turn, fw, o, x.dec, x.read, x.toDec[0], Put2(x, o), clean);
    DecFrame(k, fw, o, x, DecStep(k, x).value, clean);
  }

  lemma Acked(
      turn: TurnFn, fw: seq<bytes>, o: Outcome, d: Dec, dec: DecState,
      read: nat, m: int, had: bool, peeked: bool, clean: bool)
    requires EndLast(fw) && d.DAck? && DecInv(turn, fw, o, d, dec, read, had, m, clean)
    ensures d.end == Some(Crash) ==> Fatal(o.stop) && !clean
    ensures DecInv(turn, fw, o, AfterAck(d.block, d.end), dec, read + 1, peeked, m, clean)
  {
    if d.end.Some? && clean {
      assert read == |fw| - 1;
    }
  }

  /** The acknowledged packet leaves the queue. */
  lemma DecAdvances(k: Params, fw: seq<bytes>, o: Outcome, x: State, d: Dec, clean: bool)
    requires x.toDec != [] && PoisonInv(o, d, x.poisoned, x.exited, clean)
    requires NetSide(k, fw, x.n, x.rest, x.toDec, x.read, x.poisoned)
    requires DecInv(k.turn, fw, o, d, x.dec, x.read + 1, x.toDec[1..] != [], Put2(x, o), clean)
    requires OutSide(k, o, x.toOut, Taken2(x.w, |x.written|, |o.blocks|))
    requires WriterInv(o, x.w, x.written)
    ensures Inv(k, fw, o, x.(toDec := x.toDec[1..], read := x.read + 1, d := d), clean)
  {
    NetTaken(k, fw, x.n, x.rest, x.toDec, x.read, x.poisoned);
  }

  lemma AckStep(k: Params, x: State)
    requires x.d.DAck? && x.d.end != Some(Crash) && x.toDec != []
    ensures DecStep(k, x)
         == Some(x.(toDec := x.toDec[1..], read := x.read + 1, d := AfterAck(x.d.block, x.d.end)))
  {
  }

  lemma DecAcks(k: Params, fw: seq<bytes>, o: Outcome, x: State, clean: bool)
    requires EndLast(fw) && Inv(k, fw, o, x, clean) && x.d.DAck? && x.d.end != Some(Crash) && x.toDec != []
    ensures Inv(k, fw, o, DecStep(k, x).value, clean)
  {
    var d := AfterAck(x.d.block, x.d.end);
    AckStep(k, x);
    AckedDec(k, fw, o, x, clean);
    DecAdvances(k, fw, o, x, d, clean);
  }

  lemma AckedDec(k: Params, fw: seq<bytes>, o: Outcome, x: State, clean: bool)
    requires EndLast(fw) && Inv(k, fw, o, x, clean) && x.d.DAck? && x.d.end != Some(Crash) && x.toDec != []
    ensures var d := AfterAck(x.d.block, x.d.end);
      && DecInv(k.turn, fw, o, d, x.dec, x.read + 1, x.toDec[1..] != [], Put2(x, o), clean)
      && PoisonInv(o, d, x.poisoned, x.exited, clean)
  {
    Acked(k.turn, fw, o, x.d, x.dec, x.read, Put2(x, o), x.toDec != [], x.toDec[1..] != [], clean);
  }

  lemma DecCrashes(k: Params, fw: seq<bytes>, o: Outcome, x: State, clean: bool)
    requires EndLast(fw) && Inv(k, fw, o, x, clean) && x.d.DAck? && x.d.end == Some(Crash) && x.toDec != []
    ensures Inv(k, fw, o, DecStep(k, x).value, clean)
  {
    Acked(k.turn, fw, o, x.d, x.dec, x.read, Put2(x, o), x.toDec != [], true, clean);
    DecFrame(k, fw, o, x, DecStep(k, x).value, clean);
  }

  lemma OutPut(k: Params, o: Outcome, q: seq<Option<bytes>>, t: int)
    requires OutSide(k, o, q, t) && |q| < k.cap2 && t + |q| <= |o.blocks|
    ensures OutSide(k, o, q + [Item(o.blocks, t + |q|)], t)
  {
    Push(o.blocks, q, t);
  }

  lemma DecPushes(k: Params, fw: seq<bytes>, o: Outcome, x: State, clean: bool)
    requires Inv(k, fw, o, x, clean) && DecStep(k, x).Some? && (x.d.DSend? || x.d.DStopping?)
    ensures Inv(k, fw, o, DecStep(k, x).value, clean)
  {
    OutPut(k, o, x.toOut, Taken2(x.w, |x.written|, |o.blocks|));
    DecFrame(k, fw, o, x, DecStep(k, x).value, clean);
  }

  lemma DecPoisons(k: Params, fw: seq<bytes>, o: Outcome, x: State, clean: bool)
    requires Inv(k, fw, o, x, clean) && x.d.DPoison?
    ensures Inv(k, fw, o, DecStep(k, x).value, clean)
  {
    NetPoisoned(k, fw, x.n, x.rest, x.toDec, x.read, x.poisoned);
    DecFrame(k, fw, o, x, DecStep(k, x).value, clean);
  }

  lemma DecKeeps(k: Params, fw: seq<bytes>, o: Outcome, x: State, clean: bool)
    requires EndLast(fw) && Inv(k, fw, o, x, clean) && DecStep(k, x).Some?
    ensures Inv(k, fw, o, DecStep(k, x).value, clean)
  {
    if x.d == DPeek {
      DecPeeks(k, fw, o, x, clean);
    } else if x.d.DAck? {
      if x.d.end == Some(Crash) { DecCrashes(k, fw, o, x, clean); } else { DecAcks(k, fw, o, x, clean); }
    } else if x.d.DPoison? {
      DecPoisons(k, fw, o, x, clean);
    } else {
      DecPushes(k, fw, o, x, clean);
    }
  }

  // ---- The writer's steps ----

  lemma OutTaken(k: Params, o: Outcome, q: seq<Option<bytes>>, t: int)
    requires OutSide(k, o, q, t) && q != []
    ensures q[0] == Item(o.blocks, t) && OutSide(k, o, q[1..], t + 1)
  {
    Pop(o.blocks, q, t);
  }

  lemma WriterTakes(k: Params, fw: seq<bytes>, o: Outcome, x: State, clean: bool)
    requires Inv(k, fw, o, x, clean) && x.w == WRecv && x.toOut != []
    ensures Inv(k, fw, o, WriterStep(x).value, clean)
  {
    OutTaken(k, o, x.toOut, |x.written|);
    assert Put2(WriterStep(x).value, o) == Put2(x, o);
  }

  lemma WriterWrites(k: Params, fw: seq<bytes>, o: Outcome, x: State, clean: bool)
    requires Inv(k, fw, o, x, clean) && x.w.WWrite?
    ensures Inv(k, fw, o, WriterStep(x).value, clean)
  {
    var y := WriterStep(x).value;
    assert WriterInv(o, y.w, y.written);
    assert Put2(y, o) == Put2(x, o);
  }

  lemma NextKeeps(k: Params, fw: seq<bytes>, o: Outcome, x: State, t: Thread, clean: bool)
    requires EndLast(fw) && Inv(k, fw, o, x, clean) && Next(k, x, t).Some?
    ensures Inv(k, fw, o, Next(k, x, t).value, clean)
  {
    match t
    case NetThread => NetKeeps(k, fw, o, x, clean);
    case DecThread => DecKeeps(k, fw, o, x, clean);
    case WriterThread => if x.w == WRecv { WriterTakes(k, fw, o, x, clean); } else { WriterWrites(k, fw, o, x, clean); }
  }

  // ---- Progress ----

  function NetLeft(n: Net, put: int, f: nat): int {
    match n
    case NReserve => 4 * (f - put) + 5
    case NRecv => 4 * (f - put) + 4
    case NHold(item) => if item.Some? then 4 * (f - put) + 3 else 2
    case NSend(item) => if item.Some? then 4 * (f - put) + 2 else 1
    case NPill => 3
    case NDone => 0
    case NGaveUp => 0
  }

  function DecLeft(d: Dec, read: nat, f: nat): int {
    match d
    case DPeek => 3 * (f - read) + 2
    case DAck(_, _) => 3 * (f - read) + 1
    case DSend(_) => 3 * (f - read) + 3
    case DPoison(_) => 2
    case DStopping(_) => 1
    case DDone(_) => 0
  }

  function WriterLeft(w: Writing, written: nat, b: nat): int {
    match w
    case WRecv => 2 * (b - written) + 1
    case WWrite(_) => 2 * (b - written)
    case WDone => 0
  }

  /** A bound on the steps that remain. */
  function Remaining(x: State, f: nat, b: nat): int {
    if x.exited then 0
    else NetLeft(x.n, Put1(x), f) + DecLeft(x.d, x.read, f) + WriterLeft(x.w, |x.written|, b) + 1
  }

  lemma LeftNonNegative(k: Params, fw: seq<bytes>, o: Outcome, x: State, clean: bool)
    requires Inv(k, fw, o, x, clean)
    ensures NetLeft(x.n, Put1(x), |fw|) >= 0 && DecLeft(x.d, x.read, |fw|) >= 0
    ensures WriterLeft(x.w, |x.written|, |o.blocks|) >= 0
    ensures Remaining(x, |fw|, |o.blocks|) >= 0
  {
  }

  lemma NetPays(k: Params, fw: seq<bytes>, o: Outcome, x: State, clean: bool)
    requires Inv(k, fw, o, x, clean) && NetStep(k, x).Some? && !x.exited
    ensures Remaining(NetStep(k, x).value, |fw|, |o.blocks|) < Remaining(x, |fw|, |o.blocks|)
  {
    var y := NetStep(k, x).value;
    LeftNonNegative(k, fw, o, x, clean);
    assert NetInv(fw, x.n, x.rest, Put1(x), x.poisoned);
    if !y.exited {
      assert NetLeft(y.n, Put1(y), |fw|) < NetLeft(x.n, Put1(x), |fw|);
    }
  }

  lemma DecPays(k: Params, fw: seq<bytes>, o: Outcome, x: State, clean: bool)
    requires Inv(k, fw, o, x, clean) && DecStep(k, x).Some? && !x.exited
    ensures Remaining(DecStep(k, x).value, |fw|, |o.blocks|) < Remaining(x, |fw|, |o.blocks|)
  {
    var y := DecStep(k, x).value;
    LeftNonNegative(k, fw, o, x, clean);
    if !y.exited {
      assert Put1(y) == Put1(x);
      assert DecLeft(y.d, y.read, |fw|) < DecLeft(x.d, x.read, |fw|);
    }
  }

  lemma WriterPays(k: Params, fw: seq<bytes>, o: Outcome, x: State, clean: bool)
    requires Inv(k, fw, o, x, clean) && WriterStep(x).Some? && !x.exited
    ensures Remaining(WriterStep(x).value, |fw|, |o.blocks|) < Remaining(x, |fw|, |o.blocks|)
  {
    var y := WriterStep(x).value;
    LeftNonNegative(k, fw, o, x, clean);
    assert WriterInv(o, x.w, x.written);
    assert WriterLeft(y.w, |y.written|, |o.blocks|) < WriterLeft(x.w, |x.written|, |o.blocks|);
  }

  lemma StepPays(k: Params, fw: seq<bytes>, o: Outcome, x: State, t: Thread, clean: bool)
    requires Inv(k, fw, o, x, clean) && Next(k, x, t).Some?
    ensures Remaining(Next(k, x, t).value, |fw|, |o.blocks|) < Remaining(x, |fw|, |o.blocks|)
  {
    match t
    case NetThread => NetPays(k, fw, o, x, clean);
    case DecThread => DecPays(k, fw, o, x, clean);
    case WriterThread => WriterPays(k, fw, o, x, clean);
  }

  /** Who waits for what while the process runs: for room only when a queue is at its
      full capacity, and never once it is poisoned; for an element only when it is
      empty. */
  lemma WaitsExactly(k: Params, fw: seq<bytes>, o: Outcome, x: State, clean: bool)
    requires Usable(k) && Inv(k, fw, o, x, clean) && !x.exited
    ensures Next(k, x, NetThread).None? <==>
      || x.n == NDone || x.n == NGaveUp
      || ((x.n == NReserve || x.n == NPill) && |x.toDec| == k.cap1 && !x.poisoned)
    ensures Next(k, x, DecThread).None? <==>
      || x.d.DDone? || (x.d == DPeek && x.toDec == [])
      || ((x.d.DSend? || x.d.DStopping?) && |x.toOut| == k.cap2)
    ensures Next(k, x, WriterThread).None? <==> x.w == WDone || (x.w == WRecv && x.toOut == [])
  {
  }

  /** As long as some thread is unfinished, some thread can move. In particular
      the net reader's pill always finds room in the end, even when the decoder
      has already left on END. */
  lemma NeverStuck(k: Params, fw: seq<bytes>, o: Outcome, x: State)
    requires Usable(k) && Inv(k, fw, o, x, true) && !Finished(x)
    ensures exists t :: Next(k, x, t).Some?
  {
    if x.w.WWrite? || (x.w == WRecv && x.toOut != []) {
      assert Next(k, x, WriterThread).Some?;
    } else if !x.d.DDone? && (x.d != DPeek || x.toDec != []) {
      assert Next(k, x, DecThread).Some?;
    } else {
      assert Next(k, x, NetThread).Some?;
    }
  }

  /** Once the decoder has left its loop, for whatever reason, it and the writer
      can always go on until everything is written, or the process exits. */
  lemma Drains(k: Params, fw: seq<bytes>, o: Outcome, x: State, clean: bool)
    requires Usable(k) && Inv(k, fw, o, x, clean) && Left(x.d)
    requires Next(k, x, DecThread).None? && Next(k, x, WriterThread).None?
    ensures x.exited || (x.d == DDone(o.stop) && x.w == WDone && x.written == o.blocks)
  {
  }

  // ---- Runs ----

  function NextOf(k: Params): Runs.StepFn<State, Thread> { (x, t) => Next(k, x, t) }

  /** The state after an interleaving, if every step was possible. */
  function Run(k: Params, x: State, ts: seq<Thread>): Option<State> { Runs.Run(NextOf(k), x, ts) }

  ghost predicate Finishes(k: Params, x: State, ts: seq<Thread>) { Runs.Finishes(NextOf(k), Finished, x, ts) }

  ghost function InvOf(k: Params, fw: seq<bytes>, o: Outcome, clean: bool): State -> bool {
    x => Inv(k, fw, o, x, clean)
  }

  function RemainingOf(f: nat, b: nat): State -> int { x => Remaining(x, f, b) }

  lemma StepsDecrease(k: Params, fw: seq<bytes>, o: Outcome, clean: bool)
    requires EndLast(fw)
    ensures Runs.Decreasing(NextOf(k), InvOf(k, fw, o, clean), RemainingOf(|fw|, |o.blocks|))
  {
    forall x | Inv(k, fw, o, x, clean)
      ensures Remaining(x, |fw|, |o.blocks|) >= 0
    {
      LeftNonNegative(k, fw, o, x, clean);
    }
    forall x, t | Inv(k, fw, o, x, clean) && Next(k, x, t).Some?
      ensures Inv(k, fw, o, Next(k, x, t).value, clean)
      ensures Remaining(Next(k, x, t).value, |fw|, |o.blocks|) < Remaining(x, |fw|, |o.blocks|)
    {
      NextKeeps(k, fw, o, x, t, clean);
      StepPays(k, fw, o, x, t, clean);
    }
  }

  lemma RunKeeps(k: Params, fw: seq<bytes>, o: Outcome, x: State, ts: seq<Thread>, clean: bool)
    requires EndLast(fw) && Inv(k, fw, o, x, clean) && Run(k, x, ts).Some?
    ensures Inv(k, fw, o, Run(k, x, ts).value, clean)
    ensures Remaining(Run(k, x, ts).value, |fw|, |o.blocks|) + |ts| <= Remaining(x, |fw|, |o.blocks|)
  {
    StepsDecrease(k, fw, o, clean);
    Runs.RunKeeps(NextOf(k), InvOf(k, fw, o, clean), RemainingOf(|fw|, |o.blocks|), x, ts);
  }

  lemma RunFromStart(k: Params, trace: seq<bytes>, ts: seq<Thread>, clean: bool)
    requires Usable(k) && Run(k, Start(trace), ts).Some?
    requires clean ==> Clean(k.turn, FRESH, Forwarded(trace))
    ensures EndLast(Forwarded(trace))
    ensures var fw, x := Forwarded(trace), Run(k, Start(trace), ts).value;
      var o := Loop(k.turn, FRESH, fw);
      Inv(k, fw, o, x, clean) && |ts| <= 7 * |fw| + 2 * |o.blocks| + 9
  {
    var fw, o := Forwarded(trace), Loop(k.turn, FRESH, Forwarded(trace));
    ForwardedEndLast(trace);
    StartInv(k, trace, clean);
    RunKeeps(k, fw, o, Start(trace), ts, clean);
    LeftNonNegative(k, fw, o, Run(k, Start(trace), ts).value, clean);
  }

  /** Every interleaving over any packets, decoding errors, poison and exit
      included: the run is bounded; what has been written is a prefix of what the
      sequential receiver hands on; it is all of that once the writer has finished,
      and short of an exit of the process the writer does finish after the decoder
      has left its loop. */
  lemma ReceiverSafety(k: Params, trace: seq<bytes>, ts: seq<Thread>)
    requires Usable(k) && Run(k, Start(trace), ts).Some?
    ensures var x, fw := Run(k, Start(trace), ts).value, Forwarded(trace);
      var o := Loop(k.turn, FRESH, fw);
      && |ts| <= 7 * |fw| + 2 * |o.blocks| + 9
      && x.written <= o.blocks
      && (x.w == WDone ==> x.written == o.blocks && x.d == DDone(o.stop))
      && (Left(x.d) && Next(k, x, DecThread).None? && Next(k, x, WriterThread).None? && !x.exited ==> x.w == WDone)
  {
    var x, fw := Run(k, Start(trace), ts).value, Forwarded(trace);
    var o := Loop(k.turn, FRESH, fw);
    RunFromStart(k, trace, ts, false);
    if Left(x.d) && Next(k, x, DecThread).None? && Next(k, x, WriterThread).None? {
      Drains(k, fw, o, x, false);
    }
    if x.w == WDone {
      WriterLast(k, fw, o, x);
    }
  }

  lemma WriterLast(k: Params, fw: seq<bytes>, o: Outcome, x: State)
    requires Inv(k, fw, o, x, false) && x.w == WDone
    ensures x.d == DDone(o.stop)
  {
  }

  /** Over failure-free packets no interleaving poisons or exits, and a run ends
      only with all three threads finished. */
  lemma ReceiverProgress(k: Params, trace: seq<bytes>, ts: seq<Thread>)
    requires Usable(k) && Clean(k.turn, FRESH, Forwarded(trace)) && Run(k, Start(trace), ts).Some?
    ensures var x := Run(k, Start(trace), ts).value;
      && !x.exited && !x.poisoned
      && (Finished(x) <==> forall t :: Next(k, x, t).None?)
  {
    var x, fw := Run(k, Start(trace), ts).value, Forwarded(trace);
    RunFromStart(k, trace, ts, true);
    if !Finished(x) {
      NeverStuck(k, fw, Loop(k.turn, FRESH, fw), x);
    }
  }

  lemma Stops(k: Params, fw: seq<bytes>, o: Outcome, x: State)
    requires Usable(k) && Inv(k, fw, o, x, true) && Runs.Ended(NextOf(k), x)
    ensures Finished(x)
  {
    forall t
      ensures Next(k, x, t).None?
    {
      assert NextOf(k)(x, t).None?;
    }
    if !Finished(x) {
      NeverStuck(k, fw, o, x);
    }
  }

  lemma FinishesFrom(k: Params, fw: seq<bytes>, o: Outcome, x: State, ts: seq<Thread>)
    requires Usable(k) && EndLast(fw) && Inv(k, fw, o, x, true) && Run(k, x, ts).Some?
    ensures exists more :: Finishes(k, x, ts + more)
  {
    StepsDecrease(k, fw, o, true);
    forall y | Inv(k, fw, o, y, true) && Runs.Ended(NextOf(k), y)
      ensures Finished(y)
    {
      Stops(k, fw, o, y);
    }
    Runs.CanFinish(NextOf(k), InvOf(k, fw, o, true), RemainingOf(|fw|, |o.blocks|), Finished, x, ts);
    var more :| Runs.Finishes(NextOf(k), Finished, x, ts + more);
    assert Finishes(k, x, ts + more);
  }

  /** Over failure-free packets every interleaving can be continued to one in which
      all threads finish. */
  lemma ReceiverFinishes(k: Params, trace: seq<bytes>, ts: seq<Thread>)
    requires Usable(k) && Clean(k.turn, FRESH, Forwarded(trace)) && Run(k, Start(trace), ts).Some?
    ensures exists more :: Finishes(k, Start(trace), ts + more)
  {
    var fw := Forwarded(trace);
    var o := Loop(k.turn, FRESH, fw);
    ForwardedEndLast(trace);
    StartInv(k, trace, true);
    FinishesFrom(k, fw, o, Start(trace), ts);
  }

  // ---- Down to the sender's input ----

  lemma CleanFirst(turn: TurnFn, s: DecState, pkt: bytes, later: seq<bytes>)
    requires var (s', _, end) := turn(s, pkt);
      && (end.Some? ==> end == Some(Eot) && TypeOf(pkt) == End)
      && (end.None? ==> Clean(turn, s', later))
    ensures Clean(turn, s, [pkt] + later)
  {
    assert ([pkt] + later)[1..] == later;
  }

  lemma CleanTurn(st: Stream, s: DecState, a: Session, l: Label)
    requires Valid(st) && SessionOk(st, a) && InStream(st, l) && Refines(st, s, a)
    requires var stop := SessionTurn(st, a, l).2; stop.Some? ==> !stop.value.Error?
    ensures var end := Turn(st.code, s, Raw(st, l)).2;
      && end == SessionTurn(st, a, l).2
      && (end.Some? ==> end == Some(Eot) && TypeOf(Raw(st, l)) == End)
      && (end.None? ==> Refines(st, Turn(st.code, s, Raw(st, l)).0, SessionTurn(st, a, l).0))
  {
    TurnRefines(st, s, a, l);
    RawIsEnd(st, l);
  }

  lemma ErrorFree(st: Stream, a: Session, ls: seq<Label>)
    requires Accepted(st.cfg) && SessionOk(st, a) && AllInStream(st, ls) && ls != []
    requires !RunSession(st, a, ls).stop.Error?
    ensures var (a', _, stop) := SessionTurn(st, a, ls[0]);
      if stop.Some? then !stop.value.Error? else !RunSession(st, a', ls[1..]).stop.Error?
  {
  }

  /** Packets of a stream whose session run has no error are failure-free. */
  lemma {:induction false} StreamIsClean(st: Stream, s: DecState, a: Session, ls: seq<Label>)
    requires Valid(st) && SessionOk(st, a) && AllInStream(st, ls) && Refines(st, s, a)
    requires !RunSession(st, a, ls).stop.Error?
    ensures Clean(DecoderTurn(st.code), s, RawAll(st, ls))
    decreases |ls|
  {
    if ls != [] {
      var raw, later := Raw(st, ls[0]), ls[1..];
      ErrorFree(st, a, ls);
      CleanTurn(st, s, a, ls[0]);
      var (s', _, end) := Turn(st.code, s, raw);
      if end.None? {
        StreamIsClean(st, s', SessionTurn(st, a, ls[0]).0, later);
      }
      CleanFirst(DecoderTurn(st.code), s, raw, RawAll(st, later));
      RawAllFirst(st, ls);
    }
  }

  lemma DeliveryIsClean(st: Stream, ls: seq<Label>)
    requires Valid(st) && AllInStream(st, ls)
    requires !Receive(st.code, RawAll(st, ls)).stop.Error?
    ensures Clean(DecoderTurn(st.code), FRESH, Forwarded(RawAll(st, ls)))
  {
    ReceiveIsSession(st, ls);
    ForwardedIsCut(st, ls);
    StreamIsClean(st, FRESH, Idle(false), Cut(ls));
  }

  /** What is written over a stream, in every interleaving and under any loss,
      decoding errors included: a prefix of the chunks that the delivered packets
      complete up to the first broken one; all of them once the writer has
      finished, the decoder having stopped as the delivered packets dictate. */
  lemma ThreadedOutcome(k: Params, st: Stream, ls: seq<Label>, ts: seq<Thread>)
    requires Usable(k) && Valid(st) && k.turn == DecoderTurn(st.code)
    requires AllInStream(st, ls) && Staged(st, ls) && LBegin in ls
    requires Run(k, Start(RawAll(st, ls)), ts).Some?
    ensures var x := Run(k, Start(RawAll(st, ls)), ts).value;
      var done := Pick(st, DoneBelow(st, ls, FirstBroken(st, ls, 0)));
      && x.written <= done
      && (x.w == WDone ==> x.written == done && x.d == DDone(ExpectedStop(st, ls)))
      && (Left(x.d) && Next(k, x, DecThread).None? && Next(k, x, WriterThread).None? && !x.exited ==> x.w == WDone)
  {
    ExactOutcome(st, ls);
    ReceiverSafety(k, RawAll(st, ls), ts);
  }

  lemma PickPrefix(st: Stream, cs: seq<nat>, bs: seq<bytes>)
    requires (forall i :: 0 <= i < |cs| ==> cs[i] < |st.chunks|) && bs <= Pick(st, cs)
    ensures bs == Pick(st, cs[..|bs|])
  {
  }

  /** Integrity of the bytes actually written, in every interleaving and under any
      loss, with or without a BEGIN: whole sent chunks, with increasing numbers. */
  lemma ThreadedIntegrity(k: Params, st: Stream, ls: seq<Label>, ts: seq<Thread>)
    requires Usable(k) && Valid(st) && k.turn == DecoderTurn(st.code)
    requires AllInStream(st, ls) && Staged(st, ls)
    requires Run(k, Start(RawAll(st, ls)), ts).Some?
    ensures exists cs: seq<nat> ::
      IncreasingChunks(st, cs) && Run(k, Start(RawAll(st, ls)), ts).value.written == Pick(st, cs)
  {
    var x := Run(k, Start(RawAll(st, ls)), ts).value;
    InOrderIntegrity(st, ls);
    ReceiverSafety(k, RawAll(st, ls), ts);
    var cs :| IncreasingChunks(st, cs) && Receive(st.code, RawAll(st, ls)).blocks == Pick(st, cs);
    PickPrefix(st, cs, x.written);
    assert IncreasingChunks(st, cs[..|x.written|]);
  }

  /** A BEGIN, an END and a decodable set of every nonempty chunk are delivered. */
  ghost predicate Sufficient(code: Code, cfg: SenderConfig, input: bytes, ls: seq<Label>, from: seq<nat>) {
    && Sound(code) && Accepted(cfg) && |input| < FIRST_RESERVED
    && InOrder(StreamOf(code, cfg, input), ls, from) && LBegin in ls && LEnd in ls
    && AllDone(StreamOf(code, cfg, input), ls, |StreamOf(code, cfg, input).chunks|)
  }

  /** The whole system. For every input, accepted configuration, in-order lossy
      delivery with BEGIN and END in which every nonempty chunk is decodable, and
      every interleaving of the receiver's threads: no deadlock; a continuation in
      which all threads finish; and once they have finished, exactly the input has
      been written, the decoder having stopped at END. */
  lemma ThreadedEndToEnd(
      k: Params, code: Code, cfg: SenderConfig, input: bytes, ls: seq<Label>, from: seq<nat>, ts: seq<Thread>)
    requires Usable(k) && k.turn == DecoderTurn(code) && Sufficient(code, cfg, input, ls, from)
    ensures var st := StreamOf(code, cfg, input);
      && Valid(st) && AllInStream(st, ls)
      && var start := Start(RawAll(st, ls));
         var r := Run(k, start, ts);
         r.Some? ==>
           && (Finished(r.value) <==> forall t :: Next(k, r.value, t).None?)
           && (Finished(r.value) ==> Concat(r.value.written) == input && r.value.d == DDone(Eot))
           && (exists more :: Finishes(k, start, ts + more))
  {
    var st := StreamOf(code, cfg, input);
    EndToEnd(code, cfg, input, ls, from);
    DeliveryIsClean(st, ls);
    if Run(k, Start(RawAll(st, ls)), ts).Some? {
      ReceiverSafety(k, RawAll(st, ls), ts);
      ReceiverProgress(k, RawAll(st, ls), ts);
      ReceiverFinishes(k, RawAll(st, ls), ts);
    }
  }
}
