/** End-to-end results over a lossy link that does not reorder: for every
    delivery, exactly what the receiver writes and how it stops. */
module Delivery {
  import opened Wire
  import opened Config
  import opened Erasure
  import opened Chunk
  import opened Chunking
  import opened Encoder
  import opened Stream
  import opened Decoder
  import opened Session

  // ---- Deliveries ----

  function Stage(st: Stream, l: Label): nat {
    match l
    case LBegin => 0
    case LData(c, _) => c + 1
    case LEnd => |st.chunks| + 1
    case LKeepAlive => 0
  }

  /** Packets arrive in the order of their chunks, BEGINs first and ENDs last.
      Losses, repeats, keepalives anywhere and reordering inside one chunk are
      all allowed. */
  ghost predicate Staged(st: Stream, ls: seq<Label>) {
    forall i, j :: 0 <= i < j < |ls| && !ls[i].LKeepAlive? && !ls[j].LKeepAlive? ==>
      Stage(st, ls[i]) <= Stage(st, ls[j])
  }

  /** An in-order lossy delivery of the sender's trace: `from` gives, for every
      packet but a keepalive, the place in the trace that it came from. */
  ghost predicate InOrder(st: Stream, ls: seq<Label>, from: seq<nat>)
    requires Accepted(st.cfg)
  {
    && |from| == |ls|
    && (forall i :: 0 <= i < |ls| && !ls[i].LKeepAlive? ==>
          from[i] < |SenderLabels(st)| && SenderLabels(st)[from[i]] == ls[i])
    && (forall i, j :: 0 <= i < j < |ls| && !ls[i].LKeepAlive? && !ls[j].LKeepAlive? ==> from[i] <= from[j])
  }

  /** The symbol ids of chunk c among these packets. */
  function IdsOf(ls: seq<Label>, c: nat): set<nat> {
    if ls == [] then {}
    else
      var rest := IdsOf(ls[..|ls| - 1], c);
      var l := ls[|ls| - 1];
      if l.LData? && l.c == c then rest + {l.id} else rest
  }

  predicate Seen(ls: seq<Label>, c: nat) { IdsOf(ls, c) != {} }

  predicate Done(st: Stream, ls: seq<Label>, c: nat)
    requires Accepted(st.cfg) && c < |st.chunks|
  {
    Complete(st, c, IdsOf(ls, c))
  }

  /** The symbols of chunk c that were delivered, as a set. */
  lemma {:induction false} IdsOfIs(ls: seq<Label>, c: nat, id: nat)
    ensures id in IdsOf(ls, c) <==> exists i :: 0 <= i < |ls| && ls[i].LData? && ls[i].c == c && ls[i].id == id
  {
    if ls != [] {
      var front := ls[..|ls| - 1];
      IdsOfIs(front, c, id);
      assert forall i :: 0 <= i < |front| ==> front[i] == ls[i];
    }
  }

  /** What it means that a chunk is done: it is not empty, some packet of it arrived,
      and it fits in one packet or the symbols that arrived are decodable. */
  lemma DoneIs(st: Stream, ls: seq<Label>, c: nat)
    requires Accepted(st.cfg) && c < |st.chunks|
    ensures var ids := set i | 0 <= i < |ls| && ls[i].LData? && ls[i].c == c :: ls[i].id;
      var len, payload := |st.chunks[c]|, st.cfg.pktSize - 24;
      && (Done(st, ls, c) <==>
            len > 0 && ids != {} && (len <= payload || st.code.decodable(len, payload, ids)))
      && (Seen(ls, c) <==> ids != {})
      && (Broken(st, ls, c) <==>
            ids != {} && (len == 0 || (len > payload && !st.code.decodable(len, payload, ids))))
  {
    var ids: set<nat> := set i | 0 <= i < |ls| && ls[i].LData? && ls[i].c == c :: ls[i].id;
    forall id: nat
      ensures id in ids <==> id in IdsOf(ls, c)
    {
      IdsOfIs(ls, c, id);
    }
    assert ids == IdsOf(ls, c);
  }

  lemma {:induction false} IdsOfNone(ls: seq<Label>, c: nat)
    requires forall i :: 0 <= i < |ls| ==> !(ls[i].LData? && ls[i].c == c)
    ensures IdsOf(ls, c) == {}
  {
    if ls != [] {
      IdsOfNone(ls[..|ls| - 1], c);
    }
  }

  lemma {:induction false} IdsOfAppend(xs: seq<Label>, ys: seq<Label>, c: nat)
    ensures IdsOf(xs + ys, c) == IdsOf(xs, c) + IdsOf(ys, c)
    decreases |ys|
  {
    if ys == [] {
      assert xs + ys == xs;
    } else {
      var front := ys[..|ys| - 1];
      assert (xs + ys)[..|xs + ys| - 1] == xs + front;
      IdsOfAppend(xs, front, c);
    }
  }

  lemma {:induction false} SeenIff(ls: seq<Label>, c: nat)
    ensures Seen(ls, c) <==> exists i :: 0 <= i < |ls| && ls[i].LData? && ls[i].c == c
  {
    if ls != [] {
      var front := ls[..|ls| - 1];
      SeenIff(front, c);
      assert forall i :: 0 <= i < |front| ==> front[i] == ls[i];
    }
  }

  // ---- The exact outcome ----

  /** The chunks below n that the delivered packets complete, in order. */
  function DoneBelow(st: Stream, ls: seq<Label>, n: nat): (cs: seq<nat>)
    requires Accepted(st.cfg) && n <= |st.chunks|
    ensures forall i :: 0 <= i < |cs| ==> cs[i] < n
    ensures forall i, j :: 0 <= i < j < |cs| ==> cs[i] < cs[j]
    ensures forall i :: 0 <= i < |cs| ==> Done(st, ls, cs[i])
  {
    if n == 0 then [] else DoneBelow(st, ls, n - 1) + if Done(st, ls, n - 1) then [n - 1] else []
  }

  /** A chunk of which something, but not enough, arrived. */
  predicate Broken(st: Stream, ls: seq<Label>, c: nat)
    requires Accepted(st.cfg) && c < |st.chunks|
  {
    Seen(ls, c) && !Done(st, ls, c)
  }

  /** The first broken chunk at or after c, or the number of chunks. */
  function FirstBroken(st: Stream, ls: seq<Label>, c: nat): (b: nat)
    requires Accepted(st.cfg) && c <= |st.chunks|
    ensures c <= b <= |st.chunks|
    ensures b < |st.chunks| ==> Broken(st, ls, b)
    ensures forall i :: c <= i < b ==> !Broken(st, ls, i)
    decreases |st.chunks| - c
  {
    if c == |st.chunks| || Broken(st, ls, c) then c else FirstBroken(st, ls, c + 1)
  }

  predicate SeenAfter(st: Stream, ls: seq<Label>, c: nat) {
    exists c' :: c < c' < |st.chunks| && Seen(ls, c')
  }

  /** How an in-order run ends. */
  function ExpectedStop(st: Stream, ls: seq<Label>): Stop
    requires Accepted(st.cfg)
  {
    if SeenAfter(st, ls, FirstBroken(st, ls, 0)) then Error(ERR_INCOMPLETE_CHUNK)
    else if LEnd in ls then Eot
    else Pill
  }

  lemma {:induction false} DoneBelowSame(st: Stream, xs: seq<Label>, ys: seq<Label>, n: nat)
    requires Accepted(st.cfg) && n <= |st.chunks|
    requires forall c :: 0 <= c < n ==> IdsOf(xs, c) == IdsOf(ys, c)
    ensures DoneBelow(st, xs, n) == DoneBelow(st, ys, n)
  {
    if n > 0 {
      DoneBelowSame(st, xs, ys, n - 1);
    }
  }

  lemma BrokenSame(st: Stream, xs: seq<Label>, ys: seq<Label>, n: nat)
    requires Accepted(st.cfg) && n <= |st.chunks|
    requires forall c :: 0 <= c < n ==> IdsOf(xs, c) == IdsOf(ys, c)
    requires forall c :: 0 <= c < n ==> !Broken(st, xs, c)
    ensures forall c :: 0 <= c < n ==> !Broken(st, ys, c)
  {
    forall c | 0 <= c < n
      ensures !Broken(st, ys, c)
    {
      assert !Broken(st, xs, c);
    }
  }

  /** Chunks between n and m that are not done add nothing. */
  lemma {:induction false} DoneBelowGap(st: Stream, ls: seq<Label>, n: nat, m: nat)
    requires Accepted(st.cfg) && n <= m <= |st.chunks|
    requires forall c :: n <= c < m ==> !Done(st, ls, c)
    ensures DoneBelow(st, ls, m) == DoneBelow(st, ls, n)
    decreases m
  {
    if n < m {
      DoneBelowGap(st, ls, n, m - 1);
    }
  }

  /** The run so far: h has been read without stopping and left the session a. */
  ghost predicate History(st: Stream, h: seq<Label>, a: Session)
    requires Accepted(st.cfg)
  {
    && SessionOk(st, a)
    && LEnd !in h
    && match a
       case Idle(started) => started && forall c :: 0 <= c < |st.chunks| ==> IdsOf(h, c) == {}
       case Active(c, ids) =>
         && ids == IdsOf(h, c)
         && (forall c' :: c < c' < |st.chunks| ==> IdsOf(h, c') == {})
         && (forall c' :: 0 <= c' < c ==> !Broken(st, h, c'))
  }

  /** What is still to come cannot concern a chunk before the stage reached. */
  lemma LaterIds(st: Stream, h: seq<Label>, d: seq<Label>, c: nat)
    requires Staged(st, h + d) && d != [] && !d[0].LKeepAlive? && c + 1 < Stage(st, d[0])
    ensures IdsOf(h + d, c) == IdsOf(h, c)
  {
    forall i | 0 <= i < |d|
      ensures !(d[i].LData? && d[i].c == c)
    {
      assert d[i] == (h + d)[|h| + i] && d[0] == (h + d)[|h|];
    }
    IdsOfNone(d, c);
    IdsOfAppend(h, d, c);
  }

  /** The session's chunk is the last one seen: the chunks done so far are below it. */
  lemma DoneSoFar(st: Stream, h: seq<Label>, a: Session)
    requires Accepted(st.cfg) && History(st, h, a) && a.Active?
    ensures DoneBelow(st, h, |st.chunks|)
         == DoneBelow(st, h, a.c) + if Complete(st, a.c, a.ids) then [a.c] else []
  {
    DoneBelowGap(st, h, a.c + 1, |st.chunks|);
  }

  ghost predicate RunMatches(st: Stream, h: seq<Label>, d: seq<Label>, o: SessionOutcome)
    requires Accepted(st.cfg)
  {
    && DoneBelow(st, h, |st.chunks|) + o.emitted == DoneBelow(st, h + d, FirstBroken(st, h + d, 0))
    && o.stop == ExpectedStop(st, h + d)
  }

  /** At the end of a run without error, everything done has been emitted. */
  lemma SettledOutcome(st: Stream, h: seq<Label>, all: seq<Label>, a: Session)
    requires Accepted(st.cfg) && History(st, h, a)
    requires forall c :: 0 <= c < |st.chunks| ==> IdsOf(all, c) == IdsOf(h, c)
    ensures DoneBelow(st, h, |st.chunks|) == DoneBelow(st, all, FirstBroken(st, all, 0))
    ensures !SeenAfter(st, all, FirstBroken(st, all, 0))
  {
    DoneBelowSame(st, h, all, |st.chunks|);
    var b := FirstBroken(st, all, 0);
    if a.Active? {
      BrokenSame(st, h, all, a.c);
      assert b < |st.chunks| ==> b == a.c;
      DoneBelowGap(st, all, b, |st.chunks|);
    } else {
      DoneBelowGap(st, all, b, |st.chunks|);
    }
  }

  /** A packet of a later chunk arrives while the session's chunk is not done. */
  lemma ErrorOutcome(st: Stream, h: seq<Label>, d: seq<Label>, a: Session)
    requires Valid(st) && History(st, h, a) && a.Active? && AllInStream(st, d)
    requires Staged(st, h + d) && d != [] && d[0].LData? && d[0].c > a.c && !Complete(st, a.c, a.ids)
    ensures RunMatches(st, h, d, SessionOutcome([], Error(ERR_INCOMPLETE_CHUNK)))
  {
    var all, c := h + d, a.c;
    forall c' | 0 <= c' <= c
      ensures IdsOf(all, c') == IdsOf(h, c')
    {
      LaterIds(st, h, d, c');
    }
    assert InStream(st, d[0]);
    assert all[|h|] == d[0];
    SeenIff(all, d[0].c);
    assert Broken(st, all, c);
    BrokenSame(st, h, all, c);
    assert FirstBroken(st, all, 0) == c;
    assert SeenAfter(st, all, c);
    DoneSoFar(st, h, a);
    DoneBelowSame(st, h, all, c);
  }

  lemma StagedCurrent(st: Stream, h: seq<Label>, d: seq<Label>, a: Session)
    requires Accepted(st.cfg) && History(st, h, a) && a.Active? && Staged(st, h + d) && d != [] && d[0].LData?
    ensures d[0].c >= a.c
  {
    SeenIff(h, a.c);
    var i :| 0 <= i < |h| && h[i].LData? && h[i].c == a.c;
    assert (h + d)[i] == h[i] && (h + d)[|h|] == d[0];
  }

  lemma IdsOfSnoc(h: seq<Label>, l: Label, c: nat)
    ensures IdsOf(h + [l], c) == if l.LData? && l.c == c then IdsOf(h, c) + {l.id} else IdsOf(h, c)
  {
    assert (h + [l])[..|h|] == h;
  }

  /** A data packet of chunk l.c leaves the ids of all other chunks alone. */
  lemma IdsExtend(st: Stream, h: seq<Label>, l: Label)
    requires l.LData?
    ensures IdsOf(h + [l], l.c) == IdsOf(h, l.c) + {l.id}
    ensures forall c :: 0 <= c < |st.chunks| && c != l.c ==> IdsOf(h + [l], c) == IdsOf(h, c)
  {
    IdsOfSnoc(h, l, l.c);
    forall c | 0 <= c < |st.chunks| && c != l.c
      ensures IdsOf(h + [l], c) == IdsOf(h, c)
    {
      IdsOfSnoc(h, l, c);
    }
  }

  /** Reading one data packet without error extends the history. */
  lemma DataHistory(st: Stream, h: seq<Label>, a: Session, l: Label)
    requires Valid(st) && History(st, h, a) && InStream(st, l) && l.LData?
    requires a.Active? ==> l.c >= a.c
    requires SessionTurn(st, a, l).2.None?
    ensures History(st, h + [l], SessionTurn(st, a, l).0)
    ensures SessionTurn(st, a, l).0 == Active(l.c, IdsOf(h, l.c) + {l.id})
  {
    IdsExtend(st, h, l);
    assert {} + {l.id} == {l.id};
    forall c | 0 <= c < l.c
      ensures !Broken(st, h, c)
    {
      if a.Active? && c == a.c {
        assert Complete(st, a.c, a.ids);
      }
    }
    BrokenSame(st, h, h + [l], l.c);
  }

  /** The chunk it completes, if any, is the new last entry of the done list. */
  lemma DataExtends(st: Stream, h: seq<Label>, a: Session, l: Label)
    requires Valid(st) && History(st, h, a) && InStream(st, l) && l.LData?
    requires a.Active? ==> l.c >= a.c
    requires SessionTurn(st, a, l).2.None?
    ensures History(st, h + [l], SessionTurn(st, a, l).0)
    ensures var e := SessionTurn(st, a, l).1;
      DoneBelow(st, h + [l], |st.chunks|) == DoneBelow(st, h, |st.chunks|) + if e.Some? then [e.value] else []
  {
    var h' := h + [l];
    DataHistory(st, h, a, l);
    IdsExtend(st, h, l);
    DoneBelowSame(st, h, h', l.c);
    DoneSoFar(st, h', Active(l.c, IdsOf(h, l.c) + {l.id}));
    DoneBelowGap(st, h, l.c + 1, |st.chunks|);
    if a.Active? && a.c == l.c && Complete(st, a.c, a.ids) {
      CompleteMonotone(st, a.c, a.ids, a.ids + {l.id});
    }
  }

  lemma ControlExtends(st: Stream, h: seq<Label>, a: Session, l: Label)
    requires Accepted(st.cfg) && History(st, h, a) && (l.LBegin? || l.LKeepAlive?)
    ensures SessionTurn(st, a, l) == (a, None, None)
    ensures History(st, h + [l], a)
    ensures DoneBelow(st, h + [l], |st.chunks|) == DoneBelow(st, h, |st.chunks|)
  {
    forall c: nat
      ensures IdsOf(h + [l], c) == IdsOf(h, c)
    {
      IdsOfSnoc(h, l, c);
    }
    DoneBelowSame(st, h, h + [l], |st.chunks|);
    if a.Active? {
      BrokenSame(st, h, h + [l], a.c);
    }
  }

  lemma EndOutcome(st: Stream, h: seq<Label>, d: seq<Label>, a: Session)
    requires Valid(st) && History(st, h, a) && AllInStream(st, d) && Staged(st, h + d) && d != [] && d[0] == LEnd
    ensures RunMatches(st, h, d, SessionOutcome([], Eot))
  {
    var all := h + d;
    forall c | 0 <= c < |st.chunks|
      ensures IdsOf(all, c) == IdsOf(h, c)
    {
      LaterIds(st, h, d, c);
    }
    SettledOutcome(st, h, all, a);
    assert all[|h|] == LEnd;
  }

  /** Prefixing a run by one packet that does not stop it. */
  lemma RunPrefix(st: Stream, h: seq<Label>, d: seq<Label>, l: Label, e: Option<nat>, o: SessionOutcome)
    requires Accepted(st.cfg) && d != [] && d[0] == l
    requires DoneBelow(st, h + [l], |st.chunks|) == DoneBelow(st, h, |st.chunks|) + if e.Some? then [e.value] else []
    requires RunMatches(st, h + [l], d[1..], o)
    ensures RunMatches(st, h, d, if e.Some? then o.(emitted := [e.value] + o.emitted) else o)
  {
    assert (h + [l]) + d[1..] == h + d;
    if e.Some? {
      assert DoneBelow(st, h, |st.chunks|) + ([e.value] + o.emitted)
          == DoneBelow(st, h, |st.chunks|) + [e.value] + o.emitted;
    }
  }

  /** From any point of an in-order run, the rest of the run is as expected. */
  lemma {:induction false} RestOfRun(st: Stream, h: seq<Label>, d: seq<Label>, a: Session)
    requires Valid(st) && History(st, h, a) && AllInStream(st, d) && Staged(st, h + d)
    ensures RunMatches(st, h, d, RunSession(st, a, d))
    decreases |d|
  {
    if d == [] {
      assert h + d == h;
      SettledOutcome(st, h, h, a);
    } else if d[0] == LEnd {
      EndOutcome(st, h, d, a);
    } else {
      var l := d[0];
      assert (h + [l]) + d[1..] == h + d;
      if l.LData? && a.Active? {
        StagedCurrent(st, h, d, a);
      }
      if l.LData? && a.Active? && a.c != l.c && !Complete(st, a.c, a.ids) {
        ErrorOutcome(st, h, d, a);
      } else {
        if l.LData? {
          DataExtends(st, h, a, l);
        } else {
          ControlExtends(st, h, a, l);
        }
        var (a', e, _) := SessionTurn(st, a, l);
        RestOfRun(st, h + [l], d[1..], a');
        RunPrefix(st, h, d, l, e, RunSession(st, a', d[1..]));
      }
    }
  }

  // ---- From the start of a reception ----

  /** Until the first BEGIN only keepalives can have arrived. */
  lemma {:induction false} LeadIn(st: Stream, h: seq<Label>, d: seq<Label>)
    requires Valid(st) && AllInStream(st, d) && Staged(st, h + d) && LBegin in d
    requires forall i :: 0 <= i < |h| ==> h[i] == LKeepAlive
    ensures RunMatches(st, h, d, RunSession(st, Idle(false), d))
    decreases |d|
  {
    var l := d[0];
    assert (h + [l]) + d[1..] == h + d;
    FirstIsLead(st, h, d);
    forall c | 0 <= c < |st.chunks|
      ensures IdsOf(h, c) == {} && IdsOf(h + [l], c) == {}
    {
      IdsOfNone(h, c);
      IdsOfNone(h + [l], c);
    }
    DoneBelowSame(st, h, h + [l], |st.chunks|);
    if l == LBegin {
      RestOfRun(st, h + [l], d[1..], Idle(true));
      RunPrefix(st, h, d, l, None, RunSession(st, Idle(true), d[1..]));
    } else {
      LeadIn(st, h + [l], d[1..]);
      RunPrefix(st, h, d, l, None, RunSession(st, Idle(false), d[1..]));
    }
  }

  lemma FirstIsLead(st: Stream, h: seq<Label>, d: seq<Label>)
    requires Staged(st, h + d) && LBegin in d
    ensures d != [] && (d[0] == LBegin || (d[0] == LKeepAlive && LBegin in d[1..]))
  {
    var i :| 0 <= i < |d| && d[i] == LBegin;
    assert (h + d)[|h|] == d[0] && (h + d)[|h| + i] == LBegin;
    if d[0] == LKeepAlive {
      assert d[1..][i - 1] == LBegin;
    }
  }

  /** The net reader's cut at the first END, on labels. */
  function Cut(ls: seq<Label>): seq<Label> {
    if ls == [] then [] else if ls[0] == LEnd then [LEnd] else [ls[0]] + Cut(ls[1..])
  }

  lemma RawIsEnd(st: Stream, l: Label)
    requires Valid(st) && InStream(st, l)
    ensures TypeOf(Raw(st, l)) == End <==> l == LEnd
  {
    RawControl(st);
    if l.LData? {
      RawData(st, l.c, l.id);
    }
  }

  lemma ForwardedUnfold(pkts: seq<bytes>, pkt: bytes, later: seq<bytes>)
    requires pkts == [pkt] + later
    ensures Forwarded(pkts) == if TypeOf(pkt) == End then [pkt] else [pkt] + Forwarded(later)
  {
    assert pkts[1..] == later;
  }

  lemma RawAllCons(st: Stream, l: Label, ls: seq<Label>)
    requires Valid(st) && InStream(st, l) && AllInStream(st, ls)
    ensures AllInStream(st, [l] + ls)
    ensures RawAll(st, [l] + ls) == [Raw(st, l)] + RawAll(st, ls)
  {
  }

  lemma {:induction false} ForwardedIsCut(st: Stream, ls: seq<Label>)
    requires Valid(st) && AllInStream(st, ls)
    ensures AllInStream(st, Cut(ls))
    ensures Forwarded(RawAll(st, ls)) == RawAll(st, Cut(ls))
  {
    if ls != [] {
      var l, later := ls[0], ls[1..];
      assert ls == [l] + later;
      RawAllCons(st, l, later);
      ForwardedUnfold(RawAll(st, ls), Raw(st, l), RawAll(st, later));
      RawIsEnd(st, l);
      ForwardedIsCut(st, later);
      RawAllCons(st, l, if l == LEnd then [] else Cut(later));
    }
  }

  /** A run that opens with this packet has the same outcome if it has the same
      outcome on what follows. */
  lemma SameFirst(st: Stream, a: Session, xs: seq<Label>, ys: seq<Label>)
    requires Accepted(st.cfg) && SessionOk(st, a) && AllInStream(st, xs) && AllInStream(st, ys)
    requires xs != [] && ys != [] && xs[0] == ys[0]
    requires var (a', _, stop) := SessionTurn(st, a, xs[0]);
      stop.None? ==> RunSession(st, a', xs[1..]) == RunSession(st, a', ys[1..])
    ensures RunSession(st, a, xs) == RunSession(st, a, ys)
  {
  }

  lemma StagedRest(st: Stream, ls: seq<Label>)
    requires ls != [] && Staged(st, ls)
    ensures Staged(st, ls[1..])
  {
    var d := ls[1..];
    forall i, j | 0 <= i < j < |d| && !d[i].LKeepAlive? && !d[j].LKeepAlive?
      ensures Stage(st, d[i]) <= Stage(st, d[j])
    {
      assert d[i] == ls[i + 1] && d[j] == ls[j + 1];
    }
  }

  /** A packet before BEGIN in a staged run is BEGIN itself or a keepalive. */
  lemma StagedTail(st: Stream, a: Session, ls: seq<Label>)
    requires Accepted(st.cfg) && SessionOk(st, a) && AllInStream(st, ls) && ls != []
    requires a != Idle(false) || (LBegin in ls && Staged(st, ls))
    ensures ls[0] == LEnd ==> SessionTurn(st, a, ls[0]).2 == Some(Eot)
    ensures SessionTurn(st, a, ls[0]).0 != Idle(false) || (LBegin in ls[1..] && Staged(st, ls[1..]))
  {
    if a == Idle(false) {
      assert [] + ls == ls;
      FirstIsLead(st, [], ls);
      StagedRest(st, ls);
    }
  }

  /** Once started, the run ends at the first END anyway. */
  lemma {:induction false} CutChangesNothing(st: Stream, a: Session, ls: seq<Label>)
    requires Accepted(st.cfg) && SessionOk(st, a) && AllInStream(st, ls) && AllInStream(st, Cut(ls))
    requires a != Idle(false) || (LBegin in ls && Staged(st, ls))
    ensures RunSession(st, a, Cut(ls)) == RunSession(st, a, ls)
    decreases |ls|
  {
    if ls != [] {
      StagedTail(st, a, ls);
      if ls[0] != LEnd {
        assert Cut(ls)[1..] == Cut(ls[1..]);
        var (a', _, stop) := SessionTurn(st, a, ls[0]);
        if stop.None? {
          CutChangesNothing(st, a', ls[1..]);
        }
      }
      SameFirst(st, a, Cut(ls), ls);
    }
  }

  lemma ReceiveIsSession(st: Stream, ls: seq<Label>)
    requires Valid(st) && AllInStream(st, ls)
    ensures AllInStream(st, Cut(ls))
    ensures var o := RunSession(st, Idle(false), Cut(ls));
      Receive(st.code, RawAll(st, ls)) == Outcome(Pick(st, o.emitted), o.stop)
  {
    ForwardedIsCut(st, ls);
    DecloopRefines(st, FRESH, Idle(false), Cut(ls));
  }

  lemma SessionExact(st: Stream, ls: seq<Label>)
    requires Valid(st) && AllInStream(st, ls) && Staged(st, ls) && LBegin in ls
    ensures RunSession(st, Idle(false), ls)
         == SessionOutcome(DoneBelow(st, ls, FirstBroken(st, ls, 0)), ExpectedStop(st, ls))
  {
    assert [] + ls == ls;
    LeadIn(st, [], ls);
    DoneBelowGap(st, [], 0, |st.chunks|);
  }

  /** Main result. For every in-order delivery that contains a BEGIN: the blocks
      handed to the writer are exactly the chunks that the delivered packets
      complete, up to the first broken one, in increasing order, each
      byte-identical; and the decoder stops with an error, at END, or at the end of
      the packets, as the delivered packets dictate. */
  lemma ExactOutcome(st: Stream, ls: seq<Label>)
    requires Valid(st) && AllInStream(st, ls) && Staged(st, ls) && LBegin in ls
    ensures Receive(st.code, RawAll(st, ls))
         == Outcome(Pick(st, DoneBelow(st, ls, FirstBroken(st, ls, 0))), ExpectedStop(st, ls))
  {
    ReceiveIsSession(st, ls);
    CutChangesNothing(st, Idle(false), ls);
    SessionExact(st, ls);
  }

  lemma RawIsBegin(st: Stream, l: Label)
    requires Valid(st) && InStream(st, l)
    ensures TypeOf(Raw(st, l)) == Begin <==> l == LBegin
  {
    RawControl(st);
    if l.LData? {
      RawData(st, l.c, l.id);
    }
  }

  /** Without a BEGIN nothing is written and nothing is reported. */
  lemma NoBeginNoOutput(st: Stream, ls: seq<Label>)
    requires Valid(st) && AllInStream(st, ls) && LBegin !in ls
    ensures Receive(st.code, RawAll(st, ls)) == Outcome([], Pill)
  {
    ForwardedIsCut(st, ls);
    CutSubset(ls);
    var cut := Cut(ls);
    forall i | 0 <= i < |cut|
      ensures TypeOf(RawAll(st, cut)[i]) != Begin
    {
      assert cut[i] in ls;
      RawIsBegin(st, cut[i]);
    }
    NothingBeforeBegin(st.code, RawAll(st, cut));
  }

  lemma {:induction false} CutSubset(ls: seq<Label>)
    ensures forall l :: l in Cut(ls) ==> l in ls
  {
    if ls != [] {
      CutSubset(ls[1..]);
    }
  }

  /** Nonempty chunks, the numbers strictly increasing. */
  predicate IncreasingChunks(st: Stream, cs: seq<nat>) {
    && (forall i :: 0 <= i < |cs| ==> cs[i] < |st.chunks| && |st.chunks[cs[i]]| > 0)
    && (forall i, j :: 0 <= i < j < |cs| ==> cs[i] < cs[j])
  }

  /** Integrity under any loss, with or without a BEGIN: what is handed on are sent
      chunks, byte for byte, with strictly increasing numbers; empty ones never. */
  lemma InOrderIntegrity(st: Stream, ls: seq<Label>)
    requires Valid(st) && AllInStream(st, ls) && Staged(st, ls)
    ensures exists cs: seq<nat> ::
      IncreasingChunks(st, cs) && Receive(st.code, RawAll(st, ls)).blocks == Pick(st, cs)
  {
    if LBegin in ls {
      ExactOutcome(st, ls);
      var cs := DoneBelow(st, ls, FirstBroken(st, ls, 0));
      assert IncreasingChunks(st, cs);
    } else {
      NoBeginNoOutput(st, ls);
      assert IncreasingChunks(st, []);
      assert Receive(st.code, RawAll(st, ls)).blocks == Pick(st, []);
    }
  }

  /** INCOMPLETE_CHUNK is reported if and only if some chunk had packets delivered
      but not enough, and a packet of a later chunk was delivered. */
  lemma ExactLossDetection(st: Stream, ls: seq<Label>)
    requires Valid(st) && AllInStream(st, ls) && Staged(st, ls) && LBegin in ls
    ensures Receive(st.code, RawAll(st, ls)).stop == Error(ERR_INCOMPLETE_CHUNK) <==>
      exists c, c' :: 0 <= c < c' < |st.chunks| && Broken(st, ls, c) && Seen(ls, c')
  {
    ExactOutcome(st, ls);
    var b := FirstBroken(st, ls, 0);
    if c, c' :| 0 <= c < c' < |st.chunks| && Broken(st, ls, c) && Seen(ls, c') {
      assert b <= c;
      assert SeenAfter(st, ls, b);
    }
    if SeenAfter(st, ls, b) {
      var c' :| b < c' < |st.chunks| && Seen(ls, c');
      assert Broken(st, ls, b);
    }
  }

  // ---- When the output is the input ----

  predicate EmptyOnlyLast(st: Stream) {
    forall c :: 0 <= c < |st.chunks| - 1 ==> |st.chunks[c]| > 0
  }

  predicate AllDone(st: Stream, ls: seq<Label>, n: nat)
    requires Accepted(st.cfg) && n <= |st.chunks|
  {
    forall c :: 0 <= c < n && |st.chunks[c]| > 0 ==> Done(st, ls, c)
  }

  function Written(st: Stream, ls: seq<Label>, n: nat): bytes
    requires Accepted(st.cfg) && n <= |st.chunks|
  {
    Concat(Pick(st, DoneBelow(st, ls, n)))
  }

  lemma ConcatOne(cs: seq<bytes>, c: bytes)
    ensures Concat(cs + [c]) == Concat(cs) + c
  {
    ConcatAppend(cs, [c]);
    assert Concat([c]) == c + Concat([]);
  }

  lemma WrittenStep(st: Stream, ls: seq<Label>, n: nat)
    requires Accepted(st.cfg) && n < |st.chunks|
    ensures Written(st, ls, n + 1) == Written(st, ls, n) + if Done(st, ls, n) then st.chunks[n] else []
    ensures Concat(st.chunks[..n + 1]) == Concat(st.chunks[..n]) + st.chunks[n]
  {
    var picked := Pick(st, DoneBelow(st, ls, n));
    if Done(st, ls, n) {
      assert Pick(st, DoneBelow(st, ls, n + 1)) == picked + [st.chunks[n]];
      ConcatOne(picked, st.chunks[n]);
    } else {
      assert DoneBelow(st, ls, n + 1) == DoneBelow(st, ls, n);
    }
    assert st.chunks[..n + 1] == st.chunks[..n] + [st.chunks[n]];
    ConcatOne(st.chunks[..n], st.chunks[n]);
  }

  /** What is written for the first n chunks is never longer than those chunks,
      and equals them exactly when every nonempty one is done. */
  lemma {:induction false} WrittenVersusSent(st: Stream, ls: seq<Label>, n: nat)
    requires Accepted(st.cfg) && n <= |st.chunks|
    ensures |Written(st, ls, n)| <= |Concat(st.chunks[..n])|
    ensures AllDone(st, ls, n) ==> Written(st, ls, n) == Concat(st.chunks[..n])
    ensures !AllDone(st, ls, n) ==> |Written(st, ls, n)| < |Concat(st.chunks[..n])|
  {
    if n > 0 {
      WrittenVersusSent(st, ls, n - 1);
      WrittenStep(st, ls, n - 1);
      assert AllDone(st, ls, n) <==> AllDone(st, ls, n - 1) && (|st.chunks[n - 1]| > 0 ==> Done(st, ls, n - 1));
    }
  }

  lemma {:induction false} ConcatGrows(cs: seq<bytes>, n: nat, c: nat)
    requires n <= c < |cs| && |cs[c]| > 0
    ensures |Concat(cs[..n])| < |Concat(cs)|
  {
    assert cs == cs[..n] + cs[n..];
    ConcatAppend(cs[..n], cs[n..]);
    var tail := cs[n..];
    assert tail == tail[..c - n] + tail[c - n..];
    ConcatAppend(tail[..c - n], tail[c - n..]);
    assert tail[c - n..][0] == cs[c];
  }

  lemma ConcatPrefix(cs: seq<bytes>, n: nat)
    requires n <= |cs|
    ensures |Concat(cs[..n])| <= |Concat(cs)|
  {
    assert cs == cs[..n] + cs[n..];
    ConcatAppend(cs[..n], cs[n..]);
  }

  lemma AllDoneOutput(st: Stream, ls: seq<Label>)
    requires Accepted(st.cfg) && EmptyOnlyLast(st) && AllDone(st, ls, |st.chunks|)
    ensures Written(st, ls, FirstBroken(st, ls, 0)) == Concat(st.chunks)
    ensures !SeenAfter(st, ls, FirstBroken(st, ls, 0))
  {
    var n, b := |st.chunks|, FirstBroken(st, ls, 0);
    assert st.chunks[..n] == st.chunks;
    assert b < n ==> |st.chunks[b]| == 0 && b == n - 1;
    DoneBelowGap(st, ls, b, n);
    WrittenVersusSent(st, ls, n);
  }

  lemma MissingOutput(st: Stream, ls: seq<Label>, c: nat)
    requires Accepted(st.cfg) && c < |st.chunks| && |st.chunks[c]| > 0 && !Done(st, ls, c)
    ensures |Written(st, ls, FirstBroken(st, ls, 0))| < |Concat(st.chunks)|
  {
    var b := FirstBroken(st, ls, 0);
    WrittenVersusSent(st, ls, b);
    if c < b {
      assert !AllDone(st, ls, b);
      ConcatPrefix(st.chunks, b);
    } else {
      ConcatGrows(st.chunks, b, c);
    }
  }

  /** The receiver writes exactly what was sent if and only if the delivered
      packets complete every nonempty chunk; then it reports no error. */
  lemma OutputIsInput(st: Stream, ls: seq<Label>)
    requires Valid(st) && EmptyOnlyLast(st) && AllInStream(st, ls) && Staged(st, ls) && LBegin in ls
    ensures var o := Receive(st.code, RawAll(st, ls));
      && (Concat(o.blocks) == Concat(st.chunks) <==> AllDone(st, ls, |st.chunks|))
      && (AllDone(st, ls, |st.chunks|) ==> o.stop == if LEnd in ls then Eot else Pill)
  {
    ExactOutcome(st, ls);
    if AllDone(st, ls, |st.chunks|) {
      AllDoneOutput(st, ls);
    } else {
      var c :| 0 <= c < |st.chunks| && |st.chunks[c]| > 0 && !Done(st, ls, c);
      MissingOutput(st, ls, c);
    }
  }

  // ---- The sender's own trace ----

  lemma {:induction false} DataLabelsSorted(st: Stream, k: nat, i: nat, j: nat)
    requires Accepted(st.cfg) && k <= |st.chunks| && i <= j < |DataLabels(st, k)|
    ensures DataLabels(st, k)[i].c <= DataLabels(st, k)[j].c
  {
    if j < |DataLabels(st, k - 1)| {
      DataLabelsSorted(st, k - 1, i, j);
    }
  }

  lemma SenderStaged(st: Stream, i: nat, j: nat)
    requires Accepted(st.cfg) && i <= j < |SenderLabels(st)|
    ensures Stage(st, SenderLabels(st)[i]) <= Stage(st, SenderLabels(st)[j])
  {
    var data := DataLabels(st, |st.chunks|);
    if SALVE_LEN <= i && j < SALVE_LEN + |data| {
      DataLabelsSorted(st, |st.chunks|, i - SALVE_LEN, j - SALVE_LEN);
    }
  }

  /** An in-order lossy delivery of the sender's trace is staged. */
  lemma InOrderStaged(st: Stream, ls: seq<Label>, from: seq<nat>)
    requires Accepted(st.cfg) && InOrder(st, ls, from)
    ensures AllInStream(st, ls) && Staged(st, ls)
  {
    SenderLabelsInStream(st);
    forall i, j | 0 <= i < j < |ls| && !ls[i].LKeepAlive? && !ls[j].LKeepAlive?
      ensures Stage(st, ls[i]) <= Stage(st, ls[j])
    {
      SenderStaged(st, from[i], from[j]);
    }
    forall i | 0 <= i < |ls|
      ensures InStream(st, ls[i])
    {
      if !ls[i].LKeepAlive? {
        assert InStream(st, SenderLabels(st)[from[i]]);
      }
    }
  }

  lemma StreamOfEmptyOnlyLast(code: Code, cfg: SenderConfig, input: bytes)
    requires Accepted(cfg)
    ensures EmptyOnlyLast(StreamOf(code, cfg, input))
    ensures Concat(StreamOf(code, cfg, input).chunks) == input
  {
    ChunksPartition(input, ChunkSize(cfg));
  }

  /** End to end. For every input, accepted configuration and in-order delivery
      of the sender's packets with losses, repeats and keepalives that contains a
      BEGIN: the bytes written are the input if and only if every nonempty chunk
      got a decodable set of packets; with an END delivered the receiver then
      stops with EOT. */
  lemma EndToEnd(code: Code, cfg: SenderConfig, input: bytes, ls: seq<Label>, from: seq<nat>)
    requires Sound(code) && Accepted(cfg) && |input| < FIRST_RESERVED
    requires InOrder(StreamOf(code, cfg, input), ls, from) && LBegin in ls
    ensures var st := StreamOf(code, cfg, input);
      && Valid(st) && AllInStream(st, ls)
      && var o := Receive(code, RawAll(st, ls));
         && (Concat(o.blocks) == input <==> AllDone(st, ls, |st.chunks|))
         && (AllDone(st, ls, |st.chunks|) && LEnd in ls ==> o.stop == Eot)
  {
    var st := StreamOf(code, cfg, input);
    StreamOfValid(code, cfg, input);
    StreamOfEmptyOnlyLast(code, cfg, input);
    InOrderStaged(st, ls, from);
    OutputIsInput(st, ls);
  }

  // ---- Lossless delivery ----

  lemma {:induction false} IdsOfMember(ls: seq<Label>, c: nat, i: nat)
    requires i < |ls| && ls[i].LData? && ls[i].c == c
    ensures ls[i].id in IdsOf(ls, c)
  {
    if i < |ls| - 1 {
      IdsOfMember(ls[..|ls| - 1], c, i);
    }
  }

  /** Where symbol i of chunk c is among the data packets. */
  lemma {:induction false} DataLabelAt(st: Stream, k: nat, c: nat, i: nat) returns (j: nat)
    requires Accepted(st.cfg) && c < k <= |st.chunks| && i < |ChunkLabels(st, c)|
    ensures j < |DataLabels(st, k)| && DataLabels(st, k)[j] == ChunkLabels(st, c)[i]
  {
    if c == k - 1 {
      j := |DataLabels(st, c)| + i;
    } else {
      j := DataLabelAt(st, k - 1, c, i);
    }
  }

  lemma SenderLabelAt(st: Stream, c: nat, id: nat) returns (j: nat)
    requires Accepted(st.cfg) && c < |st.chunks|
    requires id < EmissionCount(st.cfg, |st.chunks[c]|) && id < 0x1_0000_0000
    ensures j < |SenderLabels(st)| && SenderLabels(st)[j] == LData(c, id)
  {
    j := DataLabelAt(st, |st.chunks|, c, id);
    assert ChunkLabels(st, c)[id] == LData(c, id);
    j := SALVE_LEN + j;
  }

  lemma SenderIds(st: Stream, c: nat, id: nat)
    requires Accepted(st.cfg) && c < |st.chunks|
    requires id < EmissionCount(st.cfg, |st.chunks[c]|) && id < 0x1_0000_0000
    ensures id in IdsOf(SenderLabels(st), c)
  {
    var j := SenderLabelAt(st, c, id);
    IdsOfMember(SenderLabels(st), c, j);
  }

  lemma EnoughEmissions(st: Stream, c: nat)
    requires Valid(st) && c < |st.chunks| && |st.chunks[c]| > st.cfg.pktSize - HEADER_LEN
    ensures var k := Blocks(|st.chunks[c]|, st.cfg.pktSize - HEADER_LEN);
      2 <= k <= MAX_N_PKT && k <= EmissionCount(st.cfg, |st.chunks[c]|)
  {
    var len := |st.chunks[c]|;
    CodedRange(st.cfg, len);
    PacketCountLeast(len, BlockSize(st.cfg.pktSize, len), st.cfg.redund, 0);
  }

  lemma SenderCompletes(st: Stream, c: nat)
    requires Valid(st) && SourceBlocksSuffice(st.code) && c < |st.chunks| && |st.chunks[c]| > 0
    ensures Done(st, SenderLabels(st), c)
  {
    var len, p := |st.chunks[c]|, st.cfg.pktSize - HEADER_LEN;
    var ids := IdsOf(SenderLabels(st), c);
    SenderIds(st, c, 0);
    if len > p {
      EnoughEmissions(st, c);
      var k := Blocks(len, p);
      assert Ids(k) <= ids by {
        forall id | id in Ids(k)
          ensures id in ids
        {
          SenderIds(st, c, id);
        }
      }
      assert st.code.decodable(len, p, Ids(k));
      assert st.code.decodable(len, p, ids);
    }
  }

  /** A delivery that loses nothing transfers every input exactly. */
  lemma LosslessDelivery(code: Code, cfg: SenderConfig, input: bytes)
    requires Sound(code) && SourceBlocksSuffice(code) && Accepted(cfg) && |input| < FIRST_RESERVED
    ensures var st := StreamOf(code, cfg, input);
      && Valid(st) && AllInStream(st, SenderLabels(st))
      && Concat(Receive(code, RawAll(st, SenderLabels(st))).blocks) == input
      && Receive(code, RawAll(st, SenderLabels(st))).stop == Eot
  {
    var st := StreamOf(code, cfg, input);
    StreamOfValid(code, cfg, input);
    var ls := SenderLabels(st);
    assert ls[0] == LBegin && ls[|ls| - 1] == LEnd;
    EndToEnd(code, cfg, input, ls, seq(|ls|, i requires i >= 0 => i));
    forall c | 0 <= c < |st.chunks| && |st.chunks[c]| > 0
      ensures Done(st, ls, c)
    {
      SenderCompletes(st, c);
    }
  }

  /** With the systematic code the result needs no assumption about a code. */
  lemma LosslessSystematic(cfg: SenderConfig, input: bytes)
    requires Accepted(cfg) && |input| < FIRST_RESERVED
    ensures var st := StreamOf(Systematic(), cfg, input);
      && Valid(st) && AllInStream(st, SenderLabels(st))
      && Concat(Receive(Systematic(), RawAll(st, SenderLabels(st))).blocks) == input
      && Receive(Systematic(), RawAll(st, SenderLabels(st))).stop == Eot
  {
    SystematicIsSound();
    LosslessDelivery(Systematic(), cfg, input);
  }

  /** A clean end proves nothing by itself: if only BEGIN and END arrive, the
      receiver stops with EOT and has written nothing, whatever was sent. */
  lemma SilentLoss(st: Stream)
    requires Valid(st)
    ensures Receive(st.code, RawAll(st, [LBegin, LEnd])) == Outcome([], Eot)
  {
    var ls := [LBegin, LEnd];
    ExactOutcome(st, ls);
    forall c | 0 <= c < |st.chunks|
      ensures IdsOf(ls, c) == {}
    {
      IdsOfNone(ls, c);
    }
    DoneBelowGap(st, ls, 0, FirstBroken(st, ls, 0));
  }
}
