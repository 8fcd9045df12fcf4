/** The rate limiter of src/lib/limiter.c: bytes are counted in windows of 1001
    packets, and a window ends with a sleep loop that lasts until its average rate
    is low enough. Time is in whole microseconds, as gettimeofday gives it. */
module Limiter {
  import opened Arithmetic

  const CHK_PERIOD: nat := 1000
  const SLEEP_PERIOD: nat := 100
  const SECOND: real := 1000000.0

  datatype Lim = Lim(byterate: real, nPkt: nat, nBytes: nat, since: nat, total: nat)

  function New(byterate: real, now: nat): Lim { Lim(byterate, 0, 0, now, 0) }

  /** hgap_limiter_get_current_rate at a given time: a window in which the clock
      has not moved counts as rate 0. */
  function RateAt(l: Lim, now: nat): real {
    var diff := (now - l.since) as real / SECOND;
    if diff == 0.0 then 0.0 else l.nBytes as real / diff
  }

  function Account(l: Lim, len: nat): Lim {
    l.(total := l.total + len, nPkt := l.nPkt + 1, nBytes := l.nBytes + len)
  }

  predicate Checks(l: Lim) { l.byterate != 0.0 && l.nPkt > CHK_PERIOD }

  /** hgap_limiter_reset_rate. */
  function Reset(l: Lim, now: nat): Lim { l.(since := now, nPkt := 0, nBytes := 0) }

  /** One call of hgap_limiter_limit: the packet, and the clock readings of the
      last rate check and of the reset, if the call makes them. */
  datatype Call = Call(len: nat, check: nat, reset: nat)

  function LimitStep(l: Lim, c: Call): Lim {
    var a := Account(l, c.len);
    if Checks(a) then Reset(a, c.reset) else a
  }

  /** The clock never goes back and the sleep loop was left for a low enough rate. */
  predicate Legal(l: Lim, c: Call) {
    var a := Account(l, c.len);
    Checks(a) ==> l.since <= c.check <= c.reset && RateAt(a, c.check) <= l.byterate
  }

  /** The rate is in bytes per second, time being in microseconds. */
  lemma RateIs(l: Lim, now: nat)
    requires l.since <= now
    ensures now > l.since ==> RateAt(l, now) * (now - l.since) as real == l.nBytes as real * 1000000.0
    ensures now == l.since ==> RateAt(l, now) == 0.0
  {
    var us := (now - l.since) as real;
    if now > l.since {
      var diff := us / SECOND;
      Quotient(us, SECOND);
      Quotient(l.nBytes as real, diff);
      assert RateAt(l, now) * diff * SECOND == RateAt(l, now) * us;
    }
  }

  /** A check passes if and only if the clock has not moved in the window or the bytes
      are within the byte rate. */
  lemma CheckPasses(l: Lim, byterate: real, now: nat)
    requires l.since <= now
    ensures RateAt(l, now) <= byterate <==>
      (if now == l.since then 0.0 <= byterate
       else l.nBytes as real * 1000000.0 <= byterate * (now - l.since) as real)
  {
    RateIs(l, now);
    if now > l.since {
      var us := (now - l.since) as real;
      if RateAt(l, now) > byterate {
        Scale(byterate, RateAt(l, now), us);
      } else if RateAt(l, now) < byterate {
        Scale(RateAt(l, now), byterate, us);
      }
    }
  }

  /** More bytes than the byte rate, which is per second, allows in so many
      microseconds. */
  predicate Exceeds(byterate: real, nBytes: nat, us: int) {
    nBytes as real * 1000000.0 > byterate * us as real
  }

  lemma CheckExceeds(l: Lim, byterate: real, now: nat)
    requires byterate > 0.0 && l.since <= now
    ensures RateAt(l, now) <= byterate <==> now == l.since || !Exceeds(byterate, l.nBytes, now - l.since)
  {
    CheckPasses(l, byterate, now);
  }

  // ---- The limiter object ----

  /** A call of usleep: when it was entered and for how long it was to sleep. */
  datatype Nap = Nap(at: nat, us: nat)

  class Clock {
    var now: nat
    ghost var naps: seq<Nap>

    constructor ()
    {
      now := 0;
      naps := [];
    }

    method GetTimeOfDay() returns (t: nat)
      modifies `now
      ensures t == now >= old(now)
    {
      var passed: int := *;
      if passed > 0 { now := now + passed; }
      t := now;
    }

    method Usleep(us: nat)
      modifies `now, `naps
      ensures now >= old(now) + us && naps == old(naps) + [Nap(old(now), us)]
    {
      var late: int := *;
      naps := naps + [Nap(now, us)];
      now := now + us;
      if late > 0 { now := now + late; }
    }
  }

  /** Naps of a window, before `now`: each entered when the rate read too high. */
  ghost predicate Needed(l: Lim, byterate: real, naps: seq<Nap>, now: nat) {
    forall i :: 0 <= i < |naps| ==>
      naps[i].us == SLEEP_PERIOD && l.since <= naps[i].at < now && RateAt(l, naps[i].at) > byterate
  }

  lemma NextNap(l: Lim, byterate: real, naps: seq<Nap>, from: nat, now: nat)
    requires from <= |naps| && Needed(l, byterate, naps[from..], now)
    requires l.since <= now && RateAt(l, now) > byterate
    ensures forall later: nat :: later > now ==>
      Needed(l, byterate, (naps + [Nap(now, SLEEP_PERIOD)])[from..], later)
  {
    var next := naps + [Nap(now, SLEEP_PERIOD)];
    assert next[from..] == naps[from..] + [Nap(now, SLEEP_PERIOD)];
  }

  lemma NeededJustified(l: Lim, byterate: real, naps: seq<Nap>, from: nat, now: nat)
    requires byterate > 0.0 && from <= |naps| && Needed(l, byterate, naps[from..], now)
    ensures forall i :: from <= i < |naps| ==>
      && naps[i].us == 100 && l.since <= naps[i].at < now
      && Exceeds(byterate, l.nBytes, naps[i].at - l.since)
  {
    forall i | from <= i < |naps|
      ensures naps[i].us == 100 && l.since <= naps[i].at < now
      ensures Exceeds(byterate, l.nBytes, naps[i].at - l.since)
    {
      assert naps[from..][i - from] == naps[i];
      CheckPasses(l, byterate, naps[i].at);
    }
  }

  class HgapLimiter {
    const byterate: real
    var nPkt: nat
    var nBytes: nat
    var since: nat
    var total: nat

    ghost function View(): Lim
      reads this
    {
      Lim(byterate, nPkt, nBytes, since, total)
    }

    constructor (byterate: real, clock: Clock)
      modifies clock
      ensures View() == New(byterate, clock.now) && clock.now >= old(clock.now) && clock.naps == old(clock.naps)
      ensures this.byterate == byterate && nPkt == nBytes == total == 0 && since == clock.now
    {
      this.byterate := byterate;
      var t := clock.GetTimeOfDay();
      since := t;
      nPkt, nBytes, total := 0, 0, 0;
    }

    /** hgap_limiter_get_current_rate: bytes per second since the window began. */
    method GetCurrentRate(clock: Clock) returns (rate: real)
      requires since <= clock.now
      modifies clock
      ensures clock.now >= old(clock.now) && clock.naps == old(clock.naps)
      ensures rate == RateAt(View(), clock.now)
    {
      var t := clock.GetTimeOfDay();
      var diff := (t - since) as real / SECOND;
      if diff == 0.0 { rate := 0.0; } else { rate := nBytes as real / diff; }
    }

    /** hgap_limiter_limit. A call counts the packet. Unless a rate is set and more than
        1000 packets are in the window, it does nothing else and does not even look at
        the clock. Otherwise it sleeps, 100 microseconds at a time and only while the
        window exceeds the rate, until the window is within it or the clock stands
        still, and begins a new window. The sleep loop terminates. */
    method Limit(clock: Clock, len: nat) returns (ghost c: Call)
      requires byterate >= 0.0 && since <= clock.now
      modifies this, clock
      ensures c.len == len && Legal(old(View()), c) && View() == LimitStep(old(View()), c)
      ensures since <= clock.now && clock.now >= old(clock.now) && total == old(total) + len
      ensures byterate == 0.0 || old(nPkt) < 1000 ==>
        && nPkt == old(nPkt) + 1 && nBytes == old(nBytes) + len && since == old(since)
        && clock.now == old(clock.now) && clock.naps == old(clock.naps)
      ensures byterate != 0.0 && old(nPkt) >= 1000 ==>
        && nPkt == 0 && nBytes == 0 && since == clock.now
        && old(clock.now) <= c.check <= c.reset == clock.now
        && (c.check == old(since) || !Exceeds(byterate, old(nBytes) + len, c.check - old(since)))
        && old(clock.naps) <= clock.naps
        && forall i :: |old(clock.naps)| <= i < |clock.naps| ==>
             var nap := clock.naps[i];
             nap.us == 100 && old(since) <= nap.at < c.check
             && Exceeds(byterate, old(nBytes) + len, nap.at - old(since))
    {
      total := total + len;
      nPkt := nPkt + 1;
      nBytes := nBytes + len;
      c := Call(len, clock.now, clock.now);
      if byterate != 0.0 && nPkt > CHK_PERIOD {
        var rate := GetCurrentRate(clock);
        while rate > byterate
          invariant clock.now >= old(clock.now) && since <= clock.now
          invariant rate == RateAt(View(), clock.now)
          invariant View() == Account(old(View()), len)
          invariant old(clock.naps) <= clock.naps
          invariant Needed(View(), byterate, clock.naps[|old(clock.naps)|..], clock.now)
          decreases Deadline(nBytes, byterate) - (clock.now - since)
        {
          StillBefore(View(), byterate, clock.now);
          NextNap(View(), byterate, clock.naps, |old(clock.naps)|, clock.now);
          clock.Usleep(SLEEP_PERIOD);
          rate := GetCurrentRate(clock);
        }
        CheckExceeds(View(), byterate, clock.now);
        NeededJustified(View(), byterate, clock.naps, |old(clock.naps)|, clock.now);
        c := c.(check := clock.now);
        since := clock.GetTimeOfDay();
        nPkt := 0;
        nBytes := 0;
        c := c.(reset := since);
      }
    }
  }

  /** By this many microseconds the window's rate has become low enough. */
  function Deadline(nBytes: nat, byterate: real): int
  {
    if byterate > 0.0 then (nBytes as real * SECOND / byterate).Floor + 1 else 0
  }

  lemma StillBefore(l: Lim, byterate: real, now: nat)
    requires byterate > 0.0 && l.since <= now && RateAt(l, now) > byterate
    ensures now - l.since < Deadline(l.nBytes, byterate)
  {
    CheckPasses(l, byterate, now);
    Cross(l.nBytes as real * SECOND, byterate, (now - l.since) as real);
  }

  // ---- One window ----

  /** When a check lets the window pass, the window is within its byte rate if and
      only if the clock has moved since the window began or nothing was sent. */
  lemma CheckedWindow(l: Lim, byterate: real, now: nat)
    requires byterate > 0.0 && l.since <= now && RateAt(l, now) <= byterate
    ensures l.nBytes as real * 1000000.0 <= byterate * (now - l.since) as real
      <==> now > l.since || l.nBytes == 0
  {
    CheckPasses(l, byterate, now);
    assert byterate * 0.0 == 0.0;
  }

  // ---- Whole runs ----

  function RunCalls(l: Lim, cs: seq<Call>): Lim {
    if cs == [] then l else LimitStep(RunCalls(l, cs[..|cs| - 1]), cs[|cs| - 1])
  }

  predicate LegalRun(l: Lim, cs: seq<Call>) {
    cs != [] ==> LegalRun(l, cs[..|cs| - 1]) && Legal(RunCalls(l, cs[..|cs| - 1]), cs[|cs| - 1])
  }

  /** By the time of its check, the clock has moved in every window that carried bytes. */
  predicate ClockMoves(l: Lim, cs: seq<Call>) {
    cs != [] ==>
      var before, c := RunCalls(l, cs[..|cs| - 1]), cs[|cs| - 1];
      ClockMoves(l, cs[..|cs| - 1]) && Moved(before, c)
  }

  predicate Moved(l: Lim, c: Call) {
    var a := Account(l, c.len);
    Checks(a) ==> c.check > l.since || a.nBytes == 0
  }

  /** What is allowed, in millionths of a byte, in so many microseconds. The proof of the
      bound needs only that it adds up and grows. */
  type Measure = int -> real

  function Allowed(byterate: real): Measure { us => byterate * us as real }

  /** The byte rate is in bytes per second, so a second allows just that many. */
  lemma AllowedIs(byterate: real, us: int)
    ensures Allowed(byterate)(us) == byterate * us as real
    ensures Allowed(byterate)(1000000) == byterate * 1000000.0
  {
  }

  predicate Both(a: int, b: int) { true }

  ghost predicate Additive(allowed: Measure) {
    && allowed(0) == 0.0
    && forall a: int, b: int {:trigger Both(a, b)} :: Both(a, b) ==>
         && allowed(a + b) == allowed(a) + allowed(b)
         && (a <= b ==> allowed(a) <= allowed(b))
  }

  lemma AllowedAdds(byterate: real)
    requires byterate > 0.0
    ensures Additive(Allowed(byterate))
  {
    forall a: int, b: int
      ensures Allowed(byterate)(a + b) == Allowed(byterate)(a) + Allowed(byterate)(b)
      ensures a <= b ==> Allowed(byterate)(a) <= Allowed(byterate)(b)
    {
      Adds(byterate, a, b);
    }
  }

  lemma Adds(byterate: real, a: int, b: int)
    requires byterate > 0.0
    ensures byterate * (a + b) as real == byterate * a as real + byterate * b as real
    ensures a <= b ==> byterate * a as real <= byterate * b as real
  {
  }

  /** A call that ends a window leaves the window within what is allowed. */
  predicate Paced(l: Lim, c: Call, allowed: Measure) {
    Checks(Account(l, c.len)) ==>
      && l.since <= c.check <= c.reset
      && (l.nBytes + c.len) as real * 1000000.0 <= allowed(c.check - l.since)
  }

  predicate PacedRun(l: Lim, cs: seq<Call>, allowed: Measure) {
    cs != [] ==>
      PacedRun(l, cs[..|cs| - 1], allowed) && Paced(RunCalls(l, cs[..|cs| - 1]), cs[|cs| - 1], allowed)
  }

  lemma LegalIsPaced(l: Lim, byterate: real, c: Call)
    requires byterate > 0.0 && byterate == l.byterate && Legal(l, c) && Moved(l, c)
    ensures Paced(l, c, Allowed(byterate))
  {
    if Checks(Account(l, c.len)) {
      CheckedWindow(Account(l, c.len), byterate, c.check);
    }
  }

  lemma {:induction false} RunIsPaced(byterate: real, t0: nat, cs: seq<Call>)
    requires byterate > 0.0 && LegalRun(New(byterate, t0), cs) && ClockMoves(New(byterate, t0), cs)
    ensures PacedRun(New(byterate, t0), cs, Allowed(byterate))
  {
    if cs != [] {
      RunIsPaced(byterate, t0, cs[..|cs| - 1]);
      WindowCount(byterate, t0, cs[..|cs| - 1]);
      LegalIsPaced(RunCalls(New(byterate, t0), cs[..|cs| - 1]), byterate, cs[|cs| - 1]);
    }
  }

  /** All bytes before the current window are within what is allowed since `t0`, and
      the window's packets bound its bytes. */
  predicate Settled(l: Lim, allowed: Measure, t0: nat, maxLen: nat) {
    && t0 <= l.since && l.nBytes <= l.total
    && (l.total - l.nBytes) as real * 1000000.0 <= allowed(l.since - t0)
    && l.nPkt <= CHK_PERIOD && l.nBytes <= l.nPkt * maxLen
  }

  lemma StepSettled(l: Lim, allowed: Measure, c: Call, t0: nat, maxLen: nat)
    requires Additive(allowed) && l.byterate > 0.0 && c.len <= maxLen
    requires Settled(l, allowed, t0, maxLen) && Paced(l, c, allowed)
    ensures Settled(LimitStep(l, c), allowed, t0, maxLen)
    ensures Checks(Account(l, c.len)) ==> (l.total + c.len) as real * 1000000.0 <= allowed(c.check - t0)
  {
    Distribute(l.nPkt, 1, maxLen);
    if Checks(Account(l, c.len)) {
      assert Both(l.since - t0, c.check - l.since) && Both(c.check - t0, c.reset - t0);
      assert l.since - t0 + (c.check - l.since) == c.check - t0;
    }
  }

  /** The last call of this run checks the rate and ends a window. */
  predicate EndsWindow(l: Lim, cs: seq<Call>)
    requires cs != []
  {
    Checks(Account(RunCalls(l, cs[..|cs| - 1]), cs[|cs| - 1].len))
  }

  lemma {:induction false} RunSettled(l: Lim, allowed: Measure, t0: nat, cs: seq<Call>, maxLen: nat)
    requires Additive(allowed) && l.byterate > 0.0 && l == New(l.byterate, t0) && PacedRun(l, cs, allowed)
    requires forall i :: 0 <= i < |cs| ==> cs[i].len <= maxLen
    ensures RunCalls(l, cs).byterate == l.byterate && Settled(RunCalls(l, cs), allowed, t0, maxLen)
    ensures cs != [] && EndsWindow(l, cs) ==>
      RunCalls(l, cs).total as real * 1000000.0 <= allowed(cs[|cs| - 1].check - t0)
  {
    if cs != [] {
      var front := cs[..|cs| - 1];
      RunSettled(l, allowed, t0, front, maxLen);
      StepSettled(RunCalls(l, front), allowed, cs[|cs| - 1], t0, maxLen);
    }
  }

  /** The bound from the beginning of a run to any time after its last reset. */
  lemma PacedBound(l: Lim, allowed: Measure, t0: nat, cs: seq<Call>, maxLen: nat, now: nat)
    requires Additive(allowed) && l.byterate > 0.0 && l == New(l.byterate, t0) && PacedRun(l, cs, allowed)
    requires forall i :: 0 <= i < |cs| ==> cs[i].len <= maxLen
    requires RunCalls(l, cs).since <= now
    ensures t0 <= RunCalls(l, cs).since
    ensures RunCalls(l, cs).total as real * 1000000.0 <= allowed(now - t0) + (1000 * maxLen) as real * 1000000.0
  {
    var e := RunCalls(l, cs);
    RunSettled(l, allowed, t0, cs, maxLen);
    Multiples(e.nPkt, 1000, maxLen);
    assert Both(e.since - t0, now - t0);
    assert e.total as real == (e.total - e.nBytes) as real + e.nBytes as real;
  }

  /** Rate bound. With a clock that moves in every window that carries bytes, at
      every return the total exceeds what the byte rate allows since creation by at
      most 1000 packets of the largest size. */
  lemma RateBound(byterate: real, t0: nat, cs: seq<Call>, maxLen: nat)
    requires byterate > 0.0 && LegalRun(New(byterate, t0), cs) && ClockMoves(New(byterate, t0), cs)
    requires forall i :: 0 <= i < |cs| ==> cs[i].len <= maxLen
    ensures var l := RunCalls(New(byterate, t0), cs);
      && l.since >= t0
      && l.total as real * 1000000.0
           <= Allowed(byterate)(l.since - t0) + (1000 * maxLen) as real * 1000000.0
  {
    RunIsPaced(byterate, t0, cs);
    AllowedAdds(byterate);
    PacedBound(New(byterate, t0), Allowed(byterate), t0, cs, maxLen, RunCalls(New(byterate, t0), cs).since);
  }

  /** How many packets are in the current window: a window is 1001 packets. */
  lemma {:induction false} WindowCount(byterate: real, t0: nat, cs: seq<Call>)
    requires byterate > 0.0
    ensures RunCalls(New(byterate, t0), cs).byterate == byterate
    ensures RunCalls(New(byterate, t0), cs).nPkt == |cs| % 1001
  {
    if cs != [] {
      WindowCount(byterate, t0, cs[..|cs| - 1]);
      InLastNext(|cs| - 1);
    }
  }

  lemma RunExtends(l: Lim, cs: seq<Call>, c: Call)
    requires LegalRun(l, cs) && Legal(RunCalls(l, cs), c)
    ensures LegalRun(l, cs + [c]) && RunCalls(l, cs + [c]) == LimitStep(RunCalls(l, cs), c)
  {
    assert (cs + [c])[..|cs|] == cs;
  }

  function Sum(lens: seq<nat>): nat {
    if lens == [] then 0 else Sum(lens[..|lens| - 1]) + lens[|lens| - 1]
  }

  lemma RateBoundUntil(byterate: real, t0: nat, cs: seq<Call>, maxLen: nat, now: nat)
    requires byterate > 0.0 && LegalRun(New(byterate, t0), cs) && ClockMoves(New(byterate, t0), cs)
    requires forall i :: 0 <= i < |cs| ==> cs[i].len <= maxLen
    requires RunCalls(New(byterate, t0), cs).since <= now
    ensures RunCalls(New(byterate, t0), cs).total as real * 1000000.0
      <= Allowed(byterate)(now - t0) + (1000 * maxLen) as real * 1000000.0
  {
    RunIsPaced(byterate, t0, cs);
    AllowedAdds(byterate);
    PacedBound(New(byterate, t0), Allowed(byterate), t0, cs, maxLen, now);
  }

  lemma PacedTotal(byterate: real, t0: nat, cs: seq<Call>, maxLen: nat, total: nat, now: nat)
    requires byterate > 0.0 && LegalRun(New(byterate, t0), cs)
    requires forall i :: 0 <= i < |cs| ==> cs[i].len <= maxLen
    requires RunCalls(New(byterate, t0), cs).since <= now && RunCalls(New(byterate, t0), cs).total == total
    ensures ClockMoves(New(byterate, t0), cs) ==>
      total as real * 1000000.0 <= Allowed(byterate)(now - t0) + (1000 * maxLen) as real * 1000000.0
  {
    if ClockMoves(New(byterate, t0), cs) {
      RateBoundUntil(byterate, t0, cs, maxLen, now);
    }
  }

  /** The limiter object under one caller: the calls that send_loop makes, packet by
      packet, are a legal run, so the rate bound holds of the bytes it has sent. */
  method SendPaced(lim: HgapLimiter, clock: Clock, lens: seq<nat>, maxLen: nat, ghost t0: nat)
    returns (ghost cs: seq<Call>)
    requires lim.byterate > 0.0 && lim.View() == New(lim.byterate, t0) && t0 <= clock.now
    requires forall i :: 0 <= i < |lens| ==> lens[i] <= maxLen
    modifies lim, clock
    ensures |cs| == |lens| && forall i :: 0 <= i < |cs| ==> cs[i].len == lens[i]
    ensures LegalRun(New(lim.byterate, t0), cs) && lim.View() == RunCalls(New(lim.byterate, t0), cs)
    ensures lim.total == Sum(lens) && lim.since <= clock.now
    ensures lim.nPkt == |lens| % 1001
    ensures ClockMoves(New(lim.byterate, t0), cs) ==>
      Sum(lens) as real * 1000000.0
        <= Allowed(lim.byterate)(clock.now - t0) + (1000 * maxLen) as real * 1000000.0
  {
    cs := [];
    for i := 0 to |lens|
      invariant |cs| == i && forall j :: 0 <= j < i ==> cs[j].len == lens[j]
      invariant LegalRun(New(lim.byterate, t0), cs) && lim.View() == RunCalls(New(lim.byterate, t0), cs)
      invariant lim.total == Sum(lens[..i]) && lim.since <= clock.now
    {
      var c := lim.Limit(clock, lens[i]);
      RunExtends(New(lim.byterate, t0), cs, c);
      assert lens[..i + 1][..i] == lens[..i];
      cs := cs + [c];
    }
    assert lens[..|lens|] == lens;
    WindowCount(lim.byterate, t0, cs);
    PacedTotal(lim.byterate, t0, cs, maxLen, Sum(lens), clock.now);
  }

  /** The bytes at a check of such a run are within the byte rate at its time. */
  lemma RateBoundAtCheck(byterate: real, t0: nat, cs: seq<Call>, maxLen: nat)
    requires byterate > 0.0 && cs != [] && LegalRun(New(byterate, t0), cs) && ClockMoves(New(byterate, t0), cs)
    requires forall i :: 0 <= i < |cs| ==> cs[i].len <= maxLen
    requires EndsWindow(New(byterate, t0), cs)
    ensures RunCalls(New(byterate, t0), cs).total as real * 1000000.0 <= Allowed(byterate)(cs[|cs| - 1].check - t0)
  {
    RunIsPaced(byterate, t0, cs);
    AllowedAdds(byterate);
    RunSettled(New(byterate, t0), Allowed(byterate), t0, cs, maxLen);
  }

  // ---- A clock that stands still defeats the limiter ----

  function Burst(n: nat, len: nat, t: nat): (cs: seq<Call>)
    ensures |cs| == n
  {
    if n == 0 then [] else Burst(n - 1, len, t) + [Call(len, t, t)]
  }

  /** How many packets of a burst are in the current window. */
  function InLast(n: nat): (k: nat)
    ensures k <= CHK_PERIOD
  {
    n % (CHK_PERIOD + 1)
  }

  lemma InLastNext(n: nat)
    ensures InLast(n + 1) == if InLast(n) == CHK_PERIOD then 0 else InLast(n) + 1
  {
    ModNext(n, CHK_PERIOD + 1);
  }

  /** A packet while the clock stands still: even a full window passes its check. */
  lemma StillPasses(byterate: real, t0: nat, len: nat, k: nat, total: nat)
    requires byterate > 0.0 && k <= CHK_PERIOD
    ensures var l, c := Lim(byterate, k, k * len, t0, total), Call(len, t0, t0);
      var k' := if k == CHK_PERIOD then 0 else k + 1;
      Legal(l, c) && LimitStep(l, c) == Lim(byterate, k', k' * len, t0, total + len)
  {
    Distribute(k, 1, len);
  }

  lemma {:induction false} BurstPasses(byterate: real, t0: nat, len: nat, n: nat)
    requires byterate > 0.0
    ensures LegalRun(New(byterate, t0), Burst(n, len, t0))
    ensures RunCalls(New(byterate, t0), Burst(n, len, t0))
         == Lim(byterate, InLast(n), InLast(n) * len, t0, n * len)
  {
    if n > 0 {
      BurstPasses(byterate, t0, len, n - 1);
      assert Burst(n, len, t0)[..n - 1] == Burst(n - 1, len, t0);
      StillPasses(byterate, t0, len, InLast(n - 1), (n - 1) * len);
      InLastNext(n - 1);
      Distribute(n - 1, 1, len);
    }
  }

  /** A clock that stands still defeats the limiter: within one microsecond any
      number of windows of 1001 packets pass unthrottled at every byte rate, for the
      rate reads as 0, and the total exceeds the bound of RateBound. */
  lemma StalledClock(byterate: real, t0: nat, len: nat, windows: nat)
    requires byterate > 0.0 && len > 0 && windows > 0
    ensures var cs := Burst(1001 * windows, len, t0);
      var l := RunCalls(New(byterate, t0), cs);
      && LegalRun(New(byterate, t0), cs)
      && l.total == 1001 * windows * len && l.since == t0
      && l.total as real * 1000000.0 > Allowed(byterate)(l.since - t0) + (1000 * len) as real * 1000000.0
  {
    var n := 1001 * windows;
    BurstPasses(byterate, t0, len, n);
    BurstIsLong(n, len);
    Exceeding(byterate, n * len, len);
  }

  lemma BurstIsLong(n: nat, len: nat)
    requires n > 1000 && len > 0
    ensures n * len > 1000 * len
  {
    MultipleGap(1000, n, len);
  }

  lemma Exceeding(byterate: real, total: nat, len: nat)
    requires total > 1000 * len
    ensures total as real * 1000000.0 > Allowed(byterate)(0) + (1000 * len) as real * 1000000.0
  {
  }
}
