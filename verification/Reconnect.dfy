/**
 The notification client's reconnect loop: exponential back-off, failure
 counters, status reports and the throttled fallback-sync request. Times are in
 milliseconds on one monotone clock; what the network, the canceller and the
 event receiver do in each pass is the loop's input.
 */
module Reconnect {
  import opened Text
  import opened Numbers

  const U32_MAX: nat := 0xFFFF_FFFF
  const U64_MAX: nat := 0xFFFF_FFFF_FFFF_FFFF
  const FIRST_BACKOFF: nat := 1_000

  datatype Options = Options(threshold: nat, maxBackoff: nat, interval: nat)

  /** How an established connection ends: only a loss is followed by a retry. */
  datatype End = Lost | CancelledMeanwhile | ReceiverGone

  /**
   What one pass of the loop meets, each part looked at only if the pass gets
   that far. `decided` and `marked` are the two clock readings around a
   fallback request.
   */
  datatype Round = Round(cancelled: bool, urlOk: bool, connectOk: bool, end: End, decided: nat, marked: nat)

  datatype Notice =
    | Connected(connects: nat)
    | Degraded(connects: nat, consecutive: nat, total: nat, retryIn: nat)
    | Stopped
    | FallbackDue(at: nat)
    | Waits(delay: nat)

  // --- The loop as written ------------------------------------------------

  predicate Due(o: Options, last: Option<nat>, now: nat) {
    o.interval > 0 && (last.Some? ==> now - last.value >= o.interval)
  }

  /** One pass of the loop body, up to the wait or to the end of the loop. */
  method Pass(o: Options, s: Loop, r: Round) returns (t: Loop, out: seq<Notice>)
    requires !s.over
    ensures t == Step(o, s, r)
    ensures out == Out(o, s, r)
  {
    t, out := s, [];
    if r.cancelled {
      return t.(over := true), [Stopped];
    }
    if t.first {
      t := t.(first := false);
    } else if !r.urlOk {
      return t.(over := true), [Degraded(t.connects, t.consecutive, t.total, t.backoff)];
    } else if r.connectOk {
      t := t.(consecutive := 0, backoff := FIRST_BACKOFF);
      t := t.(connects := Min(t.connects + 1, U64_MAX));
      out := [Connected(t.connects)];
    } else {
      t := t.(consecutive := Min(t.consecutive + 1, U32_MAX));
      t := t.(total := Min(t.total + 1, U32_MAX));
      out := [Degraded(t.connects, t.consecutive, t.total, t.backoff)];
      if t.consecutive >= o.threshold && Due(o, t.lastSent, r.decided) {
        t := t.(lastSent := Some(r.marked));
        out := out + [FallbackDue(r.marked)];
      }
      out := out + [Waits(t.backoff)];
      t := t.(backoff := Min(t.backoff * 2, o.maxBackoff));
      return;
    }
    if !r.end.Lost? {
      return s.(over := true), out + [Stopped];
    }
    if Due(o, t.lastSent, r.decided) {
      t := t.(lastSent := Some(r.marked));
      out := out + [FallbackDue(r.marked)];
    }
    out := out + [Degraded(t.connects, t.consecutive, t.total, t.backoff)];
    out := out + [Waits(t.backoff)];
    t := t.(backoff := Min(t.backoff * 2, o.maxBackoff));
  }

  method RunMessageLoop(o: Options, initial: bool, rounds: seq<Round>) returns (log: seq<Notice>)
    ensures log == Log(o, initial, rounds)
  {
    var s, i := Start(initial), 0;
    log := if initial then [Connected(1)] else [];
    while i < |rounds| && !s.over
      invariant 0 <= i <= |rounds|
      invariant s == After(o, initial, rounds[..i])
      invariant log == Log(o, initial, rounds[..i])
    {
      OneMore(o, initial, rounds, i);
      var out;
      s, out := Pass(o, s, rounds[i]);
      log := log + out;
      i := i + 1;
    }
    NothingAfter(o, initial, rounds, i);
  }

  // --- The loop as a function of its rounds -------------------------------

  datatype Loop = Loop(backoff: nat, consecutive: nat, total: nat, connects: nat, lastSent: Option<nat>, first: bool, over: bool)

  function Sent(o: Options, s: Loop, r: Round): seq<Notice> {
    if Due(o, s.lastSent, r.decided) then [FallbackDue(r.marked)] else []
  }

  function Mark(o: Options, s: Loop, r: Round): Option<nat> {
    if Due(o, s.lastSent, r.decided) then Some(r.marked) else s.lastSent
  }

  function Refused(s: Loop): Loop {
    s.(consecutive := Min(s.consecutive + 1, U32_MAX), total := Min(s.total + 1, U32_MAX))
  }

  function Joined(s: Loop): Loop {
    if s.first then s.(first := false)
    else s.(consecutive := 0, backoff := FIRST_BACKOFF, connects := Min(s.connects + 1, U64_MAX))
  }

  function Doubled(o: Options, s: Loop): Loop {
    s.(backoff := Min(s.backoff * 2, o.maxBackoff))
  }

  function Status(s: Loop): Notice {
    Degraded(s.connects, s.consecutive, s.total, s.backoff)
  }

  function Step(o: Options, s: Loop, r: Round): Loop {
    if s.over then s
    else if Final(s.first, r) then s.(over := true)
    else if Fails(s.first, r) then
      var t := Refused(s);
      Doubled(o, if t.consecutive >= o.threshold then t.(lastSent := Mark(o, s, r)) else t)
    else Doubled(o, Joined(s).(lastSent := Mark(o, s, r)))
  }

  function Out(o: Options, s: Loop, r: Round): seq<Notice> {
    if s.over then []
    else if r.cancelled then [Stopped]
    else if !s.first && !r.urlOk then [Status(s)]
    else if Fails(s.first, r) then
      var t := Refused(s);
      [Status(t)] + (if t.consecutive >= o.threshold then Sent(o, s, r) else []) + [Waits(t.backoff)]
    else
      var t := Joined(s);
      (if s.first then [] else [Connected(t.connects)])
      + if r.end.Lost? then Sent(o, s, r) + [Status(t), Waits(t.backoff)] else [Stopped]
  }

  function Start(initial: bool): Loop {
    Loop(FIRST_BACKOFF, 0, 0, if initial then 1 else 0, None, initial, false)
  }

  function After(o: Options, initial: bool, rounds: seq<Round>): Loop {
    if rounds == [] then Start(initial) else Step(o, After(o, initial, rounds[..|rounds| - 1]), rounds[|rounds| - 1])
  }

  function Log(o: Options, initial: bool, rounds: seq<Round>): seq<Notice> {
    if rounds == [] then if initial then [Connected(1)] else []
    else Log(o, initial, rounds[..|rounds| - 1]) + Out(o, After(o, initial, rounds[..|rounds| - 1]), rounds[|rounds| - 1])
  }

  lemma {:induction false} OneMore(o: Options, initial: bool, rounds: seq<Round>, i: nat)
    requires i < |rounds|
    ensures var s := After(o, initial, rounds[..i]);
      && After(o, initial, rounds[..i + 1]) == Step(o, s, rounds[i])
      && Log(o, initial, rounds[..i + 1]) == Log(o, initial, rounds[..i]) + Out(o, s, rounds[i])
  {
    assert rounds[..i + 1][..i] == rounds[..i];
  }

  lemma {:induction false} NothingAfter(o: Options, initial: bool, rounds: seq<Round>, k: nat)
    requires k <= |rounds| && (k < |rounds| ==> After(o, initial, rounds[..k]).over)
    ensures Log(o, initial, rounds) == Log(o, initial, rounds[..k]) && After(o, initial, rounds) == After(o, initial, rounds[..k])
    decreases |rounds|
  {
    if k < |rounds| {
      var before := rounds[..|rounds| - 1];
      assert before[..k] == rounds[..k];
      NothingAfter(o, initial, before, k);
    } else {
      assert rounds[..k] == rounds;
    }
  }

  // --- What the rounds themselves say -------------------------------------

  /** The pass is refused a connection. */
  predicate Fails(first: bool, r: Round) {
    !r.cancelled && !first && r.urlOk && !r.connectOk
  }

  /** The pass makes a connection of its own. */
  predicate Joins(first: bool, r: Round) {
    !r.cancelled && !first && r.urlOk && r.connectOk
  }

  /** The loop ends with this pass. */
  predicate Final(first: bool, r: Round) {
    r.cancelled || (!first && !r.urlOk) || ((first || r.connectOk) && !r.end.Lost?)
  }

  /** The pass being looked at is the one given a connection at start. */
  predicate First(initial: bool, before: seq<Round>) {
    initial && before == []
  }

  predicate Alive(initial: bool, rounds: seq<Round>) {
    rounds == [] || (Alive(initial, rounds[..|rounds| - 1]) && !Final(First(initial, rounds[..|rounds| - 1]), rounds[|rounds| - 1]))
  }

  /** Waits since the loop last made a connection, or since it started. */
  function WaitsSince(initial: bool, rounds: seq<Round>): nat {
    if rounds == [] then 0
    else
      var before, r := rounds[..|rounds| - 1], rounds[|rounds| - 1];
      1 + if Joins(First(initial, before), r) then 0 else WaitsSince(initial, before)
  }

  /** Refusals since the loop last made a connection, or since it started. */
  function FailsSince(initial: bool, rounds: seq<Round>): nat {
    if rounds == [] then 0
    else
      var before, r := rounds[..|rounds| - 1], rounds[|rounds| - 1];
      if Joins(First(initial, before), r) then 0
      else FailsSince(initial, before) + if Fails(First(initial, before), r) then 1 else 0
  }

  function FailsTotal(initial: bool, rounds: seq<Round>): nat {
    if rounds == [] then 0
    else
      var before, r := rounds[..|rounds| - 1], rounds[|rounds| - 1];
      FailsTotal(initial, before) + if Fails(First(initial, before), r) then 1 else 0
  }

  function Connections(initial: bool, rounds: seq<Round>): nat {
    if rounds == [] then if initial then 1 else 0
    else
      var before, r := rounds[..|rounds| - 1], rounds[|rounds| - 1];
      Connections(initial, before) + if Joins(First(initial, before), r) then 1 else 0
  }

  function Pow2(j: nat): (p: nat)
    ensures p >= 1
  {
    if j == 0 then 1 else 2 * Pow2(j - 1)
  }

  /** 2^j seconds, at most `maxBackoff`; the very first second is not capped. */
  function Delay(o: Options, j: nat): nat {
    if j == 0 then 1_000 else Min(1_000 * Pow2(j), o.maxBackoff)
  }

  lemma {:induction false} FailsSinceWithinTotal(initial: bool, rounds: seq<Round>)
    ensures FailsSince(initial, rounds) <= FailsTotal(initial, rounds)
    decreases |rounds|
  {
    if rounds != [] {
      FailsSinceWithinTotal(initial, rounds[..|rounds| - 1]);
    }
  }

  lemma {:induction false} DelayDoubles(o: Options, j: nat)
    ensures Min(Delay(o, j) * 2, o.maxBackoff) == Delay(o, j + 1)
  {
    assert Pow2(j + 1) == 2 * Pow2(j);
  }

  // --- Back-off and counters ----------------------------------------------

  /** The loop's variables are what the rounds so far make them. */
  ghost predicate Counts(o: Options, initial: bool, rounds: seq<Round>, s: Loop) {
    && !s.over
    && s.first == First(initial, rounds)
    && s.backoff == Delay(o, WaitsSince(initial, rounds))
    && s.consecutive == Min(FailsSince(initial, rounds), U32_MAX)
    && s.total == Min(FailsTotal(initial, rounds), U32_MAX)
    && s.connects == Min(Connections(initial, rounds), U64_MAX)
  }

  lemma {:induction false} RunCounts(o: Options, initial: bool, rounds: seq<Round>)
    requires Alive(initial, rounds)
    ensures Counts(o, initial, rounds, After(o, initial, rounds))
    decreases |rounds|
  {
    if rounds != [] {
      var before, r := rounds[..|rounds| - 1], rounds[|rounds| - 1];
      RunCounts(o, initial, before);
      StepCounts(o, initial, before, r, After(o, initial, before));
      assert before + [r] == rounds;
    }
  }

  lemma {:induction false} StepCounts(o: Options, initial: bool, before: seq<Round>, r: Round, s: Loop)
    requires Counts(o, initial, before, s) && !Final(First(initial, before), r)
    ensures Counts(o, initial, before + [r], Step(o, s, r))
  {
    assert (before + [r])[..|before|] == before;
    DelayDoubles(o, WaitsSince(initial, before));
    DelayDoubles(o, 0);
    hide Delay;
  }

  /** Waits since the last connection at the moment this pass waits. */
  function WaitsBefore(initial: bool, before: seq<Round>, r: Round): nat {
    if Joins(First(initial, before), r) then 0 else WaitsSince(initial, before)
  }

  predicate IsStatus(n: Notice) {
    n.Degraded?
  }

  /**
   Every pass that goes on to retry reports one degraded status, carrying the
   counts of everything so far and the very delay it then waits; that delay is
   min(2^j seconds, max) exactly when the maximum is at least a second or it is
   not the first wait since connecting.
   */
  lemma {:induction false} RetryReport(o: Options, initial: bool, before: seq<Round>, r: Round)
    requires Alive(initial, before + [r])
    ensures var out := Out(o, After(o, initial, before), r);
      var j := WaitsBefore(initial, before, r);
      var rounds := before + [r];
      var status := Degraded(
        Min(Connections(initial, rounds), U64_MAX), Min(FailsSince(initial, rounds), U32_MAX),
        Min(FailsTotal(initial, rounds), U32_MAX), Delay(o, j));
      && out != [] && out[|out| - 1] == Waits(Delay(o, j))
      && status in out && (forall n <- out :: IsStatus(n) ==> n == status)
      && status.consecutive <= status.total
      && (Delay(o, j) == Min(1_000 * Pow2(j), o.maxBackoff) <==> j > 0 || o.maxBackoff >= 1_000)
  {
    assert (before + [r])[..|before|] == before;
    RunCounts(o, initial, before);
    FailsSinceWithinTotal(initial, before + [r]);
    var s := After(o, initial, before);
    var j := WaitsBefore(initial, before, r);
    var t := if Fails(s.first, r) then Refused(s) else Joined(s);
    assert t.backoff == Delay(o, j);
    assert Status(t) in Out(o, s, r);
  }

  // --- Fallback requests are never too close ------------------------------

  function Requests(log: seq<Notice>): seq<nat> {
    if log == [] then []
    else Requests(log[..|log| - 1]) + if log[|log| - 1].FallbackDue? then [log[|log| - 1].at] else []
  }

  lemma {:induction false} RequestsAppend(a: seq<Notice>, b: seq<Notice>)
    ensures Requests(a + b) == Requests(a) + Requests(b)
    decreases |b|
  {
    if b == [] {
      assert a + b == a;
    } else {
      assert (a + b)[..|a + b| - 1] == a + b[..|b| - 1];
      RequestsAppend(a, b[..|b| - 1]);
    }
  }

  /** Whether this pass asks for a fallback sync. */
  predicate Asks(o: Options, s: Loop, r: Round) {
    !s.over && !Final(s.first, r) && (Fails(s.first, r) ==> Refused(s).consecutive >= o.threshold) && Due(o, s.lastSent, r.decided)
  }

  ghost predicate Quiet(log: seq<Notice>) {
    forall n <- log :: !n.FallbackDue?
  }

  lemma {:induction false} NoRequests(log: seq<Notice>)
    requires Quiet(log)
    ensures Requests(log) == []
    decreases |log|
  {
    if log != [] {
      NoRequests(log[..|log| - 1]);
    }
  }

  lemma {:induction false} RequestsAmid(a: seq<Notice>, asked: bool, at: nat, b: seq<Notice>)
    requires Quiet(a) && Quiet(b)
    ensures Requests(a + (if asked then [FallbackDue(at)] else []) + b) == if asked then [at] else []
  {
    NoRequests(a);
    NoRequests(b);
    var mid := if asked then [FallbackDue(at)] else [];
    assert Requests(mid) == if asked then [at] else [];
    RequestsAppend(a, mid);
    RequestsAppend(a + mid, b);
    hide Requests;
  }

  lemma {:induction false} RequestsOfPass(o: Options, s: Loop, r: Round)
    ensures Requests(Out(o, s, r)) == if Asks(o, s, r) then [r.marked] else []
    ensures Step(o, s, r).lastSent == if Asks(o, s, r) then Some(r.marked) else s.lastSent
  {
    hide Requests;
    var out, asks := Out(o, s, r), Asks(o, s, r);
    if s.over || Final(s.first, r) {
      NoRequests(out);
    } else if Fails(s.first, r) {
      var t := Refused(s);
      RequestsAmid([Status(t)], asks, r.marked, [Waits(t.backoff)]);
    } else {
      var t := Joined(s);
      var hello := if s.first then [] else [Connected(t.connects)];
      RequestsAmid(hello, asks, r.marked, [Status(t), Waits(t.backoff)]);
      assert out == hello + Sent(o, s, r) + [Status(t), Waits(t.backoff)];
    }
  }

  ghost predicate ClockRuns(rounds: seq<Round>) {
    forall k :: 0 <= k < |rounds| ==> rounds[k].decided <= rounds[k].marked
  }

  ghost predicate Spaced(times: seq<nat>, interval: nat) {
    forall i :: 0 < i < |times| ==> times[i] >= times[i - 1] + interval
  }

  /** Requests sent so far, and the time the loop remembers of the last. */
  ghost predicate Record(sent: seq<nat>, last: Option<nat>, interval: nat) {
    && Spaced(sent, interval)
    && (interval == 0 ==> sent == [])
    && last == if sent == [] then None else Some(sent[|sent| - 1])
  }

  lemma {:induction false} RecordOne(o: Options, sent: seq<nat>, last: Option<nat>, r: Round)
    requires Record(sent, last, o.interval) && Due(o, last, r.decided) && r.decided <= r.marked
    ensures Record(sent + [r.marked], Some(r.marked), o.interval)
  {
  }

  lemma {:induction false} RequestsAreSpaced(o: Options, initial: bool, rounds: seq<Round>)
    requires ClockRuns(rounds)
    ensures Record(Requests(Log(o, initial, rounds)), After(o, initial, rounds).lastSent, o.interval)
    decreases |rounds|
  {
    if rounds == [] {
      NoRequests(Log(o, initial, []));
    } else {
      var before, r := rounds[..|rounds| - 1], rounds[|rounds| - 1];
      var s := After(o, initial, before);
      RequestsAreSpaced(o, initial, before);
      RequestsOfPass(o, s, r);
      RequestsAppend(Log(o, initial, before), Out(o, s, r));
      var sent := Requests(Log(o, initial, before));
      if Asks(o, s, r) {
        RecordOne(o, sent, s.lastSent, r);
      }
      hide Step, Out, Requests, Record, Asks;
      assert sent + [] == sent;
    }
  }

  /** Whether a request may be sent, from the requests sent so far. */
  predicate MaySend(o: Options, sent: seq<nat>, now: nat) {
    o.interval > 0 && (sent == [] || now - sent[|sent| - 1] >= o.interval)
  }

  /**
   All that one pass reports, in order, from the history of the passes before
   it: a loss, or a refusal past the threshold, asks for a fallback sync exactly
   when the interval has passed since the last request.
   */
  lemma {:induction false} PassReports(o: Options, initial: bool, before: seq<Round>, r: Round)
    requires Alive(initial, before) && ClockRuns(before)
    ensures var first, rounds := First(initial, before), before + [r];
      var ask := if MaySend(o, Requests(Log(o, initial, before)), r.decided) then [FallbackDue(r.marked)] else [];
      var connects, total := Min(Connections(initial, rounds), U64_MAX), Min(FailsTotal(initial, rounds), U32_MAX);
      var failures, delay := Min(FailsSince(initial, rounds), U32_MAX), Delay(o, WaitsBefore(initial, before, r));
      var status := Degraded(connects, failures, total, delay);
      var hello := if first then [] else [Connected(connects)];
      Log(o, initial, rounds) == Log(o, initial, before) +
        if r.cancelled then [Stopped]
        else if !first && !r.urlOk then [status]
        else if !first && !r.connectOk then [status] + (if failures >= o.threshold then ask else []) + [Waits(delay)]
        else if r.end != Lost then hello + [Stopped]
        else hello + ask + [status] + [Waits(delay)]
  {
    assert (before + [r])[..|before|] == before;
    RunCounts(o, initial, before);
    RequestsAreSpaced(o, initial, before);
    var s := After(o, initial, before);
    hide Requests, Spaced, Alive, Delay, After;
    var ask := if MaySend(o, Requests(Log(o, initial, before)), r.decided) then [FallbackDue(r.marked)] else [];
    assert Sent(o, s, r) == ask;
    PassOut(o, initial, before, r, s);
  }

  lemma {:induction false} PassOut(o: Options, initial: bool, before: seq<Round>, r: Round, s: Loop)
    requires Counts(o, initial, before, s)
    ensures var first, rounds := First(initial, before), before + [r];
      var connects, total := Min(Connections(initial, rounds), U64_MAX), Min(FailsTotal(initial, rounds), U32_MAX);
      var failures, delay := Min(FailsSince(initial, rounds), U32_MAX), Delay(o, WaitsBefore(initial, before, r));
      var status := Degraded(connects, failures, total, delay);
      var hello := if first then [] else [Connected(connects)];
      Out(o, s, r) ==
        if r.cancelled then [Stopped]
        else if !first && !r.urlOk then [status]
        else if !first && !r.connectOk then [status] + (if failures >= o.threshold then Sent(o, s, r) else []) + [Waits(delay)]
        else if r.end != Lost then hello + [Stopped]
        else hello + Sent(o, s, r) + [status] + [Waits(delay)]
  {
    assert (before + [r])[..|before|] == before;
  }

  lemma {:induction false} SpacedApart(times: seq<nat>, interval: nat, i: nat, j: nat)
    requires Spaced(times, interval) && i <= j < |times|
    ensures times[j] >= times[i] + (j - i) * interval
    decreases j
  {
    if i < j {
      SpacedApart(times, interval, i, j - 1);
      assert (j - i) * interval == (j - 1 - i) * interval + interval;
    }
  }

  function Within(times: seq<nat>, from: nat, until: nat): nat {
    if times == [] then 0
    else Within(times[..|times| - 1], from, until) + if from <= times[|times| - 1] <= until then 1 else 0
  }

  /** The times in the window are the `Within` last ones not after it. */
  lemma {:induction false} FirstWithin(times: seq<nat>, interval: nat, from: nat, until: nat)
    requires Spaced(times, interval) && times != [] && Within(times, from, until) > 0 && times[|times| - 1] <= until
    ensures Within(times, from, until) <= |times| && times[|times| - Within(times, from, until)] >= from
    decreases |times|
  {
    var before := times[..|times| - 1];
    if before != [] && Within(before, from, until) > 0 {
      FirstWithin(before, interval, from, until);
      SpacedApart(times, interval, |before| - Within(before, from, until), |before|);
    }
  }

  /** `most` intervals outlast the window, so it holds at most that many. */
  lemma {:induction false} FewWithin(times: seq<nat>, interval: nat, from: nat, until: nat, most: nat)
    requires Spaced(times, interval) && from <= until && until - from < most * interval
    ensures Within(times, from, until) <= most
    decreases |times|
  {
    var n := Within(times, from, until);
    if n > 0 {
      if times[|times| - 1] > until {
        FewWithin(times[..|times| - 1], interval, from, until, most);
      } else {
        FirstWithin(times, interval, from, until);
        SpacedApart(times, interval, |times| - n, |times| - 1);
        FewerFactors(n - 1, most, interval);
      }
    }
  }

  lemma {:induction false} FewerFactors(a: int, b: int, c: nat)
    ensures a * c < b * c ==> a < b
  {
    if a >= b {
      assert (a - b) * c >= 0;
      assert a * c == b * c + (a - b) * c;
    }
  }

  lemma {:induction false} QuotientOutlasts(w: nat, interval: nat)
    requires interval > 0
    ensures w < (w / interval + 1) * interval
  {
    assert w == w / interval * interval + w % interval;
  }

  lemma {:induction false} SpacedRate(times: seq<nat>, interval: nat, from: nat, until: nat)
    requires Spaced(times, interval) && from <= until && interval > 0
    ensures Within(times, from, until) <= (until - from) / interval + 1
  {
    QuotientOutlasts(until - from, interval);
    FewWithin(times, interval, from, until, (until - from) / interval + 1);
  }

  lemma {:induction false} AllApart(times: seq<nat>, interval: nat)
    requires Spaced(times, interval)
    ensures forall i, j :: 0 <= i < j < |times| ==> times[j] >= times[i] + (j - i) * interval
  {
    forall i, j | 0 <= i < j < |times|
      ensures times[j] >= times[i] + (j - i) * interval
    {
      SpacedApart(times, interval, i, j);
    }
  }

  /** However the socket flaps, a window of length w holds at most w / interval + 1 requests; an interval of zero, none. */
  lemma {:induction false} RequestRate(o: Options, initial: bool, rounds: seq<Round>, from: nat, until: nat)
    requires ClockRuns(rounds) && from <= until
    ensures var sent := Requests(Log(o, initial, rounds));
      && (forall i, j :: 0 <= i < j < |sent| ==> sent[j] >= sent[i] + (j - i) * o.interval)
      && if o.interval == 0 then sent == [] else Within(sent, from, until) <= (until - from) / o.interval + 1
  {
    hide Log, Requests, Within, Spaced, ClockRuns;
    var sent := Requests(Log(o, initial, rounds));
    RequestsAreSpaced(o, initial, rounds);
    AllApart(sent, o.interval);
    if o.interval > 0 {
      SpacedRate(sent, o.interval, from, until);
    }
  }

  // --- Nor too far apart --------------------------------------------------

  predicate AsksAt(o: Options, initial: bool, rounds: seq<Round>, k: nat)
    requires k < |rounds|
  {
    Asks(o, After(o, initial, rounds[..k]), rounds[k])
  }

  /** Pass `k` is refused a connection and the failure threshold has been reached. */
  predicate PastThreshold(o: Options, initial: bool, rounds: seq<Round>, k: nat)
    requires k < |rounds|
  {
    Fails(First(initial, rounds[..k]), rounds[k]) && Min(FailsSince(initial, rounds[..k + 1]), U32_MAX) >= o.threshold
  }

  /**
   A connect attempt takes at most `connect`, a wait as long as it was told to,
   and everything else in a pass at most `lag`.
   */
  ghost predicate Prompt(o: Options, initial: bool, rounds: seq<Round>, k: nat, connect: nat, lag: nat)
    requires 0 < k < |rounds|
  {
    && rounds[k].decided <= rounds[k].marked <= rounds[k].decided + lag
    && rounds[k].decided <= rounds[k - 1].marked + Delay(o, WaitsBefore(initial, rounds[..k - 1], rounds[k - 1])) + connect
  }

  lemma {:induction false} AliveBefore(initial: bool, rounds: seq<Round>, k: nat)
    requires Alive(initial, rounds) && k <= |rounds|
    ensures Alive(initial, rounds[..k])
    decreases |rounds|
  {
    if k < |rounds| {
      AliveBefore(initial, rounds[..|rounds| - 1], k);
      assert rounds[..|rounds| - 1][..k] == rounds[..k];
    } else {
      assert rounds[..k] == rounds;
    }
  }

  /** Past the threshold a pass asks exactly when the interval is over. */
  lemma {:induction false} AsksWhenDue(o: Options, initial: bool, rounds: seq<Round>, k: nat)
    requires k < |rounds| && Alive(initial, rounds) && PastThreshold(o, initial, rounds, k)
    ensures AsksAt(o, initial, rounds, k) <==> Due(o, After(o, initial, rounds[..k]).lastSent, rounds[k].decided)
  {
    AliveBefore(initial, rounds, k);
    AliveBefore(initial, rounds, k + 1);
    assert rounds[..k + 1][..k] == rounds[..k];
    RunCounts(o, initial, rounds[..k]);
  }

  lemma {:induction false} SentAfter(o: Options, initial: bool, rounds: seq<Round>, i: nat, k: nat)
    requires i < k < |rounds| && AsksAt(o, initial, rounds, i)
    requires forall m :: i < m < k ==> !AsksAt(o, initial, rounds, m)
    ensures After(o, initial, rounds[..k]).lastSent == Some(rounds[i].marked)
    decreases k
  {
    assert rounds[..k][..k - 1] == rounds[..k - 1];
    RequestsOfPass(o, After(o, initial, rounds[..k - 1]), rounds[k - 1]);
    if k - 1 > i {
      assert !AsksAt(o, initial, rounds, k - 1);
      SentAfter(o, initial, rounds, i, k - 1);
    }
  }

  /**
   Past the threshold, a pass `k` with no request since pass `i` asked comes
   less than interval + longest wait + longest connect after it, and asks
   itself exactly when the interval is over.
   */
  lemma {:induction false} RequestsKeepComing(o: Options, initial: bool, rounds: seq<Round>, i: nat, k: nat, connect: nat, lag: nat)
    requires o.interval > 0 && Alive(initial, rounds) && i < k < |rounds| && AsksAt(o, initial, rounds, i)
    requires forall m :: i < m <= k ==> PastThreshold(o, initial, rounds, m) && Prompt(o, initial, rounds, m, connect, lag)
    requires forall m :: i < m < k ==> !AsksAt(o, initial, rounds, m)
    ensures rounds[k].marked < rounds[i].marked + o.interval + Max(1_000, o.maxBackoff) + connect + 2 * lag
    ensures AsksAt(o, initial, rounds, k) <==> rounds[k].decided >= rounds[i].marked + o.interval
  {
    SentAfter(o, initial, rounds, i, k);
    AsksWhenDue(o, initial, rounds, k);
    assert Prompt(o, initial, rounds, k, connect, lag);
    if k - 1 > i {
      SentAfter(o, initial, rounds, i, k - 1);
      AsksWhenDue(o, initial, rounds, k - 1);
      assert Prompt(o, initial, rounds, k - 1, connect, lag);
    }
  }

  /** The first pass past the threshold asks at once if nothing was asked before. */
  lemma {:induction false} FirstRequest(o: Options, initial: bool, rounds: seq<Round>, k: nat)
    requires o.interval > 0 && k < |rounds| && Alive(initial, rounds) && ClockRuns(rounds)
    requires PastThreshold(o, initial, rounds, k) && Requests(Log(o, initial, rounds[..k])) == []
    ensures AsksAt(o, initial, rounds, k)
  {
    AsksWhenDue(o, initial, rounds, k);
    RequestsAreSpaced(o, initial, rounds[..k]);
  }
}
