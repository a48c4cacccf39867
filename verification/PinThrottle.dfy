/**
 The brute-force throttle that the control channel and the PIN dialog share.
 Times and delays are in milliseconds on one monotone clock.
 */
module PinThrottle {
  import opened Text
  import opened Numbers

  const MAX_ATTEMPTS: nat := 5
  const BASE_DELAY: nat := 500
  const MAX_DELAY: nat := 5_000
  const LOCKOUT: nat := 30_000
  const U32_MAX: nat := 0xFFFF_FFFF

  // --- The shared state ---------------------------------------------------

  datatype Throttle = Throttle(failures: nat, lockedUntil: Option<nat>)

  const OPEN := Throttle(0, None)

  function Remaining(s: Throttle, now: nat): Option<nat> {
    if s.lockedUntil.Some? && s.lockedUntil.value > now then Some(s.lockedUntil.value - now) else None
  }

  function Expire(s: Throttle, now: nat): Throttle {
    if Remaining(s, now).Some? then s else s.(lockedUntil := None)
  }

  function Record(s: Throttle, success: bool, now: nat): Throttle {
    if success then OPEN
    else
      var n := Min(s.failures + 1, U32_MAX);
      Throttle(n, if n >= MAX_ATTEMPTS then Some(now + LOCKOUT) else s.lockedUntil)
  }

  /** `PinFailureState`, behind its mutex. */
  class PinFailureState {
    var failures: nat
    var lockedUntil: Option<nat>

    ghost function State(): Throttle
      reads this
    {
      Throttle(failures, lockedUntil)
    }

    constructor ()
      ensures State() == OPEN
    {
      failures, lockedUntil := 0, None;
    }

    method LockoutRemaining(now: nat) returns (wait: Option<nat>)
      modifies this
      ensures wait == Remaining(old(State()), now)
      ensures State() == Expire(old(State()), now)
      ensures wait == None ==> lockedUntil == None
    {
      match lockedUntil
      case Some(until) =>
        if until > now {
          return Some(until - now);
        }
        lockedUntil := None;
        return None;
      case None =>
        return None;
    }

    method RecordAttempt(success: bool, now: nat) returns (delay: nat)
      modifies this
      ensures State() == Record(old(State()), success, now)
      ensures delay == if success then 0 else Min(BASE_DELAY * failures, MAX_DELAY)
    {
      if success {
        failures, lockedUntil := 0, None;
        return 0;
      }
      failures := Min(failures + 1, U32_MAX);
      if failures >= MAX_ATTEMPTS {
        lockedUntil := Some(now + LOCKOUT);
      }
      return Min(BASE_DELAY * failures, MAX_DELAY);
    }

    /**
     One attempt on either path: refused while locked out, otherwise validated
     and recorded. The control channel then sleeps for the delay; the dialog
     does not.
     */
    method Try(a: Attempt) returns (accepted: bool, slept: nat)
      modifies this
      ensures State() == Step(old(State()), a)
      ensures accepted == (Admitted(old(State()), a) && a.valid)
      ensures slept == if a.path.Control? && Admitted(old(State()), a) && !a.valid then Min(BASE_DELAY * failures, MAX_DELAY) else 0
    {
      var wait := LockoutRemaining(a.checked);
      if wait.Some? {
        return false, 0;
      }
      var delay := RecordAttempt(a.valid, a.recorded);
      return a.valid, if a.path.Control? then delay else 0;
    }
  }

  // --- Traces of attempts -------------------------------------------------

  datatype Path = Control | Dialog

  /** An attempt: when the lockout was checked, when its outcome was recorded, whether the PIN was right. */
  datatype Attempt = Attempt(path: Path, checked: nat, recorded: nat, valid: bool)

  predicate Admitted(s: Throttle, a: Attempt) {
    Remaining(s, a.checked) == None
  }

  function Step(s: Throttle, a: Attempt): Throttle {
    if Admitted(s, a) then Record(Expire(s, a.checked), a.valid, a.recorded) else s
  }

  function After(tr: seq<Attempt>): Throttle {
    if tr == [] then OPEN else Step(After(tr[..|tr| - 1]), tr[|tr| - 1])
  }

  /** The attempts whose PIN was in fact validated, in order. */
  function Validated(tr: seq<Attempt>): seq<Attempt> {
    if tr == [] then []
    else
      var before, a := tr[..|tr| - 1], tr[|tr| - 1];
      Validated(before) + if Admitted(After(before), a) then [a] else []
  }

  /** The clock does not run backwards between an attempt's check and its record. */
  ghost predicate ClockRuns(tr: seq<Attempt>) {
    forall i :: 0 <= i < |tr| ==> tr[i].checked <= tr[i].recorded
  }

  /** How many attempts at the end of a list were wrong. */
  function WrongTail(done: seq<Attempt>): nat {
    if done == [] || done[|done| - 1].valid then 0 else WrongTail(done[..|done| - 1]) + 1
  }

  /** What the history says the lockout must be at `now`. */
  function Owed(done: seq<Attempt>, now: nat): Option<nat> {
    if WrongTail(done) >= 5 && done[|done| - 1].recorded + 30_000 > now
    then Some(done[|done| - 1].recorded + 30_000 - now)
    else None
  }

  // --- The state is the history's -----------------------------------------

  ghost predicate Inv(s: Throttle, done: seq<Attempt>) {
    && s.failures == Min(WrongTail(done), U32_MAX)
    && (s.lockedUntil.Some? <==> WrongTail(done) >= MAX_ATTEMPTS)
    && (s.lockedUntil.Some? ==> s.lockedUntil.value == done[|done| - 1].recorded + LOCKOUT)
  }

  lemma {:induction false} AttemptKeeps(s: Throttle, done: seq<Attempt>, a: Attempt)
    requires Inv(s, done)
    ensures Admitted(s, a) ==> Inv(Step(s, a), done + [a])
    ensures !Admitted(s, a) ==> Step(s, a) == s
  {
    assert (done + [a])[..|done|] == done;
  }

  lemma {:induction false} RunKeeps(tr: seq<Attempt>)
    ensures Inv(After(tr), Validated(tr))
    decreases |tr|
  {
    if tr != [] {
      hide Inv, Step;
      var before, a := tr[..|tr| - 1], tr[|tr| - 1];
      RunKeeps(before);
      AttemptKeeps(After(before), Validated(before), a);
      assert Validated(tr) == if Admitted(After(before), a) then Validated(before) + [a] else Validated(before);
    } else {
      assert After(tr) == OPEN && Validated(tr) == [];
    }
  }

  /**
   Whatever came before, a check at `now` refuses exactly when the last five
   validated attempts were wrong and fewer than thirty seconds have passed since
   the last of them was recorded, and it reports exactly the time left.
   */
  lemma {:induction false} LockoutIsOwed(tr: seq<Attempt>, now: nat)
    ensures Remaining(After(tr), now) == Owed(Validated(tr), now)
  {
    RunKeeps(tr);
  }

  /** A wrong validated attempt costs half a second for each wrong one in a row, at most five seconds. */
  lemma {:induction false} DelayOfHistory(tr: seq<Attempt>)
    ensures Min(BASE_DELAY * After(tr).failures, MAX_DELAY) == Min(500 * WrongTail(Validated(tr)), 5_000)
  {
    RunKeeps(tr);
  }

  // --- The rate bound -----------------------------------------------------

  ghost predicate AllWrong(done: seq<Attempt>) {
    forall i :: 0 <= i < |done| ==> !done[i].valid
  }

  lemma {:induction false} WrongTailOf(done: seq<Attempt>, from: nat)
    requires from <= |done| && AllWrong(done[from..])
    ensures WrongTail(done) >= |done| - from
    decreases |done|
  {
    if from < |done| {
      assert done[from..][|done| - from - 1] == done[|done| - 1];
      assert done[..|done| - 1][from..] == done[from..][..|done| - from - 1];
      WrongTailOf(done[..|done| - 1], from);
    }
  }

  /** Each validated attempt after five wrong ones came a lockout later than the one before. */
  ghost predicate Spaced(done: seq<Attempt>) {
    && (forall i :: 0 <= i < |done| ==> done[i].checked <= done[i].recorded)
    && (forall i :: 0 < i < |done| && WrongTail(done[..i]) >= MAX_ATTEMPTS ==> done[i].checked >= done[i - 1].recorded + LOCKOUT)
  }

  lemma {:induction false} ValidatedAreSpaced(tr: seq<Attempt>)
    requires ClockRuns(tr)
    ensures Spaced(Validated(tr))
    decreases |tr|
  {
    if tr != [] {
      var before, a := tr[..|tr| - 1], tr[|tr| - 1];
      ValidatedAreSpaced(before);
      LockoutIsOwed(before, a.checked);
      var was, done := Validated(before), Validated(tr);
      forall i | 0 < i < |done| && WrongTail(done[..i]) >= MAX_ATTEMPTS
        ensures done[i].checked >= done[i - 1].recorded + LOCKOUT
      {
        if i < |was| {
          assert done[..i] == was[..i];
        } else {
          assert done[..i] == was;
        }
      }
    }
  }

  lemma {:induction false} SpacedRate(done: seq<Attempt>, from: nat, n: nat)
    requires Spaced(done) && MAX_ATTEMPTS <= n && from + n <= |done| && AllWrong(done[from..from + n])
    ensures n > MAX_ATTEMPTS ==> done[from + n - 1].checked >= done[from + 4].recorded + LOCKOUT * (n - MAX_ATTEMPTS)
    decreases n
  {
    if n > MAX_ATTEMPTS {
      assert done[from..from + n][..n - 1] == done[from..from + (n - 1)];
      SpacedRate(done, from, n - 1);
      assert done[..from + n - 1][from..] == done[from..from + (n - 1)];
      WrongTailOf(done[..from + n - 1], from);
    }
  }

  /**
   In any run, mixing both paths, take any stretch of consecutive validated
   attempts with no success among them: its n-th, for n > 5, comes at least
   30(n - 5) seconds after its fifth was recorded.
   */
  lemma {:induction false} GuessesAreThrottled(tr: seq<Attempt>, from: nat, n: nat)
    requires ClockRuns(tr)
    requires 5 < n && from + n <= |Validated(tr)| && AllWrong(Validated(tr)[from..from + n])
    ensures Validated(tr)[from + n - 1].checked >= Validated(tr)[from + 4].recorded + 30_000 * (n - 5)
  {
    ValidatedAreSpaced(tr);
    SpacedRate(Validated(tr), from, n);
  }

  /** So a window of `w` milliseconds holds at most 5 + w/30 s wrong guesses in a row. */
  lemma {:induction false} GuessesPerWindow(tr: seq<Attempt>, from: nat, n: nat, w: nat)
    requires ClockRuns(tr)
    requires 0 < n && from + n <= |Validated(tr)| && AllWrong(Validated(tr)[from..from + n])
    requires n > 5 ==> Validated(tr)[from + n - 1].checked - Validated(tr)[from + 4].recorded <= w
    ensures n <= 5 + w / 30_000
  {
    if n > 5 {
      GuessesAreThrottled(tr, from, n);
    }
  }
}
