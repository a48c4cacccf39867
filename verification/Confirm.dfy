/**
 Many `confirm` and `can_list` calls share one bounded broadcast channel and pick their answer
 by request id. The system below takes one small step at a time, in any order.
 */
module Confirm {
  import opened Text
  import opened SignRules

  const CAPACITY: nat := 256       // responses a receiver may fall behind
  const QUEUE: nat := 32           // requests the main loop has not taken up
  const IDS: nat := 0x1_0000_0000  // request ids are 32-bit and wrap

  // --- One call's receive loop --------------------------------------------

  datatype Received = Message(id: nat, verdict: bool) | Lagged | Closed

  function FirstAnswer(id: nat, rx: seq<Received>): Option<bool> {
    if rx == [] || !rx[0].Message? then None
    else if rx[0].id == id then Some(rx[0].verdict)
    else FirstAnswer(id, rx[1..])
  }

  /** The loop that ends `confirm` and `can_list`: any receive error denies. */
  method AwaitVerdict(id: nat, rx: seq<Received>) returns (verdict: bool)
    ensures verdict == (FirstAnswer(id, rx) == Some(true))
    ensures verdict ==> exists i :: 0 <= i < |rx| && rx[i] == Message(id, true) && forall j :: 0 <= j < i ==> rx[j].Message? && rx[j].id != id
  {
    var i := 0;
    while i < |rx| && rx[i].Message?
      invariant 0 <= i <= |rx|
      invariant forall j :: 0 <= j < i ==> rx[j].Message? && rx[j].id != id
      invariant FirstAnswer(id, rx) == FirstAnswer(id, rx[i..])
    {
      if rx[i].id == id {
        return rx[i].verdict;
      }
      assert rx[i..][1..] == rx[i + 1..];
      i := i + 1;
    }
    return false;
  }

  // --- The system ---------------------------------------------------------

  datatype Handler = Unsent | Queued | Running | Answered(at: nat, how: Handling)

  datatype Caller = Subscribed | Waiting | Returned(verdict: bool, lagged: bool) | Gone

  /** One call: its place in the id sequence, where it subscribed, how far it has read. */
  datatype Call = Call(number: nat, list: bool, forwarding: bool, from: nat, cursor: nat, caller: Caller, handler: Handler) {
    function Id(): nat {
      number % IDS
    }

    predicate Listening() {
      caller.Subscribed? || caller.Waiting?
    }

    predicate Live() {
      Listening() || handler.Queued? || handler.Running?
    }

    /** What its handler answers: a list request is always allowed, a sign request is ruled on. */
    function Answers(how: Handling): bool {
      list || Rule(how, forwarding).verdict
    }

    /** The verdict its handler came to and sent. */
    function Verdict(): bool
      requires handler.Answered?
    {
      Answers(handler.how)
    }
  }

  /** A response on the channel; `origin` is not visible to receivers. */
  datatype Response = Response(id: nat, verdict: bool, origin: nat)

  datatype Sys = Sys(next: nat, calls: seq<Call>, queue: seq<nat>, sent: seq<Response>)

  datatype Step =
    | Begin(list: bool, forwarding: bool)
    | Skip                                             // an id spent on a request that does not parse
    | Enqueue(r: nat)
    | Dispatch
    | Respond(r: nat, how: Handling)                   // the handler comes to its ruling and sends it
    | Receive(r: nat)
    | Abandon(r: nat)                                  // the client went away

  /** No call stays live while the id counter goes all the way round. */
  predicate FreshId(s: Sys) {
    forall r :: 0 <= r < |s.calls| && s.calls[r].Live() ==> s.next - s.calls[r].number < IDS
  }

  function Put(s: Sys, r: nat, c: Call): Sys
    requires r < |s.calls|
  {
    s.(calls := s.calls[r := c])
  }

  function ReceiveOne(s: Sys, r: nat): Sys
    requires r < |s.calls|
  {
    var c := s.calls[r];
    if !c.caller.Waiting? || c.cursor >= |s.sent| then s
    else if c.cursor + CAPACITY < |s.sent| then Put(s, r, c.(caller := Returned(false, true)))
    else
      var m := s.sent[c.cursor];
      if m.id == c.Id() then Put(s, r, c.(cursor := c.cursor + 1, caller := Returned(m.verdict, false)))
      else Put(s, r, c.(cursor := c.cursor + 1))
  }

  /** Steps that cannot be taken leave the system alone. */
  function Apply(s: Sys, step: Step): Sys {
    match step
    case Begin(list, forwarding) =>
      if !FreshId(s) then s
      else s.(next := s.next + 1, calls := s.calls + [Call(s.next, list, forwarding, |s.sent|, |s.sent|, Subscribed, Unsent)])
    case Skip => s.(next := s.next + 1)
    case Enqueue(r) =>
      if r < |s.calls| && s.calls[r].caller.Subscribed? && |s.queue| < QUEUE
      then Put(s, r, s.calls[r].(caller := Waiting, handler := Queued)).(queue := s.queue + [r]) else s
    case Dispatch =>
      if s.queue != [] && s.queue[0] < |s.calls| && s.calls[s.queue[0]].handler.Queued?
      then Put(s, s.queue[0], s.calls[s.queue[0]].(handler := Running)).(queue := s.queue[1..]) else s
    case Respond(r, how) =>
      if r < |s.calls| && s.calls[r].handler.Running?
      then Put(s, r, s.calls[r].(handler := Answered(|s.sent|, how)))
           .(sent := s.sent + [Response(s.calls[r].Id(), s.calls[r].Answers(how), r)]) else s
    case Receive(r) => if r < |s.calls| then ReceiveOne(s, r) else s
    case Abandon(r) =>
      if r < |s.calls| && s.calls[r].Listening() then Put(s, r, s.calls[r].(caller := Gone)) else s
  }

  function Run(steps: seq<Step>): Sys {
    if steps == [] then Sys(0, [], [], []) else Apply(Run(steps[..|steps| - 1]), steps[|steps| - 1])
  }

  // --- What every interleaving keeps --------------------------------------

  /** One call's own bookkeeping. */
  ghost predicate CallInv(s: Sys, r: nat)
    requires r < |s.calls|
  {
    var c := s.calls[r];
    && c.number < s.next && c.from <= c.cursor <= |s.sent|
    && (c.handler.Answered? ==>
        && c.from <= c.handler.at < |s.sent|
        && s.sent[c.handler.at] == Response(c.Id(), c.Verdict(), r))
    && (c.Listening() ==> forall k :: c.from <= k < c.cursor ==> s.sent[k].id != c.Id())
    && (c.caller.Subscribed? ==> c.handler.Unsent?)
    && (c.caller.Returned? && c.caller.lagged ==> !c.caller.verdict)
    && (c.caller.Returned? && !c.caller.lagged ==> c.handler.Answered? && c.Verdict() == c.caller.verdict)
  }

  /** Every response was sent by the one handler it came from. */
  ghost predicate SentInv(s: Sys) {
    forall k :: 0 <= k < |s.sent| ==>
      var m := s.sent[k];
      m.origin < |s.calls| && s.calls[m.origin].handler.Answered? && s.calls[m.origin].handler.at == k
  }

  /** Live calls have different ids, and no one else's response carries a listener's id. */
  ghost predicate IdInv(s: Sys) {
    && (forall q, r :: 0 <= q < r < |s.calls| && s.calls[q].Live() && s.calls[r].Live() ==> s.calls[q].Id() != s.calls[r].Id())
    && (forall r, k | 0 <= r < |s.calls| && s.calls[r].Listening() && s.calls[r].from <= k < |s.sent| :: s.sent[k].id == s.calls[r].Id() ==> s.sent[k].origin == r)
  }

  ghost predicate Inv(s: Sys) {
    (forall r :: 0 <= r < |s.calls| ==> CallInv(s, r)) && SentInv(s) && IdInv(s)
  }

  /** Ids differ for calls fewer than 2^32 apart. */
  lemma {:induction false} IdsDiffer(a: nat, b: nat)
    requires a < b && b - a < IDS
    ensures a % IDS != b % IDS
  {
    assert b - a == (b / IDS - a / IDS) * IDS + b % IDS - a % IDS;
  }

  lemma {:induction false} BeginKeeps(s: Sys, list: bool, forwarding: bool)
    requires Inv(s)
    ensures Inv(Apply(s, Begin(list, forwarding)))
  {
    if FreshId(s) {
      var s' := Apply(s, Begin(list, forwarding));
      forall r | 0 <= r < |s'.calls| ensures CallInv(s', r) {
        if r < |s.calls| { assert CallInv(s, r); }
      }
      forall q, r | 0 <= q < r < |s'.calls| && s'.calls[q].Live() && s'.calls[r].Live()
        ensures s'.calls[q].Id() != s'.calls[r].Id()
      {
        if r == |s.calls| {
          assert CallInv(s, q);
          IdsDiffer(s.calls[q].number, s.next);
        }
      }
    }
  }

  /** A step of one call that sends nothing and makes nothing live again. */
  lemma {:induction false} PutKeeps(s: Sys, r: nat, c: Call, queue: seq<nat>)
    requires Inv(s) && r < |s.calls|
    requires var b := s.calls[r];
      && c.number == b.number && c.from == b.from && c.list == b.list && c.forwarding == b.forwarding
      && (c.handler == b.handler || (!b.handler.Answered? && !c.handler.Answered?))
      && (c.Listening() ==> b.Listening()) && (c.Live() ==> b.Live())
    requires CallInv(Put(s, r, c), r)
    ensures Inv(Put(s, r, c).(queue := queue))
  {
    var p := Put(s, r, c);
    var s' := p.(queue := queue);
    forall q | 0 <= q < |s'.calls| ensures CallInv(s', q) {
      if q != r { assert CallInv(s, q); } else { assert CallInv(p, r); }
    }
    assert SentInv(s') by { SentFrame(s, s', r); }
    assert IdInv(s') by { IdFrame(s, s', r); }
  }

  lemma {:induction false} SentFrame(s: Sys, s': Sys, r: nat)
    requires SentInv(s) && s'.sent == s.sent && |s'.calls| == |s.calls| && r < |s.calls|
    requires forall q :: 0 <= q < |s.calls| && q != r ==> s'.calls[q] == s.calls[q]
    requires s'.calls[r].handler == s.calls[r].handler || !s.calls[r].handler.Answered?
    ensures SentInv(s')
  {
  }

  lemma {:induction false} IdFrame(s: Sys, s': Sys, r: nat)
    requires IdInv(s) && s'.sent == s.sent && |s'.calls| == |s.calls| && r < |s.calls|
    requires forall q :: 0 <= q < |s.calls| && q != r ==> s'.calls[q] == s.calls[q]
    requires s'.calls[r].number == s.calls[r].number && s'.calls[r].from == s.calls[r].from
    requires (s'.calls[r].Listening() ==> s.calls[r].Listening()) && (s'.calls[r].Live() ==> s.calls[r].Live())
    ensures IdInv(s')
  {
  }

  lemma {:induction false} RespondKeeps(s: Sys, r: nat, how: Handling)
    requires Inv(s)
    ensures Inv(Apply(s, Respond(r, how)))
  {
    hide Rule;
    var s' := Apply(s, Respond(r, how));
    if s' != s {
      forall q | 0 <= q < |s'.calls| ensures CallInv(s', q) {
        assert CallInv(s, q);
      }
      assert SentInv(s');
      forall q, k | 0 <= q < |s'.calls| && s'.calls[q].Listening() && s'.calls[q].from <= k < |s'.sent|
        && s'.sent[k].id == s'.calls[q].Id()
        ensures s'.sent[k].origin == q
      {
        assert CallInv(s, q);
        assert s.calls[q].Live() && s.calls[r].Live();
        assert q != r ==> s.calls[q].Id() != s.calls[r].Id();
      }
    }
  }

  lemma {:induction false} ReceiveKeeps(s: Sys, r: nat)
    requires Inv(s) && r < |s.calls|
    ensures Inv(ReceiveOne(s, r))
  {
    var c := s.calls[r];
    assert CallInv(s, r);
    if c.caller.Waiting? && c.cursor < |s.sent| {
      var m := s.sent[c.cursor];
      var c' := if c.cursor + CAPACITY < |s.sent| then c.(caller := Returned(false, true))
                else if m.id == c.Id() then c.(cursor := c.cursor + 1, caller := Returned(m.verdict, false))
                else c.(cursor := c.cursor + 1);
      if m.id == c.Id() {
        assert m.origin == r;
      }
      PutKeeps(s, r, c', s.queue);
      assert Put(s, r, c').(queue := s.queue) == Put(s, r, c');
    }
  }

  lemma {:induction false} SkipKeeps(s: Sys)
    requires Inv(s)
    ensures Inv(Apply(s, Skip))
  {
    var s' := Apply(s, Skip);
    forall r | 0 <= r < |s'.calls| ensures CallInv(s', r) { assert CallInv(s, r); }
  }

  lemma {:induction false} EnqueueKeeps(s: Sys, r: nat)
    requires Inv(s)
    ensures Inv(Apply(s, Enqueue(r)))
  {
    if Apply(s, Enqueue(r)) != s {
      assert CallInv(s, r);
      PutKeeps(s, r, s.calls[r].(caller := Waiting, handler := Queued), s.queue + [r]);
    }
  }

  lemma {:induction false} DispatchKeeps(s: Sys)
    requires Inv(s)
    ensures Inv(Apply(s, Dispatch))
  {
    if Apply(s, Dispatch) != s {
      var r := s.queue[0];
      assert CallInv(s, r);
      PutKeeps(s, r, s.calls[r].(handler := Running), s.queue[1..]);
    }
  }

  lemma {:induction false} AbandonKeeps(s: Sys, r: nat)
    requires Inv(s)
    ensures Inv(Apply(s, Abandon(r)))
  {
    if Apply(s, Abandon(r)) != s {
      assert CallInv(s, r);
      PutKeeps(s, r, s.calls[r].(caller := Gone), s.queue);
    }
  }

  lemma {:induction false} StepKeeps(s: Sys, step: Step)
    requires Inv(s)
    ensures Inv(Apply(s, step))
  {
    hide Inv;
    match step
    case Begin(list, forwarding) => BeginKeeps(s, list, forwarding);
    case Skip => SkipKeeps(s);
    case Enqueue(r) => EnqueueKeeps(s, r);
    case Dispatch => DispatchKeeps(s);
    case Respond(r, how) => RespondKeeps(s, r, how);
    case Receive(r) => if r < |s.calls| { ReceiveKeeps(s, r); }
    case Abandon(r) => AbandonKeeps(s, r);
  }

  lemma {:induction false} RunKeeps(steps: seq<Step>)
    ensures Inv(Run(steps))
  {
    if steps != [] {
      RunKeeps(steps[..|steps| - 1]);
      StepKeeps(Run(steps[..|steps| - 1]), steps[|steps| - 1]);
    }
  }

  /**
   In every interleaving: a call returns true only if its own handler sent true
   after the call subscribed, for a sign request only if the vault was open, and
   for a forwarded one, or with the prompt set to `Always`, only if the user said
   yes to it; a call that never lagged returns its own handler's verdict, which
   for a list request is yes.
   */
  lemma {:induction false} ConfirmIsSound(steps: seq<Step>, r: nat)
    requires r < |Run(steps).calls| && Run(steps).calls[r].caller.Returned?
    ensures var s := Run(steps); var c := s.calls[r];
      && (c.caller.verdict ==>
          && c.handler.Answered? && c.Verdict() && c.from <= c.handler.at < |s.sent|
          && s.sent[c.handler.at] == Response(c.Id(), true, r)
          && (!c.list ==> c.handler.how.Considered? && (c.handler.how.prompt == Always ==> c.handler.how.approves))
          && (c.forwarding && !c.list ==> c.handler.how.Considered? && c.handler.how.approves && Rule(c.handler.how, true).source.ByUser?))
      && (!c.caller.lagged ==> c.handler.Answered? && c.caller.verdict == c.Verdict())
      && (!c.caller.lagged && c.list ==> c.caller.verdict)
  {
    hide Rule;
    RunKeeps(steps);
    assert CallInv(Run(steps), r);
    var c := Run(steps).calls[r];
    if c.caller.verdict && !c.list {
      if c.forwarding {
        ForwardedOnlyByUser(c.handler.how);
      }
      var how := c.handler.how;
      RuleExactly(Always, false, false, c.forwarding);
      if how.Considered? {
        RuleExactly(how.prompt, how.remembered, how.approves, c.forwarding);
      }
    }
  }

  /** In every interleaving each handler answers at most once. */
  lemma {:induction false} OneAnswerEach(steps: seq<Step>, j: nat, k: nat)
    requires var s := Run(steps); j < |s.sent| && k < |s.sent| && s.sent[j].origin == s.sent[k].origin
    ensures j == k
  {
    RunKeeps(steps);
  }

  /** An answer sent for a call that still listens is still ahead of it: it can only miss it by lagging. */
  lemma {:induction false} AnswerIsAhead(steps: seq<Step>, r: nat)
    requires r < |Run(steps).calls| && Run(steps).calls[r].Listening() && Run(steps).calls[r].handler.Answered?
    ensures var c := Run(steps).calls[r]; c.cursor <= c.handler.at
  {
    RunKeeps(steps);
    assert CallInv(Run(steps), r);
  }

  /** A subscribed call gets in exactly while fewer than 32 requests wait, behind them all. */
  lemma {:induction false} EnqueueExactly(s: Sys, r: nat)
    requires r < |s.calls| && s.calls[r].caller.Subscribed?
    ensures var s' := Apply(s, Enqueue(r));
      if |s.queue| < 32
      then s' == s.(queue := s.queue + [r], calls := s.calls[r := s.calls[r].(caller := Waiting, handler := Queued)])
      else s' == s
  {
  }

  /** The main loop starts the handler of the request that waits longest. */
  lemma {:induction false} DispatchExactly(s: Sys, r: nat, rest: seq<nat>)
    requires s.queue == [r] + rest && r < |s.calls| && s.calls[r].handler.Queued?
    ensures Apply(s, Dispatch) == s.(queue := rest, calls := s.calls[r := s.calls[r].(handler := Running)])
  {
    assert s.queue[1..] == rest;
  }

  /** A running handler sends one response, under its call's id, with the verdict it came to. */
  lemma {:induction false} RespondExactly(s: Sys, r: nat, how: Handling)
    requires r < |s.calls| && s.calls[r].handler.Running?
    ensures var s' := Apply(s, Respond(r, how));
      && s'.sent == s.sent + [Response(s.calls[r].number % 0x1_0000_0000, s.calls[r].list || Rule(how, s.calls[r].forwarding).verdict, r)]
      && s'.calls == s.calls[r := s.calls[r].(handler := Answered(|s.sent|, how))] && s'.queue == s.queue
  {
  }

  function Drained(s: Sys, r: nat, n: nat): Sys
    requires r < |s.calls|
    ensures |Drained(s, r, n).calls| == |s.calls| && Drained(s, r, n).sent == s.sent
  {
    if n == 0 then s else ReceiveOne(Drained(s, r, n - 1), r)
  }

  /** No response before a listener's own carries its id. */
  lemma {:induction false} NotMineYet(s: Sys, r: nat, k: nat)
    requires Inv(s) && r < |s.calls| && s.calls[r].Listening() && s.calls[r].handler.Answered?
    requires s.calls[r].cursor <= k < s.calls[r].handler.at
    ensures k < |s.sent| && s.sent[k].id != s.calls[r].Id()
  {
    assert CallInv(s, r);
    assert s.sent[k].origin != r;
  }

  /** The call's state while it reads toward its answer at position `at`. */
  lemma {:induction false} Draining(s: Sys, r: nat, n: nat, at: nat)
    requires Inv(s) && r < |s.calls| && s.calls[r].caller.Waiting?
    requires s.calls[r].handler.Answered? && s.calls[r].handler.at == at
    requires |s.sent| <= s.calls[r].cursor + CAPACITY
    requires n <= at - s.calls[r].cursor
    ensures var d := Drained(s, r, n); d.calls[r] == s.calls[r].(cursor := s.calls[r].cursor + n)
  {
    if n > 0 {
      Draining(s, r, n - 1, at);
      NotMineYet(s, r, s.calls[r].cursor + n - 1);
      hide Inv;
    }
  }

  /** What the channel hands a call that now reads to the end of what was sent. */
  function Heard(s: Sys, r: nat): seq<Received>
    requires r < |s.calls| && s.calls[r].cursor <= |s.sent|
  {
    if s.calls[r].cursor + 256 < |s.sent| then [Lagged] else Messages(s.sent[s.calls[r].cursor..])
  }

  function Messages(sent: seq<Response>): seq<Received> {
    if sent == [] then [] else [Message(sent[0].id, sent[0].verdict)] + Messages(sent[1..])
  }

  function Answer(found: Option<bool>): Caller {
    if found.Some? then Returned(found.value, false) else Waiting
  }

  /** Where a receive loop stands after reading `rx` to its end. */
  function AfterReading(id: nat, rx: seq<Received>): Caller {
    if rx == [Lagged] then Returned(false, true) else Answer(FirstAnswer(id, rx))
  }

  lemma {:induction false} NextAnswer(id: nat, sent: seq<Response>)
    requires sent != []
    ensures FirstAnswer(id, Messages(sent)) ==
            if sent[0].id == id then Some(sent[0].verdict) else FirstAnswer(id, Messages(sent[1..]))
  {
    assert Messages(sent)[1..] == Messages(sent[1..]);
  }

  lemma {:induction false} DrainMessages(s: Sys, r: nat, n: nat)
    requires r < |s.calls| && s.calls[r].caller.Waiting? && s.calls[r].cursor + n == |s.sent| && n <= CAPACITY
    ensures Drained(s, r, n).calls[r].caller == Answer(FirstAnswer(s.calls[r].Id(), Messages(s.sent[s.calls[r].cursor..])))
    decreases n
  {
    hide FirstAnswer, Messages, Drained, ReceiveOne;
    var c := s.calls[r];
    var rest := s.sent[c.cursor..];
    if n == 0 {
      assert rest == [];
      NothingYet(c.Id());
      StaysWhole(s, r);
    } else {
      var s1 := ReceiveOne(s, r);
      DrainFront(s, r, n - 1);
      ReceiveReads(s, r);
      NextAnswer(c.Id(), rest);
      assert rest[0] == s.sent[c.cursor] && rest[1..] == s.sent[c.cursor + 1..];
      if s.sent[c.cursor].id == c.Id() {
        StaysPut(s1, r, n - 1);
      } else {
        DrainMessages(s1, r, n - 1);
      }
    }
  }

  lemma {:induction false} StaysWhole(s: Sys, r: nat)
    requires r < |s.calls|
    ensures Drained(s, r, 0) == s
  {
  }

  /** One receive step of a call that has not fallen behind. */
  lemma {:induction false} ReceiveReads(s: Sys, r: nat)
    requires r < |s.calls| && s.calls[r].caller.Waiting? && s.calls[r].cursor < |s.sent| <= s.calls[r].cursor + CAPACITY
    ensures var c, s1 := s.calls[r], ReceiveOne(s, r);
      && s1.sent == s.sent && |s1.calls| == |s.calls|
      && s1.calls[r] == (if s.sent[c.cursor].id == c.Id()
                         then c.(cursor := c.cursor + 1, caller := Returned(s.sent[c.cursor].verdict, false))
                         else c.(cursor := c.cursor + 1))
  {
  }

  lemma {:induction false} NothingYet(id: nat)
    ensures FirstAnswer(id, Messages([])) == None
  {
  }

  /**
   Taking receive steps up to the end of the channel is running the receive
   loop on what the channel hands over: it returns the loop's verdict, or still
   waits when there was none.
   */
  lemma {:induction false} DrainingIsAwaiting(s: Sys, r: nat)
    requires r < |s.calls| && s.calls[r].caller.Waiting? && s.calls[r].cursor < |s.sent|
    ensures Drained(s, r, |s.sent| - s.calls[r].cursor).calls[r].caller == AfterReading(s.calls[r].Id(), Heard(s, r))
  {
    var c := s.calls[r];
    var n := |s.sent| - c.cursor;
    if c.cursor + CAPACITY < |s.sent| {
      DrainFront(s, r, n - 1);
      StaysPut(ReceiveOne(s, r), r, n - 1);
    } else {
      hide Drained, FirstAnswer, Messages;
      DrainMessages(s, r, n);
      MessagesOnly(s.sent[c.cursor..]);
      assert Messages(s.sent[c.cursor..])[0] in Messages(s.sent[c.cursor..]);
    }
  }

  lemma {:induction false} MessagesOnly(sent: seq<Response>)
    ensures |Messages(sent)| == |sent| && forall m <- Messages(sent) :: m.Message?
  {
    if sent != [] {
      MessagesOnly(sent[1..]);
    }
  }

  lemma {:induction false} DrainFront(s: Sys, r: nat, n: nat)
    requires r < |s.calls|
    ensures Drained(s, r, n + 1) == Drained(ReceiveOne(s, r), r, n)
  {
    if n > 0 {
      DrainFront(s, r, n - 1);
    }
  }

  /** A call that has returned takes no more. */
  lemma {:induction false} StaysPut(s: Sys, r: nat, n: nat)
    requires r < |s.calls| && !s.calls[r].caller.Waiting?
    ensures Drained(s, r, n) == s
  {
    if n > 0 {
      StaysPut(s, r, n - 1);
    }
  }

  /**
   A waiting call at most 256 responses behind, whose handler has answered,
   returns that very verdict if it just reads on.
   */
  lemma {:induction false} ReadsItsVerdict(steps: seq<Step>, r: nat)
    requires var s := Run(steps);
      && r < |s.calls| && s.calls[r].caller.Waiting? && s.calls[r].handler.Answered?
      && |s.sent| <= s.calls[r].cursor + 256
    ensures var s := Run(steps); var c := s.calls[r];
      && c.cursor <= c.handler.at
      && Drained(s, r, c.handler.at - c.cursor + 1).calls[r].caller == Returned(c.Verdict(), false)
  {
    hide Run, IdInv, SentInv;
    RunKeeps(steps);
    AnswerIsAhead(steps, r);
    var s := Run(steps);
    var c := s.calls[r];
    assert CallInv(s, r);
    Draining(s, r, c.handler.at - c.cursor, c.handler.at);
  }
}
