/** No change notice is lost: it is synced, or a sync stays pending. */
module SyncRuns {
  import opened Text
  import opened Keys
  import opened SshSig
  import opened SignRules
  import opened Vault
  import ApprovalRuns

  predicate Covers(e: Event) {
    e.SyncDone? || e.Forgot?
  }

  /** Some notice has neither a successful sync nor a Forget after it. */
  predicate Uncovered(log: seq<Event>) {
    log != [] &&
    var last := log[|log| - 1];
    !Covers(last) && (last.Notice? || Uncovered(log[..|log| - 1]))
  }

  lemma {:induction false} UncoveredMeaning(log: seq<Event>)
    ensures Uncovered(log) <==> exists i :: 0 <= i < |log| && log[i].Notice? && forall j :: i < j < |log| ==> !Covers(log[j])
  {
    if log != [] {
      var front, last := log[..|log| - 1], log[|log| - 1];
      UncoveredMeaning(front);
      if Uncovered(log) {
        if last.Notice? {
          assert log[|log| - 1].Notice?;
        } else {
          var i :| 0 <= i < |front| && front[i].Notice? && forall j :: i < j < |front| ==> !Covers(front[j]);
          assert forall j :: i < j < |log| ==> !Covers(log[j]);
        }
      }
      if i :| 0 <= i < |log| && log[i].Notice? && forall j :: i < j < |log| ==> !Covers(log[j]) {
        if i < |front| {
          assert front[i].Notice? && forall j :: i < j < |front| ==> !Covers(front[j]);
          assert !Covers(log[|log| - 1]);
        }
      }
    }
  }

  lemma {:induction false} UncoveredSnoc(log: seq<Event>, e: Event)
    ensures Uncovered(log + [e]) <==> !Covers(e) && (e.Notice? || Uncovered(log))
  {
    assert (log + [e])[..|log|] == log;
  }

  ghost predicate PendingInv(w: World) {
    Uncovered(w.log) ==> w.s.pending
  }

  /** A sync either succeeds, and covers everything, or changes nothing. */
  lemma {:induction false} DoSyncCovers(w: World, answer: SyncAnswer, saved: bool)
    ensures SyncWorks(w.s, answer) ==> !Uncovered(DoSync(w, answer, saved).log)
    ensures !SyncWorks(w.s, answer) ==> DoSync(w, answer, saved) == w
    ensures DoSync(w, answer, saved).s.pending == w.s.pending
  {
    hide Uncovered, Load, Fingerprints, StillApproved;
    if SyncWorks(w.s, answer) {
      UncoveredSnoc(Reconcile(w, answer.keys, saved).log, SyncDone);
    }
  }

  lemma {:induction false} ResolveKeepsPending(w: World, answer: SyncAnswer, saved: bool)
    requires PendingInv(w)
    ensures PendingInv(Resolve(w, answer, saved))
  {
    hide Uncovered, DoSync;
    DoSyncCovers(World(w.s.(pending := false), w.log), answer, saved);
  }

  lemma {:induction false} UnlockWithPending(w: World, data: Payload, key: SymKey, restored: bool, answer: SyncAnswer, saved: bool)
    requires PendingInv(w)
    ensures PendingInv(UnlockWith(w, data, key, restored, answer, saved))
  {
    hide Uncovered, Resolve, Load;
    var held := FinishUnlock(World(w.s.(cacheKey := Some(key)), w.log), data);
    ResolveKeepsPending(World(held.s.(client := Restore(held.s, restored)), held.log), answer, saved);
  }

  lemma {:induction false} UnlockPending(w: World, c: Config, platform: Option<SymKey>, dialog: Option<Pin>, restored: bool, answer: SyncAnswer, saved: bool)
    requires PendingInv(w)
    ensures PendingInv(StepUnlock(w, c, platform, dialog, restored, answer, saved))
  {
    hide Uncovered, UnlockWith, OpenNative, OpenDialog;
    var native := OpenNative(w.s, platform);
    var w' := if native.Some? then World(w.s.(cacheKey := Some(native.value.1)), w.log) else w;
    if native.Some? {
      UnlockWithPending(w, native.value.0, native.value.1, c.windows && restored, answer, saved);
    }
    var d := OpenDialog(w'.s, dialog);
    if d.Some? {
      UnlockWithPending(w', d.value.0, d.value.1, restored, answer, saved);
    }
  }

  lemma {:induction false} UnlockPinPending(w: World, pin: Pin, admitted: bool, salt: Salt, migrated: bool, restored: bool, answer: SyncAnswer, saved: bool)
    requires PendingInv(w)
    ensures PendingInv(StepUnlockPin(w, pin, admitted, salt, migrated, restored, answer, saved))
  {
    hide Uncovered, UnlockWith, OpenWithPin;
    if w.s.cache.Some? && OpenWithPin(w.s.cache.value, pin).Some? {
      var (data, key) := OpenWithPin(w.s.cache.value, pin).value;
      UnlockWithPending(w, data, key, restored, answer, saved);
      UnlockWithPending(World(w.s.(cache := Some(MigrateCache(w.s.cache.value, key, pin, salt))), w.log),
                        data, key, restored, answer, saved);
    }
  }

  lemma {:induction false} UnlockPasswordPending(w: World, login: Option<seq<KeyTuple>>, stored: bool, answer: SyncAnswer, saved: bool)
    requires PendingInv(w)
    ensures PendingInv(StepUnlockPassword(w, login, stored, answer, saved))
  {
    hide Uncovered, Resolve, Load, Fingerprints, StillApproved;
    if login.Some? {
      UncoveredSnoc(w.log, Sealing(login.value));
      var r := Reconcile(w, login.value, stored);
      ResolveKeepsPending(World(WithKeys(r.s, login.value).(locked := false, client := LoggedIn, sessionFile := true), r.log), answer, saved);
    }
  }

  lemma {:induction false} SignPending(w: World, c: Config, pk: PublicKey, op: OperationKind, forwarding: bool, platform: Option<SymKey>, dialog: Option<Pin>, approves: bool)
    requires PendingInv(w)
    ensures PendingInv(StepSign(w, c, pk, op, forwarding, platform, dialog, approves))
  {
    hide Uncovered, StepSign;
    var e := ApprovalRuns.SignAnswersOnce(w, c, pk, op, forwarding, platform, dialog, approves);
    UncoveredSnoc(w.log, e);
  }

  lemma {:induction false} HubPending(w: World, answer: SyncAnswer, saved: bool)
    ensures PendingInv(StepHubNotice(w, answer, saved))
  {
    hide Uncovered, DoSync;
    DoSyncCovers(World(w.s, w.log + [Notice]), answer, saved);
  }

  lemma {:induction false} SetPinPending(w: World, pin: Pin, freshKey: SymKey, salt: Salt, native: bool, written: bool)
    requires PendingInv(w)
    ensures PendingInv(StepSetPin(w, pin, freshKey, salt, native, written))
  {
    hide Uncovered, WriteCache;
    UncoveredSnoc(w.log, PinSet(pin));
    UncoveredSnoc(w.log + [PinSet(pin)], Sealing(w.s.cached));
    assert w.log + [PinSet(pin), Sealing(w.s.cached)] == (w.log + [PinSet(pin)]) + [Sealing(w.s.cached)];
  }

  lemma {:induction false} StepKeepsPending(w: World, c: Config, a: Action)
    requires PendingInv(w)
    ensures PendingInv(Step(w, c, a))
  {
    hide StepUnlock, StepUnlockPin, StepUnlockPassword, StepSetPin, StepSign, StepHubNotice, DoSync, Resolve, Uncovered;
    UncoveredSnoc(w.log, LockedNow);
    UncoveredSnoc(w.log, Forgot);
    match a
    case Unlock(platform, dialog, restored, answer, saved) => UnlockPending(w, c, platform, dialog, restored, answer, saved);
    case UnlockNative(platform, answer, saved) =>
      UnlockPending(w, c.(autoUnlock := false, windows := false), platform, None, false, answer, saved);
    case UnlockHello(platform, restored, answer, saved) =>
      UnlockPending(w, c.(autoUnlock := false), platform, None, restored, answer, saved);
    case UnlockPin(pin, admitted, salt, migrated, restored, answer, saved) =>
      UnlockPinPending(w, pin, admitted, salt, migrated, restored, answer, saved);
    case UnlockPassword(login, stored, answer, saved) => UnlockPasswordPending(w, login, stored, answer, saved);
    case Sync(answer, saved) => DoSyncCovers(w, answer, saved);
    case SetPin(pin, freshKey, salt, native, written) => SetPinPending(w, pin, freshKey, salt, native, written);
    case HubNotice(answer, saved) => HubPending(w, answer, saved);
    case SignRequest(pk, op, forwarding, platform, dialog, approves) =>
      SignPending(w, c, pk, op, forwarding, platform, dialog, approves);
    case AutoUnlocked(restored, answer, saved) =>
      ResolveKeepsPending(World(w.s.(client := Restore(w.s, restored)), w.log), answer, saved);
    case _ =>
  }

  lemma {:induction false} RunKeepsPending(w: World, c: Config, actions: seq<Action>)
    requires PendingInv(w)
    ensures PendingInv(Run(w, c, actions))
    decreases |actions|
  {
    if actions != [] {
      hide Step, PendingInv;
      RunKeepsPending(w, c, actions[..|actions| - 1]);
      StepKeepsPending(Run(w, c, actions[..|actions| - 1]), c, actions[|actions| - 1]);
    }
  }

  /**
   In every run from a start without notices, each notice is followed by a
   successful sync or a Forget, or a sync is pending at the end.
   */
  lemma {:induction false} NoticesAreCovered(w: World, c: Config, actions: seq<Action>, i: nat)
    requires forall e <- w.log :: !e.Notice?
    requires i < |Run(w, c, actions).log| && Run(w, c, actions).log[i].Notice?
    ensures var end := Run(w, c, actions);
      end.s.pending || exists j :: i < j < |end.log| && Covers(end.log[j])
  {
    hide Run, Uncovered;
    UncoveredMeaning(w.log);
    RunKeepsPending(w, c, actions);
    UncoveredMeaning(Run(w, c, actions).log);
  }

  // --- Without a login ----------------------------------------------------

  predicate LogsIn(a: Action) {
    a.UnlockPassword? && a.login.Some?
  }

  ghost predicate NoSync(log: seq<Event>) {
    forall e <- log :: !e.SyncDone?
  }

  /** No client can decrypt vault data, nothing was synced, and a sync is pending exactly when one is owed. */
  ghost predicate Owing(w: World) {
    !w.s.client.LoggedIn? && NoSync(w.log) && (w.s.pending <==> Uncovered(w.log))
  }

  lemma {:induction false} OwingSnoc(log: seq<Event>, e: Event)
    ensures NoSync(log + [e]) <==> NoSync(log) && !e.SyncDone?
    ensures Uncovered(log + [e]) <==> !Covers(e) && (e.Notice? || Uncovered(log))
  {
    UncoveredSnoc(log, e);
  }

  /** Without the user key an unlock, however it goes, syncs nothing and settles nothing. */
  lemma {:induction false} UnlockSettlesNothing(w: World, data: Payload, key: SymKey, restored: bool, answer: SyncAnswer, saved: bool)
    requires !w.s.client.LoggedIn?
    ensures var w' := UnlockWith(w, data, key, restored, answer, saved);
      w'.log == w.log && w'.s.pending == w.s.pending && !w'.s.client.LoggedIn?
  {
    hide Load;
  }

  lemma {:induction false} UnlockOwes(w: World, c: Config, platform: Option<SymKey>, dialog: Option<Pin>, restored: bool, answer: SyncAnswer, saved: bool)
    requires Owing(w)
    ensures Owing(StepUnlock(w, c, platform, dialog, restored, answer, saved))
  {
    hide Uncovered, NoSync, UnlockWith, OpenNative, OpenDialog;
    var native := OpenNative(w.s, platform);
    var w' := if native.Some? then World(w.s.(cacheKey := Some(native.value.1)), w.log) else w;
    if native.Some? {
      UnlockSettlesNothing(w, native.value.0, native.value.1, c.windows && restored, answer, saved);
    }
    var d := OpenDialog(w'.s, dialog);
    if d.Some? {
      UnlockSettlesNothing(w', d.value.0, d.value.1, restored, answer, saved);
    }
  }

  lemma {:induction false} UnlockPinOwes(w: World, pin: Pin, admitted: bool, salt: Salt, migrated: bool, restored: bool, answer: SyncAnswer, saved: bool)
    requires Owing(w)
    ensures Owing(StepUnlockPin(w, pin, admitted, salt, migrated, restored, answer, saved))
  {
    hide Uncovered, NoSync, UnlockWith, OpenWithPin;
    if w.s.cache.Some? && OpenWithPin(w.s.cache.value, pin).Some? {
      var (data, key) := OpenWithPin(w.s.cache.value, pin).value;
      UnlockSettlesNothing(w, data, key, restored, answer, saved);
      UnlockSettlesNothing(World(w.s.(cache := Some(MigrateCache(w.s.cache.value, key, pin, salt))), w.log),
                           data, key, restored, answer, saved);
    }
  }

  lemma {:induction false} SignOwes(w: World, c: Config, pk: PublicKey, op: OperationKind, forwarding: bool, platform: Option<SymKey>, dialog: Option<Pin>, approves: bool)
    requires Owing(w)
    ensures Owing(StepSign(w, c, pk, op, forwarding, platform, dialog, approves))
  {
    hide Uncovered, NoSync;
    var e := ApprovalRuns.SignAnswersOnce(w, c, pk, op, forwarding, platform, dialog, approves);
    OwingSnoc(w.log, e);
    SignKeepsClient(w, c, pk, op, forwarding, platform, dialog, approves);
    hide StepSign;
  }

  lemma {:induction false} SignKeepsClient(w: World, c: Config, pk: PublicKey, op: OperationKind, forwarding: bool, platform: Option<SymKey>, dialog: Option<Pin>, approves: bool)
    ensures StepSign(w, c, pk, op, forwarding, platform, dialog, approves).s.client == w.s.client
  {
    hide Load, OpenNative, OpenDialog, Rule;
  }

  lemma {:induction false} SetPinOwes(w: World, pin: Pin, freshKey: SymKey, salt: Salt, native: bool, written: bool)
    requires Owing(w)
    ensures Owing(StepSetPin(w, pin, freshKey, salt, native, written))
  {
    hide Uncovered, NoSync, WriteCache;
    OwingSnoc(w.log, PinSet(pin));
    OwingSnoc(w.log + [PinSet(pin)], Sealing(w.s.cached));
    assert w.log + [PinSet(pin), Sealing(w.s.cached)] == (w.log + [PinSet(pin)]) + [Sealing(w.s.cached)];
  }

  lemma {:induction false} StepOwes(w: World, c: Config, a: Action)
    requires Owing(w) && !LogsIn(a)
    ensures Owing(Step(w, c, a))
  {
    hide StepUnlock, StepUnlockPin, StepSetPin, StepSign, Uncovered, NoSync;
    OwingSnoc(w.log, LockedNow);
    OwingSnoc(w.log, Forgot);
    OwingSnoc(w.log, Notice);
    match a
    case Unlock(platform, dialog, restored, answer, saved) => UnlockOwes(w, c, platform, dialog, restored, answer, saved);
    case UnlockNative(platform, answer, saved) =>
      UnlockOwes(w, c.(autoUnlock := false, windows := false), platform, None, false, answer, saved);
    case UnlockHello(platform, restored, answer, saved) =>
      UnlockOwes(w, c.(autoUnlock := false), platform, None, restored, answer, saved);
    case UnlockPin(pin, admitted, salt, migrated, restored, answer, saved) =>
      UnlockPinOwes(w, pin, admitted, salt, migrated, restored, answer, saved);
    case SetPin(pin, freshKey, salt, native, written) => SetPinOwes(w, pin, freshKey, salt, native, written);
    case SignRequest(pk, op, forwarding, platform, dialog, approves) =>
      SignOwes(w, c, pk, op, forwarding, platform, dialog, approves);
    case _ =>
  }

  lemma {:induction false} RunOwes(w: World, c: Config, actions: seq<Action>)
    requires Owing(w) && forall a <- actions :: !LogsIn(a)
    ensures Owing(Run(w, c, actions))
    decreases |actions|
  {
    if actions != [] {
      hide Step, Owing;
      RunOwes(w, c, actions[..|actions| - 1]);
      StepOwes(Run(w, c, actions[..|actions| - 1]), c, actions[|actions| - 1]);
    }
  }

  /**
   A remembered device syncs nothing until someone logs in with the master
   password, whatever PIN, platform or Hello unlocks happen: a sync is pending
   exactly when some notice has had no Forget since.
   */
  lemma {:induction false} PendingUntilLogin(cache: CacheFile, pin: Pin, keys: seq<KeyTuple>, c: Config, actions: seq<Action>)
    requires forall a <- actions :: !LogsIn(a)
    ensures var end := Run(StartRemembered(cache, pin, keys), c, actions);
      && NoSync(end.log) && !end.s.client.LoggedIn?
      && (end.s.pending <==> exists i :: 0 <= i < |end.log| && end.log[i].Notice? && forall j :: i < j < |end.log| ==> !end.log[j].Forgot?)
  {
    var start := StartRemembered(cache, pin, keys);
    OwingSnoc([], PinSet(pin));
    OwingSnoc([PinSet(pin)], Sealing(keys));
    assert [PinSet(pin), Sealing(keys)] == ([] + [PinSet(pin)]) + [Sealing(keys)];
    assert Owing(start);
    hide Run, Uncovered;
    RunOwes(start, c, actions);
    var end := Run(start, c, actions);
    UncoveredMeaning(end.log);
    assert forall j :: 0 <= j < |end.log| ==> end.log[j] in end.log;
  }
}
