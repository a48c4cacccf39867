/** Over every run: the cache keeps up with what is loaded, and a restart finds it. */
module CacheRuns {
  import opened Text
  import opened Keys
  import opened SshSig
  import opened Vault
  import opened EnvelopeRuns
  import opened SignOutcomes
  import opened UnlockOutcomes

  // --- The cache keeps up -------------------------------------------------

  /** While the Local Cache Key is held, the cache holds exactly the cached tuples. */
  ghost predicate Current(s: State) {
    s.cacheKey.Some? ==> s.cache.Some? && s.cache.value.payload == Sealed(s.cacheKey.value, KeyList(s.cached))
  }

  /** Every cache write the action may make succeeds. */
  predicate Saves(a: Action) {
    match a
    case Unlock(_, _, _, _, saved) => saved
    case UnlockNative(_, _, saved) => saved
    case UnlockHello(_, _, _, saved) => saved
    case UnlockPin(_, _, _, _, _, _, saved) => saved
    case UnlockPassword(_, stored, _, saved) => stored && saved
    case Sync(_, saved) => saved
    case HubNotice(_, saved) => saved
    case AutoUnlocked(_, _, saved) => saved
    case _ => true
  }

  lemma {:induction false} DoSyncCurrent(w: World, answer: SyncAnswer)
    requires Current(w.s)
    ensures Current(DoSync(w, answer, true).s)
  {
    hide Fingerprints, StillApproved, Load;
  }

  lemma {:induction false} ResolveCurrent(w: World, answer: SyncAnswer)
    requires Current(w.s)
    ensures Current(Resolve(w, answer, true).s)
  {
    hide DoSync;
    DoSyncCurrent(World(w.s.(pending := false), w.log), answer);
  }

  lemma {:induction false} UnlockWithCurrent(w: World, data: Payload, key: SymKey, restored: bool, answer: SyncAnswer)
    requires data.KeyList? && w.s.cache.Some? && w.s.cache.value.payload == Sealed(key, data)
    ensures Current(UnlockWith(w, data, key, restored, answer, true).s)
  {
    hide Resolve, Load;
    var held := FinishUnlock(World(w.s.(cacheKey := Some(key)), w.log), data);
    ResolveCurrent(World(held.s.(client := Restore(held.s, restored)), held.log), answer);
  }

  lemma {:induction false} UnlockCurrent(w: World, c: Config, platform: Option<SymKey>, dialog: Option<Pin>, restored: bool, answer: SyncAnswer)
    requires Envelope(w) && Current(w.s)
    ensures Current(StepUnlock(w, c, platform, dialog, restored, answer, true).s)
  {
    hide UnlockWith, LastPin, LastSealed;
    if w.s.locked && w.s.cache.Some? {
      var cf := w.s.cache.value;
      var held := World(w.s.(cacheKey := Some(cf.payload.key)), w.log);
      UnlockWithCurrent(w, cf.payload.data, cf.payload.key, c.windows && restored, answer);
      UnlockWithCurrent(w, cf.payload.data, cf.payload.key, restored, answer);
      UnlockWithCurrent(held, cf.payload.data, cf.payload.key, restored, answer);
    }
  }

  lemma {:induction false} UnlockPinCurrent(w: World, pin: Pin, admitted: bool, salt: Salt, migrated: bool, restored: bool, answer: SyncAnswer)
    requires Envelope(w) && Current(w.s)
    ensures Current(StepUnlockPin(w, pin, admitted, salt, migrated, restored, answer, true).s)
  {
    hide UnlockWith, LastPin, LastSealed;
    if w.s.locked && w.s.cache.Some? {
      var cf := w.s.cache.value;
      UnlockWithCurrent(w, cf.payload.data, cf.payload.key, restored, answer);
      var m := World(w.s.(cache := Some(MigrateCache(cf, cf.payload.key, pin, salt))), w.log);
      UnlockWithCurrent(m, cf.payload.data, cf.payload.key, restored, answer);
    }
  }

  lemma {:induction false} UnlockPasswordCurrent(w: World, login: Option<seq<KeyTuple>>, answer: SyncAnswer)
    requires Current(w.s)
    ensures Current(StepUnlockPassword(w, login, true, answer, true).s)
  {
    hide Resolve, Load, Fingerprints, StillApproved;
    if login.Some? {
      var r := Reconcile(w, login.value, true);
      ResolveCurrent(World(WithKeys(r.s, login.value).(locked := false, client := LoggedIn, sessionFile := true), r.log), answer);
    }
  }

  lemma {:induction false} SignCurrent(w: World, c: Config, pk: PublicKey, op: OperationKind, forwarding: bool, platform: Option<SymKey>, dialog: Option<Pin>, approves: bool)
    requires Envelope(w) && Current(w.s)
    ensures Current(StepSign(w, c, pk, op, forwarding, platform, dialog, approves).s)
  {
    hide Load, Step, OpenWithPin, LastSealed, LastPin, StepSign;
    var a := SignRequest(pk, op, forwarding, platform, dialog, approves);
    assert Step(w, c, a) == StepSign(w, c, pk, op, forwarding, platform, dialog, approves) by {
      SignIsStep(w, c, pk, op, forwarding, platform, dialog, approves);
    }
    if pk in w.s.keystore {
      if w.s.locked {
        LockedSignExactly(w, c, pk, op, forwarding, platform, dialog, approves);
      } else {
        OpenVaultAnswers(w, c, pk, op, forwarding, platform, dialog, approves);
      }
    } else {
      UnlistedUnanswered(w, c, pk, op, forwarding, platform, dialog, approves);
    }
  }

  lemma {:induction false} SignIsStep(w: World, c: Config, pk: PublicKey, op: OperationKind, forwarding: bool, platform: Option<SymKey>, dialog: Option<Pin>, approves: bool)
    ensures Step(w, c, SignRequest(pk, op, forwarding, platform, dialog, approves)) == StepSign(w, c, pk, op, forwarding, platform, dialog, approves)
  {
  }

  lemma {:induction false} StepCurrent(w: World, c: Config, a: Action)
    requires Envelope(w) && Current(w.s) && Saves(a)
    ensures Current(Step(w, c, a).s)
  {
    hide StepUnlock, StepUnlockPin, StepUnlockPassword, StepSign, DoSync, Resolve, Envelope;
    match a
    case Unlock(platform, dialog, restored, answer, saved) => UnlockCurrent(w, c, platform, dialog, restored, answer);
    case UnlockNative(platform, answer, saved) =>
      UnlockCurrent(w, c.(autoUnlock := false, windows := false), platform, None, false, answer);
    case UnlockHello(platform, restored, answer, saved) =>
      UnlockCurrent(w, c.(autoUnlock := false), platform, None, restored, answer);
    case UnlockPin(pin, admitted, salt, migrated, restored, answer, saved) =>
      UnlockPinCurrent(w, pin, admitted, salt, migrated, restored, answer);
    case UnlockPassword(login, stored, answer, saved) => UnlockPasswordCurrent(w, login, answer);
    case Sync(answer, saved) => DoSyncCurrent(w, answer);
    case HubNotice(answer, saved) => DoSyncCurrent(World(w.s, w.log + [Notice]), answer);
    case SignRequest(pk, op, forwarding, platform, dialog, approves) =>
      SignCurrent(w, c, pk, op, forwarding, platform, dialog, approves);
    case AutoUnlocked(restored, answer, saved) =>
      ResolveCurrent(World(w.s.(client := Restore(w.s, restored)), w.log), answer);
    case _ =>
  }

  lemma {:induction false} RunCurrent(w: World, c: Config, actions: seq<Action>)
    requires Envelope(w) && Current(w.s) && forall a <- actions :: Saves(a)
    ensures Current(Run(w, c, actions).s)
    decreases |actions|
  {
    if actions != [] {
      hide Step, Current, Envelope, Saves;
      RunCurrent(w, c, actions[..|actions| - 1]);
      RunKeepsEnvelope(w, c, actions[..|actions| - 1]);
      StepCurrent(Run(w, c, actions[..|actions| - 1]), c, actions[|actions| - 1]);
    }
  }

  /**
   While a Local Cache Key is held and every write since it was not has
   succeeded, the PIN set last opens the cache to exactly the cached tuples.
   */
  lemma {:induction false} CacheKeepsUp(w: World, c: Config, actions: seq<Action>)
    requires Envelope(w) && w.s.cacheKey.None? && forall a <- actions :: Saves(a)
    requires Run(w, c, actions).s.cacheKey.Some?
    ensures var end := Run(w, c, actions);
      && end.s.cache.Some? && LastPin(end.log).Some?
      && OpenWithPin(end.s.cache.value, LastPin(end.log).value) == Some((KeyList(end.s.cached), end.s.cacheKey.value))
  {
    hide Run, OpenWithPin, Saves;
    RunCurrent(w, c, actions);
    RunKeepsEnvelope(w, c, actions);
    var end := Run(w, c, actions);
    PinOpens(end.s.cache.value, LastPin(end.log).value, LastSealed(end.log).value, LastPin(end.log).value);
  }

  /**
   A restart from the cache any run leaves lists exactly the identities of the
   keys sealed last, and is again a daemon whose PIN opens its cache.
   */
  lemma {:induction false} RestartExactly(w: World, c: Config, actions: seq<Action>)
    requires Envelope(w) && Run(w, c, actions).s.cache.Some?
    ensures var end := Run(w, c, actions);
      && LastPin(end.log).Some? && LastSealed(end.log).Some?
      && var again := StartRemembered(end.s.cache.value, LastPin(end.log).value, LastSealed(end.log).value);
      && Envelope(again) && again.s.locked
      && Listed(again.s.keystore) == Listed(Load(LastSealed(end.log).value))
  {
    hide Run;
    RunKeepsEnvelope(w, c, actions);
    var end := Run(w, c, actions);
    HeaderListsTheKeys(LastSealed(end.log).value);
    StartEnvelope(end.s.cache.value, LastPin(end.log).value, LastSealed(end.log).value, NoClient);
    hide Listed, Load, LastPin, LastSealed, IdentitiesOf;
  }
}
