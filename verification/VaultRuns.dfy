/** What every run of whole actions keeps. */
module VaultRuns {
  import opened Text
  import opened Keys
  import opened SshSig
  import opened Vault

  // --- The keystore -------------------------------------------------------

  /** Locked: no private material. Unlocked: exactly the last-wins load of the cached tuples. */
  ghost predicate KeystoreInv(s: State) {
    && (s.locked ==> NoSecrets(s.keystore))
    && (!s.locked ==> s.keystore == Load(s.cached))
  }

  lemma {:induction false} DoSyncKeystore(w: World, answer: SyncAnswer, saved: bool)
    requires KeystoreInv(w.s)
    ensures KeystoreInv(DoSync(w, answer, saved).s)
    ensures DoSync(w, answer, saved).s.locked == w.s.locked
  {
  }

  lemma {:induction false} UnlockWithKeystore(w: World, data: Payload, key: SymKey, restored: bool, answer: SyncAnswer, saved: bool)
    requires KeystoreInv(w.s)
    ensures KeystoreInv(UnlockWith(w, data, key, restored, answer, saved).s)
  {
    hide Load;
    var held := FinishUnlock(World(w.s.(cacheKey := Some(key)), w.log), data);
    assert KeystoreInv(held.s);
  }

  lemma {:induction false} StepKeepsKeystore(w: World, c: Config, a: Action)
    requires KeystoreInv(w.s)
    ensures KeystoreInv(Step(w, c, a).s)
  {
    hide Load, StepUnlock, StepUnlockPin, StepUnlockPassword, StepSign, DoSync;
    match a
    case Unlock(platform, dialog, restored, answer, saved) => UnlockKeystore(w, c, platform, dialog, restored, answer, saved);
    case UnlockNative(platform, answer, saved) =>
      UnlockKeystore(w, c.(autoUnlock := false, windows := false), platform, None, false, answer, saved);
    case UnlockHello(platform, restored, answer, saved) =>
      UnlockKeystore(w, c.(autoUnlock := false), platform, None, restored, answer, saved);
    case UnlockPin(pin, admitted, salt, migrated, restored, answer, saved) =>
      UnlockPinKeystore(w, pin, admitted, salt, migrated, restored, answer, saved);
    case UnlockPassword(login, stored, answer, saved) => UnlockPasswordKeystore(w, login, stored, answer, saved);
    case Sync(answer, saved) => DoSyncKeystore(w, answer, saved);
    case HubNotice(answer, saved) => DoSyncKeystore(World(w.s, w.log + [Notice]), answer, saved);
    case SignRequest(pk, op, forwarding, platform, dialog, approves) =>
      SignKeystore(w, c, pk, op, forwarding, platform, dialog, approves);
    case AutoUnlocked(restored, answer, saved) =>
      DoSyncKeystore(World(w.s.(client := Restore(w.s, restored), pending := false), w.log), answer, saved);
    case _ =>
  }

  lemma {:induction false} UnlockPasswordKeystore(w: World, login: Option<seq<KeyTuple>>, stored: bool, answer: SyncAnswer, saved: bool)
    requires KeystoreInv(w.s)
    ensures KeystoreInv(StepUnlockPassword(w, login, stored, answer, saved).s)
  {
    hide Load, Fingerprints, StillApproved, DoSync;
    if login.Some? {
      var r := Reconcile(w, login.value, stored);
      var u := World(WithKeys(r.s, login.value).(locked := false, client := LoggedIn, sessionFile := true), r.log);
      DoSyncKeystore(World(u.s.(pending := false), u.log), answer, saved);
    }
  }

  lemma {:induction false} SignKeystore(w: World, c: Config, pk: PublicKey, op: OperationKind, forwarding: bool, platform: Option<SymKey>, dialog: Option<Pin>, approves: bool)
    requires KeystoreInv(w.s)
    ensures KeystoreInv(StepSign(w, c, pk, op, forwarding, platform, dialog, approves).s)
  {
    hide Load, OpenNative, OpenDialog;
  }

  lemma {:induction false} UnlockKeystore(w: World, c: Config, platform: Option<SymKey>, dialog: Option<Pin>, restored: bool, answer: SyncAnswer, saved: bool)
    requires KeystoreInv(w.s)
    ensures KeystoreInv(StepUnlock(w, c, platform, dialog, restored, answer, saved).s)
  {
    hide Load, UnlockWith, OpenNative, OpenDialog;
    if w.s.locked {
      var native := OpenNative(w.s, platform);
      var w' := if native.Some? then World(w.s.(cacheKey := Some(native.value.1)), w.log) else w;
      if native.Some? {
        UnlockWithKeystore(w, native.value.0, native.value.1, c.windows && restored, answer, saved);
      }
      var d := OpenDialog(w'.s, dialog);
      if d.Some? {
        UnlockWithKeystore(w', d.value.0, d.value.1, restored, answer, saved);
      }
    }
  }

  lemma {:induction false} UnlockPinKeystore(w: World, pin: Pin, admitted: bool, salt: Salt, migrated: bool, restored: bool, answer: SyncAnswer, saved: bool)
    requires KeystoreInv(w.s)
    ensures KeystoreInv(StepUnlockPin(w, pin, admitted, salt, migrated, restored, answer, saved).s)
  {
    hide Load, UnlockWith, OpenWithPin;
    if w.s.cache.Some? && OpenWithPin(w.s.cache.value, pin).Some? {
      var (data, key) := OpenWithPin(w.s.cache.value, pin).value;
      UnlockWithKeystore(w, data, key, restored, answer, saved);
      UnlockWithKeystore(World(w.s.(cache := Some(MigrateCache(w.s.cache.value, key, pin, salt))), w.log),
                         data, key, restored, answer, saved);
    }
  }

  /** Over every run: locked means no private key in the agent, unlocked means exactly the cached ones. */
  lemma {:induction false} RunKeepsKeystore(w: World, c: Config, actions: seq<Action>)
    requires KeystoreInv(w.s)
    ensures KeystoreInv(Run(w, c, actions).s)
    decreases |actions|
  {
    if actions != [] {
      hide Step, KeystoreInv;
      RunKeepsKeystore(w, c, actions[..|actions| - 1]);
      StepKeepsKeystore(Run(w, c, actions[..|actions| - 1]), c, actions[|actions| - 1]);
    }
  }

  lemma {:induction false} StartsKeepKeystore(cache: CacheFile, pin: Pin, keys: seq<KeyTuple>, client: Client)
    ensures KeystoreInv(StartRemembered(cache, pin, keys).s)
    ensures KeystoreInv(StartFresh(keys, client).s)
  {
    PublicOnlyHasNoSecrets(cache.header);
  }

  /** Locking changes no listed identity. */
  lemma {:induction false} LockKeepsListing(w: World)
    ensures Listed(LockVault(w).s.keystore) == Listed(w.s.keystore)
    ensures NoSecrets(LockVault(w).s.keystore)
  {
    assert Stripped(w.s.keystore).Keys == w.s.keystore.Keys;
  }
}
