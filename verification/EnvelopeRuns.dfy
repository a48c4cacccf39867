/** The Local Cache Key, the cache and its PIN, over every run of a single-device daemon. */
module EnvelopeRuns {
  import opened Text
  import opened Keys
  import opened SshSig
  import opened SignRules
  import opened Vault

  /** The PIN most recently set. */
  function LastPin(log: seq<Event>): Option<Pin> {
    if log == [] then None
    else
      match log[|log| - 1]
      case PinSet(pin) => Some(pin)
      case _ => LastPin(log[..|log| - 1])
  }

  /** The key list most recently sealed. */
  function LastSealed(log: seq<Event>): Option<seq<KeyTuple>> {
    if log == [] then None
    else
      match log[|log| - 1]
      case Sealing(keys) => Some(keys)
      case _ => LastSealed(log[..|log| - 1])
  }

  lemma {:induction false} SealsSnoc(log: seq<Event>, e: Event)
    ensures LastPin(log + [e]) == if e.PinSet? then Some(e.pin) else LastPin(log)
    ensures LastSealed(log + [e]) == if e.Sealing? then Some(e.keys) else LastSealed(log)
  {
    assert (log + [e])[..|log|] == log;
  }

  /**
   A held key is the one sealing the held cache, and a held cache is opened by
   the current PIN to the list sealed last.
   */
  ghost predicate Envelope(w: World) {
    && (w.s.cacheKey.Some? ==> w.s.cache.Some? && w.s.cacheKey.value == w.s.cache.value.payload.key)
    && (w.s.cache.Some? ==>
        && LastPin(w.log).Some? && LastSealed(w.log).Some?
        && Opens(w.s.cache.value, LastPin(w.log).value, LastSealed(w.log).value))
  }

  lemma {:induction false} ReconcileEnvelope(w: World, keys: seq<KeyTuple>, saved: bool)
    requires Envelope(w)
    ensures Envelope(Reconcile(w, keys, saved))
  {
    hide StillApproved, Fingerprints, LastPin, LastSealed;
    SealsSnoc(w.log, Sealing(keys));
    if w.s.cache.Some? {
      RewritesOpen(w.s.cache.value, LastPin(w.log).value, LastSealed(w.log).value, keys, [], 0, 0, false);
    }
  }

  lemma {:induction false} DoSyncEnvelope(w: World, answer: SyncAnswer, saved: bool)
    requires Envelope(w)
    ensures Envelope(DoSync(w, answer, saved))
  {
    hide Reconcile, LastPin, LastSealed, Load, Opens;
    if SyncWorks(w.s, answer) {
      ReconcileEnvelope(w, answer.keys, saved);
      var r := Reconcile(w, answer.keys, saved);
      SealsSnoc(r.log, SyncDone);
    }
  }

  /** Opening a good cache, by any means, gives the key it is sealed with and a key list. */
  lemma {:induction false} UnlockWithEnvelope(w: World, data: Payload, key: SymKey, restored: bool, answer: SyncAnswer, saved: bool)
    requires Envelope(w) && w.s.cache.Some? && w.s.cache.value.payload == Sealed(key, data)
    ensures Envelope(UnlockWith(w, data, key, restored, answer, saved))
  {
    hide DoSync, LastPin, LastSealed, Load, Opens;
    var held := FinishUnlock(World(w.s.(cacheKey := Some(key)), w.log), data);
    assert Envelope(held);
    var u := World(held.s.(client := Restore(held.s, restored), pending := false), held.log);
    DoSyncEnvelope(u, answer, saved);
  }

  lemma {:induction false} UnlockEnvelope(w: World, c: Config, platform: Option<SymKey>, dialog: Option<Pin>, restored: bool, answer: SyncAnswer, saved: bool)
    requires Envelope(w)
    ensures Envelope(StepUnlock(w, c, platform, dialog, restored, answer, saved))
  {
    hide UnlockWith, LastPin, LastSealed, Opens;
    if w.s.locked {
      var native := OpenNative(w.s, platform);
      var w' := if native.Some? then World(w.s.(cacheKey := Some(native.value.1)), w.log) else w;
      assert Envelope(w');
      if native.Some? {
        UnlockWithEnvelope(w, native.value.0, native.value.1, c.windows && restored, answer, saved);
      }
      var d := OpenDialog(w'.s, dialog);
      if d.Some? {
        UnlockWithEnvelope(w', d.value.0, d.value.1, restored, answer, saved);
      }
    }
  }

  lemma {:induction false} UnlockPinEnvelope(w: World, pin: Pin, admitted: bool, salt: Salt, migrated: bool, restored: bool, answer: SyncAnswer, saved: bool)
    requires Envelope(w)
    ensures Envelope(StepUnlockPin(w, pin, admitted, salt, migrated, restored, answer, saved))
  {
    hide UnlockWith, LastPin, LastSealed;
    if w.s.cache.Some? && OpenWithPin(w.s.cache.value, pin).Some? {
      var cf := w.s.cache.value;
      var (data, key) := OpenWithPin(cf, pin).value;
      PinOpens(cf, LastPin(w.log).value, LastSealed(w.log).value, pin);
      RewritesOpen(cf, pin, LastSealed(w.log).value, [], [], salt, key, false);
      var m := World(w.s.(cache := Some(MigrateCache(cf, key, pin, salt))), w.log);
      assert Envelope(m);
      UnlockWithEnvelope(w, data, key, restored, answer, saved);
      UnlockWithEnvelope(m, data, key, restored, answer, saved);
    }
  }

  lemma {:induction false} UnlockPasswordEnvelope(w: World, login: Option<seq<KeyTuple>>, stored: bool, answer: SyncAnswer, saved: bool)
    requires Envelope(w)
    ensures Envelope(StepUnlockPassword(w, login, stored, answer, saved))
  {
    hide DoSync, Reconcile, LastPin, LastSealed, Load, Opens;
    if login.Some? {
      ReconcileEnvelope(w, login.value, stored);
      var r := Reconcile(w, login.value, stored);
      var u := World(WithKeys(r.s, login.value).(locked := false, client := LoggedIn, sessionFile := true), r.log);
      DoSyncEnvelope(World(u.s.(pending := false), u.log), answer, saved);
    }
  }

  lemma {:induction false} SetPinEnvelope(w: World, pin: Pin, freshKey: SymKey, salt: Salt, native: bool, written: bool)
    requires Envelope(w)
    ensures Envelope(StepSetPin(w, pin, freshKey, salt, native, written))
  {
    hide LastPin, LastSealed;
    SealsSnoc(w.log, PinSet(pin));
    SealsSnoc(w.log + [PinSet(pin)], Sealing(w.s.cached));
    assert w.log + [PinSet(pin), Sealing(w.s.cached)] == (w.log + [PinSet(pin)]) + [Sealing(w.s.cached)];
  }

  lemma {:induction false} AnswerEnvelope(w: World, id: string, op: OperationKind, pem: Option<Pem>, forwarding: bool, how: Handling)
    requires Envelope(w)
    ensures Envelope(Answer(w, id, op, pem, forwarding, how))
  {
    hide LastPin, LastSealed, Opens, Rule;
    var ruling := Rule(how, forwarding);
    SealsSnoc(w.log, Answered(id, op, pem, forwarding, ruling.verdict, ruling.source));
  }

  lemma {:induction false} SignLockedEnvelope(w: World, c: Config, id: string, op: OperationKind, forwarding: bool, platform: Option<SymKey>, dialog: Option<Pin>, approves: bool)
    requires Envelope(w)
    ensures Envelope(SignLocked(w, c, id, op, forwarding, platform, dialog, approves))
  {
    hide LastPin, LastSealed, Load, Opens, Answer;
    AnswerEnvelope(w, id, op, None, forwarding, Refused);
    var native := OpenNative(w.s, platform);
    var unsealed := if native.Some? && native.value.0.KeyList? then native else OpenDialog(w.s, dialog);
    if unsealed.Some? && unsealed.value.0.KeyList? {
      var keys, key := unsealed.value.0.keys, unsealed.value.1;
      var w' := World(WithKeys(w.s.(cached := keys), keys).(cacheKey := Some(key), locked := false), w.log);
      assert Envelope(w');
      AnswerEnvelope(w', id, op, None, forwarding, Considered(c.prompt, false, approves));
    }
  }

  lemma {:induction false} SignEnvelope(w: World, c: Config, pk: PublicKey, op: OperationKind, forwarding: bool, platform: Option<SymKey>, dialog: Option<Pin>, approves: bool)
    requires Envelope(w)
    ensures Envelope(StepSign(w, c, pk, op, forwarding, platform, dialog, approves))
  {
    hide LastPin, LastSealed, Opens, Answer, SignLocked, Rule;
    if pk in w.s.keystore {
      var entry := w.s.keystore[pk];
      SignLockedEnvelope(w, c, entry.id, op, forwarding, platform, dialog, approves);
      var m := World(w.s.(memory := w.s.memory + {(entry.id, op)}), w.log);
      assert Envelope(m);
      var how := Considered(c.prompt, (entry.id, op) in w.s.memory, approves);
      AnswerEnvelope(w, entry.id, op, entry.secret, forwarding, how);
      AnswerEnvelope(m, entry.id, op, entry.secret, forwarding, how);
    }
  }

  lemma {:induction false} StepKeepsEnvelope(w: World, c: Config, a: Action)
    requires Envelope(w)
    ensures Envelope(Step(w, c, a))
  {
    hide StepUnlock, StepUnlockPin, StepUnlockPassword, StepSetPin, StepSign, DoSync, LastPin, LastSealed, Opens;
    SealsSnoc(w.log, LockedNow);
    SealsSnoc(w.log, Forgot);
    SealsSnoc(w.log, Notice);
    match a
    case Unlock(platform, dialog, restored, answer, saved) => UnlockEnvelope(w, c, platform, dialog, restored, answer, saved);
    case UnlockNative(platform, answer, saved) =>
      UnlockEnvelope(w, c.(autoUnlock := false, windows := false), platform, None, false, answer, saved);
    case UnlockHello(platform, restored, answer, saved) =>
      UnlockEnvelope(w, c.(autoUnlock := false), platform, None, restored, answer, saved);
    case UnlockPin(pin, admitted, salt, migrated, restored, answer, saved) =>
      UnlockPinEnvelope(w, pin, admitted, salt, migrated, restored, answer, saved);
    case UnlockPassword(login, stored, answer, saved) => UnlockPasswordEnvelope(w, login, stored, answer, saved);
    case Sync(answer, saved) => DoSyncEnvelope(w, answer, saved);
    case SetPin(pin, freshKey, salt, native, written) => SetPinEnvelope(w, pin, freshKey, salt, native, written);
    case HubNotice(answer, saved) => DoSyncEnvelope(World(w.s, w.log + [Notice]), answer, saved);
    case SignRequest(pk, op, forwarding, platform, dialog, approves) =>
      SignEnvelope(w, c, pk, op, forwarding, platform, dialog, approves);
    case AutoUnlocked(restored, answer, saved) =>
      DoSyncEnvelope(World(w.s.(client := Restore(w.s, restored), pending := false), w.log), answer, saved);
    case _ =>
  }

  lemma {:induction false} RunKeepsEnvelope(w: World, c: Config, actions: seq<Action>)
    requires Envelope(w)
    ensures Envelope(Run(w, c, actions))
    decreases |actions|
  {
    if actions != [] {
      hide Step, Envelope;
      RunKeepsEnvelope(w, c, actions[..|actions| - 1]);
      StepKeepsEnvelope(Run(w, c, actions[..|actions| - 1]), c, actions[|actions| - 1]);
    }
  }

  /** A remembered device starts well if its PIN opens its cache: v3, or v2 with the legacy salt. */
  lemma {:induction false} StartEnvelope(cache: CacheFile, pin: Pin, keys: seq<KeyTuple>, client: Client)
    requires Opens(cache, pin, keys)
    ensures Envelope(StartRemembered(cache, pin, keys))
    ensures Envelope(StartFresh(keys, client))
  {
    SealsSnoc([PinSet(pin)], Sealing(keys));
    SealsSnoc([], PinSet(pin));
    assert [PinSet(pin), Sealing(keys)] == [PinSet(pin)] + [Sealing(keys)];
    assert [] + [PinSet(pin)] == [PinSet(pin)];
  }

  /**
   After any run from a well-started daemon, whenever there is a cache the PIN
   set last opens it, to the key list sealed last; no other PIN opens it; and a
   key held in memory is the one that opened it.
   */
  lemma {:induction false} CurrentPinOpensCache(w: World, c: Config, actions: seq<Action>, attempt: Pin)
    requires Envelope(w) && Run(w, c, actions).s.cache.Some?
    ensures var end := Run(w, c, actions);
      && LastPin(end.log).Some? && LastSealed(end.log).Some?
      && var file := end.s.cache.value;
      && OpenWithPin(file, attempt) ==
         (if attempt == LastPin(end.log).value
          then Some((KeyList(LastSealed(end.log).value), file.payload.key)) else None)
      && (end.s.cacheKey.Some? ==> end.s.cacheKey.value == file.payload.key)
  {
    hide Run, OpenWithPin, Opens;
    RunKeepsEnvelope(w, c, actions);
    var end := Run(w, c, actions);
    PinOpens(end.s.cache.value, LastPin(end.log).value, LastSealed(end.log).value, attempt);
  }

  // --- A locked daemon and the cache key ----------------------------------

  /** The one way a locked daemon comes to hold a Local Cache Key: a PIN set over keys a locked sync fetched. */
  predicate SetsPinWhileLocked(s: State, a: Action) {
    s.locked && a.SetPin? && PinSettable(s, a.newPin) && a.written
  }

  lemma {:induction false} UnlockWithUnlocks(w: World, data: Payload, key: SymKey, restored: bool, answer: SyncAnswer, saved: bool)
    requires data.KeyList?
    ensures !UnlockWith(w, data, key, restored, answer, saved).s.locked
  {
    hide Load, Fingerprints, StillApproved;
  }

  /** A good cache that opens at all unlocks; a vault still locked holds what it held. */
  lemma {:induction false} UnlockLeavesKey(w: World, c: Config, platform: Option<SymKey>, dialog: Option<Pin>, restored: bool, answer: SyncAnswer, saved: bool)
    requires Envelope(w)
    ensures var s' := StepUnlock(w, c, platform, dialog, restored, answer, saved).s; s'.locked ==> w.s.locked && s'.cacheKey == w.s.cacheKey
  {
    hide UnlockWith, LastPin, LastSealed;
    if w.s.locked && w.s.cache.Some? {
      var cf := w.s.cache.value;
      var held := World(w.s.(cacheKey := Some(cf.payload.key)), w.log);
      UnlockWithUnlocks(w, cf.payload.data, cf.payload.key, c.windows && restored, answer, saved);
      UnlockWithUnlocks(w, cf.payload.data, cf.payload.key, restored, answer, saved);
      UnlockWithUnlocks(held, cf.payload.data, cf.payload.key, restored, answer, saved);
    }
  }

  lemma {:induction false} UnlockPinLeavesKey(w: World, pin: Pin, admitted: bool, salt: Salt, migrated: bool, restored: bool, answer: SyncAnswer, saved: bool)
    requires Envelope(w)
    ensures var s' := StepUnlockPin(w, pin, admitted, salt, migrated, restored, answer, saved).s; s'.locked ==> w.s.locked && s'.cacheKey == w.s.cacheKey
  {
    hide UnlockWith, LastPin, LastSealed;
    if w.s.locked && w.s.cache.Some? {
      var cf := w.s.cache.value;
      UnlockWithUnlocks(w, cf.payload.data, cf.payload.key, restored, answer, saved);
      var m := World(w.s.(cache := Some(MigrateCache(cf, cf.payload.key, pin, salt))), w.log);
      UnlockWithUnlocks(m, cf.payload.data, cf.payload.key, restored, answer, saved);
    }
  }

  lemma {:induction false} SignLeavesKey(w: World, c: Config, pk: PublicKey, op: OperationKind, forwarding: bool, platform: Option<SymKey>, dialog: Option<Pin>, approves: bool)
    ensures var s' := StepSign(w, c, pk, op, forwarding, platform, dialog, approves).s; s'.locked ==> w.s.locked && s'.cacheKey == w.s.cacheKey
  {
    hide Load, OpenNative, OpenDialog, Rule;
  }

  lemma {:induction false} DoSyncKeepsKeyAndLock(w: World, answer: SyncAnswer, saved: bool)
    ensures DoSync(w, answer, saved).s.cacheKey == w.s.cacheKey
    ensures DoSync(w, answer, saved).s.locked == w.s.locked
  {
    hide Load, Fingerprints, StillApproved;
  }

  /** The action leaves a locked daemon locked and takes no key from it. */
  predicate KeepsLockedKey(s: State, s': State, a: Action) {
    s.locked && s'.locked && !a.HubLogOut? && !a.Forget?
  }

  /** After any action a locked daemon holds a key exactly if the action set a PIN while locked, or left it one it held. */
  lemma {:induction false} LockedKeyStep(w: World, c: Config, a: Action)
    requires Envelope(w)
    ensures var s' := Step(w, c, a).s;
      (s'.locked && s'.cacheKey.Some?) <==>
      SetsPinWhileLocked(w.s, a) || (w.s.cacheKey.Some? && KeepsLockedKey(w.s, s', a))
  {
    hide StepUnlock, StepUnlockPin, StepUnlockPassword, StepSign, DoSync, WriteCache, Envelope;
    match a
    case Unlock(platform, dialog, restored, answer, saved) => UnlockLeavesKey(w, c, platform, dialog, restored, answer, saved);
    case UnlockNative(platform, answer, saved) =>
      UnlockLeavesKey(w, c.(autoUnlock := false, windows := false), platform, None, false, answer, saved);
    case UnlockHello(platform, restored, answer, saved) =>
      UnlockLeavesKey(w, c.(autoUnlock := false), platform, None, restored, answer, saved);
    case UnlockPin(pin, admitted, salt, migrated, restored, answer, saved) =>
      UnlockPinLeavesKey(w, pin, admitted, salt, migrated, restored, answer, saved);
    case UnlockPassword(login, stored, answer, saved) => PasswordUnlocks(w, login, stored, answer, saved);
    case Sync(answer, saved) => DoSyncKeepsKeyAndLock(w, answer, saved);
    case HubNotice(answer, saved) => DoSyncKeepsKeyAndLock(World(w.s, w.log + [Notice]), answer, saved);
    case SignRequest(pk, op, forwarding, platform, dialog, approves) =>
      SignLeavesKey(w, c, pk, op, forwarding, platform, dialog, approves);
    case AutoUnlocked(restored, answer, saved) =>
      DoSyncKeepsKeyAndLock(World(w.s.(client := Restore(w.s, restored), pending := false), w.log), answer, saved);
    case _ =>
  }

  /**
   The promise that a locked daemon holds no Local Cache Key is kept by every
   action except one: it breaks exactly when a PIN is set while locked.
   */
  lemma {:induction false} LockedHoldsNoKeyExcept(w: World, c: Config, a: Action)
    requires Envelope(w) && (w.s.locked ==> w.s.cacheKey.None?)
    ensures var s' := Step(w, c, a).s;
      (s'.locked && s'.cacheKey.Some?) <==> SetsPinWhileLocked(w.s, a)
  {
    hide Step, Envelope;
    LockedKeyStep(w, c, a);
  }

  /** At step `i` a PIN was set while locked, and every step since left the daemon locked with its key. */
  ghost predicate PinSetLockedAt(w: World, c: Config, actions: seq<Action>, i: nat)
    requires i < |actions|
  {
    && SetsPinWhileLocked(Run(w, c, actions[..i]).s, actions[i])
    && (forall k :: i < k < |actions| ==> KeepsLockedKey(Run(w, c, actions[..k]).s, Run(w, c, actions[..k + 1]).s, actions[k]))
  }

  lemma {:induction false} PinSetLockedFront(w: World, c: Config, actions: seq<Action>, i: nat)
    requires i + 1 < |actions|
    ensures var n := |actions| - 1;
      PinSetLockedAt(w, c, actions, i) <==>
      PinSetLockedAt(w, c, actions[..n], i) && KeepsLockedKey(Run(w, c, actions[..n]).s, Run(w, c, actions[..n + 1]).s, actions[n])
  {
    hide Run, SetsPinWhileLocked, KeepsLockedKey;
    var n := |actions| - 1;
    var front := actions[..n];
    assert forall k :: 0 <= k <= n ==> front[..k] == actions[..k];
    assert forall k :: 0 <= k < n ==> front[k] == actions[k];
    if PinSetLockedAt(w, c, front, i) && KeepsLockedKey(Run(w, c, actions[..n]).s, Run(w, c, actions[..n + 1]).s, actions[n]) {
      forall k | i < k < |actions| ensures KeepsLockedKey(Run(w, c, actions[..k]).s, Run(w, c, actions[..k + 1]).s, actions[k]) {
        if k < n {
          assert KeepsLockedKey(Run(w, c, front[..k]).s, Run(w, c, front[..k + 1]).s, front[k]);
        }
      }
    }
    if PinSetLockedAt(w, c, actions, i) {
      forall k | i < k < n ensures KeepsLockedKey(Run(w, c, front[..k]).s, Run(w, c, front[..k + 1]).s, front[k]) {
        assert KeepsLockedKey(Run(w, c, actions[..k]).s, Run(w, c, actions[..k + 1]).s, actions[k]);
      }
    }
  }

  ghost predicate PinSetLocked(w: World, c: Config, actions: seq<Action>) {
    exists i :: 0 <= i < |actions| && PinSetLockedAt(w, c, actions, i)
  }

  lemma {:induction false} PinSetLockedSnoc(w: World, c: Config, actions: seq<Action>)
    requires actions != []
    ensures var n := |actions| - 1;
      PinSetLocked(w, c, actions) <==>
      || SetsPinWhileLocked(Run(w, c, actions[..n]).s, actions[n])
      || (PinSetLocked(w, c, actions[..n]) && KeepsLockedKey(Run(w, c, actions[..n]).s, Run(w, c, actions).s, actions[n]))
  {
    hide Run, SetsPinWhileLocked, KeepsLockedKey;
    var n := |actions| - 1;
    assert actions[..n + 1] == actions;
    assert PinSetLockedAt(w, c, actions, n) <==> SetsPinWhileLocked(Run(w, c, actions[..n]).s, actions[n]);
    hide PinSetLockedAt;
    if i :| 0 <= i < |actions| && PinSetLockedAt(w, c, actions, i) {
      if i < n {
        PinSetLockedFront(w, c, actions, i);
      }
    }
    if i :| 0 <= i < n && PinSetLockedAt(w, c, actions[..n], i) {
      PinSetLockedFront(w, c, actions, i);
    }
  }

  /**
   The same over every run: a daemon is locked and holds a Local Cache Key if
   and only if a PIN was set while it was locked and it has not been unlocked,
   logged out or made to forget since.
   */
  lemma {:induction false} LockedKeyExactly(w: World, c: Config, actions: seq<Action>)
    requires Envelope(w) && (w.s.locked ==> w.s.cacheKey.None?)
    ensures var end := Run(w, c, actions);
      (end.s.locked && end.s.cacheKey.Some?) <==> exists i :: 0 <= i < |actions| && PinSetLockedAt(w, c, actions, i)
    decreases |actions|
  {
    hide PinSetLockedAt, Step, Envelope, SetsPinWhileLocked;
    if actions != [] {
      var n := |actions| - 1;
      var before := Run(w, c, actions[..n]);
      assert Run(w, c, actions) == Step(before, c, actions[n]);
      hide Run;
      LockedKeyExactly(w, c, actions[..n]);
      RunKeepsEnvelope(w, c, actions[..n]);
      LockedKeyStep(before, c, actions[n]);
      PinSetLockedSnoc(w, c, actions);
    }
  }

  lemma {:induction false} PasswordUnlocks(w: World, login: Option<seq<KeyTuple>>, stored: bool, answer: SyncAnswer, saved: bool)
    ensures login.Some? ==> !StepUnlockPassword(w, login, stored, answer, saved).s.locked
    ensures login.None? ==> StepUnlockPassword(w, login, stored, answer, saved) == w
  {
    hide Load, Fingerprints, StillApproved;
  }

  /** How it breaks: sync while locked, then set a PIN; the vault stays locked and the key is held. */
  lemma {:induction false} LockedSetPinHoldsKey(w: World, c: Config, keys: seq<KeyTuple>, saved: bool, pin: Pin, freshKey: SymKey, salt: Salt, native: bool)
    requires w.s.locked && w.s.client.LoggedIn? && keys != [] && |pin| >= 4
    ensures var end := Run(w, c, [Sync(SyncOk(keys), saved), SetPin(pin, freshKey, salt, native, true)]);
      end.s.locked && end.s.cacheKey.Some? && end.s.cache.Some? && Opens(end.s.cache.value, pin, keys)
  {
    hide Load, Fingerprints, StillApproved;
    var first, second := Sync(SyncOk(keys), saved), SetPin(pin, freshKey, salt, native, true);
    assert [first, second][..1] == [first];
    assert [first][..0] == [];
    var mid := Step(w, c, first);
    assert Run(w, c, [first]) == mid;
    assert mid.s.locked && mid.s.cached == keys;
  }

  /** The same from a remembered device's start: log in, lock, sync while locked, set a PIN. */
  lemma {:induction false} LockedKeyFromStart(cache: CacheFile, old': Pin, first: seq<KeyTuple>, c: Config, keys: seq<KeyTuple>, pin: Pin, freshKey: SymKey, salt: Salt, native: bool)
    requires keys != [] && |pin| >= 4
    ensures var locked := Step(Step(StartRemembered(cache, old', first), c, UnlockPassword(Some(keys), false, SyncFailed, false)), c, Lock);
      var end := Run(locked, c, [Sync(SyncOk(keys), false), SetPin(pin, freshKey, salt, native, true)]);
      end.s.locked && end.s.cacheKey.Some? && end.s.cache.Some? && Opens(end.s.cache.value, pin, keys)
  {
    var login := UnlockPassword(Some(keys), false, SyncFailed, false);
    var w1 := Step(StartRemembered(cache, old', first), c, login);
    PasswordLogsIn(StartRemembered(cache, old', first), keys);
    hide Load, Fingerprints, StillApproved, StepUnlockPassword, Run, PublicOnly;
    LockedSetPinHoldsKey(Step(w1, c, Lock), c, keys, false, pin, freshKey, salt, native);
  }

  lemma {:induction false} PasswordLogsIn(w: World, keys: seq<KeyTuple>)
    ensures var s' := StepUnlockPassword(w, Some(keys), false, SyncFailed, false).s; !s'.locked && s'.client.LoggedIn?
  {
    hide Load, Fingerprints, StillApproved;
  }
}
