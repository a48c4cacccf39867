/**
 The agent and the daemon as objects: the handlers, in the source's order of
 effects, each proved to take the vault's one step and to keep the invariants
 of every run.
 */
module Daemon {
  import opened Text
  import opened Keys
  import opened SshSig
  import opened SignRules
  import opened Vault
  import VaultRuns
  import EnvelopeRuns
  import SyncRuns

  /** Keystore, cache key and pending sync are as every run keeps them. */
  ghost predicate ValidWorld(w: World) {
    VaultRuns.KeystoreInv(w.s) && EnvelopeRuns.Envelope(w) && SyncRuns.PendingInv(w)
  }

  lemma {:induction false} StepKeepsValid(w: World, c: Config, a: Action)
    ensures ValidWorld(w) ==> ValidWorld(Step(w, c, a))
  {
    hide Step, VaultRuns.KeystoreInv, EnvelopeRuns.Envelope, SyncRuns.PendingInv;
    if ValidWorld(w) {
      VaultRuns.StepKeepsKeystore(w, c, a);
      EnvelopeRuns.StepKeepsEnvelope(w, c, a);
      SyncRuns.StepKeepsPending(w, c, a);
    }
  }

  lemma {:induction false} StartsValid(file: CacheFile, pin: Pin, keys: seq<KeyTuple>, client: Client)
    ensures Opens(file, pin, keys) ==> ValidWorld(StartRemembered(file, pin, keys))
    ensures ValidWorld(StartFresh(keys, client))
  {
    VaultRuns.StartsKeepKeystore(file, pin, keys, client);
    if Opens(file, pin, keys) {
      EnvelopeRuns.StartEnvelope(file, pin, keys, client);
    }
    SyncRuns.UncoveredSnoc([PinSet(pin)], Sealing(keys));
    SyncRuns.UncoveredSnoc([], PinSet(pin));
    assert [PinSet(pin), Sealing(keys)] == ([] + [PinSet(pin)]) + [Sealing(keys)];
  }

  class SshWardenAgent {
    var keystore: Keystore
    var needsUnlock: bool

    constructor ()
      ensures keystore == map[] && needsUnlock
    {
      keystore, needsUnlock := map[], true;
    }

    /** `set_keys`. */
    method SetKeys(keys: seq<KeyTuple>)
      modifies this
      ensures keystore == Load(keys) && needsUnlock
    {
      keystore := map[];
      needsUnlock := true;
      for i := 0 to |keys|
        invariant keystore == Load(keys[..i]) && needsUnlock
      {
        assert keys[..i + 1][..i] == keys[..i];
        match keys[i].pem {
          case OpenSsh(pub, _) => keystore := keystore[pub := Entry(Some(keys[i].pem), keys[i].name, keys[i].id)];
          case Unreadable(_) =>
        }
      }
      assert keys[..|keys|] == keys;
    }

    /** `set_public_identities`. */
    method SetPublicIdentities(ids: seq<Identity>)
      modifies this
      ensures keystore == PublicOnly(ids) && !needsUnlock
    {
      keystore := map[];
      needsUnlock := false;
      for i := 0 to |ids|
        invariant keystore == PublicOnly(ids[..i]) && !needsUnlock
      {
        assert ids[..i + 1][..i] == ids[..i];
        if ids[i].pub.Some? {
          keystore := keystore[ids[i].pub.value := Entry(None, ids[i].name, ids[i].id)];
        }
      }
      assert ids[..|ids|] == ids;
    }

    /** `lock`: drop every private key, keep every entry. */
    method Lock()
      modifies this
      ensures keystore == Stripped(old(keystore)) && !needsUnlock
    {
      var todo := keystore.Keys;
      while todo != {}
        invariant todo <= keystore.Keys && keystore.Keys == old(keystore).Keys
        invariant forall pk <- keystore ::
          keystore[pk] == if pk in todo then old(keystore)[pk] else old(keystore)[pk].(secret := None)
        decreases |todo|
      {
        var pk :| pk in todo;
        keystore := keystore[pk := keystore[pk].(secret := None)];
        todo := todo - {pk};
      }
      needsUnlock := false;
    }

    method ClearNeedsUnlock()
      modifies this`needsUnlock
      ensures !needsUnlock
    {
      needsUnlock := false;
    }

    method ClearKeys()
      modifies this
      ensures keystore == map[] && needsUnlock
    {
      keystore, needsUnlock := map[], true;
    }
  }

  class VaultDaemon {
    const config: Config
    const agent: SshWardenAgent
    var locked: bool
    var cached: seq<KeyTuple>
    var cacheKey: Option<SymKey>
    var cache: Option<CacheFile>
    var fingerprints: map<string, Fingerprint>
    var memory: set<Approval>
    var pending: bool
    var client: Client
    var sessionFile: bool
    ghost var log: seq<Event>

    ghost function View(): World
      reads this, agent
    {
      World(State(locked, agent.keystore, agent.needsUnlock, cached, cacheKey, cache, fingerprints, memory, pending, client, sessionFile), log)
    }

    ghost predicate Valid()
      reads this, agent
    {
      ValidWorld(View())
    }

    /** A remembered device: locked, with the cached identities listed. */
    constructor Remembered(config: Config, file: CacheFile, ghost pin: Pin, ghost keys: seq<KeyTuple>)
      ensures View() == StartRemembered(file, pin, keys) && this.config == config && fresh(agent)
      ensures Opens(file, pin, keys) ==> Valid()
    {
      this.config := config;
      agent := new SshWardenAgent();
      locked, cached, cacheKey, cache := true, [], None, Some(file);
      fingerprints, memory, pending, client, sessionFile := map[], {}, false, NoClient, true;
      log := [PinSet(pin), Sealing(keys)];
      new;
      if file.header != [] {
        agent.SetPublicIdentities(file.header);
      }
      StartsValid(file, pin, keys, NoClient);
    }

    /** No cache: whatever keys a first login fetched. */
    constructor Fresh(config: Config, keys: seq<KeyTuple>, client: Client)
      ensures View() == StartFresh(keys, client) && this.config == config && fresh(agent) && Valid()
    {
      this.config := config;
      agent := new SshWardenAgent();
      locked, cached, cacheKey, cache := false, [], None, None;
      fingerprints, memory, pending := map[], {}, false;
      this.client, sessionFile := client, true;
      log := [];
      new;
      if |keys| > 0 {
        cached := keys;
        fingerprints := Fingerprints(keys);
        agent.SetKeys(keys);
      }
      StartsValid(CacheFile(3, [], Sealed(0, Unparsable), None, None, None), [], keys, client);
    }

    /** `lock_vault`. */
    method LockVault()
      modifies this, agent
      ensures View() == Vault.LockVault(old(View()))
    {
      agent.Lock();
      locked := true;
      cached := [];
      cacheKey := None;
      memory := {};
      log := log + [LockedNow];
    }

    /** `reconcile_synced_key_state`. */
    method ReconcileSyncedKeys(keys: seq<KeyTuple>, saved: bool)
      modifies this
      ensures View() == Reconcile(old(View()), keys, saved)
    {
      var newFingerprints := Fingerprints(keys);
      memory := StillApproved(memory, fingerprints, newFingerprints);
      cached := keys;
      fingerprints := newFingerprints;
      if cache.Some? && cacheKey.Some? && saved {
        cache := Some(RefreshCache(cache.value, keys, cacheKey.value));
        log := log + [Sealing(keys)];
      }
    }

    /** `do_sync`. */
    method DoSync(answer: SyncAnswer, saved: bool) returns (ok: bool)
      modifies this, agent
      ensures View() == Vault.DoSync(old(View()), answer, saved) && ok == SyncWorks(old(View()).s, answer)
    {
      if client.NoClient? {
        return false;
      }
      if client.Restored? {
        return false;
      }
      match answer {
        case SyncFailed => return false;
        case SyncOk(keys) =>
          ReconcileSyncedKeys(keys, saved);
          if !locked {
            agent.SetKeys(keys);
          }
          log := log + [SyncDone];
          return true;
      }
    }

    /** `resolve_pending_sync`: swap the flag, and put it back if the sync fails. */
    method ResolvePendingSync(answer: SyncAnswer, saved: bool)
      modifies this, agent
      ensures View() == Resolve(old(View()), answer, saved)
    {
      var was := pending;
      pending := false;
      if !was {
        return;
      }
      var ok := DoSync(answer, saved);
      if !ok {
        pending := true;
      }
    }

    /** `try_restore_api_session`: only where there is no client yet, and without a user key. */
    method RestoreSession(restored: bool)
      modifies this`client
      ensures client == Restore(old(View()).s, restored)
    {
      if client.NoClient? && sessionFile && restored {
        client := Client.Restored;
      }
    }

    /** `finish_unlock_with_json`. */
    method FinishUnlock(data: Payload) returns (ok: bool)
      modifies this, agent
      ensures View() == Vault.FinishUnlock(old(View()), data) && ok == data.KeyList?
    {
      match data {
        case Unparsable => return false;
        case KeyList(keys) =>
          cached := keys;
          agent.SetKeys(keys);
          locked := false;
          return true;
      }
    }

    /** Holding the recovered key, load the keys and settle what waited for the unlock. */
    method UnlockWithKey(data: Payload, key: SymKey, restored: bool, answer: SyncAnswer, saved: bool) returns (ok: bool)
      modifies this, agent
      ensures View() == UnlockWith(old(View()), data, key, restored, answer, saved) && ok == data.KeyList?
    {
      cacheKey := Some(key);
      ok := FinishUnlock(data);
      if ok {
        RestoreSession(restored);
        ResolvePendingSync(answer, saved);
      }
    }

    /** Open the cache with what the platform store or Windows Hello gave, else with a PIN from the dialog. */
    method UnlockFrom(platform: Option<SymKey>, dialog: Option<Pin>, allowDialog: bool, hello: bool, restored: bool, answer: SyncAnswer, saved: bool)
      modifies this, agent
      ensures View() == StepUnlock(old(View()), config.(autoUnlock := allowDialog, windows := hello), platform, dialog, restored, answer, saved)
    {
      hide UnlockWith, OpenWithPin, OpenPayload;
      if !locked {
        return;
      }
      if cache.Some? && platform.Some? {
        match OpenPayload(cache.value, platform.value) {
          case Some(data) =>
            if data.KeyList? || hello {
              var ok := UnlockWithKey(data, platform.value, hello && restored, answer, saved);
              return;
            }
            cacheKey := platform;
          case None =>
        }
      }
      if !allowDialog || cache.None? || dialog.None? {
        return;
      }
      match OpenWithPin(cache.value, dialog.value) {
        case None =>
        case Some((data, key)) => var ok := UnlockWithKey(data, key, restored, answer, saved);
      }
    }

    /** The `unlock` command: Windows Hello or the platform store first, then the PIN dialog if allowed. */
    method HandleUnlock(platform: Option<SymKey>, dialog: Option<Pin>, restored: bool, answer: SyncAnswer, saved: bool)
      modifies this, agent
      ensures View() == Step(old(View()), config, Unlock(platform, dialog, restored, answer, saved))
      ensures old(Valid()) ==> Valid()
    {
      hide ValidWorld, StepUnlock;
      StepKeepsValid(View(), config, Unlock(platform, dialog, restored, answer, saved));
      UnlockFrom(platform, dialog, config.autoUnlock, config.windows, restored, answer, saved);
    }

    method HandleUnlockNative(platform: Option<SymKey>, answer: SyncAnswer, saved: bool)
      modifies this, agent
      ensures View() == Step(old(View()), config, UnlockNative(platform, answer, saved))
      ensures old(Valid()) ==> Valid()
    {
      hide ValidWorld, StepUnlock;
      StepKeepsValid(View(), config, UnlockNative(platform, answer, saved));
      UnlockFrom(platform, None, false, false, false, answer, saved);
    }

    method HandleUnlockHello(platform: Option<SymKey>, restored: bool, answer: SyncAnswer, saved: bool)
      modifies this, agent
      ensures View() == Step(old(View()), config, UnlockHello(platform, restored, answer, saved))
      ensures old(Valid()) ==> Valid()
    {
      hide ValidWorld, StepUnlock;
      StepKeepsValid(View(), config, UnlockHello(platform, restored, answer, saved));
      if config.windows {
        UnlockFrom(platform, None, false, true, restored, answer, saved);
      }
    }

    /** The `unlock --pin` command, with the transparent salt migration. */
    method HandleUnlockPin(pin: Pin, admitted: bool, salt: Salt, migrated: bool, restored: bool, answer: SyncAnswer, saved: bool)
      modifies this, agent
      ensures View() == Step(old(View()), config, UnlockPin(pin, admitted, salt, migrated, restored, answer, saved))
      ensures old(Valid()) ==> Valid()
    {
      hide ValidWorld;
      StepKeepsValid(View(), config, UnlockPin(pin, admitted, salt, migrated, restored, answer, saved));
      if !locked || !admitted || cache.None? {
        return;
      }
      match OpenWithPin(cache.value, pin) {
        case None =>
        case Some((data, key)) =>
          if NeedsMigration(cache.value) && migrated {
            cache := Some(MigrateCache(cache.value, key, pin, salt));
          }
          var ok := UnlockWithKey(data, key, restored, answer, saved);
      }
    }

    /** The `login` / password unlock command. */
    method HandleUnlockPassword(login: Option<seq<KeyTuple>>, stored: bool, answer: SyncAnswer, saved: bool)
      modifies this, agent
      ensures View() == Step(old(View()), config, UnlockPassword(login, stored, answer, saved))
      ensures old(Valid()) ==> Valid()
    {
      hide ValidWorld;
      StepKeepsValid(View(), config, UnlockPassword(login, stored, answer, saved));
      if login.None? {
        return;
      }
      ReconcileSyncedKeys(login.value, stored);
      agent.SetKeys(login.value);
      locked := false;
      client, sessionFile := LoggedIn, true;
      ResolvePendingSync(answer, saved);
    }

    method HandleSync(answer: SyncAnswer, saved: bool)
      modifies this, agent
      ensures View() == Step(old(View()), config, Sync(answer, saved))
      ensures old(Valid()) ==> Valid()
    {
      hide ValidWorld;
      StepKeepsValid(View(), config, Sync(answer, saved));
      var wasLocked := locked;
      var ok := DoSync(answer, saved);
      if ok && wasLocked {
        pending := true;
      }
    }

    method HandleForget()
      modifies this, agent
      ensures View() == Step(old(View()), config, Forget)
      ensures old(Valid()) ==> Valid()
    {
      hide ValidWorld, StepUnlock, StepUnlockPin, StepUnlockPassword, StepSign, StepSetPin, Resolve;
      StepKeepsValid(View(), config, Forget);
      cacheKey := None;
      memory := {};
      cached := [];
      client, sessionFile := NoClient, false;
      pending := false;
      locked := true;
      cache := None;
      agent.ClearKeys();
      log := log + [Forgot];
    }

    method HandleSetPin(pin: Pin, freshKey: SymKey, salt: Salt, native: bool, written: bool)
      modifies this
      ensures View() == Step(old(View()), config, SetPin(pin, freshKey, salt, native, written))
      ensures old(Valid()) ==> Valid()
    {
      hide ValidWorld;
      StepKeepsValid(View(), config, SetPin(pin, freshKey, salt, native, written));
      if |pin| < 4 || cached == [] || !written {
        return;
      }
      var key := if cacheKey.Some? then cacheKey.value else freshKey;
      cache := Some(WriteCache(cached, pin, salt, key, native));
      cacheKey := Some(key);
      if !client.NoClient? {
        sessionFile := true;
      }
      log := log + [PinSet(pin), Sealing(cached)];
    }

    /** A hub notice in the main loop. */
    method HandleHubNotice(answer: SyncAnswer, saved: bool)
      modifies this, agent
      ensures View() == Step(old(View()), config, HubNotice(answer, saved))
      ensures old(Valid()) ==> Valid()
    {
      hide ValidWorld;
      StepKeepsValid(View(), config, HubNotice(answer, saved));
      log := log + [Notice];
      if locked {
        pending := true;
        return;
      }
      var ok := DoSync(answer, saved);
      if !ok {
        pending := true;
      }
    }

    /** The `lock` command, and the inactivity lock. */
    method HandleLock()
      modifies this, agent
      ensures View() == Step(old(View()), config, Lock) == Step(old(View()), config, AutoLock)
      ensures old(Valid()) ==> Valid()
    {
      hide ValidWorld;
      StepKeepsValid(View(), config, Lock);
      if !locked {
        LockVault();
      }
    }

    /** A remote logout locks whatever the state. */
    method HandleHubLogOut()
      modifies this, agent
      ensures View() == Step(old(View()), config, HubLogOut)
      ensures old(Valid()) ==> Valid()
    {
      hide ValidWorld;
      StepKeepsValid(View(), config, HubLogOut);
      LockVault();
    }

    /** The main loop's share of an automatic unlock. */
    method HandleAutoUnlocked(restored: bool, answer: SyncAnswer, saved: bool)
      modifies this, agent
      ensures View() == Step(old(View()), config, AutoUnlocked(restored, answer, saved))
      ensures old(Valid()) ==> Valid()
    {
      hide ValidWorld;
      StepKeepsValid(View(), config, AutoUnlocked(restored, answer, saved));
      RestoreSession(restored);
      ResolvePendingSync(answer, saved);
    }

    /** `handle_ui_request` for a list request: always allowed. */
    method HandleList() returns (verdict: bool)
      modifies agent
      ensures View() == Step(old(View()), config, ListRequest) && verdict
      ensures old(Valid()) ==> Valid()
    {
      hide ValidWorld;
      StepKeepsValid(View(), config, ListRequest);
      agent.ClearNeedsUnlock();
      return true;
    }

    /** `handle_ui_request` for a sign request on a listed key. */
    method HandleSign(pk: PublicKey, op: OperationKind, forwarding: bool, platform: Option<SymKey>, dialog: Option<Pin>, approves: bool)
      returns (verdict: bool)
      requires pk in agent.keystore
      modifies this, agent
      ensures View() == Step(old(View()), config, SignRequest(pk, op, forwarding, platform, dialog, approves))
      ensures log != [] && log[|log| - 1].Answered? && log[|log| - 1].verdict == verdict
      ensures old(Valid()) ==> Valid()
    {
      hide ValidWorld, Load, SignLocked, SignUnlocked;
      StepKeepsValid(View(), config, SignRequest(pk, op, forwarding, platform, dialog, approves));
      var entry := agent.keystore[pk];
      if locked {
        verdict := SignWhileLocked(entry.id, op, forwarding, platform, dialog, approves);
      } else {
        verdict := SignWhileUnlocked(entry, op, forwarding, approves);
      }
    }

    method SignWhileUnlocked(entry: Entry, op: OperationKind, forwarding: bool, approves: bool)
      returns (verdict: bool)
      modifies this
      ensures View() == SignUnlocked(old(View()), config, entry, op, forwarding, approves)
      ensures log != [] && log[|log| - 1].Answered? && log[|log| - 1].verdict == verdict
    {
      var remember := !forwarding && config.prompt.RememberUntilLock?;
      if remember && (entry.id, op) in memory {
        verdict := Respond(entry.id, op, entry.secret, forwarding, true, ByMemory);
        return;
      }
      if !NeedsPrompt(config.prompt, forwarding) {
        verdict := Respond(entry.id, op, entry.secret, forwarding, true, ByPolicy);
        return;
      }
      if approves && remember {
        memory := memory + {(entry.id, op)};
      }
      verdict := Respond(entry.id, op, entry.secret, forwarding, approves, ByUser);
    }

    method Respond(id: string, op: OperationKind, ghost pem: Option<Pem>, forwarding: bool, answer: bool, ghost source: Source)
      returns (verdict: bool)
      modifies this`log
      ensures View() == World(old(View()).s, old(log) + [Answered(id, op, pem, forwarding, answer, source)]) && verdict == answer
      ensures log != [] && log[|log| - 1].Answered? && log[|log| - 1].verdict == verdict
    {
      log := log + [Answered(id, op, pem, forwarding, answer, source)];
      return answer;
    }

    method SignWhileLocked(id: string, op: OperationKind, forwarding: bool, platform: Option<SymKey>, dialog: Option<Pin>, approves: bool)
      returns (verdict: bool)
      requires locked
      modifies this, agent
      ensures View() == SignLocked(old(View()), config, id, op, forwarding, platform, dialog, approves)
      ensures log != [] && log[|log| - 1].Answered? && log[|log| - 1].verdict == verdict
    {
      hide Load, OpenWithPin, OpenPayload, WithKeys, Answer;
      if config.autoUnlock {
        var native := if cache.Some? && platform.Some? then OpenPayload(cache.value, platform.value) else None;
        if native.Some? && native.value.KeyList? {
          verdict := UnlockAndPrompt(native.value.keys, platform.value, id, op, forwarding, approves);
          return;
        }
        var unsealed := if cache.Some? && dialog.Some? then OpenWithPin(cache.value, dialog.value) else None;
        if unsealed.Some? && unsealed.value.0.KeyList? {
          verdict := UnlockAndPrompt(unsealed.value.0.keys, unsealed.value.1, id, op, forwarding, approves);
          return;
        }
      }
      verdict := Deny(id, op, forwarding);
    }

    /** Still locked: refuse. */
    method Deny(id: string, op: OperationKind, forwarding: bool) returns (verdict: bool)
      modifies this`log
      ensures View() == Answer(old(View()), id, op, None, forwarding, Refused)
      ensures log != [] && log[|log| - 1].Answered? && log[|log| - 1].verdict == verdict
    {
      verdict := Respond(id, op, None, forwarding, false, ByLock);
    }

    /** Load the recovered keys, then run the authorization prompt. */
    method UnlockAndPrompt(keys: seq<KeyTuple>, key: SymKey, id: string, op: OperationKind, forwarding: bool, approves: bool)
      returns (verdict: bool)
      modifies this, agent
      ensures var w := old(View());
        var s := WithKeys(w.s.(cached := keys), keys).(cacheKey := Some(key), locked := false);
        View() == Answer(World(s, w.log), id, op, None, forwarding, Considered(config.prompt, false, approves))
      ensures log != [] && log[|log| - 1].Answered? && log[|log| - 1].verdict == verdict
    {
      cached := keys;
      agent.SetKeys(keys);
      cacheKey := Some(key);
      locked := false;
      if NeedsPrompt(config.prompt, forwarding) {
        verdict := Respond(id, op, None, forwarding, approves, ByUser);
      } else {
        verdict := Respond(id, op, None, forwarding, true, ByPolicy);
      }
    }
  }
}
