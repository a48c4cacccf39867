/**
 The daemon's vault state and what each handler does to it, one handler a step.
 Network, dialogs, platform key stores and file writes appear as the answers
 they give. Every step also says what happened, as events appended to a log.
 */
module Vault {
  import opened Text
  import opened Keys
  import opened SshSig
  import opened SignRules

  /** On Windows the `unlock` command asks Windows Hello, elsewhere the platform key store. */
  datatype Config = Config(autoUnlock: bool, prompt: PromptBehavior, windows: bool)

  type Approval = (string, OperationKind)

  /**
   The API client. One restored from the saved refresh token after a PIN or
   Hello unlock holds no user key, so only a login's can decrypt vault data.
   */
  datatype Client = NoClient | Restored | LoggedIn

  datatype State = State(
    locked: bool,
    keystore: Keystore,
    needsUnlock: bool,
    cached: seq<KeyTuple>,
    cacheKey: Option<SymKey>,
    cache: Option<CacheFile>,
    fingerprints: map<string, Fingerprint>,
    memory: set<Approval>,
    pending: bool,
    client: Client,
    sessionFile: bool)  // a device session file may be on disk

  datatype Event =
    | Notice                       // a change or fallback notice was taken up
    | SyncDone                     // do_sync succeeded
    | Forgot
    | LockedNow
    | PinSet(pin: Pin)
    | Sealing(keys: seq<KeyTuple>) // a key list was sealed into the cache
    | Answered(id: string, op: OperationKind, pem: Option<Pem>, forwarding: bool, verdict: bool, source: Source)

  datatype World = World(s: State, log: seq<Event>)

  /** What the server, or a failed connection, answers to a sync. */
  datatype SyncAnswer = SyncOk(keys: seq<KeyTuple>) | SyncFailed

  // --- Authorization memory -----------------------------------------------

  function At(fp: map<string, Fingerprint>, id: string): Option<Fingerprint> {
    if id in fp then Some(fp[id]) else None
  }

  /** Items whose material changed, vanished or is new. */
  function ChangedOrRemoved(old': map<string, Fingerprint>, new': map<string, Fingerprint>): set<string> {
    (set id | id in old' && !(id in new' && new'[id] == old'[id])) + (set id | id in new' && id !in old')
  }

  /** `clear_authorization_memory_for_changed_keys_async`. */
  function StillApproved(memory: set<Approval>, old': map<string, Fingerprint>, new': map<string, Fingerprint>): set<Approval> {
    var gone := ChangedOrRemoved(old', new');
    if gone == {} then memory else set a | a in memory && a.0 !in gone
  }

  /** A remembered approval survives exactly when its item's fingerprint is the same, or absent in both. */
  lemma {:induction false} SurvivesExactly(memory: set<Approval>, old': map<string, Fingerprint>, new': map<string, Fingerprint>, a: Approval)
    ensures a in StillApproved(memory, old', new') <==> a in memory && At(old', a.0) == At(new', a.0)
  {
    var gone := ChangedOrRemoved(old', new');
    assert a.0 in gone <==> At(old', a.0) != At(new', a.0);
  }

  // --- Shared pieces ------------------------------------------------------

  /** `lock_vault`. */
  function LockVault(w: World): World {
    World(w.s.(keystore := Stripped(w.s.keystore), needsUnlock := false, locked := true,
               cached := [], cacheKey := None, memory := {}),
          w.log + [LockedNow])
  }

  function WithKeys(s: State, keys: seq<KeyTuple>): State {
    s.(keystore := Load(keys), needsUnlock := true)
  }

  /** `reconcile_synced_key_state`; `saved` says whether the refreshed cache could be written. */
  function Reconcile(w: World, keys: seq<KeyTuple>, saved: bool): World {
    var fp := Fingerprints(keys);
    var s := w.s.(memory := StillApproved(w.s.memory, w.s.fingerprints, fp), cached := keys, fingerprints := fp);
    if s.cache.Some? && s.cacheKey.Some? && saved
    then World(s.(cache := Some(RefreshCache(s.cache.value, keys, s.cacheKey.value))), w.log + [Sealing(keys)])
    else World(s, w.log)
  }

  predicate SyncWorks(s: State, answer: SyncAnswer) {
    s.client.LoggedIn? && answer.SyncOk?
  }

  /** `do_sync`: fails without a client that holds the user key; loads the agent only when unlocked. */
  function DoSync(w: World, answer: SyncAnswer, saved: bool): World {
    if !SyncWorks(w.s, answer) then w
    else
      var r := Reconcile(w, answer.keys, saved);
      World(if r.s.locked then r.s else WithKeys(r.s, answer.keys), r.log + [SyncDone])
  }

  /** `resolve_pending_sync`. */
  function Resolve(w: World, answer: SyncAnswer, saved: bool): World {
    if !w.s.pending then w
    else if SyncWorks(w.s, answer) then DoSync(World(w.s.(pending := false), w.log), answer, saved)
    else w
  }

  /** `finish_unlock_with_json`. */
  function FinishUnlock(w: World, data: Payload): World {
    match data
    case Unparsable => w
    case KeyList(keys) => World(WithKeys(w.s.(cached := keys), keys).(locked := false), w.log)
  }

  /**
   `try_restore_api_session`: a client in place stays, and there must be a
   session file; `restored` says whether its token could be decrypted and refreshed.
   */
  function Restore(s: State, restored: bool): Client {
    if s.client.NoClient? && s.sessionFile && restored then Client.Restored else s.client
  }

  /** After an unlock: perhaps restore the API session, then resolve a pending sync. */
  function AfterUnlock(w: World, restored: bool, answer: SyncAnswer, saved: bool): World {
    Resolve(World(w.s.(client := Restore(w.s, restored)), w.log), answer, saved)
  }

  function UnlockWith(w: World, data: Payload, key: SymKey, restored: bool, answer: SyncAnswer, saved: bool): World {
    var held := FinishUnlock(World(w.s.(cacheKey := Some(key)), w.log), data);
    if data.KeyList? then AfterUnlock(held, restored, answer, saved) else held
  }

  /** The platform key store's answer opens the cache only if it is the sealing key. */
  function OpenNative(s: State, platform: Option<SymKey>): Option<(Payload, SymKey)> {
    if s.cache.None? || platform.None? then None
    else
      match OpenPayload(s.cache.value, platform.value)
      case Some(data) => Some((data, platform.value))
      case None => None
  }

  /** A PIN entered in the dialog; the dialog only returns PINs that open the cache. */
  function OpenDialog(s: State, pin: Option<Pin>): Option<(Payload, SymKey)> {
    if s.cache.None? || pin.None? then None else OpenWithPin(s.cache.value, pin.value)
  }

  // --- Actions ------------------------------------------------------------

  datatype Action =
    | Lock
    | Unlock(platform: Option<SymKey>, dialog: Option<Pin>, restored: bool, answer: SyncAnswer, saved: bool)
    | UnlockNative(platform: Option<SymKey>, answer: SyncAnswer, saved: bool)
    | UnlockHello(platform: Option<SymKey>, restored: bool, answer: SyncAnswer, saved: bool)
    | UnlockPin(pin: Pin, admitted: bool, salt: Salt, migrated: bool, restored: bool, answer: SyncAnswer, saved: bool)
    | UnlockPassword(login: Option<seq<KeyTuple>>, stored: bool, answer: SyncAnswer, saved: bool)
    | Sync(answer: SyncAnswer, saved: bool)
    | Forget
    | SetPin(newPin: Pin, freshKey: SymKey, newSalt: Salt, native: bool, written: bool)
    | HubNotice(answer: SyncAnswer, saved: bool)
    | HubLogOut
    | AutoLock
    | ListRequest
    | SignRequest(pk: PublicKey, op: OperationKind, forwarding: bool, platform: Option<SymKey>, dialog: Option<Pin>, approves: bool)
    | AutoUnlocked(restored: bool, answer: SyncAnswer, saved: bool)

  function StepUnlock(w: World, c: Config, platform: Option<SymKey>, dialog: Option<Pin>, restored: bool, answer: SyncAnswer, saved: bool): World {
    if !w.s.locked then w
    else
      var native := OpenNative(w.s, platform);
      // An unparsable payload leaves the key held; only Windows stops there.
      var w' := if native.Some? then World(w.s.(cacheKey := Some(native.value.1)), w.log) else w;
      if native.Some? && (native.value.0.KeyList? || c.windows) then
        UnlockWith(w, native.value.0, native.value.1, c.windows && restored, answer, saved)
      else if !c.autoUnlock then w'
      else
        match OpenDialog(w'.s, dialog)
        case None => w'
        case Some((data, key)) => UnlockWith(w', data, key, restored, answer, saved)
  }

  function StepUnlockPin(w: World, pin: Pin, admitted: bool, salt: Salt, migrated: bool, restored: bool, answer: SyncAnswer, saved: bool): World {
    if !w.s.locked || !admitted || w.s.cache.None? then w
    else
      match OpenWithPin(w.s.cache.value, pin)
      case None => w
      case Some((data, key)) =>
        var c := w.s.cache.value;
        var w' := if NeedsMigration(c) && migrated
                  then World(w.s.(cache := Some(MigrateCache(c, key, pin, salt))), w.log) else w;
        UnlockWith(w', data, key, restored, answer, saved)
  }

  function StepUnlockPassword(w: World, login: Option<seq<KeyTuple>>, stored: bool, answer: SyncAnswer, saved: bool): World {
    if login.None? then w
    else
      var r := Reconcile(w, login.value, stored);
      Resolve(World(WithKeys(r.s, login.value).(locked := false, client := LoggedIn, sessionFile := true), r.log), answer, saved)
  }

  function StepSync(w: World, answer: SyncAnswer, saved: bool): World {
    var r := DoSync(w, answer, saved);
    if SyncWorks(w.s, answer) && w.s.locked then World(r.s.(pending := true), r.log) else r
  }

  /** `Forget` in single-device mode. Tracked fingerprints stay. */
  function StepForget(w: World): World {
    World(w.s.(cacheKey := None, memory := {}, cached := [], client := NoClient, sessionFile := false, pending := false,
               locked := true, cache := None, keystore := map[], needsUnlock := true),
          w.log + [Forgot])
  }

  predicate PinSettable(s: State, pin: Pin) {
    |pin| >= 4 && s.cached != []
  }

  function StepSetPin(w: World, pin: Pin, freshKey: SymKey, salt: Salt, native: bool, written: bool): World {
    if !PinSettable(w.s, pin) || !written then w
    else
      var key := if w.s.cacheKey.Some? then w.s.cacheKey.value else freshKey;
      World(w.s.(cache := Some(WriteCache(w.s.cached, pin, salt, key, native)), cacheKey := Some(key),
                 sessionFile := w.s.sessionFile || !w.s.client.NoClient?),
            w.log + [PinSet(pin), Sealing(w.s.cached)])
  }

  /** A cipher change or a due fallback sync. */
  function StepHubNotice(w: World, answer: SyncAnswer, saved: bool): World {
    var w' := World(w.s, w.log + [Notice]);
    if w.s.locked || !SyncWorks(w.s, answer) then World(w'.s.(pending := true), w'.log)
    else DoSync(w', answer, saved)
  }

  // --- Sign requests ------------------------------------------------------

  function Answer(w: World, id: string, op: OperationKind, pem: Option<Pem>, forwarding: bool, how: Handling): World {
    var ruling := Rule(how, forwarding);
    World(w.s, w.log + [Answered(id, op, pem, forwarding, ruling.verdict, ruling.source)])
  }

  /** A locked vault: unlock from the platform store, else from the PIN dialog, else deny; nothing is remembered. */
  function SignLocked(w: World, c: Config, id: string, op: OperationKind, forwarding: bool, platform: Option<SymKey>, dialog: Option<Pin>, approves: bool): World {
    if !c.autoUnlock then Answer(w, id, op, None, forwarding, Refused)
    else
      var native := OpenNative(w.s, platform);
      var unsealed := if native.Some? && native.value.0.KeyList? then native else OpenDialog(w.s, dialog);
      match unsealed
      case Some((KeyList(keys), key)) =>
        var s := WithKeys(w.s.(cached := keys), keys).(cacheKey := Some(key), locked := false);
        Answer(World(s, w.log), id, op, None, forwarding, Considered(c.prompt, false, approves))
      case _ => Answer(w, id, op, None, forwarding, Refused)
  }

  /** An unlocked vault: memory, policy, or the user. */
  function SignUnlocked(w: World, c: Config, entry: Entry, op: OperationKind, forwarding: bool, approves: bool): World {
    var how := Considered(c.prompt, (entry.id, op) in w.s.memory, approves);
    var remember := !forwarding && c.prompt.RememberUntilLock? && Rule(how, forwarding) == Ruling(true, ByUser);
    var s := if remember then w.s.(memory := w.s.memory + {(entry.id, op)}) else w.s;
    Answer(World(s, w.log), entry.id, op, entry.secret, forwarding, how)
  }

  /** Only keys the agent lists can be asked for. */
  function StepSign(w: World, c: Config, pk: PublicKey, op: OperationKind, forwarding: bool, platform: Option<SymKey>, dialog: Option<Pin>, approves: bool): World {
    if pk !in w.s.keystore then w
    else if w.s.locked then SignLocked(w, c, w.s.keystore[pk].id, op, forwarding, platform, dialog, approves)
    else SignUnlocked(w, c, w.s.keystore[pk], op, forwarding, approves)
  }

  function Step(w: World, c: Config, a: Action): World {
    match a
    case Lock => if w.s.locked then w else LockVault(w)
    case Unlock(platform, dialog, restored, answer, saved) => StepUnlock(w, c, platform, dialog, restored, answer, saved)
    case UnlockNative(platform, answer, saved) =>
      StepUnlock(w, c.(autoUnlock := false, windows := false), platform, None, false, answer, saved)
    case UnlockHello(platform, restored, answer, saved) =>
      if c.windows then StepUnlock(w, c.(autoUnlock := false), platform, None, restored, answer, saved) else w
    case UnlockPin(pin, admitted, salt, migrated, restored, answer, saved) =>
      StepUnlockPin(w, pin, admitted, salt, migrated, restored, answer, saved)
    case UnlockPassword(login, stored, answer, saved) => StepUnlockPassword(w, login, stored, answer, saved)
    case Sync(answer, saved) => StepSync(w, answer, saved)
    case Forget => StepForget(w)
    case SetPin(pin, freshKey, salt, native, written) => StepSetPin(w, pin, freshKey, salt, native, written)
    case HubNotice(answer, saved) => StepHubNotice(w, answer, saved)
    case HubLogOut => LockVault(w)
    case AutoLock => if w.s.locked then w else LockVault(w)
    case ListRequest => World(w.s.(needsUnlock := false), w.log)
    case SignRequest(pk, op, forwarding, platform, dialog, approves) =>
      StepSign(w, c, pk, op, forwarding, platform, dialog, approves)
    case AutoUnlocked(restored, answer, saved) => AfterUnlock(w, restored, answer, saved)
  }

  function Run(w: World, c: Config, actions: seq<Action>): World {
    if actions == [] then w
    else Step(Run(w, c, actions[..|actions| - 1]), c, actions[|actions| - 1])
  }

  // --- Where a daemon starts ----------------------------------------------

  /** A remembered device starts locked, with its cached identities listed. */
  function StartRemembered(cache: CacheFile, pin: Pin, keys: seq<KeyTuple>): World {
    World(State(true, PublicOnly(cache.header), cache.header == [], [], None, Some(cache), map[], {}, false, NoClient, true),
          [PinSet(pin), Sealing(keys)])
  }

  /** Without a cache: logged in with these keys, or with none. */
  function StartFresh(keys: seq<KeyTuple>, client: Client): World {
    World(State(false, Load(keys), true, keys, None, None, Fingerprints(keys), {}, false, client, true), [])
  }
}
