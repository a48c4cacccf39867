/** What each unlock leads to: exactly when it opens the vault, and to which keys. */
module UnlockOutcomes {
  import opened Text
  import opened Keys
  import opened SshSig
  import opened SignRules
  import opened Vault
  import opened EnvelopeRuns
  import opened SyncOutcomes

  /** The platform store, or Windows Hello, gave the key that seals the cache. */
  predicate PlatformFits(s: State, platform: Option<SymKey>) {
    s.cache.Some? && platform == Some(s.cache.value.payload.key)
  }

  /** There is a cache and this is the PIN set last. */
  predicate PinFits(w: World, pin: Option<Pin>) {
    w.s.cache.Some? && pin.Some? && pin == LastPin(w.log)
  }

  /** A sync was waiting and the server now answers a client that can decrypt. */
  predicate Settles(s: State, answer: SyncAnswer) {
    s.pending && s.client == LoggedIn && answer.SyncOk?
  }

  /**
   The vault is open: it holds the Local Cache Key and the keys sealed last or,
   if a waiting sync is settled on the way, the ones that sync brings.
   */
  ghost predicate OpenedTo(w: World, w': World, restores: bool, answer: SyncAnswer, saved: bool) {
    && w.s.cache.Some? && LastPin(w.log).Some? && LastSealed(w.log).Some?
    && var settled := Settles(w.s, answer);
    var keys := if settled then answer.keys else LastSealed(w.log).value;
    var s, s' := w.s, w'.s;
    && !s'.locked && s'.cached == keys && s'.keystore == Load(keys) && s'.needsUnlock
    && s'.cacheKey == Some(s.cache.value.payload.key)
    && s'.cache.Some?
    && OpenWithPin(s'.cache.value, LastPin(w.log).value) ==
       Some((KeyList(if settled && !saved then LastSealed(w.log).value else keys), s.cache.value.payload.key))
    && s'.pending == (s.pending && !settled)
    && s'.client == (if restores && s.client == NoClient && s.sessionFile then Client.Restored else s.client)
    && s'.sessionFile == s.sessionFile
    && s'.fingerprints == (if settled then Fingerprints(keys) else s.fingerprints)
    && (if settled then Forgets(s, s', keys) else s'.memory == s.memory && w'.log == w.log)
  }

  /** What fits opens the cache to the keys sealed last; nothing else opens it. */
  lemma {:induction false} OpensExactly(w: World, platform: Option<SymKey>, dialog: Option<Pin>)
    requires Envelope(w)
    ensures w.s.cache.Some? ==> LastSealed(w.log).Some? && w.s.cache.value.payload.data == KeyList(LastSealed(w.log).value)
    ensures OpenNative(w.s, platform) ==
            if PlatformFits(w.s, platform) then Some((w.s.cache.value.payload.data, w.s.cache.value.payload.key)) else None
    ensures OpenDialog(w.s, dialog) ==
            if PinFits(w, dialog) then Some((w.s.cache.value.payload.data, w.s.cache.value.payload.key)) else None
  {
    hide LastPin, LastSealed, IdentitiesOf;
    if w.s.cache.Some? && dialog.Some? {
      PinOpens(w.s.cache.value, LastPin(w.log).value, LastSealed(w.log).value, dialog.value);
    }
  }

  lemma {:induction false} UnlockWithOpens(w: World, restored: bool, answer: SyncAnswer, saved: bool)
    requires Envelope(w) && w.s.cache.Some?
    ensures var p := w.s.cache.value.payload; OpenedTo(w, UnlockWith(w, p.data, p.key, restored, answer, saved), restored, answer, saved)
  {
    var p, pin, sealed := w.s.cache.value.payload, LastPin(w.log).value, LastSealed(w.log).value;
    var held := FinishUnlock(World(w.s.(cacheKey := Some(p.key)), w.log), p.data);
    var u := World(held.s.(client := Restore(held.s, restored)), held.log);
    PinOpens(w.s.cache.value, pin, sealed, pin);
    assert Envelope(u);
    ResolveExactly(u, answer, saved);
    hide Resolve, Load, Fingerprints, OpenWithPin, LastPin, LastSealed, Envelope, IdentitiesOf;
  }

  // --- Unlock commands ----------------------------------------------------

  /** The `unlock` command opens a locked vault exactly when the platform gave the sealing key or, where the dialog may be shown, the PIN entered is the one set last. */
  lemma {:induction false} UnlockExactly(w: World, c: Config, platform: Option<SymKey>, dialog: Option<Pin>, restored: bool, answer: SyncAnswer, saved: bool)
    requires Envelope(w) && w.s.locked
    ensures var w' := Step(w, c, Unlock(platform, dialog, restored, answer, saved));
      if PlatformFits(w.s, platform) then OpenedTo(w, w', c.windows && restored, answer, saved)
      else if c.autoUnlock && PinFits(w, dialog) then OpenedTo(w, w', restored, answer, saved)
      else w' == w
  {
    UnlockStep(w, c, platform, dialog, restored, answer, saved);
    hide StepUnlock, OpenedTo, Envelope;
  }

  lemma {:induction false} NoCacheNoFit(w: World, platform: Option<SymKey>, dialog: Option<Pin>)
    ensures PlatformFits(w.s, platform) || PinFits(w, dialog) ==> w.s.cache.Some?
  {
  }

  lemma {:induction false} UnlockStep(w: World, c: Config, platform: Option<SymKey>, dialog: Option<Pin>, restored: bool, answer: SyncAnswer, saved: bool)
    requires Envelope(w) && w.s.locked
    ensures var w' := StepUnlock(w, c, platform, dialog, restored, answer, saved);
      if PlatformFits(w.s, platform) then OpenedTo(w, w', c.windows && restored, answer, saved)
      else if c.autoUnlock && PinFits(w, dialog) then OpenedTo(w, w', restored, answer, saved)
      else w' == w
  {
    hide UnlockWith, OpenedTo, LastPin, LastSealed, OpenNative, OpenDialog, Envelope, PlatformFits, PinFits;
    OpensExactly(w, platform, dialog);
    if w.s.cache.Some? {
      UnlockWithOpens(w, c.windows && restored, answer, saved);
      UnlockWithOpens(w, restored, answer, saved);
    }
    NoCacheNoFit(w, platform, dialog);
  }

  /** `unlock --native`, and `unlock --hello` on Windows: the platform's key or nothing. */
  lemma {:induction false} PlatformUnlockExactly(w: World, c: Config, platform: Option<SymKey>, restored: bool, answer: SyncAnswer, saved: bool)
    requires Envelope(w) && w.s.locked
    ensures var w' := Step(w, c, UnlockNative(platform, answer, saved));
      if PlatformFits(w.s, platform) then OpenedTo(w, w', false, answer, saved) else w' == w
    ensures var w' := Step(w, c, UnlockHello(platform, restored, answer, saved));
      if c.windows && PlatformFits(w.s, platform) then OpenedTo(w, w', restored, answer, saved) else w' == w
  {
    UnlockStep(w, c.(autoUnlock := false, windows := false), platform, None, false, answer, saved);
    UnlockStep(w, c.(autoUnlock := false), platform, None, restored, answer, saved);
    hide StepUnlock, OpenedTo, Envelope;
  }

  /** `unlock --pin`: the PIN set last, let through by the throttle, and no other; an old salt is replaced if that can be written. */
  lemma {:induction false} PinUnlockExactly(w: World, c: Config, pin: Pin, admitted: bool, salt: Salt, migrated: bool, restored: bool, answer: SyncAnswer, saved: bool)
    requires Envelope(w) && w.s.locked
    ensures var w' := Step(w, c, UnlockPin(pin, admitted, salt, migrated, restored, answer, saved));
      if admitted && PinFits(w, Some(pin)) then
        && OpenedTo(w, w', restored, answer, saved)
        && var old', new' := w.s.cache.value, w'.s.cache.value;
        && new'.pinSalt == (if migrated && (old'.version < 3 || old'.pinSalt == None) then Some(salt) else old'.pinSalt)
        && (migrated ==> !NeedsMigration(new'))
      else w' == w
  {
    MigratesExactly(w);
    hide UnlockWith, LastPin, LastSealed, OpenDialog, OpenNative, Envelope, OpenedTo, NeedsMigration, MigrateCache;
    OpensExactly(w, None, Some(pin));
    DialogIsPin(w.s, pin);
    if PinFits(w, Some(pin)) {
      var cf := w.s.cache.value;
      UnlockWithOpens(w, restored, answer, saved);
      MigratedOpens(w, pin, salt, restored, answer, saved);
      UnlockWithKeepsSalt(w, cf.payload.data, cf.payload.key, restored, answer, saved);
    }
  }

  /** A cache with a PIN needs a new salt exactly if its format is old or it has no salt of its own. */
  lemma {:induction false} MigratesExactly(w: World)
    requires Envelope(w)
    ensures w.s.cache.Some? ==> (NeedsMigration(w.s.cache.value) <==> w.s.cache.value.version < 3 || w.s.cache.value.pinSalt == None)
  {
  }

  lemma {:induction false} DialogIsPin(s: State, pin: Pin)
    ensures OpenDialog(s, Some(pin)) == if s.cache.Some? then OpenWithPin(s.cache.value, pin) else None
  {
  }

  lemma {:induction false} MigratedOpens(w: World, pin: Pin, salt: Salt, restored: bool, answer: SyncAnswer, saved: bool)
    requires Envelope(w) && PinFits(w, Some(pin))
    ensures var cf := w.s.cache.value;
      var m := World(w.s.(cache := Some(MigrateCache(cf, cf.payload.key, pin, salt))), w.log);
      var w' := UnlockWith(m, cf.payload.data, cf.payload.key, restored, answer, saved);
      OpenedTo(w, w', restored, answer, saved) && w'.s.cache.Some? && w'.s.cache.value.pinSalt == Some(salt) && !NeedsMigration(w'.s.cache.value)
  {
    var cf := w.s.cache.value;
    var m := World(w.s.(cache := Some(MigrateCache(cf, cf.payload.key, pin, salt))), w.log);
    RewritesOpen(cf, pin, LastSealed(w.log).value, [], [], salt, 0, false);
    assert Envelope(m);
    UnlockWithOpens(m, restored, answer, saved);
    UnlockWithKeepsSalt(m, cf.payload.data, cf.payload.key, restored, answer, saved);
    hide UnlockWith, LastPin, LastSealed, OpenWithPin, IdentitiesOf, Load, Fingerprints, Envelope;
  }

  lemma {:induction false} UnlockWithKeepsSalt(w: World, data: Payload, key: SymKey, restored: bool, answer: SyncAnswer, saved: bool)
    requires w.s.cache.Some?
    ensures var s' := UnlockWith(w, data, key, restored, answer, saved).s;
      && s'.cache.Some? && s'.cache.value.pinSalt == w.s.cache.value.pinSalt
      && (!NeedsMigration(w.s.cache.value) ==> !NeedsMigration(s'.cache.value))
  {
    hide Load, Fingerprints, StillApproved, IdentitiesOf;
  }

  /** No unlock command but a login touches an open vault. */
  lemma {:induction false} OpenVaultStays(w: World, c: Config, a: Action)
    requires !w.s.locked && (a.Unlock? || a.UnlockNative? || a.UnlockHello? || a.UnlockPin?)
    ensures Step(w, c, a) == w
  {
  }

  /** A cache whose payload cannot be read as keys opens no vault; at most its key is left held. */
  lemma {:induction false} UnreadableStaysLocked(w: World, c: Config, a: Action)
    requires w.s.locked && w.s.cache.Some? && w.s.cache.value.payload.data == Unparsable
    requires a.Unlock? || a.UnlockNative? || a.UnlockHello?
    ensures var w' := Step(w, c, a);
      w' == w || w' == World(w.s.(cacheKey := Some(w.s.cache.value.payload.key)), w.log)
    ensures PlatformFits(w.s, a.platform) && (a.UnlockHello? ==> c.windows) ==> Step(w, c, a).s.cacheKey == Some(w.s.cache.value.payload.key)
  {
  }

  // --- Login and the end of an automatic unlock ---------------------------

  /** A login takes its keys in, opens the vault and settles a waiting sync; a failed one changes nothing. */
  lemma {:induction false} LoginExactly(w: World, c: Config, login: Option<seq<KeyTuple>>, stored: bool, answer: SyncAnswer, saved: bool)
    requires Envelope(w)
    ensures var w' := Step(w, c, UnlockPassword(login, stored, answer, saved));
      && (login.None? ==> w' == w)
      && (login.Some? ==>
          && var settled := w.s.pending && answer.SyncOk?;
          var keys := if settled then answer.keys else login.value;
          && !w'.s.locked && w'.s.client == LoggedIn && w'.s.sessionFile && w'.s.needsUnlock
          && w'.s.cached == keys && w'.s.keystore == Load(keys) && w'.s.fingerprints == Fingerprints(keys)
          && w'.s.pending == (w.s.pending && !settled) && w'.s.cacheKey == w.s.cacheKey
          && (w.s.cacheKey.None? ==> w'.s.cache == w.s.cache)
          && (w.s.cacheKey.Some? && stored && saved ==>
              && w'.s.cache.Some? && LastPin(w.log).Some?
              && OpenWithPin(w'.s.cache.value, LastPin(w.log).value) == Some((KeyList(keys), w.s.cacheKey.value)))
          && (!settled ==> Forgets(w.s, w'.s, keys)))
  {
    if login.Some? {
      var r := Reconcile(w, login.value, stored);
      var u := World(WithKeys(r.s, login.value).(locked := false, client := LoggedIn, sessionFile := true), r.log);
      ReconcileForgets(w, login.value, stored);
      ReconcileEnvelope(w, login.value, stored);
      SealsSnoc(w.log, Sealing(login.value));
      if w.s.cacheKey.Some? && stored {
        ReconcileReseals(w, login.value, stored);
      }
      LoginSettles(w, login.value, stored, answer, saved);
    }
    hide Resolve, Reconcile, Load, Fingerprints, OpenWithPin, LastPin, LastSealed, IdentitiesOf;
  }

  lemma {:induction false} LoginSettles(w: World, keys: seq<KeyTuple>, stored: bool, answer: SyncAnswer, saved: bool)
    requires Envelope(w)
    ensures var r := Reconcile(w, keys, stored);
      var u := World(WithKeys(r.s, keys).(locked := false, client := LoggedIn, sessionFile := true), r.log);
      var w' := Resolve(u, answer, saved);
      && (w.s.pending && answer.SyncOk? ==> TookIn(u, w'.s, answer.keys, saved) && !w'.s.pending && w'.s.needsUnlock)
      && (!w.s.pending || answer.SyncFailed? ==> w' == u)
  {
    var r := Reconcile(w, keys, stored);
    ReconcileEnvelope(w, keys, stored);
    var u := World(WithKeys(r.s, keys).(locked := false, client := LoggedIn, sessionFile := true), r.log);
    assert Envelope(u);
    ReconcileKeepsPending(w, keys, stored);
    hide Resolve, Load, Envelope, TookIn, Reconcile;
    ResolveExactly(u, answer, saved);
  }

  lemma {:induction false} ReconcileKeepsPending(w: World, keys: seq<KeyTuple>, stored: bool)
    ensures Reconcile(w, keys, stored).s.pending == w.s.pending
  {
    hide Fingerprints, StillApproved, RefreshCache;
  }

  /** The main loop after an automatic unlock: a client is restored where there is none, and a waiting sync settled if it can be. */
  lemma {:induction false} AutoUnlockedExactly(w: World, c: Config, restored: bool, answer: SyncAnswer, saved: bool)
    requires Envelope(w)
    ensures var w' := Step(w, c, AutoUnlocked(restored, answer, saved));
      && w'.s.client == (if restored && w.s.client == NoClient && w.s.sessionFile then Client.Restored else w.s.client)
      && (Settles(w.s, answer) ==> TookIn(w, w'.s, answer.keys, saved) && !w'.s.pending)
      && (!Settles(w.s, answer) ==> w' == World(w.s.(client := w'.s.client), w.log))
  {
    var u := World(w.s.(client := Restore(w.s, restored)), w.log);
    assert Envelope(u);
    hide Resolve, Envelope;
    ResolveExactly(u, answer, saved);
    hide TookIn;
    if Settles(w.s, answer) {
      assert u == w;
      TookInClient(w, Resolve(w, answer, saved).s, answer.keys, saved);
    }
  }

  lemma {:induction false} TookInClient(w: World, s': State, keys: seq<KeyTuple>, saved: bool)
    requires TookIn(w, s', keys, saved)
    ensures s'.client == w.s.client
  {
    hide Load, Fingerprints, Resealed, Forgets;
  }

  // --- A sign request on a locked vault -----------------------------------

  /** Only listed keys can be asked for. */
  lemma {:induction false} UnlistedUnanswered(w: World, c: Config, pk: PublicKey, op: OperationKind, forwarding: bool, platform: Option<SymKey>, dialog: Option<Pin>, approves: bool)
    requires pk !in w.s.keystore
    ensures Step(w, c, SignRequest(pk, op, forwarding, platform, dialog, approves)) == w
  {
  }

  /**
   A request for a listed key on a locked vault opens it exactly when automatic
   unlock is on and the platform's key or the PIN entered fits. It is then
   answered as the user says, or yes without asking if it is local and the
   prompt is off; otherwise it is denied and nothing changes.
   */
  lemma {:induction false} LockedSignExactly(w: World, c: Config, pk: PublicKey, op: OperationKind, forwarding: bool, platform: Option<SymKey>, dialog: Option<Pin>, approves: bool)
    requires Envelope(w) && w.s.locked && pk in w.s.keystore
    ensures var w' := Step(w, c, SignRequest(pk, op, forwarding, platform, dialog, approves));
      var id := w.s.keystore[pk].id;
      if c.autoUnlock && (PlatformFits(w.s, platform) || PinFits(w, dialog)) then
        && var keys := LastSealed(w.log).value;
        && w'.s == w.s.(locked := false, cached := keys, keystore := Load(keys), needsUnlock := true,
                        cacheKey := Some(w.s.cache.value.payload.key))
        && w'.log == w.log + [if c.prompt == Never && !forwarding then Answered(id, op, None, forwarding, true, ByPolicy)
                              else Answered(id, op, None, forwarding, approves, ByUser)]
      else w' == World(w.s, w.log + [Answered(id, op, None, forwarding, false, ByLock)])
  {
    hide SignLocked, LastPin, LastSealed, Envelope, Load;
    SignLockedExactly(w, c, w.s.keystore[pk].id, op, forwarding, platform, dialog, approves);
  }

  lemma {:induction false} SignLockedExactly(w: World, c: Config, id: string, op: OperationKind, forwarding: bool, platform: Option<SymKey>, dialog: Option<Pin>, approves: bool)
    requires Envelope(w)
    ensures var w' := SignLocked(w, c, id, op, forwarding, platform, dialog, approves);
      if c.autoUnlock && (PlatformFits(w.s, platform) || PinFits(w, dialog)) then
        && w.s.cache.Some? && LastSealed(w.log).Some?
        && var keys := LastSealed(w.log).value;
        && w'.s == w.s.(locked := false, cached := keys, keystore := Load(keys), needsUnlock := true,
                        cacheKey := Some(w.s.cache.value.payload.key))
        && w'.log == w.log + [Prompted(c, id, op, forwarding, approves)]
      else w' == World(w.s, w.log + [Answered(id, op, None, forwarding, false, ByLock)])
  {
    hide Load, LastPin, LastSealed, OpenNative, OpenDialog, Envelope, PlatformFits, PinFits, Answer;
    OpensExactly(w, platform, dialog);
    NoCacheNoFit(w, platform, dialog);
    PromptedAnswer(w, c, id, op, forwarding, approves);
    if w.s.cache.Some? {
      var keys := LastSealed(w.log).value;
      var s := WithKeys(w.s.(cached := keys), keys).(cacheKey := Some(w.s.cache.value.payload.key), locked := false);
      PromptedAnswer(World(s, w.log), c, id, op, forwarding, approves);
    }
  }

  /** The answer right after an automatic unlock. */
  function Prompted(c: Config, id: string, op: OperationKind, forwarding: bool, approves: bool): Event {
    if c.prompt == Never && !forwarding then Answered(id, op, None, forwarding, true, ByPolicy)
    else Answered(id, op, None, forwarding, approves, ByUser)
  }

  lemma {:induction false} PromptedAnswer(w: World, c: Config, id: string, op: OperationKind, forwarding: bool, approves: bool)
    ensures Answer(w, id, op, None, forwarding, Refused) == World(w.s, w.log + [Answered(id, op, None, forwarding, false, ByLock)])
    ensures Answer(w, id, op, None, forwarding, Considered(c.prompt, false, approves)) ==
            World(w.s, w.log + [Prompted(c, id, op, forwarding, approves)])
  {
  }
}
