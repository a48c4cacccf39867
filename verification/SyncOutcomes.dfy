/** What a sync, a lock and a new PIN lead to. */
module SyncOutcomes {
  import opened Text
  import opened Keys
  import opened Vault
  import opened EnvelopeRuns

  // --- A sync -------------------------------------------------------------

  /** Exactly the approvals whose item's fingerprint is the same before and after. */
  ghost predicate Forgets(before: State, after: State, keys: seq<KeyTuple>) {
    forall a :: a in after.memory <==> a in before.memory && At(before.fingerprints, a.0) == At(Fingerprints(keys), a.0)
  }

  /**
   The vault has taken in these keys: they are the cached tuples, the tracked
   fingerprints and, if unlocked, the loaded keys; and, if a Local Cache Key is
   held and the write succeeds, the current PIN opens the cache to them, in the
   slots and under the key it had.
   */
  ghost predicate TookIn(w: World, s': State, keys: seq<KeyTuple>, saved: bool) {
    var s := w.s;
    && s'.cached == keys && s'.fingerprints == Fingerprints(keys) && Forgets(s, s', keys)
    && s'.locked == s.locked && s'.cacheKey == s.cacheKey && s'.client == s.client && s'.sessionFile == s.sessionFile
    && s'.keystore == (if s.locked then s.keystore else Load(keys))
    && (s.cache.Some? && s.cacheKey.Some? && saved ==> Resealed(w, s', keys))
    && (s.cache.None? || s.cacheKey.None? || !saved ==> s'.cache == s.cache)
  }

  ghost predicate Resealed(w: World, s': State, keys: seq<KeyTuple>)
    requires w.s.cache.Some?
  {
    var c := w.s.cache.value;
    && s'.cache.Some? && LastPin(w.log).Some?
    && OpenWithPin(s'.cache.value, LastPin(w.log).value) == Some((KeyList(keys), c.payload.key))
    && s'.cache.value.header == IdentitiesOf(keys)
    && s'.cache.value.pinBox == c.pinBox && s'.cache.value.pinSalt == c.pinSalt && s'.cache.value.native == c.native
  }

  lemma {:induction false} ReconcileReseals(w: World, keys: seq<KeyTuple>, saved: bool)
    requires Envelope(w) && w.s.cache.Some? && w.s.cacheKey.Some? && saved
    ensures Resealed(w, Reconcile(w, keys, saved).s, keys)
  {
    hide Fingerprints, StillApproved, LastPin, LastSealed;
    var c := w.s.cache.value;
    RewritesOpen(c, LastPin(w.log).value, LastSealed(w.log).value, keys, [], 0, 0, false);
    PinOpens(RefreshCache(c, keys, c.payload.key), LastPin(w.log).value, keys, LastPin(w.log).value);
  }

  lemma {:induction false} ReconcileForgets(w: World, keys: seq<KeyTuple>, saved: bool)
    ensures Forgets(w.s, Reconcile(w, keys, saved).s, keys)
  {
    hide Fingerprints, StillApproved, RefreshCache;
    forall a ensures a in Reconcile(w, keys, saved).s.memory <==> a in w.s.memory && At(w.s.fingerprints, a.0) == At(Fingerprints(keys), a.0) {
      SurvivesExactly(w.s.memory, w.s.fingerprints, Fingerprints(keys), a);
    }
  }

  lemma {:induction false} ReconcileFields(w: World, keys: seq<KeyTuple>, saved: bool)
    ensures var s' := Reconcile(w, keys, saved).s;
      && s' == w.s.(memory := s'.memory, cached := keys, fingerprints := Fingerprints(keys), cache := s'.cache)
      && (w.s.cache.None? || w.s.cacheKey.None? || !saved ==> s'.cache == w.s.cache)
  {
    hide Fingerprints, StillApproved, RefreshCache;
  }

  lemma {:induction false} DoSyncTakesIn(w: World, keys: seq<KeyTuple>, saved: bool)
    requires Envelope(w) && w.s.client.LoggedIn?
    ensures var w' := DoSync(w, SyncOk(keys), saved);
      TookIn(w, w'.s, keys, saved) && w'.s.pending == w.s.pending && w'.log != [] && w'.log[|w'.log| - 1] == SyncDone
  {
    hide Fingerprints, Load, Envelope, Forgets, Resealed, Reconcile;
    if w.s.cache.Some? && w.s.cacheKey.Some? && saved {
      ReconcileReseals(w, keys, saved);
      ResealedAlike(w, Reconcile(w, keys, saved).s, DoSync(w, SyncOk(keys), saved).s, keys);
    }
    ReconcileForgets(w, keys, saved);
    ForgetsAlike(w.s, Reconcile(w, keys, saved).s, DoSync(w, SyncOk(keys), saved).s, keys);
    ReconcileFields(w, keys, saved);
  }

  lemma {:induction false} ResealedAlike(w: World, s: State, s': State, keys: seq<KeyTuple>)
    requires w.s.cache.Some? && Resealed(w, s, keys) && s'.cache == s.cache
    ensures Resealed(w, s', keys)
  {
    hide OpenWithPin, IdentitiesOf, LastPin;
  }

  lemma {:induction false} ForgetsAlike(before: State, s: State, s': State, keys: seq<KeyTuple>)
    requires Forgets(before, s, keys) && s'.memory == s.memory
    ensures Forgets(before, s', keys)
  {
    hide Fingerprints, At;
  }

  /** What a taken-in state says does not depend on a pending sync, nor on events that set no PIN. */
  lemma {:induction false} TookInAlike(v: World, w: World, s': State, keys: seq<KeyTuple>, saved: bool)
    requires TookIn(v, s', keys, saved) && LastPin(v.log) == LastPin(w.log) && v.s == w.s.(pending := v.s.pending)
    ensures TookIn(w, s', keys, saved)
  {
    hide Load, Fingerprints, OpenWithPin, LastPin, IdentitiesOf;
  }

  /** A waiting sync is settled exactly when a logged-in client gets an answer. */
  lemma {:induction false} ResolveExactly(w: World, answer: SyncAnswer, saved: bool)
    requires Envelope(w)
    ensures var w' := Resolve(w, answer, saved);
      if w.s.pending && w.s.client == LoggedIn && answer.SyncOk?
      then TookIn(w, w'.s, answer.keys, saved) && !w'.s.pending && w'.s.needsUnlock == (w.s.needsUnlock || !w.s.locked)
      else w' == w
  {
    var v := World(w.s.(pending := false), w.log);
    assert Envelope(v);
    hide Envelope, LastPin, TookIn;
    if w.s.client == LoggedIn && answer.SyncOk? {
      DoSyncTakesIn(v, answer.keys, saved);
      TookInAlike(v, w, DoSync(v, answer, saved).s, answer.keys, saved);
      DoSyncAsks(v, answer.keys, saved);
    }
    hide DoSync;
  }

  lemma {:induction false} DoSyncAsks(w: World, keys: seq<KeyTuple>, saved: bool)
    requires w.s.client.LoggedIn?
    ensures DoSync(w, SyncOk(keys), saved).s.needsUnlock == (w.s.needsUnlock || !w.s.locked)
  {
    hide Load, Fingerprints, StillApproved, RefreshCache;
  }

  /**
   The `sync` command: with a logged-in client and the server's answer the
   vault takes the keys in, and leaves a sync pending if it was locked;
   otherwise nothing changes.
   */
  lemma {:induction false} SyncExactly(w: World, c: Config, answer: SyncAnswer, saved: bool)
    requires Envelope(w)
    ensures var w' := Step(w, c, Sync(answer, saved));
      && (w.s.client == LoggedIn && answer.SyncOk? ==>
          TookIn(w, w'.s, answer.keys, saved) && w'.s.pending == (w.s.pending || w.s.locked)
          && w'.log != [] && w'.log[|w'.log| - 1] == SyncDone)
      && (w.s.client != LoggedIn || answer.SyncFailed? ==> w' == w)
  {
    if w.s.client == LoggedIn && answer.SyncOk? {
      DoSyncTakesIn(w, answer.keys, saved);
    }
    hide DoSync, Envelope;
  }

  /** A hub notice: an unlocked vault with a logged-in client and an answer takes the keys in; any other leaves a sync pending. */
  lemma {:induction false} NoticeExactly(w: World, c: Config, answer: SyncAnswer, saved: bool)
    requires Envelope(w)
    ensures var w' := Step(w, c, HubNotice(answer, saved));
      && (!w.s.locked && w.s.client == LoggedIn && answer.SyncOk? ==>
          TookIn(w, w'.s, answer.keys, saved) && w'.s.pending == w.s.pending
          && w'.log != [] && w'.log[|w'.log| - 1] == SyncDone)
      && (w.s.locked || w.s.client != LoggedIn || answer.SyncFailed? ==>
          w' == World(w.s.(pending := true), w.log + [Notice]))
  {
    hide DoSync, LastPin, TookIn, Envelope;
    var n := World(w.s, w.log + [Notice]);
    NoticeKeepsEnvelope(w);
    if w.s.client == LoggedIn && answer.SyncOk? {
      DoSyncTakesIn(n, answer.keys, saved);
      TookInAlike(n, w, DoSync(n, answer, saved).s, answer.keys, saved);
    }
  }

  lemma {:induction false} NoticeKeepsEnvelope(w: World)
    requires Envelope(w)
    ensures Envelope(World(w.s, w.log + [Notice])) && LastPin(w.log + [Notice]) == LastPin(w.log)
  {
    hide LastPin, LastSealed, Opens;
    SealsSnoc(w.log, Notice);
  }

  /** A first start is as if its login's keys had just been taken in: a sync of the same keys would forget no approval. */
  lemma {:induction false} FreshExactly(keys: seq<KeyTuple>, client: Client, a: Approval)
    ensures var s := StartFresh(keys, client).s;
      && !s.locked && s.cached == keys && s.keystore == Load(keys) && s.needsUnlock
      && s.cache == None && s.cacheKey == None && s.memory == {} && !s.pending && s.client == client
      && At(s.fingerprints, a.0) == At(Fingerprints(keys), a.0)
  {
  }

  // --- Locking and setting a PIN ------------------------------------------

  /**
   Locking drops the private keys, the cached tuples, the Local Cache Key and
   every remembered approval, and nothing else. So a PIN cannot be set until a
   sync or an unlock brings keys.
   */
  lemma {:induction false} LockExactly(w: World, c: Config, pin: Pin, freshKey: SymKey, salt: Salt, native: bool, written: bool)
    requires !w.s.locked
    ensures forall a <- [Lock, AutoLock, HubLogOut] ::
      var s' := Step(w, c, a).s;
      && s'.locked && s'.cached == [] && s'.cacheKey == None && s'.memory == {} && !s'.needsUnlock
      && s'.keystore.Keys == w.s.keystore.Keys
      && (forall pk <- s'.keystore :: s'.keystore[pk] == Entry(None, w.s.keystore[pk].name, w.s.keystore[pk].id))
      && s'.cache == w.s.cache && s'.fingerprints == w.s.fingerprints && s'.pending == w.s.pending
      && s'.client == w.s.client && s'.sessionFile == w.s.sessionFile
    ensures var locked := Step(w, c, Lock); Step(locked, c, SetPin(pin, freshKey, salt, native, written)) == locked
  {
    forall a <- [Lock, AutoLock, HubLogOut] ensures Step(w, c, a) == LockVault(w) {
    }
    hide WriteCache;
  }

  /** A remote logout locks whatever the state, and so takes a key that a PIN set while locked left behind. */
  lemma {:induction false} LogOutExactly(w: World, c: Config)
    ensures var s' := Step(w, c, HubLogOut).s;
      && s'.locked && s'.cached == [] && s'.cacheKey == None && s'.memory == {} && !s'.needsUnlock
      && s'.keystore.Keys == w.s.keystore.Keys && (forall pk <- s'.keystore :: s'.keystore[pk].secret == None)
      && s'.cache == w.s.cache && s'.client == w.s.client && s'.pending == w.s.pending
  {
  }

  /** A locked vault is left alone by the lock command and the inactivity lock. */
  lemma {:induction false} LockedStays(w: World, c: Config)
    requires w.s.locked
    ensures Step(w, c, Lock) == w && Step(w, c, AutoLock) == w
  {
  }

  /**
   A PIN of four bytes or more, over cached keys and with a write that
   succeeds, becomes the one PIN that opens the cache, to those keys and under
   the key held, or a fresh one; otherwise nothing changes.
   */
  lemma {:induction false} SetPinExactly(w: World, c: Config, pin: Pin, freshKey: SymKey, salt: Salt, native: bool, written: bool, attempt: Pin)
    ensures var w' := Step(w, c, SetPin(pin, freshKey, salt, native, written));
      && (|pin| < 4 || w.s.cached == [] || !written ==> w' == w)
      && (|pin| >= 4 && w.s.cached != [] && written ==>
          && w'.s == w.s.(cache := w'.s.cache, cacheKey := w'.s.cacheKey, sessionFile := w'.s.sessionFile)
          && w'.s.sessionFile == (w.s.sessionFile || w.s.client != NoClient)
          && w'.s.cacheKey == Some(if w.s.cacheKey.Some? then w.s.cacheKey.value else freshKey)
          && w'.s.cache.Some? && w'.s.cache.value.header == IdentitiesOf(w.s.cached) && !NeedsMigration(w'.s.cache.value)
          && w'.s.cache.value.native == (if native then w'.s.cacheKey else None)
          && OpenWithPin(w'.s.cache.value, attempt) ==
             (if attempt == pin then Some((KeyList(w.s.cached), w'.s.cacheKey.value)) else None))
  {
  }
}
