/** Who approved what: sign requests, authorization memory and key material over every run. */
module ApprovalRuns {
  import opened Text
  import opened Keys
  import opened SshSig
  import opened SignRules
  import opened Vault
  import opened VaultRuns
  import opened EventRuns

  // --- One request, one answer --------------------------------------------

  /** A forwarded request is approved only by the user. */
  predicate Consented(e: Event) {
    e.Answered? && e.forwarding && e.verdict ==> e.source.ByUser?
  }

  /** Answering appends one event, with the ruling the handler came to. */
  lemma {:induction false} AnswerEvent(w: World, id: string, op: OperationKind, pem: Option<Pem>, forwarding: bool, how: Handling)
    returns (e: Event)
    ensures Answer(w, id, op, pem, forwarding, how) == World(w.s, w.log + [e])
    ensures e == Answered(id, op, pem, forwarding, Rule(how, forwarding).verdict, Rule(how, forwarding).source) && Consented(e)
    ensures e.source.ByMemory? ==> how.Considered? && how.remembered
  {
    e := Answered(id, op, pem, forwarding, Rule(how, forwarding).verdict, Rule(how, forwarding).source);
  }

  lemma {:induction false} SignLockedAnswers(w: World, c: Config, id: string, op: OperationKind, forwarding: bool, platform: Option<SymKey>, dialog: Option<Pin>, approves: bool)
    returns (e: Event)
    ensures var w' := SignLocked(w, c, id, op, forwarding, platform, dialog, approves);
      && w'.log == w.log + [e] && w'.s.pending == w.s.pending
      && w'.s.memory == w.s.memory && w'.s.fingerprints == w.s.fingerprints
    ensures e.Answered? && e.id == id && e.op == op && e.forwarding == forwarding && !e.source.ByMemory? && Consented(e)
    ensures e.pem.None?
  {
    hide Load, OpenNative, OpenDialog, Answer, Rule;
    e := AnswerEvent(w, id, op, None, forwarding, Refused);
    if c.autoUnlock {
      var native := OpenNative(w.s, platform);
      var unsealed := if native.Some? && native.value.0.KeyList? then native else OpenDialog(w.s, dialog);
      if unsealed.Some? && unsealed.value.0.KeyList? {
        var s := WithKeys(w.s.(cached := unsealed.value.0.keys), unsealed.value.0.keys).(cacheKey := Some(unsealed.value.1), locked := false);
        e := AnswerEvent(World(s, w.log), id, op, None, forwarding, Considered(c.prompt, false, approves));
      }
    }
  }

  lemma {:induction false} SignUnlockedAnswers(w: World, c: Config, entry: Entry, op: OperationKind, forwarding: bool, approves: bool)
    returns (e: Event)
    ensures var w' := SignUnlocked(w, c, entry, op, forwarding, approves);
      w'.log == w.log + [e] && w'.s == w.s.(memory := w'.s.memory)
    ensures e.Answered? && e.id == entry.id && e.op == op && e.pem == entry.secret && e.forwarding == forwarding && Consented(e)
    ensures e.source.ByMemory? ==> !forwarding && e.verdict && (entry.id, op) in w.s.memory
    ensures e.source.ByUser? ==> e.verdict == approves
    ensures forall a <- SignUnlocked(w, c, entry, op, forwarding, approves).s.memory ::
              a in w.s.memory || (a == (entry.id, op) && !forwarding && c.prompt.RememberUntilLock? && e.verdict && e.source.ByUser?)
  {
    var w' := SignUnlocked(w, c, entry, op, forwarding, approves);
    e := w'.log[|w'.log| - 1];
  }

  /** A request for a listed key gets exactly one answer, about that key; any other is not asked. */
  lemma {:induction false} SignAnswersOnce(w: World, c: Config, pk: PublicKey, op: OperationKind, forwarding: bool, platform: Option<SymKey>, dialog: Option<Pin>, approves: bool)
    returns (e: Event)
    ensures var w' := StepSign(w, c, pk, op, forwarding, platform, dialog, approves);
      if pk in w.s.keystore then
        && w'.log == w.log + [e] && w'.s.pending == w.s.pending
        && e.Answered? && e.id == w.s.keystore[pk].id && e.op == op && e.forwarding == forwarding && Consented(e)
      else w' == w
  {
    hide SignLocked, SignUnlocked;
    e := Notice;
    if pk in w.s.keystore {
      var entry := w.s.keystore[pk];
      if w.s.locked {
        e := SignLockedAnswers(w, c, entry.id, op, forwarding, platform, dialog, approves);
      } else {
        e := SignUnlockedAnswers(w, c, entry, op, forwarding, approves);
      }
    }
  }

  // --- Approvals in the log -----------------------------------------------

  /** The material the user last approved for this item and operation since the last lock or Forget. */
  function LastApproved(log: seq<Event>, id: string, op: OperationKind): Option<Pem> {
    if log == [] then None
    else
      var last := log[|log| - 1];
      if last.LockedNow? || last.Forgot? then None
      else if IsApproval(last, id, op) then last.pem
      else LastApproved(log[..|log| - 1], id, op)
  }

  predicate IsApproval(e: Event, id: string, op: OperationKind) {
    e.Answered? && e.id == id && e.op == op && e.pem.Some? && !e.forwarding && e.verdict && e.source.ByUser?
  }

  /** Spelled out: the user approved that very material, and nothing locked or forgot since. */
  lemma {:induction false} LastApprovedMeaning(log: seq<Event>, id: string, op: OperationKind)
    requires LastApproved(log, id, op).Some?
    ensures exists i :: 0 <= i < |log| && IsApproval(log[i], id, op) && log[i].pem == LastApproved(log, id, op)
              && forall k :: i < k < |log| ==> !log[k].LockedNow? && !log[k].Forgot?
  {
    var n := |log| - 1;
    if !IsApproval(log[n], id, op) {
      LastApprovedMeaning(log[..n], id, op);
      var i :| 0 <= i < n && IsApproval(log[..n][i], id, op) && log[..n][i].pem == LastApproved(log, id, op)
               && forall k :: i < k < n ==> !log[..n][k].LockedNow? && !log[..n][k].Forgot?;
      forall k | i < k < |log| ensures !log[k].LockedNow? && !log[k].Forgot? {
        if k < n { assert log[k] == log[..n][k]; }
      }
      assert log[i] == log[..n][i];
    }
  }

  /** Every answer from memory is for the material the user approved. */
  ghost predicate TrustedLog(log: seq<Event>) {
    log == [] ||
    var front, last := log[..|log| - 1], log[|log| - 1];
    TrustedLog(front) &&
    (last.Answered? && last.source.ByMemory? ==> last.pem.Some? && LastApproved(front, last.id, last.op) == last.pem)
  }

  function ApprovedAfter(log: seq<Event>, e: Event, id: string, op: OperationKind): Option<Pem> {
    if e.LockedNow? || e.Forgot? then None else if IsApproval(e, id, op) then e.pem else LastApproved(log, id, op)
  }

  lemma {:induction false} ApprovalsSnoc(log: seq<Event>, e: Event)
    ensures forall id, op :: LastApproved(log + [e], id, op) == ApprovedAfter(log, e, id, op)
    ensures TrustedLog(log + [e]) <==>
      TrustedLog(log) && (e.Answered? && e.source.ByMemory? ==> e.pem.Some? && LastApproved(log, e.id, e.op) == e.pem)
  {
    assert (log + [e])[..|log|] == log;
  }

  lemma {:induction false} TrustedAt(log: seq<Event>, j: nat)
    requires TrustedLog(log) && j < |log| && log[j].Answered? && log[j].source.ByMemory?
    ensures log[j].pem.Some? && LastApproved(log[..j], log[j].id, log[j].op) == log[j].pem
    decreases |log|
  {
    if j < |log| - 1 {
      var front := log[..|log| - 1];
      TrustedAt(front, j);
      assert front[..j] == log[..j];
    }
  }

  // --- Memory agrees with what is loaded ----------------------------------

  /** Every loaded key of this item is this material. */
  ghost predicate OnlyMaterial(ks: Keystore, id: string, m: Pem) {
    forall pk <- ks :: ks[pk].id == id ==> ks[pk].secret == Some(m)
  }

  /** The tracked material of an item is this one, or one that can never be loaded. */
  predicate Tracks(fp: map<string, Fingerprint>, id: string, m: Pem) {
    id in fp ==> fp[id].pem == m || fp[id].pem.Unreadable?
  }

  ghost predicate Backed(s: State, log: seq<Event>, a: Approval) {
    var m := LastApproved(log, a.0, a.1);
    m.Some? && Tracks(s.fingerprints, a.0, m.value) && OnlyMaterial(s.keystore, a.0, m.value)
  }

  predicate PayloadOk(cache: Option<CacheFile>) {
    cache.Some? && cache.value.payload.data.KeyList? ==> DistinctIds(cache.value.payload.data.keys)
  }

  ghost predicate MemoryInv(w: World) {
    && KeystoreInv(w.s) && DistinctIds(w.s.cached) && PayloadOk(w.s.cache)
    && (w.s.locked ==> w.s.memory == {})
    && (forall a <- w.s.memory :: Backed(w.s, w.log, a))
    && TrustedLog(w.log)
  }

  lemma {:induction false} LoadedFrom(keys: seq<KeyTuple>, pk: PublicKey)
    requires pk in Load(keys)
    ensures exists k <- keys :: k.pem.OpenSsh? && Load(keys)[pk] == Entry(Some(k.pem), k.name, k.id)
  {
    LoadIsLastWins(keys, pk);
  }

  /** With one tuple an item, a loaded item has one material: the fingerprinted one. */
  lemma {:induction false} LoadedMaterial(keys: seq<KeyTuple>, id: string, m: Pem)
    requires DistinctIds(keys)
    requires Tracks(Fingerprints(keys), id, m)
    ensures OnlyMaterial(Load(keys), id, m)
  {
    FingerprintOfKey(keys);
    forall pk <- Load(keys) | Load(keys)[pk].id == id ensures Load(keys)[pk].secret == Some(m) {
      LoadedFrom(keys, pk);
    }
  }

  lemma {:induction false} SameMaterial(keys: seq<KeyTuple>, pk: PublicKey)
    requires DistinctIds(keys) && pk in Load(keys)
    ensures Load(keys)[pk].secret.Some? && OnlyMaterial(Load(keys), Load(keys)[pk].id, Load(keys)[pk].secret.value)
  {
    LoadedFrom(keys, pk);
    FingerprintOfKey(keys);
    LoadedMaterial(keys, Load(keys)[pk].id, Load(keys)[pk].secret.value);
  }

  // --- Steps --------------------------------------------------------------

  /** Reconciling and reloading keep every surviving approval backed. */
  lemma {:induction false} ReloadKeepsBacked(w: World, keys: seq<KeyTuple>, saved: bool, a: Approval)
    requires DistinctIds(keys) && (a in w.s.memory ==> Backed(w.s, w.log, a))
    requires a in Reconcile(w, keys, saved).s.memory
    ensures var r := Reconcile(w, keys, saved); Backed(WithKeys(r.s, keys), r.log, a)
  {
    hide Load, Fingerprints, StillApproved, LastApproved, OnlyMaterial, TrustedLog;
    SurvivesExactly(w.s.memory, w.s.fingerprints, Fingerprints(keys), a);
    ApprovalsSnoc(w.log, Sealing(keys));
    LoadedMaterial(keys, a.0, LastApproved(w.log, a.0, a.1).value);
  }

  lemma {:induction false} ReconcileTrust(w: World, keys: seq<KeyTuple>, saved: bool)
    requires MemoryInv(w) && DistinctIds(keys)
    ensures var r := Reconcile(w, keys, saved);
      && TrustedLog(r.log) && PayloadOk(r.s.cache) && r.s.locked == w.s.locked && r.s.keystore == w.s.keystore
      && r.s.cached == keys && (w.s.locked ==> r.s.memory == {})
  {
    hide Load, Fingerprints, LastApproved, Backed, TrustedLog;
    ApprovalsSnoc(w.log, Sealing(keys));
  }

  lemma {:induction false} DoSyncMemory(w: World, answer: SyncAnswer, saved: bool)
    requires MemoryInv(w) && (answer.SyncOk? ==> DistinctIds(answer.keys))
    ensures MemoryInv(DoSync(w, answer, saved))
  {
    hide Load, LastApproved, Backed, TrustedLog, Reconcile, PayloadOk, Fingerprints;
    if SyncWorks(w.s, answer) {
      var r := Reconcile(w, answer.keys, saved);
      ReconcileTrust(w, answer.keys, saved);
      ApprovalsSnoc(r.log, SyncDone);
      var s := if r.s.locked then r.s else WithKeys(r.s, answer.keys);
      forall a <- s.memory ensures Backed(s, r.log + [SyncDone], a) {
        ReloadKeepsBacked(w, answer.keys, saved, a);
        BackedFrame(s, r.log, r.log + [SyncDone], a);
      }
    }
  }

  lemma {:induction false} BackedFrame(s: State, log: seq<Event>, log': seq<Event>, a: Approval)
    requires Backed(s, log, a) && LastApproved(log', a.0, a.1) == LastApproved(log, a.0, a.1)
    ensures Backed(s, log', a)
  {
  }

  lemma {:induction false} ResolveMemory(w: World, answer: SyncAnswer, saved: bool)
    requires MemoryInv(w) && (answer.SyncOk? ==> DistinctIds(answer.keys))
    ensures MemoryInv(Resolve(w, answer, saved))
  {
    hide Load, DoSync, TrustedLog, Backed, PayloadOk;
    var w' := World(w.s.(pending := false), w.log);
    assert MemoryInv(w') by { SameMemory(w, w'); }
    DoSyncMemory(w', answer, saved);
  }

  /** Fields the invariant does not read may change freely. */
  lemma {:induction false} SameMemory(w: World, w': World)
    requires MemoryInv(w) && w'.log == w.log
    requires w'.s.locked == w.s.locked && w'.s.keystore == w.s.keystore && w'.s.cached == w.s.cached
    requires w'.s.fingerprints == w.s.fingerprints && w'.s.memory == w.s.memory && PayloadOk(w'.s.cache)
    ensures MemoryInv(w')
  {
    hide PayloadOk, TrustedLog, LastApproved, OnlyMaterial;
    forall a <- w'.s.memory ensures Backed(w'.s, w'.log, a) {
      assert Backed(w.s, w.log, a);
    }
  }

  lemma {:induction false} UnlockWithMemory(w: World, data: Payload, key: SymKey, restored: bool, answer: SyncAnswer, saved: bool)
    requires MemoryInv(w) && w.s.locked && (data.KeyList? ==> DistinctIds(data.keys))
    requires answer.SyncOk? ==> DistinctIds(answer.keys)
    ensures MemoryInv(UnlockWith(w, data, key, restored, answer, saved))
  {
    hide Load, Resolve, TrustedLog, Backed, PayloadOk, DistinctIds;
    var held := FinishUnlock(World(w.s.(cacheKey := Some(key)), w.log), data);
    assert MemoryInv(held);
    if data.KeyList? {
      var u := World(held.s.(client := Restore(held.s, restored)), held.log);
      SameMemory(held, u);
      ResolveMemory(u, answer, saved);
    }
  }

  /** What the server must give: one key an item. */
  predicate SaneInput(a: Action) {
    match a
    case Unlock(_, _, _, answer, _) => SaneAnswer(answer)
    case UnlockNative(_, answer, _) => SaneAnswer(answer)
    case UnlockHello(_, _, answer, _) => SaneAnswer(answer)
    case UnlockPin(_, _, _, _, _, answer, _) => SaneAnswer(answer)
    case UnlockPassword(login, _, answer, _) => SaneAnswer(answer) && (login.Some? ==> DistinctIds(login.value))
    case Sync(answer, _) => SaneAnswer(answer)
    case HubNotice(answer, _) => SaneAnswer(answer)
    case AutoUnlocked(_, answer, _) => SaneAnswer(answer)
    case _ => true
  }

  predicate SaneAnswer(answer: SyncAnswer) {
    answer.SyncOk? ==> DistinctIds(answer.keys)
  }

  /** The tracked material of an item is another, readable one than the loaded entry's. */
  predicate Disagrees(s: State, entry: Entry) {
    && entry.secret.Some? && entry.id in s.fingerprints
    && s.fingerprints[entry.id].pem != entry.secret.value && s.fingerprints[entry.id].pem.OpenSsh?
  }

  /** The action remembers an approval of an entry whose tracked material is another key. */
  predicate Misremembers(w: World, c: Config, a: Action) {
    && a.SignRequest? && a.approves && !a.forwarding && c.prompt.RememberUntilLock?
    && !w.s.locked && a.pk in w.s.keystore && Disagrees(w.s, w.s.keystore[a.pk])
  }

  predicate Sane(w: World, c: Config, a: Action) {
    SaneInput(a) && !Misremembers(w, c, a)
  }

  lemma {:induction false} UnlockMemory(w: World, c: Config, platform: Option<SymKey>, dialog: Option<Pin>, restored: bool, answer: SyncAnswer, saved: bool)
    requires MemoryInv(w) && SaneAnswer(answer)
    ensures MemoryInv(StepUnlock(w, c, platform, dialog, restored, answer, saved))
  {
    hide Load, UnlockWith, MemoryInv, PayloadOk, DistinctIds;
    if w.s.locked {
      OpenedSane(w, platform, dialog);
      var native := OpenNative(w.s, platform);
      var w' := if native.Some? then World(w.s.(cacheKey := Some(native.value.1)), w.log) else w;
      SameMemoryKey(w, w'.s.cacheKey);
      assert w' == World(w.s.(cacheKey := w'.s.cacheKey), w.log);
      if native.Some? {
        UnlockWithMemory(w, native.value.0, native.value.1, c.windows && restored, answer, saved);
      }
      var d := OpenDialog(w'.s, dialog);
      if d.Some? {
        UnlockWithMemory(w', d.value.0, d.value.1, restored, answer, saved);
      }
    }
  }

  lemma {:induction false} OpenedSane(w: World, platform: Option<SymKey>, dialog: Option<Pin>)
    requires MemoryInv(w)
    ensures var d := OpenNative(w.s, platform); d.Some? && d.value.0.KeyList? ==> DistinctIds(d.value.0.keys)
    ensures var d := OpenDialog(w.s, dialog); d.Some? && d.value.0.KeyList? ==> DistinctIds(d.value.0.keys)
  {
    OpenedDistinct(w.s, platform, dialog);
  }

  lemma {:induction false} SameMemoryKey(w: World, key: Option<SymKey>)
    requires MemoryInv(w)
    ensures MemoryInv(World(w.s.(cacheKey := key), w.log))
  {
    SameMemory(w, World(w.s.(cacheKey := key), w.log));
  }

  lemma {:induction false} UnlockPinMemory(w: World, pin: Pin, admitted: bool, salt: Salt, migrated: bool, restored: bool, answer: SyncAnswer, saved: bool)
    requires MemoryInv(w) && SaneAnswer(answer)
    ensures MemoryInv(StepUnlockPin(w, pin, admitted, salt, migrated, restored, answer, saved))
  {
    hide Load, UnlockWith, TrustedLog, Backed, DistinctIds, KeystoreInv;
    if w.s.locked && w.s.cache.Some? && OpenWithPin(w.s.cache.value, pin).Some? {
      var (data, key) := OpenWithPin(w.s.cache.value, pin).value;
      var m := World(w.s.(cache := Some(MigrateCache(w.s.cache.value, key, pin, salt))), w.log);
      SameMemory(w, m);
      UnlockWithMemory(w, data, key, restored, answer, saved);
      UnlockWithMemory(m, data, key, restored, answer, saved);
    }
  }

  lemma {:induction false} UnlockPasswordMemory(w: World, login: Option<seq<KeyTuple>>, stored: bool, answer: SyncAnswer, saved: bool)
    requires MemoryInv(w) && SaneAnswer(answer) && (login.Some? ==> DistinctIds(login.value))
    ensures MemoryInv(StepUnlockPassword(w, login, stored, answer, saved))
  {
    hide Load, Resolve, LastApproved, Backed, TrustedLog, Reconcile, PayloadOk, Fingerprints, DistinctIds;
    if login.Some? {
      var keys := login.value;
      var r := Reconcile(w, keys, stored);
      ReconcileTrust(w, keys, stored);
      var u := World(WithKeys(r.s, keys).(locked := false, client := LoggedIn, sessionFile := true), r.log);
      forall a <- u.s.memory ensures Backed(u.s, u.log, a) {
        ReloadKeepsBacked(w, keys, stored, a);
        BackedState(WithKeys(r.s, keys), u.s, r.log, a);
      }
      ResolveMemory(u, answer, saved);
    }
  }

  lemma {:induction false} BackedState(s: State, s': State, log: seq<Event>, a: Approval)
    requires Backed(s, log, a) && s'.fingerprints == s.fingerprints && s'.keystore == s.keystore
    ensures Backed(s', log, a)
  {
  }

  lemma {:induction false} LockMemory(w: World)
    requires MemoryInv(w)
    ensures MemoryInv(LockVault(w)) && MemoryInv(StepForget(w))
  {
    hide LastApproved, TrustedLog, Backed, Load;
    ApprovalsSnoc(w.log, LockedNow);
    ApprovalsSnoc(w.log, Forgot);
  }

  lemma {:induction false} SetPinMemory(w: World, pin: Pin, freshKey: SymKey, salt: Salt, native: bool, written: bool)
    requires MemoryInv(w)
    ensures MemoryInv(StepSetPin(w, pin, freshKey, salt, native, written))
  {
    hide LastApproved, TrustedLog, Backed, Load, KeystoreInv;
    var w' := StepSetPin(w, pin, freshKey, salt, native, written);
    var p, q := PinSet(pin), Sealing(w.s.cached);
    ApprovalsSnoc(w.log, p);
    ApprovalsSnoc(w.log + [p], q);
    assert w.log + [p, q] == (w.log + [p]) + [q];
    assert KeystoreInv(w'.s) by { SameKeystore(w.s, w'.s); }
    forall a <- w'.s.memory ensures Backed(w'.s, w'.log, a) {
      BackedState(w.s, w'.s, w.log, a);
      BackedFrame(w'.s, w.log, w'.log, a);
    }
  }

  lemma {:induction false} SameKeystore(s: State, s': State)
    requires KeystoreInv(s) && s'.locked == s.locked && s'.keystore == s.keystore && s'.cached == s.cached
    ensures KeystoreInv(s')
  {
  }

  lemma {:induction false} SignMemory(w: World, c: Config, pk: PublicKey, op: OperationKind, forwarding: bool, platform: Option<SymKey>, dialog: Option<Pin>, approves: bool)
    requires MemoryInv(w) && !Misremembers(w, c, SignRequest(pk, op, forwarding, platform, dialog, approves))
    ensures MemoryInv(StepSign(w, c, pk, op, forwarding, platform, dialog, approves))
  {
    hide SignLocked, SignUnlocked, MemoryInv, Disagrees;
    if pk in w.s.keystore {
      if w.s.locked {
        SignLockedMemory(w, c, w.s.keystore[pk].id, op, forwarding, platform, dialog, approves);
      } else {
        SignUnlockedMemory(w, c, pk, op, forwarding, approves);
      }
    }
  }

  lemma {:induction false} SignLockedMemory(w: World, c: Config, id: string, op: OperationKind, forwarding: bool, platform: Option<SymKey>, dialog: Option<Pin>, approves: bool)
    requires MemoryInv(w) && w.s.locked
    ensures MemoryInv(SignLocked(w, c, id, op, forwarding, platform, dialog, approves))
  {
    hide LastApproved, TrustedLog, Backed, SignLocked, Load;
    var w' := SignLocked(w, c, id, op, forwarding, platform, dialog, approves);
    var e := SignLockedAnswers(w, c, id, op, forwarding, platform, dialog, approves);
    ApprovalsSnoc(w.log, e);
    SignLockedState(w, c, id, op, forwarding, platform, dialog, approves);
  }

  lemma {:induction false} SignLockedState(w: World, c: Config, id: string, op: OperationKind, forwarding: bool, platform: Option<SymKey>, dialog: Option<Pin>, approves: bool)
    requires KeystoreInv(w.s) && DistinctIds(w.s.cached) && PayloadOk(w.s.cache) && w.s.locked
    ensures var s' := SignLocked(w, c, id, op, forwarding, platform, dialog, approves).s;
      KeystoreInv(s') && DistinctIds(s'.cached) && s'.cache == w.s.cache
  {
    hide Load, DistinctIds, PayloadOk, OpenNative, OpenDialog, Answer, KeystoreInv;
    OpenedDistinct(w.s, platform, dialog);
    var _ := AnswerEvent(w, id, op, None, forwarding, Refused);
    if c.autoUnlock {
      var native := OpenNative(w.s, platform);
      var unsealed := if native.Some? && native.value.0.KeyList? then native else OpenDialog(w.s, dialog);
      if unsealed.Some? && unsealed.value.0.KeyList? {
        var keys := unsealed.value.0.keys;
        var s := WithKeys(w.s.(cached := keys), keys).(cacheKey := Some(unsealed.value.1), locked := false);
        JustLoaded(s);
        var _ := AnswerEvent(World(s, w.log), id, op, None, forwarding, Considered(c.prompt, false, approves));
      }
    }
  }

  lemma {:induction false} JustLoaded(s: State)
    requires !s.locked && s.keystore == Load(s.cached)
    ensures KeystoreInv(s)
  {
  }

  lemma {:induction false} OpenedDistinct(s: State, platform: Option<SymKey>, dialog: Option<Pin>)
    requires PayloadOk(s.cache)
    ensures var d := OpenNative(s, platform); d.Some? && d.value.0.KeyList? ==> DistinctIds(d.value.0.keys)
    ensures var d := OpenDialog(s, dialog); d.Some? && d.value.0.KeyList? ==> DistinctIds(d.value.0.keys)
  {
    hide DistinctIds;
  }

  lemma {:induction false} SignUnlockedMemory(w: World, c: Config, pk: PublicKey, op: OperationKind, forwarding: bool, approves: bool)
    requires MemoryInv(w) && !w.s.locked && pk in w.s.keystore
    requires approves && !forwarding && c.prompt.RememberUntilLock? ==> !Disagrees(w.s, w.s.keystore[pk])
    ensures MemoryInv(SignUnlocked(w, c, w.s.keystore[pk], op, forwarding, approves))
  {
    hide LastApproved, TrustedLog, Backed, Load;
    var entry := w.s.keystore[pk];
    var w' := SignUnlocked(w, c, entry, op, forwarding, approves);
    var e := SignUnlockedAnswers(w, c, entry, op, forwarding, approves);
    SameMaterial(w.s.cached, pk);
    ApprovalsSnoc(w.log, e);
    if e.source.ByMemory? {
      BackedEntry(w.s, w.log, pk, op);
    }
    SameKeystore(w.s, w'.s);
    forall a <- w'.s.memory ensures Backed(w'.s, w'.log, a) {
      if a in w.s.memory {
        if IsApproval(e, a.0, a.1) {
          BackedEntry(w.s, w.log, pk, op);
        }
        BackedState(w.s, w'.s, w.log, a);
        BackedFrame(w'.s, w.log, w'.log, a);
      } else {
        NewlyBacked(w'.s, w'.log, pk, a);
      }
    }
  }

  lemma {:induction false} BackedEntry(s: State, log: seq<Event>, pk: PublicKey, op: OperationKind)
    requires pk in s.keystore && Backed(s, log, (s.keystore[pk].id, op))
    ensures LastApproved(log, s.keystore[pk].id, op) == s.keystore[pk].secret && s.keystore[pk].secret.Some?
  {
  }

  lemma {:induction false} NewlyBacked(s: State, log: seq<Event>, pk: PublicKey, a: Approval)
    requires pk in s.keystore && s.keystore[pk].id == a.0 && s.keystore[pk].secret.Some?
    requires LastApproved(log, a.0, a.1) == s.keystore[pk].secret
    requires !Disagrees(s, s.keystore[pk]) && OnlyMaterial(s.keystore, a.0, s.keystore[pk].secret.value)
    ensures Backed(s, log, a)
  {
  }

  lemma {:induction false} HubMemory(w: World, answer: SyncAnswer, saved: bool)
    requires MemoryInv(w) && SaneAnswer(answer)
    ensures MemoryInv(StepHubNotice(w, answer, saved))
  {
    hide LastApproved, TrustedLog, Backed, Load, DoSync, DistinctIds, PayloadOk, KeystoreInv;
    ApprovalsSnoc(w.log, Notice);
    var n := World(w.s, w.log + [Notice]);
    forall a <- n.s.memory ensures Backed(n.s, n.log, a) {
      BackedFrame(w.s, w.log, n.log, a);
    }
    assert MemoryInv(n);
    DoSyncMemory(n, answer, saved);
    SameMemory(n, World(n.s.(pending := true), n.log));
  }

  lemma {:induction false} StepKeepsMemory(w: World, c: Config, a: Action)
    requires MemoryInv(w) && Sane(w, c, a)
    ensures MemoryInv(Step(w, c, a))
  {
    hide StepUnlock, StepUnlockPin, StepUnlockPassword, StepSetPin, StepSign, StepHubNotice, StepForget, LockVault, DoSync, Resolve, MemoryInv, Disagrees;
    match a
    case Unlock(platform, dialog, restored, answer, saved) => UnlockMemory(w, c, platform, dialog, restored, answer, saved);
    case UnlockNative(platform, answer, saved) =>
      UnlockMemory(w, c.(autoUnlock := false, windows := false), platform, None, false, answer, saved);
    case UnlockHello(platform, restored, answer, saved) =>
      UnlockMemory(w, c.(autoUnlock := false), platform, None, restored, answer, saved);
    case UnlockPin(pin, admitted, salt, migrated, restored, answer, saved) =>
      UnlockPinMemory(w, pin, admitted, salt, migrated, restored, answer, saved);
    case UnlockPassword(login, stored, answer, saved) => UnlockPasswordMemory(w, login, stored, answer, saved);
    case Sync(answer, saved) =>
      DoSyncMemory(w, answer, saved);
      FreeFields(DoSync(w, answer, saved), NoClient, true);
    case SetPin(pin, freshKey, salt, native, written) => SetPinMemory(w, pin, freshKey, salt, native, written);
    case HubNotice(answer, saved) => HubMemory(w, answer, saved);
    case SignRequest(pk, op, forwarding, platform, dialog, approves) =>
      SignMemory(w, c, pk, op, forwarding, platform, dialog, approves);
    case AutoUnlocked(restored, answer, saved) =>
      FreeFields(w, Restore(w.s, restored), true);
      ResolveMemory(World(w.s.(client := Restore(w.s, restored)), w.log), answer, saved);
    case ListRequest => FreeFields(w, NoClient, false);
    case _ => LockMemory(w);
  }

  lemma {:induction false} FreeFields(w: World, client: Client, needsUnlock: bool)
    requires MemoryInv(w)
    ensures MemoryInv(World(w.s.(pending := true), w.log))
    ensures MemoryInv(World(w.s.(client := client), w.log))
    ensures MemoryInv(World(w.s.(needsUnlock := needsUnlock), w.log))
  {
    SameMemory(w, World(w.s.(pending := true), w.log));
    SameMemory(w, World(w.s.(client := client), w.log));
    SameMemory(w, World(w.s.(needsUnlock := needsUnlock), w.log));
  }

  ghost predicate SaneRun(w: World, c: Config, actions: seq<Action>) {
    actions == [] ||
    (SaneRun(w, c, actions[..|actions| - 1]) && Sane(Run(w, c, actions[..|actions| - 1]), c, actions[|actions| - 1]))
  }

  lemma {:induction false} RunKeepsMemory(w: World, c: Config, actions: seq<Action>)
    requires MemoryInv(w) && SaneRun(w, c, actions)
    ensures MemoryInv(Run(w, c, actions))
    decreases |actions|
  {
    if actions != [] {
      hide Step, MemoryInv, Sane;
      RunKeepsMemory(w, c, actions[..|actions| - 1]);
      StepKeepsMemory(Run(w, c, actions[..|actions| - 1]), c, actions[|actions| - 1]);
    }
  }

  /**
   Over every sane run, each approval given from memory is for key material
   that the user approved for that item and operation, with no lock in between.
   */
  lemma {:induction false} MemoryApprovesWhatTheUserApproved(w: World, c: Config, actions: seq<Action>, j: nat)
    requires MemoryInv(w) && SaneRun(w, c, actions)
    requires var log := Run(w, c, actions).log; j < |log| && log[j].Answered? && log[j].source.ByMemory?
    ensures var log := Run(w, c, actions).log;
      exists i :: 0 <= i < j && IsApproval(log[i], log[j].id, log[j].op) && log[i].pem == log[j].pem
        && forall k :: i < k < j ==> !log[k].LockedNow? && !log[k].Forgot?
  {
    hide Run, SaneRun, LastApproved, TrustedLog, IsApproval;
    RunKeepsMemory(w, c, actions);
    var log := Run(w, c, actions).log;
    TrustedAt(log, j);
    LastApprovedMeaning(log[..j], log[j].id, log[j].op);
  }

  lemma {:induction false} StartsTrusted(cache: CacheFile, pin: Pin, keys: seq<KeyTuple>, client: Client)
    requires DistinctIds(keys) && PayloadOk(Some(cache))
    ensures MemoryInv(StartRemembered(cache, pin, keys))
    ensures MemoryInv(StartFresh(keys, client))
  {
    StartsKeepKeystore(cache, pin, keys, client);
    ApprovalsSnoc([], PinSet(pin));
    ApprovalsSnoc([PinSet(pin)], Sealing(keys));
    assert [PinSet(pin), Sealing(keys)] == ([] + [PinSet(pin)]) + [Sealing(keys)];
  }

  // --- Forwarding ---------------------------------------------------------

  ghost predicate AllConsented(log: seq<Event>) {
    forall e <- log :: Consented(e)
  }

  lemma {:induction false} ConsentSnoc(log: seq<Event>, e: Event)
    requires AllConsented(log) && Consented(e)
    ensures AllConsented(log + [e])
  {
  }

  lemma {:induction false} StepConsent(w: World, c: Config, a: Action)
    requires AllConsented(w.log)
    ensures AllConsented(Step(w, c, a).log)
  {
    hide StepSign;
    if a.SignRequest? {
      var e := SignAnswersOnce(w, c, a.pk, a.op, a.forwarding, a.platform, a.dialog, a.approves);
      if a.pk in w.s.keystore {
        ConsentSnoc(w.log, e);
      }
    } else {
      StepAdds(w, c, a);
      hide Step;
    }
  }

  /** Over every run, a forwarded request is approved only by the user's own approval. */
  lemma {:induction false} ForwardingNeedsTheUser(w: World, c: Config, actions: seq<Action>)
    requires AllConsented(w.log)
    ensures AllConsented(Run(w, c, actions).log)
    decreases |actions|
  {
    if actions != [] {
      hide Step, AllConsented;
      ForwardingNeedsTheUser(w, c, actions[..|actions| - 1]);
      StepConsent(Run(w, c, actions[..|actions| - 1]), c, actions[|actions| - 1]);
    }
  }
}
