/**
 Exactly when authorization memory can be trusted, and the run in which it
 cannot: a login over an older cache, an unlock from that cache, an approval.
 */
module StaleApprovals {
  import opened Text
  import opened Keys
  import opened SshSig
  import opened SignRules
  import opened Vault
  import opened ApprovalRuns

  // --- Exactly when memory can be trusted ---------------------------------

  /** Nothing that may still happen makes memory answer for material the user did not approve. */
  ghost predicate TrustedFuture(w: World, c: Config) {
    forall actions | SaneRun(w, c, actions) :: TrustedLog(Run(w, c, actions).log)
  }

  /**
   The exact condition, for every action in every state a sane run reaches:
   memory stays trustworthy after it if and only if it does not remember an
   approval of an entry whose tracked material is another key.
   */
  lemma {:induction false} TrustedExactly(w: World, c: Config, a: Action)
    requires MemoryInv(w) && SaneInput(a)
    ensures TrustedFuture(Step(w, c, a), c) <==> !Misremembers(w, c, a)
  {
    hide Step, MemoryInv, SaneRun, Run;
    if Misremembers(w, c, a) {
      var actions := Misremembered(w, c, a);
    } else {
      StepKeepsMemory(w, c, a);
      forall actions | SaneRun(Step(w, c, a), c, actions)
        ensures TrustedLog(Run(Step(w, c, a), c, actions).log)
      {
        RunKeepsMemory(Step(w, c, a), c, actions);
        InvTrusts(Run(Step(w, c, a), c, actions));
      }
    }
  }

  lemma {:induction false} InvTrusts(w: World)
    requires MemoryInv(w)
    ensures TrustedLog(w.log)
  {
  }

  /** The one key of a list. */
  lemma {:induction false} OneKey(k: KeyTuple)
    requires k.pem.OpenSsh?
    ensures Load([k]) == map[k.pem.pub := Entry(Some(k.pem), k.name, k.id)]
    ensures Fingerprints([k]) == map[k.id := Fingerprint(k.pem)]
    ensures DistinctIds([k])
  {
    assert [k][..0] == [];
  }

  /** The user approves an entry that was not remembered: it is now. */
  lemma {:induction false} ApprovalRemembered(w: World, c: Config, pk: PublicKey, op: OperationKind, platform: Option<SymKey>, dialog: Option<Pin>)
    requires !w.s.locked && c.prompt.RememberUntilLock? && pk in w.s.keystore && w.s.keystore[pk].secret.Some?
    requires (w.s.keystore[pk].id, op) !in w.s.memory
    ensures var entry := w.s.keystore[pk];
      var w1 := Step(w, c, SignRequest(pk, op, false, platform, dialog, true));
      && w1.s == w.s.(memory := w.s.memory + {(entry.id, op)})
      && w1.log == w.log + [Answered(entry.id, op, entry.secret, false, true, ByUser)]
      && LastApproved(w1.log, entry.id, op) == entry.secret
  {
    ApprovalsSnoc(w.log, Answered(w.s.keystore[pk].id, op, w.s.keystore[pk].secret, false, true, ByUser));
  }

  /** A remembered item is answered from memory, and that breaks trust if the user approved other material. */
  lemma {:induction false} AnsweredFromMemory(w: World, c: Config, pk: PublicKey, op: OperationKind)
    requires !w.s.locked && c.prompt.RememberUntilLock? && pk in w.s.keystore
    requires (w.s.keystore[pk].id, op) in w.s.memory
    ensures var entry := w.s.keystore[pk];
      var w1 := Step(w, c, SignRequest(pk, op, false, None, None, false));
      && w1 == World(w.s, w.log + [Answered(entry.id, op, entry.secret, false, true, ByMemory)])
      && (LastApproved(w.log, entry.id, op) != entry.secret ==> !TrustedLog(w1.log))
  {
    ApprovalsSnoc(w.log, Answered(w.s.keystore[pk].id, op, w.s.keystore[pk].secret, false, true, ByMemory));
  }

  /** A login that brings one key, with the agreed fingerprint kept. */
  lemma {:induction false} LoginBrings(w: World, k: KeyTuple, a: Approval)
    requires k.pem.OpenSsh? && a.0 == k.id && a in w.s.memory && At(w.s.fingerprints, k.id) == Some(Fingerprint(k.pem))
    ensures var w1 := StepUnlockPassword(w, Some([k]), false, SyncFailed, false);
      && w1.log == w.log && !w1.s.locked && a in w1.s.memory
      && w1.s.keystore == map[k.pem.pub := Entry(Some(k.pem), k.name, k.id)]
  {
    OneKey(k);
    SurvivesExactly(w.s.memory, w.s.fingerprints, Fingerprints([k]), a);
    hide Load, Fingerprints, StillApproved;
  }

  /** What goes wrong after a misremembered approval: the tracked key is fetched, and memory answers for it. */
  lemma {:induction false} Misremembered(w: World, c: Config, a: Action) returns (actions: seq<Action>)
    requires MemoryInv(w) && Misremembers(w, c, a)
    ensures SaneRun(Step(w, c, a), c, actions) && !TrustedLog(Run(Step(w, c, a), c, actions).log)
  {
    var entry, op := w.s.keystore[a.pk], a.op;
    var id, other := entry.id, w.s.fingerprints[entry.id].pem;
    NotYetRemembered(w, a.pk, op);
    ApprovalRemembered(w, c, a.pk, op, a.platform, a.dialog);
    var k := KeyTuple(other, "", id);
    var login, sign := UnlockPassword(Some([k]), false, SyncFailed, false), SignRequest(other.pub, op, false, None, None, false);
    var w1 := Step(w, c, a);
    LoginBrings(w1, k, (id, op));
    var w2 := Step(w1, c, login);
    AnsweredFromMemory(w2, c, other.pub, op);
    OneKey(k);
    actions := [login, sign];
    RunOfTwo(w1, c, login, sign);
  }

  lemma {:induction false} NotYetRemembered(w: World, pk: PublicKey, op: OperationKind)
    requires MemoryInv(w) && pk in w.s.keystore && Disagrees(w.s, w.s.keystore[pk])
    ensures (w.s.keystore[pk].id, op) !in w.s.memory
  {
    hide LastApproved, TrustedLog, DistinctIds, PayloadOk;
    assert !Backed(w.s, w.log, (w.s.keystore[pk].id, op));
  }

  lemma {:induction false} RunOfTwo(w: World, c: Config, a: Action, b: Action)
    ensures Run(w, c, [a, b]) == Step(Step(w, c, a), c, b)
    ensures SaneRun(w, c, [a, b]) <==> Sane(w, c, a) && Sane(Step(w, c, a), c, b)
  {
    hide Step, Sane;
    assert [a, b][..1] == [a] && [a][..0] == [];
    assert Run(w, c, [a]) == Step(w, c, a);
    assert SaneRun(w, c, [a]) <==> Sane(w, c, a);
  }

  // --- How it comes about -------------------------------------------------

  /**
   A master-password login on a remembered device tracks a rotated key but,
   holding no Local Cache Key, leaves the older cache as it is; lock, and the
   PIN unlocks to the old key.
   */
  lemma {:induction false} StaleUnlock(cache: CacheFile, pin: Pin, k: KeyTuple, other: Pem, c: Config, stored: bool, restored: bool)
    requires Opens(cache, pin, [k]) && !NeedsMigration(cache)
    requires k.pem.OpenSsh? && other.OpenSsh? && other != k.pem
    ensures var w1 := Step(StartRemembered(cache, pin, [k]), c, Login([KeyTuple(other, k.name, k.id)], stored));
      var w2 := Step(w1, c, Lock);
      var w3 := Step(w2, c, PinUnlock(pin, restored));
      && !w3.s.locked && w3.s.client.LoggedIn? && w3.s.memory == {}
      && w3.s.keystore == map[k.pem.pub := Entry(Some(k.pem), k.name, k.id)]
      && w3.s.fingerprints == map[k.id := Fingerprint(other)] && Disagrees(w3.s, w3.s.keystore[k.pem.pub])
      && w3.log == [PinSet(pin), Sealing([k]), LockedNow]
  {
    var w0 := StartRemembered(cache, pin, [k]);
    var rotated := KeyTuple(other, k.name, k.id);
    OneKey(k);
    OneKey(rotated);
    hide Load, Fingerprints, StepUnlockPassword, StepUnlockPin;
    LoginOverCache(w0, [rotated], stored);
    var w1 := Step(w0, c, Login([rotated], stored));
    var w2 := Step(w1, c, Lock);
    PlainPinUnlock(w2, pin, [k], restored);
  }

  /** A login that fetches these keys; nothing was pending to sync. */
  function Login(keys: seq<KeyTuple>, stored: bool): Action {
    UnlockPassword(Some(keys), stored, SyncFailed, false)
  }

  /** `unlock --pin` with a PIN that is let through to validation. */
  function PinUnlock(pin: Pin, restored: bool): Action {
    UnlockPin(pin, true, 0, false, restored, SyncFailed, false)
  }

  lemma {:induction false} LoginOverCache(w: World, keys: seq<KeyTuple>, stored: bool)
    requires w.s.cacheKey.None? && w.s.memory == {} && !w.s.pending
    ensures StepUnlockPassword(w, Some(keys), stored, SyncFailed, false)
         == World(w.s.(cached := keys, fingerprints := Fingerprints(keys), keystore := Load(keys), needsUnlock := true,
                       locked := false, client := LoggedIn, sessionFile := true), w.log)
  {
    hide Load, Fingerprints;
    assert StillApproved({}, w.s.fingerprints, Fingerprints(keys)) == {};
  }

  lemma {:induction false} PlainPinUnlock(w: World, pin: Pin, keys: seq<KeyTuple>, restored: bool)
    requires w.s.locked && w.s.cache.Some? && Opens(w.s.cache.value, pin, keys) && !NeedsMigration(w.s.cache.value)
    requires w.s.client.LoggedIn?
    ensures StepUnlockPin(w, pin, true, 0, false, restored, SyncFailed, false)
         == World(w.s.(cacheKey := Some(w.s.cache.value.payload.key), cached := keys, keystore := Load(keys),
                       needsUnlock := true, locked := false), w.log)
  {
    hide Load;
    PinOpens(w.s.cache.value, pin, keys, pin);
  }

  /** A hub notice that fetches one key whose fingerprint was already tracked. */
  lemma {:induction false} NoticeBrings(w: World, k: KeyTuple, a: Approval, saved: bool)
    requires !w.s.locked && w.s.client.LoggedIn? && k.pem.OpenSsh?
    requires a.0 == k.id && a in w.s.memory && At(w.s.fingerprints, k.id) == Some(Fingerprint(k.pem))
    ensures var w1 := StepHubNotice(w, SyncOk([k]), saved);
      && !w1.s.locked && a in w1.s.memory && w1.s.keystore == map[k.pem.pub := Entry(Some(k.pem), k.name, k.id)]
      && LastApproved(w1.log, a.0, a.1) == LastApproved(w.log, a.0, a.1)
      && (!saved ==> w1.log == w.log + [Notice] + [SyncDone])
  {
    OneKey(k);
    SurvivesExactly(w.s.memory, w.s.fingerprints, Fingerprints([k]), a);
    hide Load, Fingerprints, StillApproved, LastApproved, TrustedLog;
    var log := w.log + [Notice];
    ApprovalsSnoc(w.log, Notice);
    ApprovalsSnoc(log, Sealing([k]));
    ApprovalsSnoc(log, SyncDone);
    ApprovalsSnoc(log + [Sealing([k])], SyncDone);
  }

  /**
   Approve an entry whose tracked fingerprint is another key's, let a sync
   bring that key, and memory answers for it although the user's last approval
   was of the old one.
   */
  lemma {:induction false} DisagreementIsRemembered(w: World, c: Config, pk: PublicKey, op: OperationKind, name: string, saved: bool)
    requires !w.s.locked && w.s.client.LoggedIn? && c.prompt.RememberUntilLock?
    requires pk in w.s.keystore && Disagrees(w.s, w.s.keystore[pk]) && (w.s.keystore[pk].id, op) !in w.s.memory
    ensures var id := w.s.keystore[pk].id;
      var other := w.s.fingerprints[id].pem;
      var w1 := Step(w, c, SignRequest(pk, op, false, None, None, true));
      var w2 := Step(w1, c, HubNotice(SyncOk([KeyTuple(other, name, id)]), saved));
      var w3 := Step(w2, c, SignRequest(other.pub, op, false, None, None, false));
      && LastApproved(w2.log, id, op) == w.s.keystore[pk].secret != Some(other)
      && w3.log == w2.log + [Answered(id, op, Some(other), false, true, ByMemory)]
      && !TrustedLog(w3.log)
  {
    var id := w.s.keystore[pk].id;
    var other := w.s.fingerprints[id].pem;
    ApprovalRemembered(w, c, pk, op, None, None);
    var w1 := Step(w, c, SignRequest(pk, op, false, None, None, true));
    NoticeBrings(w1, KeyTuple(other, name, id), (id, op), saved);
    AnsweredFromMemory(StepHubNotice(w1, SyncOk([KeyTuple(other, name, id)]), saved), c, other.pub, op);
  }

  /** The last three steps of the failure, from any vault that holds `k` and tracks `other` in its place. */
  lemma {:induction false} LateApproval(w: World, c: Config, k: KeyTuple, other: Pem, op: OperationKind)
    requires !w.s.locked && w.s.client.LoggedIn? && c.prompt.RememberUntilLock? && w.s.memory == {}
    requires k.pem.OpenSsh? && other.OpenSsh? && other != k.pem
    requires w.s.keystore == map[k.pem.pub := Entry(Some(k.pem), k.name, k.id)]
    requires w.s.fingerprints == map[k.id := Fingerprint(other)]
    ensures var rotated := KeyTuple(other, k.name, k.id);
      var w1 := Step(w, c, SignRequest(k.pem.pub, op, false, None, None, true));
      var w2 := Step(w1, c, HubNotice(SyncOk([rotated]), false));
      var end := Step(w2, c, SignRequest(other.pub, op, false, None, None, false));
      && end.log == w.log + [Answered(k.id, op, Some(k.pem), false, true, ByUser)] + [Notice] + [SyncDone]
                    + [Answered(k.id, op, Some(other), false, true, ByMemory)]
      && !TrustedLog(end.log)
  {
    hide LastApproved, TrustedLog, StepSign, StepHubNotice;
    DisagreementIsRemembered(w, c, k.pem.pub, op, k.name, false);
    ApprovalRemembered(w, c, k.pem.pub, op, None, None);
    var w1 := Step(w, c, SignRequest(k.pem.pub, op, false, None, None, true));
    NoticeBrings(w1, KeyTuple(other, k.name, k.id), (k.id, op), false);
  }

  /**
   The whole failure from a remembered device's start: log in after the key was
   rotated, lock, unlock with the PIN, approve, a notice, and a request for the
   rotated key. The log is all there is: the user was never asked about that
   key, and memory approves it.
   */
  lemma {:induction false} StaleApproval(cache: CacheFile, pin: Pin, k: KeyTuple, other: Pem, c: Config, op: OperationKind, stored: bool, restored: bool)
    requires Opens(cache, pin, [k]) && !NeedsMigration(cache) && c.prompt.RememberUntilLock?
    requires k.pem.OpenSsh? && other.OpenSsh? && other != k.pem
    ensures var rotated := [KeyTuple(other, k.name, k.id)];
      var start := StartRemembered(cache, pin, [k]);
      var w3 := Step(Step(Step(start, c, Login(rotated, stored)), c, Lock), c, PinUnlock(pin, restored));
      var w5 := Step(Step(w3, c, SignRequest(k.pem.pub, op, false, None, None, true)), c, HubNotice(SyncOk(rotated), false));
      var end := Step(w5, c, SignRequest(other.pub, op, false, None, None, false));
      && end.log == [PinSet(pin), Sealing([k]), LockedNow,
                     Answered(k.id, op, Some(k.pem), false, true, ByUser), Notice, SyncDone,
                     Answered(k.id, op, Some(other), false, true, ByMemory)]
      && (forall e <- end.log :: IsApproval(e, k.id, op) ==> e.pem != Some(other))
      && !TrustedLog(end.log)
  {
    StaleUnlock(cache, pin, k, other, c, stored, restored);
    hide Step, TrustedLog;
    var rotated := [KeyTuple(other, k.name, k.id)];
    var w3 := Step(Step(Step(StartRemembered(cache, pin, [k]), c, Login(rotated, stored)), c, Lock), c, PinUnlock(pin, restored));
    LateApproval(w3, c, k, other, op);
  }
}
