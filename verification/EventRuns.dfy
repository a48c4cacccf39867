/** What each action may add to the log: only sign requests are answered. */
module EventRuns {
  import opened Text
  import opened Keys
  import opened Vault

  /** `b` goes on from `a`, without an answer among the new events. */
  ghost predicate Adds(a: seq<Event>, b: seq<Event>) {
    a <= b && forall k :: |a| <= k < |b| ==> !b[k].Answered?
  }

  lemma {:induction false} AddsTrans(a: seq<Event>, b: seq<Event>, c: seq<Event>)
    requires Adds(a, b) && Adds(b, c)
    ensures Adds(a, c)
  {
  }

  lemma {:induction false} AddsOne(log: seq<Event>, e: Event)
    requires !e.Answered?
    ensures Adds(log, log + [e]) && Adds(log, log)
  {
  }

  lemma {:induction false} ReconcileAdds(w: World, keys: seq<KeyTuple>, saved: bool)
    ensures Adds(w.log, Reconcile(w, keys, saved).log)
  {
    hide Fingerprints, StillApproved, Adds;
    AddsOne(w.log, Sealing(keys));
  }

  lemma {:induction false} DoSyncAdds(w: World, answer: SyncAnswer, saved: bool)
    ensures Adds(w.log, DoSync(w, answer, saved).log)
  {
    hide Load, Reconcile, Adds;
    AddsOne(w.log, Notice);
    if SyncWorks(w.s, answer) {
      var r := Reconcile(w, answer.keys, saved);
      ReconcileAdds(w, answer.keys, saved);
      AddsOne(r.log, SyncDone);
      AddsTrans(w.log, r.log, r.log + [SyncDone]);
    }
  }

  lemma {:induction false} ResolveAdds(w: World, answer: SyncAnswer, saved: bool)
    ensures Adds(w.log, Resolve(w, answer, saved).log)
  {
    hide DoSync, Adds;
    AddsOne(w.log, Notice);
    DoSyncAdds(World(w.s.(pending := false), w.log), answer, saved);
  }

  lemma {:induction false} UnlockWithAdds(w: World, data: Payload, key: SymKey, restored: bool, answer: SyncAnswer, saved: bool)
    ensures Adds(w.log, UnlockWith(w, data, key, restored, answer, saved).log)
  {
    hide Resolve, Load, Adds;
    AddsOne(w.log, Notice);
    var held := FinishUnlock(World(w.s.(cacheKey := Some(key)), w.log), data);
    ResolveAdds(World(held.s.(client := Restore(held.s, restored)), held.log), answer, saved);
  }

  lemma {:induction false} UnlockAdds(w: World, c: Config, platform: Option<SymKey>, dialog: Option<Pin>, restored: bool, answer: SyncAnswer, saved: bool)
    ensures Adds(w.log, StepUnlock(w, c, platform, dialog, restored, answer, saved).log)
  {
    hide UnlockWith, OpenNative, OpenDialog, Adds;
    AddsOne(w.log, Notice);
    var native := OpenNative(w.s, platform);
    var w' := if native.Some? then World(w.s.(cacheKey := Some(native.value.1)), w.log) else w;
    if native.Some? {
      UnlockWithAdds(w, native.value.0, native.value.1, c.windows && restored, answer, saved);
    }
    var d := OpenDialog(w'.s, dialog);
    if d.Some? {
      UnlockWithAdds(w', d.value.0, d.value.1, restored, answer, saved);
    }
  }

  lemma {:induction false} UnlockPinAdds(w: World, pin: Pin, admitted: bool, salt: Salt, migrated: bool, restored: bool, answer: SyncAnswer, saved: bool)
    ensures Adds(w.log, StepUnlockPin(w, pin, admitted, salt, migrated, restored, answer, saved).log)
  {
    hide UnlockWith, OpenWithPin, Adds;
    AddsOne(w.log, Notice);
    if w.s.cache.Some? && OpenWithPin(w.s.cache.value, pin).Some? {
      var (data, key) := OpenWithPin(w.s.cache.value, pin).value;
      UnlockWithAdds(w, data, key, restored, answer, saved);
      UnlockWithAdds(World(w.s.(cache := Some(MigrateCache(w.s.cache.value, key, pin, salt))), w.log),
                     data, key, restored, answer, saved);
    }
  }

  lemma {:induction false} UnlockPasswordAdds(w: World, login: Option<seq<KeyTuple>>, stored: bool, answer: SyncAnswer, saved: bool)
    ensures Adds(w.log, StepUnlockPassword(w, login, stored, answer, saved).log)
  {
    hide Resolve, Load, Reconcile, Adds;
    AddsOne(w.log, Notice);
    if login.Some? {
      var r := Reconcile(w, login.value, stored);
      ReconcileAdds(w, login.value, stored);
      var u := World(WithKeys(r.s, login.value).(locked := false, client := LoggedIn, sessionFile := true), r.log);
      ResolveAdds(u, answer, saved);
      AddsTrans(w.log, r.log, Resolve(u, answer, saved).log);
    }
  }

  lemma {:induction false} SetPinAdds(w: World, pin: Pin, freshKey: SymKey, salt: Salt, native: bool, written: bool)
    ensures Adds(w.log, StepSetPin(w, pin, freshKey, salt, native, written).log)
  {
  }

  /** Every action but a sign request goes on from the log without an answer. */
  lemma {:induction false} StepAdds(w: World, c: Config, a: Action)
    requires !a.SignRequest?
    ensures Adds(w.log, Step(w, c, a).log)
  {
    hide StepUnlock, StepUnlockPin, StepUnlockPassword, StepSetPin, DoSync, Resolve, Adds;
    AddsOne(w.log, LockedNow);
    AddsOne(w.log, Forgot);
    AddsOne(w.log, Notice);
    match a
    case Unlock(platform, dialog, restored, answer, saved) => UnlockAdds(w, c, platform, dialog, restored, answer, saved);
    case UnlockNative(platform, answer, saved) =>
      UnlockAdds(w, c.(autoUnlock := false, windows := false), platform, None, false, answer, saved);
    case UnlockHello(platform, restored, answer, saved) =>
      UnlockAdds(w, c.(autoUnlock := false), platform, None, restored, answer, saved);
    case UnlockPin(pin, admitted, salt, migrated, restored, answer, saved) =>
      UnlockPinAdds(w, pin, admitted, salt, migrated, restored, answer, saved);
    case UnlockPassword(login, stored, answer, saved) => UnlockPasswordAdds(w, login, stored, answer, saved);
    case Sync(answer, saved) => DoSyncAdds(w, answer, saved);
    case SetPin(pin, freshKey, salt, native, written) => SetPinAdds(w, pin, freshKey, salt, native, written);
    case HubNotice(answer, saved) =>
      DoSyncAdds(World(w.s, w.log + [Notice]), answer, saved);
      AddsTrans(w.log, w.log + [Notice], DoSync(World(w.s, w.log + [Notice]), answer, saved).log);
    case AutoUnlocked(restored, answer, saved) =>
      ResolveAdds(World(w.s.(client := Restore(w.s, restored)), w.log), answer, saved);
    case _ =>
  }
}
