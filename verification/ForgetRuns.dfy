/** What Forget destroys, and that nothing but a login brings it back. */
module ForgetRuns {
  import opened Text
  import opened Keys
  import opened Vault
  import opened EventRuns
  import SyncRuns

  /** Locked, with nothing to unlock from, nothing to list and nothing remembered. */
  predicate Empty(s: State) {
    && s.locked && s.keystore == map[] && s.cached == [] && s.memory == {}
    && s.cache == None && s.cacheKey == None && s.client == NoClient && !s.sessionFile
  }

  /** `forget` leaves an empty vault with no sync pending, whatever it was before. */
  lemma {:induction false} ForgetExactly(w: World, c: Config)
    ensures var s' := Step(w, c, Forget).s;
      Empty(s') && !s'.pending && s'.needsUnlock && s'.fingerprints == w.s.fingerprints
  {
  }

  lemma {:induction false} NothingToOpen(w: World, c: Config, platform: Option<SymKey>, dialog: Option<Pin>, restored: bool, answer: SyncAnswer, saved: bool)
    requires Empty(w.s)
    ensures StepUnlock(w, c, platform, dialog, restored, answer, saved) == w
  {
  }

  lemma {:induction false} StepStaysEmpty(w: World, c: Config, a: Action)
    requires Empty(w.s) && !SyncRuns.LogsIn(a)
    ensures Empty(Step(w, c, a).s) && Adds(w.log, Step(w, c, a).log)
  {
    hide StepUnlock, Adds;
    if a.SignRequest? {
      AddsOne(w.log, Notice);
    } else {
      StepAdds(w, c, a);
    }
    match a
    case Unlock(platform, dialog, restored, answer, saved) =>
      NothingToOpen(w, c, platform, dialog, restored, answer, saved);
    case UnlockNative(platform, answer, saved) =>
      NothingToOpen(w, c.(autoUnlock := false, windows := false), platform, None, false, answer, saved);
    case UnlockHello(platform, restored, answer, saved) =>
      NothingToOpen(w, c.(autoUnlock := false), platform, None, restored, answer, saved);
    case _ =>
  }

  /**
   After a Forget, whatever happens short of a master-password login: no PIN,
   dialog or platform key opens the vault, it lists nothing, and every sign
   request goes unanswered.
   */
  lemma {:induction false} NothingComesBack(w: World, c: Config, actions: seq<Action>)
    requires forall a <- actions :: !SyncRuns.LogsIn(a)
    ensures var forgotten := Step(w, c, Forget);
      var end := Run(forgotten, c, actions);
      Empty(end.s) && Listed(end.s.keystore) == map[] && Adds(forgotten.log, end.log)
    decreases |actions|
  {
    var forgotten := Step(w, c, Forget);
    ForgetExactly(w, c);
    if actions == [] {
      AddsOne(forgotten.log, Notice);
    } else {
      hide Step;
      var before := Run(forgotten, c, actions[..|actions| - 1]);
      NothingComesBack(w, c, actions[..|actions| - 1]);
      StepStaysEmpty(before, c, actions[|actions| - 1]);
      AddsTrans(forgotten.log, before.log, Step(before, c, actions[|actions| - 1]).log);
    }
  }
}
