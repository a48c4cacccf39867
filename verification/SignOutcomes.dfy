/** Who decides a sign request: exactly what each request on an open vault leads to, and what the log of every run shows. */
module SignOutcomes {
  import opened Text
  import opened Keys
  import opened SshSig
  import opened SignRules
  import opened Vault
  import opened EventRuns

  /**
   A request for a loaded key on an open vault: a local one is answered yes from
   memory if remembering is on and it was remembered, yes without asking if the
   prompt is off, and in every other case as the user says. A local yes of the
   user's is remembered if remembering is on. Nothing else changes.
   */
  lemma {:induction false} OpenVaultAnswers(w: World, c: Config, pk: PublicKey, op: OperationKind, forwarding: bool, platform: Option<SymKey>, dialog: Option<Pin>, approves: bool)
    requires !w.s.locked && pk in w.s.keystore
    ensures var entry := w.s.keystore[pk];
      var w' := Step(w, c, SignRequest(pk, op, forwarding, platform, dialog, approves));
      var recalled := !forwarding && c.prompt == RememberUntilLock && (entry.id, op) in w.s.memory;
      var unasked := !forwarding && c.prompt == Never;
      && (recalled ==> w' == World(w.s, w.log + [Answered(entry.id, op, entry.secret, forwarding, true, ByMemory)]))
      && (unasked ==> w' == World(w.s, w.log + [Answered(entry.id, op, entry.secret, forwarding, true, ByPolicy)]))
      && (!recalled && !unasked ==>
          && w'.log == w.log + [Answered(entry.id, op, entry.secret, forwarding, approves, ByUser)]
          && w'.s == w.s.(memory := w'.s.memory)
          && forall a :: a in w'.s.memory <==>
               a in w.s.memory || (a == (entry.id, op) && approves && !forwarding && c.prompt == RememberUntilLock))
  {
  }

  /** A list request is always allowed and changes only that the agent stops asking for an unlock. */
  lemma {:induction false} ListExactly(w: World, c: Config)
    ensures var w' := Step(w, c, ListRequest);
      !w'.s.needsUnlock && w' == World(w.s.(needsUnlock := w'.s.needsUnlock), w.log)
  {
  }

  // --- Over every run -----------------------------------------------------

  /** The answer is one the configuration allows on that word. */
  predicate Allowed(c: Config, e: Event) {
    e.Answered? ==>
      && (e.source == ByPolicy ==> !e.forwarding && c.prompt == Never && e.verdict)
      && (e.source == ByMemory ==> !e.forwarding && c.prompt == RememberUntilLock && e.verdict)
      && (e.source == ByLock ==> !e.verdict)
      && (c.prompt == Never && !e.forwarding ==> e.source != ByUser)
  }

  ghost predicate AllAllowed(c: Config, log: seq<Event>) {
    forall e <- log :: Allowed(c, e)
  }

  lemma {:induction false} SignAllowed(w: World, c: Config, a: Action)
    requires a.SignRequest? && AllAllowed(c, w.log)
    ensures AllAllowed(c, Step(w, c, a).log)
  {
    hide Load, OpenNative, OpenDialog;
    if a.pk in w.s.keystore {
      var w' := Step(w, c, a);
      var e := w'.log[|w'.log| - 1];
      assert w'.log == w.log + [e];
      assert Allowed(c, e);
    }
  }

  /**
   In every run an answer on policy is a yes to a local request with the prompt
   off, one from memory a yes to a local request with remembering on, and one
   given while locked a no: under `Always`, and for every forwarded request, a
   yes is the user's.
   */
  lemma {:induction false} AnswersAreAllowed(w: World, c: Config, actions: seq<Action>)
    requires AllAllowed(c, w.log)
    ensures AllAllowed(c, Run(w, c, actions).log)
    ensures forall e <- Run(w, c, actions).log :: e.Answered? && e.verdict && (c.prompt == Always || e.forwarding) ==> e.source == ByUser
    decreases |actions|
  {
    if actions != [] {
      var before, a := Run(w, c, actions[..|actions| - 1]), actions[|actions| - 1];
      AnswersAreAllowed(w, c, actions[..|actions| - 1]);
      if a.SignRequest? {
        SignAllowed(before, c, a);
      } else {
        StepAdds(before, c, a);
      }
      hide Step;
    }
  }

  /** A daemon starts with no answers given. */
  lemma {:induction false} StartsAllowed(c: Config, cache: CacheFile, pin: Pin, keys: seq<KeyTuple>, client: Client)
    ensures AllAllowed(c, StartRemembered(cache, pin, keys).log) && AllAllowed(c, StartFresh(keys, client).log)
  {
  }
}
