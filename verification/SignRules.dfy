/** How one sign request comes to its verdict, and on whose word. */
module SignRules {

  datatype PromptBehavior = Always | Never | RememberUntilLock

  datatype Source = ByUser | ByMemory | ByPolicy | ByLock

  /** What the handler has to go on. */
  datatype Handling =
    | Refused                                                               // locked, and nothing unlocked it
    | Considered(prompt: PromptBehavior, remembered: bool, approves: bool)  // `approves` is the user's answer, if asked

  datatype Ruling = Ruling(verdict: bool, source: Source)

  predicate NeedsPrompt(prompt: PromptBehavior, forwarding: bool) {
    forwarding || !prompt.Never?
  }

  /** The end of `handle_ui_request`, and `run_authorization_prompt` where nothing is remembered. */
  function Rule(how: Handling, forwarding: bool): Ruling {
    match how
    case Refused => Ruling(false, ByLock)
    case Considered(prompt, remembered, approves) =>
      if !forwarding && prompt.RememberUntilLock? && remembered then Ruling(true, ByMemory)
      else if !NeedsPrompt(prompt, forwarding) then Ruling(true, ByPolicy)
      else Ruling(approves, ByUser)
  }

  /** A forwarded request is approved exactly when the vault is open and the user says yes; nothing else counts. */
  lemma {:induction false} ForwardedOnlyByUser(how: Handling)
    ensures Rule(how, true).verdict <==> how.Considered? && how.approves
    ensures Rule(how, true).verdict ==> Rule(how, true).source.ByUser?
  {
  }

  /**
   Spelled out: on an open vault a local request is answered yes from memory if
   remembering is on and it was remembered, yes without asking if the prompt is
   off, and every other request as the user says; a vault that stays locked
   refuses.
   */
  lemma {:induction false} RuleExactly(prompt: PromptBehavior, remembered: bool, approves: bool, forwarding: bool)
    ensures var ruling := Rule(Considered(prompt, remembered, approves), forwarding);
      && (!forwarding && prompt == RememberUntilLock && remembered ==> ruling == Ruling(true, ByMemory))
      && (!forwarding && prompt == Never ==> ruling == Ruling(true, ByPolicy))
      && (forwarding || prompt == Always || (prompt == RememberUntilLock && !remembered) ==> ruling == Ruling(approves, ByUser))
    ensures Rule(Refused, forwarding) == Ruling(false, ByLock)
  {
  }
}
