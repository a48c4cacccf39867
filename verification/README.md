# SSHWarden, modelled and proved in Dafny

SSHWarden is an SSH agent whose keys live in a Bitwarden vault. This project
models the parts of it that keep state or rewrite text, and proves what they
promise on every input, every run or every interleaving:

- **The managed SSH config.** `Text`, `Bindings`, `SshConfigArg`, `IncludeLine`,
  `IncludeText`, `RemoveTwice`, `InstallPlaces`, `ManagedConfig`, `Snippet`,
  `SnippetNotes`, `RoundTrip`, `SnippetDirectives`, `LastBlocks`, `BindCommands`:
  the printer and the importer of the generated
  snippet as inverses, the `keys bind` / `keys unbind` command sequences, and the
  two rewriters of `~/.ssh/config`, at the level of characters.
- **The vault.** `Keys`, `SignRules`, `Vault`, `EventRuns`, `VaultRuns`,
  `EnvelopeRuns`, `SyncRuns`, `ApprovalRuns`, `StaleApprovals`, `SignOutcomes`,
  `SyncOutcomes`, `UnlockOutcomes`, `CacheRuns`, `ForgetRuns`, `Daemon`: the
  daemon's handlers as one step function and as
  objects updated in place, with the invariants of every run.
- **The confirm protocol.** `Confirm`: many calls sharing one bounded broadcast
  channel, one small step at a time in any order.
- **Timed machines.** `PinThrottle`, `Reconnect`: rate bounds over unbounded
  traces.
- **Codecs and files.** `Framing`, `SshSig`, `FileReplace`, `RotatingLog`, with
  `Numbers` for the types they share.

Code that updates fields or loops is a class or a method with loops, proved
against a function on values; the theorems are about those functions. Network
answers, dialogs, platform key stores, clocks, random keys and failures of file
operations are parameters, so every theorem holds for every choice of them.
Encryption is an ideal sealed box that its key opens and nothing else.

## Where the code and its documents part

Each of these is proved below: the exact condition under which the promise
holds and, where it fails, a case.

- `docs/host-bindings.md` shows `keys bind` and `keys unbind` as the way to edit
  bindings. Both import the managed file once more after saving the edit, so the
  hosts of a key that already has a block there go back to that block's
  (`BindOutcome`, `UnbindOutcome`, `EditsOfRenderedKeysAreLost`,
  `LostBindExample`).
- A host list that mixes the literal pattern `<host>` with others is rendered but
  not read back; the round trip holds exactly without such lists
  (`ImportOfRenderedExactly`, `SecondSync`).
- ADR 0009 says a locked daemon cannot rewrite the cache. It can after
  `set-pin` is used while locked over keys that a locked sync fetched, until an
  unlock, a logout or a Forget, and in no other way (`LockedKeyExactly`,
  `LockedKeyFromStart`).
- ADR 0010 requires a fresh approval after key rotation. A master-password login
  on a remembered device tracks the rotated key but, holding no Local Cache Key,
  leaves the older cache as it is; after a lock the PIN unlocks to the old key,
  and an approval given then is remembered for the rotated one. (A sync while
  locked, possible after such a login, has the same effect.) An action leaves
  memory trustworthy if and only if it does not remember an approval of an entry
  whose tracked material is another readable key (`TrustedExactly`);
  `StaleApproval` is a whole run from a daemon's start in which it fails.
- A client restored after a PIN or Hello unlock holds no user key, so it can
  never sync: a remembered device's pending sync waits for a master-password
  login, however often it is unlocked (`PendingUntilLogin`).
- Removing the Include line is not idempotent: it is exactly when the config has
  no marker that stays with an unmarked Include after it and nothing between
  them but blank lines and lines that go (`RemoveIdempotentExactly`,
  `SecondRemovalTakesMore`).
- A namespace with a NUL, or a huge reserved field, can be filed under another
  operation kind than its own (`KindIsTrueExactly`, `NulHidesTheRest`).
- Removing the Include line undoes installing it exactly for configs that are
  empty or end with a line feed and hold no CR LF (`InstallThenRemove`).
- A ten-byte length prefix within ten of 2^64 makes the frame parser panic
  (`PanicsExactly`).
- A maximum back-off under a second does not cap the first wait
  (`RetryReport`).

## Model

| member | source | states |
|---|---|---|
| `Text.WordsOfJoin` | src/sshconfig.rs:179-193 | splitting on blanks undoes joining blank-free words with single spaces, as host lists are printed and read |
| `Text.LinesOfJoin` | src/sshconfig.rs:169-170 | reading joined lines back gives them again, up to a trailing carriage return each and a last empty line |
| `Text.LinesAppend` | src/sshconfig.rs:463-468 | the lines of terminated text followed by more text are the two lists of lines in order |
| `Bindings.HostBindingsFile.SetHosts` | crates/sshwarden-config/src/bindings.rs:194-220 | refuses exactly the lists with an invalid pattern and then changes nothing; otherwise the entry becomes the deduplicated list, or goes away when it is empty |
| `Bindings.HostBindingsFile.AddHost` | crates/sshwarden-config/src/bindings.rs:223-232 | appends the trimmed pattern unless some spelling of it is there; refuses exactly invalid ones |
| `Bindings.HostBindingsFile.RemoveHost` | crates/sshwarden-config/src/bindings.rs:235-249 | for any map at all, removes every spelling of the pattern, reports whether one was there, drops an entry left or found empty, and keeps stored maps stored |
| `Bindings.RemovedMeaning` | crates/sshwarden-config/src/bindings.rs:235-249 | the hosts left are the old ones without that pattern; on stored bindings, nothing to remove means nothing changed |
| `Bindings.HostBindingsFile.ClearKey` | crates/sshwarden-config/src/bindings.rs:252-254 | removes the entry and reports whether there was one |
| `Bindings.HostBindingsFile.PruneOrphans` | crates/sshwarden-config/src/bindings.rs:258-270 | keeps exactly the known ids and counts the ones dropped |
| `Bindings.DedupGood` | crates/sshwarden-config/src/bindings.rs:194-220 | deduplicating valid patterns gives distinct blank-free valid ones that cover every input pattern up to case |
| `Bindings.DedupFixed` | crates/sshwarden-config/src/bindings.rs:198-207 | lists already stored are fixed points of deduplication |
| `Bindings.DedupFrom` | crates/sshwarden-config/src/bindings.rs:198-207 | every stored spelling comes, trimmed, from the input |
| `Bindings.DedupFirst` | crates/sshwarden-config/src/bindings.rs:198-207 | a spelling with no earlier equal is kept, right behind what was kept before it |
| `Bindings.ValidExactly` | crates/sshwarden-config/src/bindings.rs:279-299 | a trimmed pattern is accepted exactly if it is not empty and holds no blank, control character, quote, backslash or comment sign |
| `Bindings.WithHostsExactly` | crates/sshwarden-config/src/bindings.rs:208-218 | setting hosts stamps that entry with the time, or drops it when the list is empty, and touches no other |
| `Bindings.PrunedExactly` | crates/sshwarden-config/src/bindings.rs:258-270 | pruning keeps exactly the entries of known ids, as they were |
| `Bindings.WithoutKeeps` | crates/sshwarden-config/src/bindings.rs:235-249 | removal keeps a list storable, loses exactly the spellings of that pattern and changes the list only if one was there |
| `Bindings.WithoutAppend` | crates/sshwarden-config/src/bindings.rs:235-249 | removal works pattern by pattern, in order |
| `SshConfigArg.QuoteArg` | crates/sshwarden-config/src/ssh_config.rs:14-27 | the quoting loop computes the quoted form of a path |
| `SshConfigArg.QuoteRoundTrip` | crates/sshwarden-config/src/ssh_config.rs:14-27 | a quoted path followed by anything reads back, up to its closing quote, as the very path, backslashes turned to slashes on Windows, and leaves the rest |
| `SshConfigArg.WantedShape` | crates/sshwarden-config/src/ssh_config.rs:61-80 | the Include line of a one-line path is one trimmed line that the matcher accepts |
| `SshConfigArg.WantedReads` | crates/sshwarden-config/src/ssh_config.rs:61-67 | the Include line reads back as the managed file's path in the configured style |
| `SshConfigArg.MatchesExactly` | crates/sshwarden-config/src/ssh_config.rs:73-80 | the matcher accepts exactly the quoted, home-relative and plain spellings of the present or former place |
| `IncludeLine.AwaitingMeaning` | src/sshconfig.rs:412-437 | the waiting-for-Include flag is on exactly behind a marker with only blank lines between |
| `IncludeLine.SiteRulesGood` | src/sshconfig.rs:482-494 | the wanted line and matcher of every one-line path meet what the install theorems need |
| `IncludeLine.BlankIsNoMatch` | src/sshconfig.rs:482-494 | no path makes a blank line count as an Include line |
| `IncludeLine.AnyCaseIncludes` | src/sshconfig.rs:475-480 | the Include keyword counts in any case, whatever its argument |
| `IncludeLine.WriteIncludeLine` | src/sshconfig.rs:384-473 | the flag-driven install loop writes the config given by each line's kind and context |
| `IncludeLine.InstalledIsPresent` | src/sshconfig.rs:384-473 | after installing, the wanted line is in the config, whatever the config was |
| `IncludeLine.InstallIdempotent` | src/sshconfig.rs:406-415 | installing twice is installing once, for any config |
| `IncludeLine.InstallKeepsForeign` | src/sshconfig.rs:416-446 | the rewritten lines are, apart from matching ones, exactly the lines that neither match nor are an Include behind a marker, unchanged and in order |
| `IncludeText.InstallKeepsText` | src/sshconfig.rs:384-473 | the new config text, read back, says what the old one said without its matching and marker-bound Includes, in order; unchanged if the line was present |
| `InstallPlaces.InstalledMarked` | src/sshconfig.rs:416-468 | for any config without the wanted line, afterwards every line that counts as SSHWarden's is the wanted one and stands behind a marker: no old form is left and none unmarked |
| `IncludeLine.RemoveIncludeLine` | src/sshconfig.rs:496-563 | no file gives no change; otherwise the new text and the changed flag are those of the removal specification |
| `IncludeLine.KeepLines` | src/sshconfig.rs:507-542 | the removal loop keeps the specified lines and reports a change exactly when a line was SSHWarden's |
| `IncludeLine.PopMarker` | src/sshconfig.rs:522-533 | the inner pop loop takes back the blanks and the one marker before an awaited line and nothing more, and always reaches that marker |
| `IncludeLine.RemovedIsGone` | src/sshconfig.rs:507-542 | after removing, no line of any config matches |
| `IncludeLine.RemoveKeepsUserContent` | src/sshconfig.rs:507-542 | the kept lines with content are exactly the user's own, unchanged and in order |
| `IncludeText.RemoveKeepsText` | src/sshconfig.rs:496-563 | the new config text, read back, says exactly what the user's own lines said, in order |
| `IncludeLine.InstallThenRemove` | src/sshconfig.rs:384-563 | install then remove normalises line ends and nothing else; an untouched config comes back character for character if and only if it is empty or newline-terminated and has no CR LF |
| `RemoveTwice.StaysExactly` | src/sshconfig.rs:507-542 | a line stays if and only if it is neither SSHWarden's nor in the block from a marker to an awaited line that is |
| `RemoveTwice.RemoveIdempotentExactly` | src/sshconfig.rs:496-563 | removing twice is removing once if and only if the config has no marker that stays with an unmarked Include after it and only blank lines and lines that go between |
| `RemoveTwice.SecondRemovalTakesMore` | src/sshconfig.rs:509-540 | two markers, SSHWarden's line behind the second, then a user's Include: the second removal takes that Include |
| `ManagedConfig.ImportManagedFile` | src/sshconfig.rs:153-225 | the line loop with its pending-id flag applies each line's note in order; a missing file changes nothing |
| `ManagedConfig.ImportMeaning` | src/sshconfig.rs:153-225 | for each key the file's last importable block wins, a key without one keeps its hosts, and an import reporting no change made none |
| `Snippet.RenderSnippet` | src/sshconfig.rs:256-315 | the printing loops produce header, bound blocks, then templates for unbound keys; what OpenSSH and the importer read in it is stated below |
| `Snippet.SplitExactly` | src/sshconfig.rs:271-278 | each key is printed once, as a block if it has hosts and as a template if not |
| `SnippetDirectives.SnippetSelectsTheKeys` | src/sshconfig.rs:256-315 | a reader of ssh_config finds in the printed snippet, for each key with hosts and in order, one Host block with exactly those hosts, an IdentityFile that reads back as the key's selector path and `IdentitiesOnly yes`, and no other active line |
| `SnippetDirectives.TemplateSelectsTheKey` | src/sshconfig.rs:300-310 | uncommenting an unbound key's template gives the same block with `<host>` to fill in |
| `SnippetNotes.CommentNote` | src/sshconfig.rs:227-238 | a key comment names its own key, as older files rely on, unless the name makes it look like a marker, and then it names nothing |
| `SnippetNotes.AnyCaseHost` | src/sshconfig.rs:179-193 | an edited Host line counts whatever the case of its keyword |
| `RoundTrip.ImportOfRendered` | src/sshconfig.rs:153-315 | importing a freshly printed snippet reports no change and returns the very same bindings |
| `LastBlocks.LastBlockOfRendered` | src/sshconfig.rs:256-315 | in a printed snippet the last block of every listed key with a host to import holds its own hosts |
| `LastBlocks.MixedListChanges` | src/sshconfig.rs:186-196 | a list mixing `<host>` with importable hosts does not survive printing and importing |
| `LastBlocks.ImportOfRenderedExactly` | src/sshconfig.rs:153-315 | the round trip holds if and only if no listed key mixes `<host>` with other hosts |
| `BindCommands.AddHosts` | src/commands/keys.rs:168-179 | for any bindings, adds the patterns in order, and stops without success exactly when one is refused |
| `BindCommands.ConfigStore.SyncManaged` | src/sshconfig.rs:334-370 | imports, prunes against known keys, saves and renders, in that order, to the specified pair of files |
| `BindCommands.SyncedExactly` | src/sshconfig.rs:334-370 | after a sync listed keys have the hosts of their last importable block or else their saved ones, unlisted keys have none, and the file is written from that unless there is nothing to write and no file |
| `BindCommands.ConfigStore.Bind` | src/commands/keys.rs:163-204 | for any saved bindings the whole command leaves the specified files; nothing is written when a pattern is refused |
| `BindCommands.ConfigStore.Unbind` | src/commands/keys.rs:210-239 | for any saved bindings the whole command leaves the specified files; the import is saved even when there was nothing to remove |
| `BindCommands.SecondSync` | src/sshconfig.rs:334-370 | a second sync with the same keys changes neither bindings nor file if and only if no listed key mixes `<host>` with other hosts |
| `BindCommands.BindOutcome` | src/commands/keys.rs:163-204 | saved and rendered hosts are the edited list without an importable block in the old file and that block's deduplicated hosts with one; the edit survives if and only if these agree |
| `BindCommands.UnbindOutcome` | src/commands/keys.rs:210-239 | a removal survives if and only if the old managed file had no importable block for the key |
| `BindCommands.PrintedHostsReturn` | src/sshconfig.rs:334-370 | a sync from a rendered file gives a key bound to a real host its printed hosts, however its saved entry was edited in between |
| `BindCommands.EditsOfRenderedKeysAreLost` | src/commands/keys.rs:163-239 | once a sync has rendered a key bound to some host other than `<host>`, a bind, an unbind and no edit at all lead to the same hosts: those it had, less `<host>` |
| `BindCommands.SecondBindIsLost` | src/commands/keys.rs:163-204 | for every key and two hosts, binding a fresh key to one and then to the other leaves only the first |
| `BindCommands.LostBindExample` | docs/host-bindings.md:41-61 | the same with concrete names |
| `Keys.LoadIsLastWins` | crates/sshwarden-agent/src/agent.rs:224-275 | the keystore holds exactly the last readable tuple of each public key |
| `Keys.HeaderListsTheKeys` | src/cache.rs:17-29 | the identities listed from a cache header are those listed after loading its keys |
| `Keys.FingerprintOfKey` | src/cache.rs:525-537 | with one tuple an item, each item's fingerprint is that of its own key |
| `Keys.PinOpens` | src/cache.rs:451-483 | exactly the PIN a cache was wrapped under opens it, to exactly its keys |
| `Keys.OpensOnlyThus` | src/cache.rs:451-483 | any cache opens with a PIN exactly when its slot was wrapped under that PIN and the file's salt, or the legacy one, around the sealing key |
| `Keys.RewritesOpen` | src/cache.rs:74-149 | refresh and salt migration keep the PIN, writing replaces it, and a migrated cache needs no migration |
| `Vault.SurvivesExactly` | src/cache.rs:539-569 | a remembered approval survives a sync exactly when its item's fingerprint is equal before and after, or absent in both |
| `VaultRuns.StepKeepsKeystore` | src/control.rs:446-1208 | every action keeps: locked means no private key in the agent, unlocked means exactly the last-wins load of the cached tuples |
| `VaultRuns.RunKeepsKeystore` | src/daemon.rs:262-616 | the same over every run |
| `VaultRuns.StartsKeepKeystore` | src/daemon.rs:150-245 | the same at every start |
| `VaultRuns.LockKeepsListing` | crates/sshwarden-agent/src/agent.rs:316-335 | locking leaves the listed identities unchanged and no private key |
| `SyncOutcomes.LockExactly` | src/control.rs:199-216 | locking drops private keys, cached tuples, the Local Cache Key and remembered approvals and nothing else, so a PIN cannot be set right after |
| `SyncOutcomes.LogOutExactly` | src/daemon.rs:505-509 | a remote logout does the same whatever the state |
| `SyncOutcomes.LockedStays` | src/control.rs:447-469 | a locked vault is left alone by the lock command and the inactivity lock |
| `SyncOutcomes.SetPinExactly` | src/control.rs:1159-1208 | a PIN of four bytes or more over cached keys becomes the one PIN that opens the cache, to those keys, under the key held or a fresh one; otherwise nothing changes |
| `SyncOutcomes.SyncExactly` | src/control.rs:1003-1056 | with a logged-in client and an answer the keys are the cached ones, the tracked ones and, if unlocked, the loaded ones, exactly the approvals with unchanged fingerprints stay, and if a key is held and the write succeeds the current PIN opens the cache to them; otherwise nothing changes |
| `SyncOutcomes.NoticeExactly` | src/daemon.rs:480-528 | a notice to an unlocked vault that can sync does the same; any other leaves a sync pending and nothing else |
| `SyncOutcomes.ResolveExactly` | src/sync.rs:165-209 | a waiting sync is settled exactly when a logged-in client gets an answer |
| `SyncOutcomes.FreshExactly` | src/daemon.rs:174-200 | a first start holds, loads and tracks its login's keys |
| `UnlockOutcomes.UnlockExactly` | src/control.rs:470-667 | `unlock` opens a locked vault exactly when the platform gave the sealing key or, where the dialog may be shown, the PIN is the one set last; it then holds the keys sealed last, or those of a waiting sync that is settled on the way |
| `UnlockOutcomes.PlatformUnlockExactly` | src/control.rs:668-769 | the same for the platform store alone and for Windows Hello alone |
| `UnlockOutcomes.PinUnlockExactly` | src/control.rs:782-887 | the same for the PIN command, if the throttle lets it through; an old or missing salt is replaced if that can be written, any other kept |
| `UnlockOutcomes.OpenVaultStays` | src/control.rs:470-887 | no unlock command but a login touches an open vault |
| `UnlockOutcomes.UnreadableStaysLocked` | src/control.rs:477-560 | a cache whose payload is no key list opens no vault; at most its key is left held |
| `UnlockOutcomes.LoginExactly` | src/control.rs:888-1002 | a login opens the vault with its keys, or those of a waiting sync, refreshes the cache if a key is held, and leaves the cache alone if not |
| `UnlockOutcomes.AutoUnlockedExactly` | src/daemon.rs:399-467 | after an automatic unlock a client is restored where there is none, and a waiting sync settled if it can be |
| `UnlockOutcomes.LockedSignExactly` | src/ui.rs:130-362 | a request for a listed key on a locked vault opens it exactly when automatic unlock is on and the platform's key or the PIN fits, and is then the user's to answer unless it is local and the prompt off; otherwise it is denied and nothing changes |
| `UnlockOutcomes.UnlistedUnanswered` | crates/sshwarden-agent/src/agent.rs:79-136 | a request for a key the agent does not list changes nothing |
| `CacheRuns.CacheKeepsUp` | src/sync.rs:51-76 | over every run, while a key is held and every write since it was not has succeeded, the current PIN opens the cache to exactly the cached tuples |
| `CacheRuns.RestartExactly` | src/daemon.rs:212-240 | a restart from the cache any run leaves lists exactly the identities sealed last, and its PIN opens it |
| `ForgetRuns.ForgetExactly` | src/control.rs:1057-1158 | Forget leaves a locked vault with no cache, key, client, session file, approval or listed identity, and no sync pending |
| `ForgetRuns.NothingComesBack` | src/control.rs:1057-1158 | over every run from a Forget without a master-password login it stays so: nothing unlocks it, it lists nothing and answers no sign request |
| `EnvelopeRuns.RunKeepsEnvelope` | src/cache.rs:41-149 | over every run, a held Local Cache Key is the one sealing the held cache, which the current PIN opens to the list sealed last |
| `EnvelopeRuns.StartEnvelope` | src/daemon.rs:150-245 | a remembered device, version 3 or version 2 with the legacy salt, starts that way if its PIN opens its cache |
| `EnvelopeRuns.CurrentPinOpensCache` | src/cache.rs:451-502 | after any run the PIN set last, and no other, opens the cache to the key list sealed last |
| `EnvelopeRuns.LockedHoldsNoKeyExcept` | src/control.rs:199-216 | a locked daemon comes to hold a Local Cache Key if and only if a PIN is set, and written, while locked |
| `EnvelopeRuns.LockedKeyExactly` | src/control.rs:1159-1208 | over every run, a daemon is locked and holds a Local Cache Key if and only if a PIN was set while it was locked and no unlock, logout or Forget came since |
| `EnvelopeRuns.LockedSetPinHoldsKey` | src/control.rs:1159-1208 | with a logged-in client, sync while locked, then set a PIN: still locked, key held, and the cache opens to the synced keys |
| `EnvelopeRuns.LockedKeyFromStart` | src/control.rs:888-1208 | the same as a run from a remembered device's start: log in, lock, sync, set a PIN |
| `SyncRuns.UncoveredMeaning` | src/daemon.rs:480-528 | the running test for an uncovered notice means what it says about the whole log |
| `SyncRuns.RunKeepsPending` | src/sync.rs:165-209 | over every run, an uncovered notice implies that a sync is pending |
| `SyncRuns.NoticesAreCovered` | src/daemon.rs:480-528 | every notice is followed by a successful sync or a Forget, or a sync is pending |
| `SyncRuns.PendingUntilLogin` | src/sync.rs:94-105 | from a remembered device's start no sync succeeds before a master-password login, and until then a sync is pending if and only if some notice has had no Forget since |
| `ApprovalRuns.SignAnswersOnce` | src/ui.rs:94-457 | a sign request for a listed key is answered exactly once, about that key, and forwarded ones are approved only by the user |
| `EventRuns.StepAdds` | src/ui.rs:94-457 | every action but a sign request adds to the log without an answer |
| `SignOutcomes.OpenVaultAnswers` | src/ui.rs:364-456 | on an open vault a local request is answered yes from memory if remembered, yes unasked if the prompt is off, and every other request as the user says; a local yes is remembered where configured; nothing else changes |
| `SignOutcomes.AnswersAreAllowed` | src/ui.rs:94-457 | over every run an answer on policy is a yes to a local request with the prompt off, one from memory a yes to a local request with remembering on, one while locked a no; under `Always`, and for forwarded requests, a yes is the user's |
| `SignOutcomes.StartsAllowed` | src/daemon.rs:150-245 | a daemon starts with no answers given |
| `SignOutcomes.ListExactly` | src/ui.rs:110-127 | a list request changes only that the agent stops asking for an unlock |
| `ApprovalRuns.ForwardingNeedsTheUser` | src/ui.rs:94-457 | over every run, no forwarded request is approved from memory or policy |
| `ApprovalRuns.LastApprovedMeaning` | src/ui.rs:441-456 | spells out "approved since the last lock": the user's own approval of that material with no lock or Forget after it |
| `ApprovalRuns.RunKeepsMemory` | src/ui.rs:364-456 | over every run that misremembers nothing, each remembered approval is for the material loaded for its item, and no other loadable material is tracked for it |
| `ApprovalRuns.MemoryApprovesWhatTheUserApproved` | src/ui.rs:370-390 | over every run that misremembers nothing, an approval from memory is for the very key material the user approved since the last lock |
| `ApprovalRuns.StartsTrusted` | src/daemon.rs:150-245 | both starts meet what those run theorems need |
| `StaleApprovals.TrustedExactly` | src/ui.rs:364-456 | for every action in every state such a run reaches: no future answer from memory is for unapproved material if and only if the action does not remember an approval of an entry whose tracked material is another readable key |
| `StaleApprovals.DisagreementIsRemembered` | src/sync.rs:20-79 | with a logged-in client, approve such an entry and let a sync bring the tracked key: memory approves it although the user's last approval was of the old key, and the log is no longer trustworthy |
| `StaleApprovals.StaleUnlock` | src/control.rs:782-1002 | how the disagreement arises on a remembered device: log in after a rotation, lock, unlock with the PIN from the older cache |
| `StaleApprovals.StaleApproval` | src/daemon.rs:262-616 | the whole run from a remembered device's start, with its whole log: the user is never asked about the rotated key and memory approves it |
| `Daemon.SshWardenAgent.SetKeys` | crates/sshwarden-agent/src/agent.rs:224-275 | the insertion loop yields the last-wins load |
| `Daemon.SshWardenAgent.SetPublicIdentities` | crates/sshwarden-agent/src/agent.rs:277-314 | the insertion loop yields entries without private keys |
| `Daemon.SshWardenAgent.Lock` | crates/sshwarden-agent/src/agent.rs:316-335 | drops every private key in place and keeps every entry |
| `Daemon.SshWardenAgent.ClearKeys` | crates/sshwarden-agent/src/agent.rs:337-343 | empties the keystore |
| `Daemon.VaultDaemon.Remembered` | src/daemon.rs:212-240 | a remembered device starts locked with its cached identities listed |
| `Daemon.VaultDaemon.Fresh` | src/daemon.rs:174-200 | without a cache it starts with the fetched keys |
| `Daemon.StepKeepsValid` | src/daemon.rs:262-616 | every action keeps the keystore, cache-key and pending-sync invariants together |
| `Daemon.StartsValid` | src/daemon.rs:150-245 | both starts have them, a remembered device if its PIN opens its cache |
| `Daemon.VaultDaemon.LockVault` | src/control.rs:199-216 | takes the vault's lock step, whole state |
| `Daemon.VaultDaemon.ReconcileSyncedKeys` | src/sync.rs:20-79 | clears changed approvals against the old fingerprints, then replaces tuples and fingerprints, then refreshes the cache |
| `Daemon.VaultDaemon.DoSync` | src/sync.rs:81-163 | takes the sync step; succeeds exactly with a client that holds the user key and an answer; loads the agent only when unlocked |
| `Daemon.VaultDaemon.ResolvePendingSync` | src/sync.rs:165-209 | swaps the flag and restores it exactly when the sync fails |
| `Daemon.VaultDaemon.RestoreSession` | src/unlock.rs:231-312 | a client in place stays; otherwise a refreshed token gives one without a user key |
| `Daemon.VaultDaemon.FinishUnlock` | src/unlock.rs:416-450 | an unparsable payload changes nothing; a key list is loaded and unlocks |
| `Daemon.VaultDaemon.UnlockWithKey` | src/control.rs:830-870 | holds the key, loads, restores a client where there is none, tries a pending sync, in that order |
| `Daemon.VaultDaemon.UnlockFrom` | src/control.rs:470-666 | what the platform store or Windows Hello opens comes first, then the PIN dialog where allowed; Hello restores the session and ends the command even on an unreadable payload |
| `Daemon.VaultDaemon.HandleUnlock` | src/control.rs:470-667 | takes the unlock step of its platform and keeps the invariants |
| `Daemon.VaultDaemon.HandleUnlockNative` | src/control.rs:668-708 | the platform store only, without a session |
| `Daemon.VaultDaemon.HandleUnlockHello` | src/control.rs:709-769 | Windows Hello only; no effect elsewhere |
| `Daemon.VaultDaemon.HandleUnlockPin` | src/control.rs:782-887 | refused while throttled; migrates an old salt; then unlocks |
| `Daemon.VaultDaemon.HandleUnlockPassword` | src/control.rs:888-1002 | a failed login changes nothing; a good one reconciles, loads, unlocks and settles a pending sync |
| `Daemon.VaultDaemon.HandleSync` | src/control.rs:1003-1056 | syncs, and leaves a sync pending when it ran while locked |
| `Daemon.VaultDaemon.HandleForget` | src/control.rs:1057-1158 | clears keys, cache, session, memory and the pending flag, and locks |
| `Daemon.VaultDaemon.HandleSetPin` | src/control.rs:1159-1208 | refuses short PINs and empty key lists; otherwise rewrites the cache under the held key, or a new one |
| `Daemon.VaultDaemon.HandleHubNotice` | src/daemon.rs:480-528 | syncs when unlocked; otherwise, or when that fails, leaves a sync pending |
| `Daemon.VaultDaemon.HandleLock` | src/control.rs:447-469 | locks an unlocked vault, as the inactivity lock does, and keeps the invariants |
| `Daemon.VaultDaemon.HandleHubLogOut` | src/daemon.rs:505-509 | locks whatever the state |
| `Daemon.VaultDaemon.HandleAutoUnlocked` | src/daemon.rs:399-467 | restores a client without a user key if there is none, then tries a pending sync |
| `Daemon.VaultDaemon.HandleList` | src/ui.rs:110-127 | a list request is allowed and only clears the needs-unlock flag |
| `Daemon.VaultDaemon.HandleSign` | src/ui.rs:94-457 | takes the sign step, returns the verdict it logged, and keeps the invariants |
| `Daemon.VaultDaemon.SignWhileUnlocked` | src/ui.rs:364-456 | memory, then policy, then the user, whose approval is remembered where configured |
| `Daemon.VaultDaemon.SignWhileLocked` | src/ui.rs:130-362 | platform store, then dialog, then deny |
| `Daemon.VaultDaemon.UnlockAndPrompt` | src/ui.rs:42-92 | loads the recovered keys, then prompts unless policy says never; remembers nothing |
| `Confirm.AwaitVerdict` | crates/sshwarden-agent/src/agent.rs:130-135 | the receive loop returns the first response with its own id if nothing was missed before it, and denies on any receive error |
| `Confirm.RunKeeps` | crates/sshwarden-agent/src/agent.rs:79-136 | over every interleaving, ids of live calls differ and each response is its own handler's |
| `SignRules.ForwardedOnlyByUser` | src/ui.rs:60-92 | the verdict both the vault and the protocol use approves a forwarded request exactly when the vault is open and the user says yes |
| `SignRules.RuleExactly` | src/ui.rs:370-456 | the shared verdict function spelled out for every prompt setting |
| `Confirm.ConfirmIsSound` | crates/sshwarden-agent/src/agent.rs:79-167 | a sign or list call returns true only if its own handler sent true after it subscribed, a sign request only on an open vault, a forwarded one or one under `Always` only on the user's yes; a call that never lagged returns its own verdict, yes for a list request |
| `Confirm.EnqueueExactly` | src/daemon.rs:112-113 | a subscribed call gets in exactly while fewer than 32 requests wait, behind them all |
| `Confirm.DispatchExactly` | src/daemon.rs:370-394 | the handler of the request that waits longest is started |
| `Confirm.RespondExactly` | src/ui.rs:94-457 | a running handler sends one response, under its call's 32-bit id, with its verdict |
| `Confirm.DrainingIsAwaiting` | crates/sshwarden-agent/src/agent.rs:130-135 | taking receive steps to the end of the channel is running the receive loop on the messages from the call's cursor |
| `Confirm.OneAnswerEach` | src/ui.rs:94-457 | in every interleaving each handler answers at most once |
| `Confirm.AnswerIsAhead` | crates/sshwarden-agent/src/agent.rs:79-136 | an answer sent for a listening call is still ahead of its cursor |
| `Confirm.ReadsItsVerdict` | src/daemon.rs:114-119 | a waiting call at most 256 responses behind whose handler has answered returns that very verdict if it reads on |
| `PinThrottle.PinFailureState.LockoutRemaining` | src/control.rs:239-252 | reports the time left and clears an expired lockout |
| `PinThrottle.PinFailureState.RecordAttempt` | src/control.rs:256-274 | resets on success; otherwise counts, arms the lockout at five and returns the delay |
| `PinThrottle.PinFailureState.Try` | src/unlock.rs:49-62 | one attempt on either path: refused without validation while locked out, otherwise validated and recorded |
| `PinThrottle.LockoutIsOwed` | src/control.rs:239-274 | whatever came before, a check refuses exactly when the last five validated attempts were wrong and the last was recorded under thirty seconds ago, and reports the time left |
| `PinThrottle.DelayOfHistory` | src/control.rs:256-274 | the delay is min(500 ms times the wrong attempts in a row, 5 s), saturation included |
| `PinThrottle.GuessesAreThrottled` | src/control.rs:229-274 | in any run mixing both paths, the n-th wrong validated attempt in a row, n > 5, comes at least 30(n - 5) s after the fifth was recorded |
| `PinThrottle.GuessesPerWindow` | src/control.rs:229-274 | so w milliseconds after the fifth hold at most w/30000 more wrong guesses in a row |
| `Reconnect.Pass` | crates/sshwarden-api/src/notifications.rs:286-462 | one pass of the loop body takes the specified step and sends the specified notices in order |
| `Reconnect.RunMessageLoop` | crates/sshwarden-api/src/notifications.rs:265-462 | the loop sends the specified notices and nothing after it ends |
| `Reconnect.RunCounts` | crates/sshwarden-api/src/notifications.rs:273-348 | back-off and counters are closed forms of the passes so far: min(2^j s, max) after j waits, saturated counts of failures and connections |
| `Reconnect.RetryReport` | crates/sshwarden-api/src/notifications.rs:322-461 | each retry reports one degraded status with those counts and the delay then waited, consecutive never above total; the delay is min(2^j s, max) if and only if max is at least a second or j > 0 |
| `Reconnect.PassReports` | crates/sshwarden-api/src/notifications.rs:286-462 | all that one pass reports, in order, from the history before it: a loss, or a refusal past the threshold, asks for a fallback sync exactly when the interval has passed since the last request |
| `Reconnect.RequestRate` | crates/sshwarden-api/src/notifications.rs:528-567 | fallback requests are never closer than the interval, a window w holds at most w/interval + 1, a zero interval none |
| `Reconnect.RequestsKeepComing` | crates/sshwarden-api/src/notifications.rs:322-348 | past the failure threshold consecutive requests are under interval + longest wait + longest connect apart, and a pass asks exactly when the interval is over |
| `Reconnect.FirstRequest` | crates/sshwarden-api/src/notifications.rs:557-567 | the first pass past the threshold asks at once if nothing was asked before |
| `Framing.EncodeFrame` | crates/sshwarden-api/src/notifications.rs:616-635 | the encoding loop writes the VarInt of the length, then the payload |
| `Framing.ReadVarint` | crates/sshwarden-api/src/notifications.rs:715-729 | the shift loop returns the 64-bit value and extent of the first VarInt of at most ten bytes, or nothing |
| `Framing.ReadOfVarint` | crates/sshwarden-api/src/notifications.rs:715-729 | for every 64-bit length and whatever follows, reading gives back the length and its extent |
| `Framing.VarintIsMinimal` | crates/sshwarden-api/src/notifications.rs:622-632 | no bytes that read as a length are fewer than the encoder writes for it |
| `Framing.VarintIsPrefixFree` | crates/sshwarden-api/src/notifications.rs:622-632 | no length's encoding begins another's |
| `Framing.ReadsItsOwnSpelling` | crates/sshwarden-api/src/notifications.rs:715-729 | the reader was given the encoder's spelling if and only if no last byte of several is zero and no tenth byte exceeds one |
| `Framing.ParseFrame` | crates/sshwarden-api/src/notifications.rs:642-656 | payload, refusal or panic as specified, whether or not overflow is checked |
| `Framing.FrameRoundTrip` | crates/sshwarden-api/src/notifications.rs:616-656 | a frame decodes to its exact payload whatever follows it |
| `Framing.PartialFrameRejected` | crates/sshwarden-api/src/notifications.rs:642-654 | every strict prefix of a frame is refused |
| `Framing.FramesAreUnique` | crates/sshwarden-api/src/notifications.rs:616-656 | bytes begin with at most one frame |
| `Framing.PanicsExactly` | crates/sshwarden-api/src/notifications.rs:643-656 | the parser panics if and only if the message begins with a ten-byte prefix within ten of 2^64, byte by byte |
| `SshSig.TakeUntilNul` | crates/sshwarden-agent/src/request_parser.rs:75-78 | takes the bytes before the first NUL, or all |
| `SshSig.ParseRequest` | crates/sshwarden-agent/src/request_parser.rs:54-88 | total on all byte strings: plain request, namespace, or error, as specified |
| `SshSig.ParsesTheNamespace` | crates/sshwarden-agent/src/request_parser.rs:54-88 | for blobs of section 3 of OpenSSH's PROTOCOL.sshsig with a UTF-8 namespace, the true namespace is returned if and only if it is NUL-free and the reserved field is under 2^24 bytes |
| `SshSig.Utf8Exactly` | crates/sshwarden-agent/src/request_parser.rs:79-80 | the validity test accepts exactly the UTF-8 encodings of text |
| `SshSig.NamesHaveKinds` | crates/sshwarden-agent/src/request_parser.rs:37-52 | git, file and ssh have their own kinds, any other name a plain signature, and a plain request is an authentication |
| `SshSig.KindIsTrueExactly` | crates/sshwarden-agent/src/request_parser.rs:37-52 | the operation kind of a parsed blob is its namespace's own if and only if the namespace is NUL-free and the reserved field under 2^24 bytes, or it has no kind of its own and does not, run on into the reserved field, spell one up to a NUL |
| `SshSig.NulHidesTheRest` | crates/sshwarden-agent/src/request_parser.rs:75-80 | "git", NUL and anything after it is filed as a git signature |
| `FileReplace.Disk.WriteTmp` | crates/sshwarden-config/src/lib.rs:949-951 | truncates and fills the temporary file, perhaps partly, and touches no other |
| `FileReplace.Disk.Promote` | crates/sshwarden-config/src/bindings.rs:89-110 | passes through exactly the specified states and reports success exactly when the new content is promoted |
| `FileReplace.Disk.Replace` | crates/sshwarden-config/src/lib.rs:948-980 | every state passed through is recoverable; it succeeds exactly if the write and mode do and the rename, or backup and promote, does; success means new content; failure means old content at the path unless promote and rollback both failed, and then the backup holds it; what is left in the temporary and backup files is stated too |
| `FileReplace.EveryStepRecoverable` | crates/sshwarden-config/src/lib.rs:948-980 | at every crash point the whole old content is at the path or its backup, or the whole new content is at the path |
| `FileReplace.NothingOlderSurvives` | crates/sshwarden-config/src/lib.rs:948-980 | over any number of failing and crashing writes, the file, or its backup if the file is gone, is a whole content no older than the last reported success |
| `FileReplace.PathStays` | crates/sshwarden-config/src/bindings.rs:89-110 | without crashes the path is empty only after a write that could neither promote nor roll back |
| `RotatingLog.RotatingFileWriter.constructor` | src/logging.rs:27-37 | the counter starts at the file's size, or at zero if that cannot be read |
| `RotatingLog.RotatingFileWriter.Rotate` | src/logging.rs:47-63 | leaves the state each failure point leaves; succeeds only past the rename |
| `RotatingLog.RotatingFileWriter.RotateIfNeeded` | src/logging.rs:39-82 | rotates exactly when a non-empty log would pass a non-zero cap, and tolerates failure |
| `RotatingLog.RotatingFileWriter.Write` | src/logging.rs:85-91 | appends what was taken and counts it |
| `RotatingLog.KeptIsSuffix` | src/logging.rs:39-91 | backup then log is always a suffix of everything logged, for any partial writes and failed rotations |
| `RotatingLog.RotatesExactly` | src/logging.rs:39-91 | an empty, uncapped or roomy log is not rotated; any other becomes the backup where the rotation works, and is appended to with the failure noted where it does not |
| `RotatingLog.CounterIsLength` | src/logging.rs:39-91 | the counter is the log's length, less what an unreadable size hid until the first rotation |
| `RotatingLog.WithinCap` | src/logging.rs:39-91 | a record whose rotation is not needed or works leaves the log within the cap or that record |
| `RotatingLog.BothFilesBounded` | src/logging.rs:39-91 | while rotations work, neither file outgrows the cap, the longest record taken and what was found |

## Hypotheses

- Round trips: key names and selector paths are on one line; vault item ids are
  non-empty, trimmed, and hold no `(` and no line feed; bound hosts are
  blank-free, as the bindings file stores them. What `keys bind` and `keys unbind`
  do to the files is specified for any saved bindings; what becomes of one key's
  hosts, for bindings as the program itself stores them.
- Install and remove: the Include path is on one line and its Include line is
  not the marker text.
- `ApprovalRuns`: a synced list has one tuple for each vault item; SHA-256 has no
  collisions.
- `Confirm`: a new call's id differs from those of calls still in flight, which
  holds for fewer than 2^32 of them in a row.
- `PinThrottle`: attempts follow one another, and the clock does not run backwards
  between an attempt's check and its record.
- `Reconnect.RequestsKeepComing`: event sends do not block; a wait lasts as long
  as it was told to; the bookkeeping of a pass takes at most a given lag.

## Left out

- What dialogs, Windows Hello, Keychain and Secret Service do inside: each is an answer the model takes as input.
- HTTP, WebSocket traffic and token refresh: a sync, a login or a restored token is an answer; of the client only whether it holds the user key is kept.
- AES, HMAC, Argon2, base64, MessagePack values and JSON: ideal boxes and plain values stand for them.
- Watchdog aborts of a half-finished action, and interleaving of spawned sign handlers with lock and unlock: each handler is one step, with the agent running.
- Multi-device mode: the shared cache reload can replace the cache under an older key in memory.
- `claim_pid_file`: mutual exclusion does not follow from its steps.
- The bindings lock file and concurrent writers of `bindings.json`; `BindCommands` takes reads and writes of both files to succeed.
- The key-name map and the remembered public identity tuples: shown in dialogs and status only.
- Selector file names: the path printed for a key is a function given to the model.
- Home-relative and Windows path styles beyond the quoting and matching of a given path.
- Reopening the log after a successful rename is taken to work; otherwise the handle points at the backup.
- Overflow of `Duration` arithmetic, and clock readings beyond one monotone clock in milliseconds.
- Back-off waits cut short by cancellation: the loop ends with the next pass.
- Usage errors of `keys unbind`, catch-all warnings, status, doctor and age wording: easy or textual.
- Bindings.HostBindingsFile.SetHosts: equality up to case is ASCII case, as `eq_ignore_ascii_case` has it, and time is a parameter.
- Daemon.VaultDaemon.HandleSync: single-device mode; the PIN prompt that recovers the cache key for a shared cache is not modelled.
- Daemon.VaultDaemon.HandleForget: single-device mode, with every deletion succeeding.
- FileReplace.Disk.Replace: creating the parent directory is not modelled; one method stands for both copies of the flow.
