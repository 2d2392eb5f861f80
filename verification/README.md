# RightOut protocols, verified

Dafny models of the stateful protocols of the RightOut plugin (`index.ts` with its ledgers and stores in
`lib/`) and of its offline runner (`skills/data-broker-removal/scripts/data_broker_removal.py`), with proofs
of what those protocols promise and, where the code breaks a promise, a proof of exactly when it does.
`dafny verify dfyconfig.toml` checks everything.

Three kinds of file:

- State machines whose events are single awaited calls (store, ledger or host; the whole provider attempt of a
  tool counts as one call, a form step's driver action as two, its sending and its return), so that any number
  of participants interleave, and crash or fail, between any two of them. A theorem about a `Run` is about
  every finite sequence of such events.
- Classes with methods for the code that updates fields, maps and files in place. Each method is proved
  against a specification function or states its whole effect.
- Functions and lemmas for the pure parts.

`CaseLedger`, `WorkerLedger`, `SubmissionSteps` and `FormSessionSteps` also write out, case by case and without the
functions that compute them, what single calls and steps leave behind; the rows below name the ones that a
requirement of the source rests on.

| file | what it covers |
|---|---|
| `CaseLedger.dfy` | the case of one (profile, broker): transition table and every ledger operation |
| `ProviderOutcomes.dfy` | how the SMTP, closed-form and form-session writers classify what an attempt did |
| `SubmissionProtocol.dfy`, `SubmissionBound.dfy`, `SubmissionPromise.dfy`, `SubmissionWitnesses.dfy`, `SubmissionOutcomes.dfy`, `SubmissionSteps.dfy`, `SubmissionRecovery.dfy` | durable submission intent: tools, any number of form sessions with any number of steps in flight, reconciliation, endings, crashes, expiry; the bound on provider writes; when the promised bound holds, with a run for each way it fails; the way to an attempt and what becomes of accepted, doubtful and refused ones; recovery after a crash |
| `FormSession.dfy`, `FormSessionLog.dfy`, `FormSessionRuns.dfy`, `FormSessionEvents.dfy`, `FormSessionSteps.dfy`, `FormSessionWitnesses.dfy`, `FormSessionObject.dfy` | one browser form session, any number of steps and endings at once: the model with its log, the invariant, what holds in every run, which event makes which entry, what each step comes to, runs that leak a reservation, and the session object with its in-place updates |
| `WorkerLedger.dfy`, `WorkerWake.dfy`, `WorkerTick.dfy`, `WorkerReceipts.dfy`, `WorkerReceiptEvents.dfy` | durable workers: records and leases, wake scheduling under the lock, the tick's failure points and startup recovery, hook receipts and the hook events they follow |
| `Approvals.dfy` | single-use approvals |
| `VerificationOpens.dfy` | confirmation links: tokens and the open guard |
| `CanonicalJson.dfy`, `CanonicalJsonParser.dfy`, `CanonicalJsonOrder.dfy`, `ProfileSnapshot.dfy` | canonical JSON, a parser that inverts it, and the immutable profile snapshot |
| `RegistrySnapshot.dfy` | the chunked registry store |
| `RunnerStorage.dfy`, `RunnerCase.dfy`, `DummyPlan.dfy`, `DomainScope.dfy` | the Python runner: crash-safe files, case transitions, simulations and reports, domain test |

## Where the code and its promises part

Each is a theorem that names the exact condition; the model keeps the code's behaviour.

1. `SECURITY.md:81` says a possible write becomes `submission_uncertain` and is never retried without a
   review. `runParityEmail` (`lib/parity-email.mjs:97-100`) reports a cancellation for any transport error
   once the caller has aborted, and the tool body then releases the intent and deletes the dedupe record
   (`index.ts:4361-4370`). `ProviderOutcomes.ParityEmailIsMisclassifiedIff` gives the exact attempts;
   `SubmissionWitnesses.MisclassifiedEmailWritesTwice` shows that every one of them lets a second write through.
2. A form session breaks the same promise in three ways, each with a run in
   `SubmissionWitnesses.EachCauseBreaksThePromise`: `rightout_form_domain_mismatch` from the receipt snapshot of
   a confirmed submission outside the guided stage (`index.ts:6630`) is on the "definitely not started" list
   (`index.ts:6689-6695`); nothing keeps two steps of one session apart, so a click that joined another click's
   reservation is sent after, or before, that one is refused and releases it (`index.ts:6539`, `6696-6700`);
   and a dedupe delete that throws leaves the flag of a released reservation set (`index.ts:6698-6699`).
   Without these, and without cause 1, the promise holds: `SubmissionPromise.PromisedBoundHolds`. The exact
   condition for a release after a write is `FormSessionRuns.FalseReleaseIff`.
3. A session can leave a case whose outcome is still "pending" in a state that the reconcile tool refuses.
   `FormSessionRuns.LeakedIff` gives the exact condition: the case is recorded `blocked` or `human_task_queued`
   while a reservation is unsettled. `FormSessionRuns.LeakHasCause` says why: a snapshot that no longer fits the
   recipe is recorded as blocked before the intent is marked uncertain (`index.ts:2138-2143`), or an ending
   queues the case without having seen the flag, because the mark failed, the reserve call took effect and
   threw, the timer fired between the reservation and its mark, or a release without effect was cleared; or the
   ending saw it and could not record the uncertain outcome. `FormSessionWitnesses` has a run for each.
4. `rightout_worker_complete` reads the receipt and then closes the lease in a second call
   (`index.ts:7072-7085`); an after-hook in between makes it close a completed command as
   `transient_failure`: `WorkerReceipts.TransientClosesCompletedCommandIff`. Two overlapping after-hooks of one
   key consume it twice: `WorkerReceipts.OverlappingHooksConsumeTwice`.
5. A tick that found the worker not due schedules without a token check (`index.ts:6964-6970`) and can
   replace a newer watchdog (`WorkerWake.NotDueTickReplacesTheWatchdog`); so can any other call whose scheduling
   is delayed past the next call's, such as a completion (`WorkerWake.CompletionReplacesTheWatchdog`).
   `WorkerWake.StaysSettledIff` gives the exact condition over a run: a caller whose own ledger call came before
   the last token change gets to register.
6. Startup recovery (`index.ts:2292-2314`) stops at the first worker whose last gate write throws and leaves
   the later workers alone: `WorkerTick.WorkerHost.Recover` says exactly when, and
   `WorkerTick.StoppedRecoveryLosesAWorker` shows the next worker left without a wake. A claim that is stored
   and then throws leaves an active worker without one: `WorkerTick.StoredClaimCanLoseTheWake`.
7. A webmail open whose receipt fails after the guard is deleted (`index.ts:4645-4648`), or a browser path whose
   delete throws after it took effect, is reported with `retry_blocked`, but nothing blocks the next open.
   `VerificationOpens.RetryBlockHoldsIff`: with no guard lost from outside, these two are exactly what breaks it.
8. An approval's expiry is looked at in the prune only (`index.ts:2765-2772`):
   `Approvals.AcceptedInTimeIff` says exactly when an accepted execution is in time, and
   `Approvals.ApprovalOutlivesItsExpiry` that one which waits any time after its prune is accepted.
9. `canonicalJson` ignores insertion order exactly when the key comparison never calls two distinct keys
   equal (`CanonicalJsonOrder.OrderIndependentIff`); `localeCompare` can, for canonically equivalent keys.
10. A registry snapshot reads back exactly when it has 1 to 1000 records and states that number
    (`RegistrySnapshot.RegistryStore.SaveThenRead`).
11. The runner's `transition` assigns the state before it checks the disclosed fields
    (`data_broker_removal.py:1221-1237`), so a refused disclosure leaves a state without history:
    `RunnerCase.StaysInStepIff`.
12. `simulate_dummy` aborts on scenario names that the fixtures accept (shorter than 3 or longer than 64
    characters, or a proof reference that reads as personal data, such as a five-digit name):
    `DummyPlan.Plan.SimulateDummy`.
13. A case that no longer stands in the way of a submission can still be refused by its dedupe record, until
    that expires. `SubmissionRecovery.RefusedAfterCrashIff` says exactly when, over every run and crash;
    `SubmissionRecovery.CrashPoints` that within one given-up submission it is the crash between
    `releaseSubmission` and the delete of the dedupe record (`index.ts:4180-4182`), and
    `SubmissionRecovery.BlocksIff` which ledger exits and late marks do it too.
14. `docs/approval-boundary.md:59` says resuming a worker needs another approval, but `complete` does not look at
    the status (`lib/autonomy-worker.mjs:574-605`): a gated worker whose lease is still live becomes active again by
    a second completion. `WorkerLedger.GateIsLeftIff` says exactly when, and
    `WorkerReceiptEvents.GateIsLeftWithoutResume` is a run.

## Assumptions

- One ledger or store call is one atomic step (`lib/file-keyed-store.mjs:242-249`, `lib/cases.mjs:227-247`);
  it may take effect and still throw.
- Hashes and digests are collision-free; random lease ids, hook keys, handles and session ids do not repeat.
- The schedule lock and the runner's `flock` exclude other holders; a killed holder releases them.
- Renames and host calls are atomic; a host call may also fail after taking effect.
- Clocks do not run backwards where an expiry is compared (`Approvals`).
- In `CanonicalJson`, numbers are integers that JavaScript prints without an exponent.

## Model

| member | source | states |
|---|---|---|
| `CaseLedger.EveryCallFollowsTheTable` | `lib/cases.mjs:37-57` | every state change any ledger operation makes is one row, or two rows in a row, of the transition table |
| `CaseLedger.ProtectionIsLeftOnlyBy` | `lib/cases.mjs:560-571` | exactly which calls take a case out of the six protected states |
| `CaseLedger.ReserveRefusesProtected` | `lib/cases.mjs:534-558` | a reservation succeeds only from an unprotected state and leaves the case pending |
| `CaseLedger.ReserveSucceedsIff` | `lib/cases.mjs:534-558` | a reservation succeeds exactly from six named states, or from a new case whose broker requires no discovery |
| `CaseLedger.TableByTarget` | `lib/cases.mjs:37-57` | the transition table read by target: from which states each state is reached |
| `CaseLedger.PendingOutcome` | `lib/cases.mjs:329-450` | release, uncertain and the records of a submission are accepted exactly for a pending case (two only by channel), each with its own state and outcome |
| `CaseLedger.ReplyOutcome` | `lib/cases.mjs:590-645` | a controller reply is accepted exactly for sent, identity-gated, partly removed and uncertain cases, and where each reply leads |
| `CaseLedger.AbsenceOutcome` | `lib/cases.mjs:481-505` | the first absence in flight sets a second look; a later one confirms exactly when that look is due |
| `CaseLedger.ReviewOutcome` | `lib/cases.mjs:647-685` | a review settles exactly pending and uncertain cases, and how |
| `CaseLedger.ConfirmedNeedsEvidence` | `docs/architecture.md:142` | over any history of calls, a confirmed or reappeared case had an accepted confirming controller reply or two accepted direct absences, the later strictly after the earlier |
| `CaseLedger.PortalRequestStemsFromForm` | `lib/cases.mjs:387-409` | a requested portal verification always stems from a browser-form submission |
| `ProviderOutcomes.RemovalEmailVerdict` | `index.ts:4171-4177` | the SMTP tool, for every valid attempt: confirmed exactly if the message was handed over and the recipient accepted, a possible write exactly if it was handed over otherwise, not started exactly if it was not |
| `ProviderOutcomes.ParityEmailVerdict` | `index.ts:4362-4363` | the parity tool likewise, but for the attempts its abort window covers, which count as not started |
| `ProviderOutcomes.SubmitBrowserForm` | `lib/browser-form.mjs:767-811` | the closed form submitter, request by request: confirmed exactly if no request failed, a possible write exactly if one did and the submit click was among those sent or the error is a bridge failure, not started exactly otherwise |
| `ProviderOutcomes.ParityEmailIsMisclassifiedIff` | `lib/parity-email.mjs:81-100` | the parity writer calls a handed-over message "not started" exactly on an abort in flight followed by a transport error |
| `ProviderOutcomes.EmailWritersDifferIff` | `lib/parity-email.mjs:97-100` | the two SMTP writers classify the same behaviour differently exactly when the sender threw and an abort came after dispatch |
| `ProviderOutcomes.FormStepIsMisclassifiedIff` | `index.ts:6686-6696` | a sent form action counts as "not started" exactly when its receipt snapshot shows a foreign domain |
| `SubmissionBound.RunKeepsExcess` | `index.ts:2662-2697` | from any state in which makers hold their reservations, no event of any interleaving raises reservations live or written + [case unprotected] above the credit of reviews, exits, portals, misreleases and strays |
| `SubmissionBound.WritesAreBounded` | `SECURITY.md:81` | in every run the reservations written under number at most 1 + reviews + ledger exits + portal continuations + releases of written reservations + reservations first written after their release |
| `SubmissionOutcomes.RecordsFollowAcceptance` | `index.ts:4171-4177` | in every run, a submitter about to record its submission has settled an attempt the provider accepted |
| `SubmissionOutcomes.AcceptedWriteIsRecorded` | `index.ts:4146-4164` | after an accepted attempt, whatever else happens, its next step is the record: state, outcome and next look for each writer |
| `SubmissionOutcomes.DoubtfulWriteBecomesUncertain` | `SECURITY.md:81` | after a possible write that was not accepted, whatever else happens, its next step marks the pending case uncertain, and the dedupe record stays |
| `SubmissionOutcomes.RefusedClickIsReleasedIff` | `index.ts:6686-6710` | a click refused before it went out gives its own reservation up exactly for the twelve listed codes outside the guided stage, and is doubted exactly for the others |
| `SubmissionSteps.AttemptsFollowTheirIntent` | `index.ts:4125-4134` | in every run a tool about to make its attempt has registered its dedupe record, then reserved the case, then marked the record, in this order, each call having answered |
| `SubmissionSteps.CooldownLasts` | `index.ts:4122-4135` | the cooldown ends only by a release of its own kind, its expiry or the end of the process |
| `SubmissionSteps.EndingsDoubtTheFlag` | `index.ts:2525-2530` | an ending whose session had a standing flag goes on to mark the case uncertain, steps in flight unchanged |
| `SubmissionPromise.ReleaseAfterWriteIff` | `index.ts:4361-4370` | an attempt that sent its effect goes on to release its reservation exactly when it is one of the two misclassified kinds |
| `SubmissionPromise.PromisedBoundHolds` | `SECURITY.md:81` | without a misclassified attempt, two steps of one session in flight together, or a flag left by a failed delete, the last two terms of the bound are gone |
| `SubmissionWitnesses.MisclassifiedEmailWritesTwice` | `index.ts:4361-4370` | every misclassified parity attempt has a run with two writes and no review, exit or portal |
| `SubmissionWitnesses.EachCauseBreaksThePromise` | `index.ts:6685-6700` | so has each of the form-session causes: a lost receipt, a joined click sent after or before the release, a stale flag |
| `SubmissionWitnesses.BoundIsReached` | `index.ts:5945-5956` | for every n there is a run with n reviews and 1 + n writes: the bound is the best possible |
| `SubmissionRecovery.SubmissionStores.AcquireSubmissionDedupe` | `index.ts:2662-2686` | the call is granted exactly when no dedupe record exists or one of the two takeover conditions holds, and what it stores |
| `SubmissionRecovery.SubmissionStores.AcquireAndReserve` | `index.ts:4125-4134` | acquire, reserve, mark: succeeds exactly when granted and the ledger accepts; a refusal leaves the case and no new key |
| `SubmissionRecovery.SubmissionStores.ReconcileNotStarted` | `index.ts:5945-5956` | a "not started" review succeeds exactly from pending or uncertain, and the next acquire is then granted |
| `SubmissionRecovery.AcquireStepsMatchMethod` | `index.ts:2662-2686` | the interleaved acquire steps of one undisturbed submitter do what the method does |
| `SubmissionRecovery.RetryIsPossibleAfterCrash` | `index.ts:2676-2685` | after any interleaving and a crash: never reserved and unprotected means the next acquire succeeds; reviewed as not started means it succeeds exactly outside the two portal phases, and then so does the reservation |
| `SubmissionRecovery.ProtectedCaseIsNotRewritten` | `index.ts:2676-2685` | a case protected at a crash is written again only through a review, an exit, a portal continuation, a misrelease or a stray, whatever follows |
| `SubmissionRecovery.BlocksIff` | `index.ts:2676-2685` | exactly which events make an unprotected case refused: a release before its dedupe delete, a ledger exit, a forgotten case, a review in a portal phase, a late mark |
| `SubmissionRecovery.UnblocksIff` | `index.ts:2676-2685` | exactly which events end that |
| `SubmissionRecovery.RefusedAfterCrashIff` | `index.ts:2662-2686` | after any run and a crash an unprotected case is refused exactly when a record beyond the first registration survives and the case is not the reviewed one, and exactly when a blocking event was not followed by an unblocking one |
| `SubmissionRecovery.CrashPoints` | `index.ts:4180-4182` | the nine crash points of a submission its tool gives up: protected from the reservation to the release, refused though unprotected exactly between the release and the dedupe delete |
| `FormSession.FieldDisclosureMap` | `index.ts:2411-2424` | a field is mapped exactly when its disclosure is permitted, and to that disclosure |
| `FormSessionRuns.ClicksAreBacked` | `index.ts:6515-6589` | for every click of any run: its admission and the fills, consent and selection its stage asks for come earlier in the log; it acts under its own unreleased reservation or one whose flag stood at its admission; and the case is the pending one exactly if no ledger call has settled the reservation |
| `FormSessionRuns.DisclosuresStayPermitted` | `index.ts:6505-6608` | every field sent, also by a fill that then failed, is permitted, a date of birth only with its approval; what is noted was sent |
| `FormSessionRuns.FalseReleaseIff` | `index.ts:6686-6700` | a released reservation has been clicked under exactly when the releasing step lost the receipt of its own click or another step clicked under it |
| `FormSessionRuns.LeakedIff` | `index.ts:2504-2560` | after any run the case holds an unreconcilable pending outcome exactly when it was blocked or queued while a reservation was unsettled |
| `FormSessionRuns.LeakHasCause` | `index.ts:2525-2543` | such a call is an incompatible snapshot's, or an ending's that saw no flag, every one set having been cleared, or whose uncertain record had no effect |
| `FormSessionRuns.LeakedIsUnreconcilable` | `lib/cases.mjs:647-660` | no reconciliation accepts a leaked case |
| `FormSessionEvents.EntriesHaveTheirEvents` | `index.ts:6593-6700` | every log entry of any run was written by an event of its kind: a consent by a return that saw the box checked, a ledger entry by a call that took effect |
| `FormSessionEvents.RecordsFollowSuccess` | `index.ts:6610-6682` | in any run each recorded submission follows a return of the same step, its final click sent, with the success marker; in the generic stage every required disclosure had been returned by then |
| `FormSessionSteps.TroubledStepIsDoubted` | `index.ts:6700-6704` | a step under a reservation whose final click returned without success, or failed in any way not certain to precede the click, goes on to mark the case uncertain |
| `FormSessionSteps.DoubtMarksUncertain` | `index.ts:6700-6704` | that mark makes the pending case uncertain and gives the session up |
| `FormSessionSteps.SuccessIsRecorded` | `index.ts:6629-6682` | a successful final click is recorded once its receipt is there: state, outcome and next look for each stage |
| `FormSessionSteps.RefusalGivesUp` | `index.ts:6689-6699` | a listed refusal of a step under its own reservation outside the guided stage, and only that, goes on to release it |
| `FormSessionSteps.ReleaseReopens` | `index.ts:6696-6699` | the release reopens the pending case, and the flag is cleared exactly after the dedupe delete has answered |
| `FormSessionSteps.AdmissionIff` | `index.ts:6504-6558` | a step is admitted exactly by the rules of its stage, and makes a reservation exactly for a click that needs one when none stands |
| `FormSessionWitnesses.FailedMarkLeaks` | `index.ts:6563-6575` | a generic click whose mark fails, then an expiry with a tab that stays |
| `FormSessionWitnesses.GuidedFailedMarkLeaks` | `index.ts:6576-6589` | a guided click whose mark fails, then an expiry, the tab closing |
| `FormSessionWitnesses.ThrownReserveLeaks` | `index.ts:6563-6575` | a reserve call that takes effect and throws, then an expiry |
| `FormSessionWitnesses.EndingDuringReservationLeaks` | `index.ts:6563-6571` | an expiry between the reservation and its mark, with the click still sent |
| `FormSessionWitnesses.FailedReleaseLeaks` | `index.ts:6696-6700` | a refused click whose release has no effect and whose flag is cleared, then an expiry |
| `FormSessionWitnesses.FailedDoubtLeaks` | `index.ts:2525-2543` | an expiry that sees the flag but cannot record the uncertain outcome |
| `FormSessionWitnesses.IncompatibleSnapshotLeaks` | `index.ts:2138-2143` | an incompatible snapshot while the session holds its reservation |
| `FormSessionObject.BrowserFormSession.Check` | `index.ts:6504-6552` | the checks of a step, with their loops, accept exactly what the model admits |
| `FormSessionObject.BrowserFormSession.NoteReturned` | `index.ts:6593-6608` | the in-place updates of a returned action, with the loop over the fields, give the model's session |
| `WorkerLedger.ActiveWorkersAreWakeable` | `lib/autonomy-worker.mjs:302-640` | after any ledger calls at any times an active worker has a wake time to restore |
| `WorkerLedger.CompletionsAreBacked` | `lib/autonomy-worker.mjs:558-607` | over any history, the completions counted, and the receipt the current lease may hold, are at most the completed receipts stored |
| `WorkerLedger.ClaimOutcome` | `lib/autonomy-worker.mjs:363-386` | for every record: a claim grants, gates or changes nothing, exactly when; a live lease always stands |
| `WorkerLedger.LeasesNeverOverlap` | `lib/autonomy-worker.mjs:369` | in any history a second lease is granted only after the first expired, unless a completion, resume, revocation or campaign end came between |
| `WorkerLedger.CommandsAreNotReclaimed` | `lib/autonomy-worker.mjs:370-373` | no history claims a new lease over a planned command: it stays the leased one until completed, resumed, revoked or the campaign is over |
| `WorkerLedger.EndingOutcome` | `lib/autonomy-worker.mjs:574-603` | exactly which endings are accepted and what each leaves, with the backoff times written out |
| `WorkerLedger.FailureBudgetHolds` | `lib/autonomy-worker.mjs:589-600` | over any history the recorded failures are the transient ones in a row, and an active worker is within its budget |
| `WorkerLedger.GateIsLeftIff` | `lib/autonomy-worker.mjs:558-626` | a gated worker becomes active exactly by a resumption, or by an ending of the still live lease it was gated under |
| `WorkerWake.RunKeepsLock` | `index.ts:2183-2240` | in every interleaving one scheduler at most is past the lock and one job at most is pending under the tag |
| `WorkerWake.StaleRecoveryNeverReplacesTheWatchdog` | `index.ts:2186-2240` | after a call's confirmed locked step, with any recovery passes from before or after, the only job carries the current token while the record keeps it and no late call installs its own |
| `WorkerWake.StaysSettledIff` | `index.ts:2187-2194` | after a confirmed wake and while the token stays, the wake is never replaced by a stale one exactly if no caller whose own ledger call came before the last token change gets to register |
| `WorkerWake.OutdatedCallerReplaces` | `index.ts:2187-2194` | from any settled state, such a caller replaces the wake once it gets the lock |
| `WorkerWake.NotDueTickReplacesTheWatchdog` | `index.ts:6964-6970` | a reachable run in which a not-due tick's request replaces the confirmed watchdog |
| `WorkerWake.CompletionReplacesTheWatchdog` | `index.ts:7085-7100` | a reachable run in which a completion's does, with no tick that was not due |
| `WorkerTick.WorkerHost.Schedule` | `index.ts:2179-2259` | what a schedule attempt leaves under the tag for each way it can end, and when it counts as registered |
| `WorkerTick.WorkerHost.ScheduleOrGate` | `index.ts:2266-2280` | an unconfirmed wake gates the worker |
| `WorkerTick.WorkerHost.Tick` | `index.ts:6959-7058` | the claim is granted exactly if the campaign is active and the worker is due with no lease, or an expired one that holds no command; a live lease stands; past a granted claim, for every failure of every call, the worker ends closed, gated or with a confirmed wake, unless the process dies or the catch clause's gate write has no effect; an interactive plan is gated and never issued, any other plan ends as written out for it; a claim that is stored and throws leaves the claimed record and the old jobs |
| `WorkerTick.WorkerHost.RecoverOne` | `index.ts:2293-2313` | one worker's recovery turn: a confirmed wake leaves the record alone, anything else gates it; it throws exactly when an unrestored wake reaches a throwing last gate |
| `WorkerTick.WorkerHost.Recover` | `index.ts:2292-2314` | every worker handled ends closed, gated or with a confirmed wake; the pass stops exactly at the first worker whose turn throws or dies, and the rest is untouched |
| `WorkerTick.StoppedRecoveryLosesAWorker` | `index.ts:2309-2313` | whatever the two workers, a pass stopped at the first leaves the second active without a wake the host would have confirmed |
| `WorkerTick.RecoveryCanStop` | `index.ts:2309-2313` | such a stop exists for every active worker with a wake time, in two ways |
| `WorkerTick.StoredClaimCanLoseTheWake` | `index.ts:6959-6964` | a claim stored and then thrown leaves an active worker with a new lease and no wake |
| `WorkerTick.WorkerHost.TickThenRestart` | `index.ts:2292-2318` | whatever a tick's calls did, a restart whose gate writes succeed leaves every worker safe |
| `WorkerReceipts.EverySuccessIsBacked` | `index.ts:3873-3903` | over any run, a lease closed as succeeded follows an after-hook that stored a completed receipt for its exact command, after a before-hook with the same session, run and call |
| `WorkerReceipts.OverlappingHooksConsumeTwice` | `index.ts:3883-3892` | from any state with a leased command, two overlapping after-hooks consume one registration twice |
| `WorkerReceipts.KeysAreConsumedOncePerBinding` | `index.ts:3883-3892` | consumptions of a key plus its live registration equal its bindings plus its late consumptions |
| `WorkerReceipts.SeparateHooksConsumeOnce` | `index.ts:3141-3156` | without overlapping after-hooks for a key, it is consumed at most as often as it was bound |
| `WorkerReceipts.TransientClosesCompletedCommandIff` | `index.ts:7069-7085` | a lease about to close as transient holds a completed receipt exactly when an after-hook stored one since the receipt was read |
| `WorkerReceipts.CompletedCommandCanCloseAsTransient` | `index.ts:7069-7085` | from any state with a leased command and a free key, events that close a completed command as transient |
| `WorkerReceipts.EndingsFollowWhatWasRead` | `index.ts:7072-7085` | over any run each ended lease follows the completion that ended it: as succeeded after reading a completed receipt, as transient only after reading none, and any receipt read turns "transient" into a gate |
| `WorkerReceiptEvents.RunIsAHistory` | `index.ts:3873-3903` | in every run of hooks, ticks and completions the worker record is a history of ledger calls, so what holds of every history holds there |
| `WorkerReceiptEvents.HooksFollowTheirCommand` | `lib/autonomy-worker.mjs:446-469` | every registration, consumption and receipt follows a hook of the same call that found exactly this command leased, in time and unresolved |
| `WorkerReceiptEvents.GateIsLeftWithoutResume` | `index.ts:7069-7085` | two completions in a row take any leased command's worker into the human gate and out of it |
| `Approvals.ApprovalBindings.Prune` | `index.ts:2765-2768` | the loop leaves exactly the entries that have not expired |
| `Approvals.ApprovalBindings.Ask` | `index.ts:3190-3191` | a new assisted call drops expired entries and its own id's old one |
| `Approvals.AcceptedExecutionsWereAllowed` | `index.ts:3931-3936` | over any interleaving, an accepted execution follows an allow-once for its call, tool and scope, unexpired at its prune, with nothing of that call in between |
| `Approvals.EntriesHaveTheirEvents` | `index.ts:5744-5748` | an allowance in the log is an allow-once answer to a question, for the call, tool and scope it asked about |
| `Approvals.AllowedExecutionIsAccepted` | `index.ts:3190-3191` | the converse: an allow-once answer whose call nothing touches, and which no prune finds expired, lets a matching execution through, whatever other calls do |
| `Approvals.NoResolutionBacksTwoExecutions` | `index.ts:5744-5748` | so accepted executions inject into allow-once resolutions, reused call ids included |
| `Approvals.AcceptedInTimeIff` | `index.ts:2765-2772` | in every run an accepted execution is before its approval's expiry exactly when less time passes between its prune and its take than the approval had left at the prune |
| `Approvals.ApprovalOutlivesItsExpiry` | `index.ts:2765-2772` | whatever it waits in between, such an execution is accepted |
| `VerificationOpens.OpensAreBounded` | `index.ts:5290-5306` | opens in flight or unresolved number at most 1 + guards lost + lapses, over all paths |
| `VerificationOpens.RetryBlockHoldsIff` | `index.ts:4644-4677` | with no guard lost from outside, every attempt that is unresolved (which ones: UncertainOpenBlocksRetry) keeps its guard throughout a run exactly if no receipt fails after the guard's delete and no browser path's delete throws after taking effect |
| `VerificationOpens.NoOpenAfterUnresolved` | `index.ts:5290-5306` | then no other attempt's open is in flight at any time after the report |
| `VerificationOpens.UncertainOpenBlocksRetry` | `index.ts:5395-5449` | an open not requested in time, or whose case was not recorded, is unresolved ever after; with no loss or lapse its guard is the stored one and no other open is in flight |
| `VerificationOpens.OnlyFinishedAttemptsDropTheGuard` | `index.ts:5395-5449` | besides a loss, the guard is dropped only by an attempt whose open was recorded or that sent none |
| `VerificationOpens.LapseLetsAnotherOpen` | `index.ts:4644-4677` | after any run that ends in such a failure with no guard left, another open goes ahead |
| `VerificationOpens.ReportedRetryBlockIsNotKept` | `index.ts:4644-4677` | a reachable run with two opens at once and no guard lost |
| `VerificationOpens.OneOpenPerLiveGuard` | `index.ts:4560-4584` | at most one open is in flight or unresolved under the live guard |
| `VerificationOpens.TokensOpenAtMostOnce` | `index.ts:5299-5306` | no stored token's link is opened twice in any run |
| `CanonicalJson.PrintIsRawOfNormal` | `index.ts:322-330` | the print is the plain print of the normal form: keys sorted at every level, undefined as null |
| `CanonicalJson.WordsAndNumbers` | `index.ts:329` | null, true, false and integers, code unit by code unit |
| `CanonicalJson.StringForm` | `index.ts:329` | which units of a string are escaped, and how, lone surrogates included |
| `CanonicalJson.ArrayForm` | `index.ts:323` | brackets and commas around the items in order |
| `CanonicalJson.ObjectForm` | `index.ts:325-327` | braces, commas, quoted keys and colons around members in key order |
| `CanonicalJsonParser.ReadQuoted` | `index.ts:327-329` | a printed string, with its escapes, reads back as itself |
| `CanonicalJsonParser.ParseInvertsRaw` | `index.ts:322-330` | the parser inverts the plain print of every value, whatever follows it |
| `CanonicalJsonParser.ParseInvertsPrint` | `index.ts:322-330` | reading a canonical print gives exactly the normal form |
| `CanonicalJsonOrder.EqualPrintsAreSame` | `index.ts:332-334` | equal prints mean equal values up to key order, whatever the comparison |
| `CanonicalJsonOrder.PrintsAgreeIff` | `index.ts:325-327` | with a comparison that separates keys, prints are equal exactly for values equal up to key order |
| `CanonicalJsonOrder.OrderIndependentIff` | `index.ts:326` | the print ignores insertion order for all values exactly when no two distinct keys compare equal |
| `ProfileSnapshot.SuccessesSawOneProfile` | `index.ts:2331-2341` | over any interleaving, the calls recorded as successful under one stored snapshot saw its founder's profile up to key order |
| `ProfileSnapshot.AcceptedProfileIsImmutable` | `index.ts:2334-2337` | over events: between two acceptances with no loss in between the profile is the same up to key order, and the first one's is what is stored |
| `ProfileSnapshot.SnapshotStands` | `index.ts:2334` | a stored snapshot stands, with its founder, until it is lost |
| `ProfileSnapshot.LostSnapshotAcceptsAny` | `index.ts:2334-2338` | after a loss the next call is accepted whatever its profile |
| `ProfileSnapshot.LookupAcceptsIff` | `index.ts:2331-2341` | a call that finds a snapshot is accepted exactly when its profile is the registered one up to key order |
| `RegistrySnapshot.RegistryStore.Register` | `lib/file-keyed-store.mjs:336-344` | a written key becomes the newest; a new key past 20 entries drops the oldest and nothing else |
| `RegistrySnapshot.RegistryStore.Save` | `index.ts:2343-2356` | the store after any number of a save's writes: exactly the chunks written so far (the newest 20), or all of it |
| `RegistrySnapshot.RegistryStore.RegistryRecords` | `index.ts:2373-2384` | the chunk loop computes the specified reading |
| `RegistrySnapshot.RegistryStore.SaveThenRead` | `index.ts:2343-2384` | the saved sequence reads back exactly when it has 1 to 1000 records and its stated count |
| `RegistrySnapshot.RegistryStore.InterruptedSaveThenRead` | `index.ts:2343-2384` | wherever a save stops, a reader sees the old snapshot, none, or the whole new one |
| `RegistrySnapshot.ChunksConcat` | `index.ts:2345-2346` | the slices of 100 concatenate to the records |
| `RegistrySnapshot.LostEntriesNeverShowAPart` | `index.ts:2376-2383` | entries lost one by one never make a partial answer |
| `RunnerStorage.AuditIsWholeLines` | `skills/data-broker-removal/scripts/data_broker_removal.py:142-147` | with kills at any step the audit file is always the renamed lines, whole and in order, and no line is lost |
| `RunnerStorage.FinishedLinesAreThere` | `skills/data-broker-removal/scripts/data_broker_removal.py:142-147` | for every line, the file holds it as often as at the start plus once for each writer past its rename with that line |
| `RunnerStorage.SavesRaiseTheRevision` | `skills/data-broker-removal/scripts/data_broker_removal.py:1061-1073` | each successful save stored exactly the next revision, from the one it expected |
| `RunnerStorage.OneWinnerPerRevision` | `skills/data-broker-removal/scripts/data_broker_removal.py:1070-1071` | of the writers expecting the same revision at most one succeeds |
| `RunnerStorage.RunnerFiles.SavePlan` | `skills/data-broker-removal/scripts/data_broker_removal.py:1061-1074` | the compare-and-set and the audit line of one save |
| `RunnerStorage.SaveStepsMatchMethod` | `skills/data-broker-removal/scripts/data_broker_removal.py:1061-1073` | the interleaved plan steps of one undisturbed writer do what the method does |
| `RunnerStorage.AppendStepsMatchMethod` | `skills/data-broker-removal/scripts/data_broker_removal.py:206-231` | the interleaved append steps of one undisturbed writer append its line |
| `RunnerStorage.DeathFreesTheLocks` | `skills/data-broker-removal/scripts/data_broker_removal.py:187-203` | a killed writer leaves its locks and nothing else, and whoever waits can take them |
| `RunnerCase.RunsStaySound` | `skills/data-broker-removal/scripts/data_broker_removal.py:1200-1243` | over any calls, aborted ones too: confirmed or reappeared means a later-scan entry, disclosures stay in the plan, catalog cases stay new |
| `RunnerCase.SubmissionsRestOnEvidence` | `skills/data-broker-removal/scripts/data_broker_removal.py:1209-1218` | over any calls: a submitted case has a confirmed official evidence entry, a found one has listing URLs, and every submission in the history disclosed a field of its own |
| `RunnerCase.SensitiveDisclosuresAreGated` | `skills/data-broker-removal/scripts/data_broker_removal.py:1202-1236` | over any calls: only safe evidence with valid proof references is kept, and a sensitive disclosure has an entry of a human-completed step under the explicit gate |
| `RunnerCase.TableByTarget` | `skills/data-broker-removal/scripts/data_broker_removal.py:26-42` | ALLOWED_STATES read by target |
| `RunnerCase.ProofReferenceIff` | `skills/data-broker-removal/scripts/data_broker_removal.py:49` | which texts are proof references, over written-out alphabets |
| `RunnerCase.StaysInStepIff` | `skills/data-broker-removal/scripts/data_broker_removal.py:1221-1243` | a call keeps the history a path ending in the state exactly unless it aborts after moving the case |
| `RunnerCase.HistoryIsThePathTaken` | `skills/data-broker-removal/scripts/data_broker_removal.py:26-42` | without such a call the history is a path of ALLOWED_STATES ending in the state |
| `RunnerCase.AbortLeavesStateWithoutHistory` | `skills/data-broker-removal/scripts/data_broker_removal.py:1226-1230` | a first call that leaves a blocked case with a history that says new |
| `DummyPlan.ProofIsReferenceIff` | `skills/data-broker-removal/scripts/data_broker_removal.py:1293-1305` | a scenario's proof reference is a valid one exactly for names of 3 to 64 characters |
| `DummyPlan.ScenarioNameIff` | `skills/data-broker-removal/scripts/data_broker_removal.py:22` | a scenario name is accepted exactly when the fixture's broker id matches the id pattern |
| `DummyPlan.Plan.Transition` | `skills/data-broker-removal/scripts/data_broker_removal.py:1200-1243` | the in-place updates, in the source's order, give the specified case and outcome |
| `DummyPlan.Plan.AddFixtures` | `skills/data-broker-removal/scripts/data_broker_removal.py:1139-1159` | one fixture per scenario is appended exactly when all names are valid |
| `DummyPlan.Plan.SimulateDummy` | `skills/data-broker-removal/scripts/data_broker_removal.py:1281-1310` | the simulation completes exactly when every fixture's scenario is well formed; then each has its scenario's state, history and disclosures, and catalog cases are unchanged |
| `DummyPlan.Plan.SimulateScanOnly` | `skills/data-broker-removal/scripts/data_broker_removal.py:1313-1324` | the scan-only simulation never aborts, discloses nothing and gives each fixture its scan state and history |
| `DummyPlan.Plan.DummyRun` | `skills/data-broker-removal/scripts/data_broker_removal.py:1728-1738` | for any list of scenario names: completes exactly when every one is accepted and well formed, with the catalog untouched and every fixture in its state |
| `DummyPlan.Plan.StateCounts` | `skills/data-broker-removal/scripts/data_broker_removal.py:1611-1614` | the counting loop gives every occurring state its number of cases |
| `DummyPlan.RunFixtures` | `skills/data-broker-removal/scripts/data_broker_removal.py:1157` | a run's plan holds one fixture per scenario |
| `DummyPlan.RemovalListsPartitionFixtures` | `skills/data-broker-removal/scripts/data_broker_removal.py:1508-1527` | after a completed run the removal lists add up to the fixtures, each in its state's list |
| `DummyPlan.ListsKeepPlanOrder` | `skills/data-broker-removal/scripts/data_broker_removal.py:1461-1483` | every report list keeps the order of the plan |
| `DummyPlan.ListedIff` | `skills/data-broker-removal/scripts/data_broker_removal.py:1517-1522` | which cases each list holds, on the cases themselves |
| `DummyPlan.StateCountsSumToCases` | `skills/data-broker-removal/scripts/data_broker_removal.py:1611-1614` | the state counts add up to the number of cases |
| `DummyPlan.ScanListsSumIff` | `skills/data-broker-removal/scripts/data_broker_removal.py:1460-1483` | the scan lists add up to checked_count exactly when every checked fixture ended in a scan state |
| `DummyPlan.ScanOnlyListsSum` | `skills/data-broker-removal/scripts/data_broker_removal.py:1460-1483` | so they do after every scan-only run |
| `DomainScope.InDomainIffLabels` | `skills/data-broker-removal/scripts/data_broker_removal.py:1656` | for all strings, equal or ending with "." and the domain means the domain's labels end the host's |
| `DomainScope.ScopeIsTransitive` | `skills/data-broker-removal/scripts/data_broker_removal.py:1656` | the test is transitive through subdomains |
| `DomainScope.VerifyLinkScope` | `skills/data-broker-removal/scripts/data_broker_removal.py:1651-1657` | a link is in scope exactly for https and a host whose labels end with an allowed domain's |

## Left out

- SubmissionBound.WritesAreBounded: counts the verified-portal continuations separately, because the code reserves them from a protected state without reopening the case; the dedupe record of the portal phases is modelled, the portal flow store is not.
- SubmissionOutcomes.AcceptedWriteIsRecorded: the next look is the default number of processing days; a catalog entry's own number is not modelled. That the case is still the writer's pending one is a condition, not a consequence.
- SubmissionPromise.PromisedBoundHolds: the conditions are sufficient and each is needed for some run; a run can also meet a cause without a second write.
- FormSessionRuns.LeakedIff: one session and one case that is not pending when it begins; concurrent writers are in `SubmissionProtocol`, and the purge tool's deletion of the case after it ends the sessions is not modelled.
- FormSession.FieldDisclosureMap: the value map's construction from the profile is not modelled.
- CaseLedger.EveryCallFollowsTheTable: a broker entry that does not exist is a case in state `new`; the DROP operations, evidence lists, proof references and free text are not modelled.
- WorkerWake.StaleRecoveryNeverReplacesTheWatchdog: jobs carry the token of the record they were requested for, not a delay; how the delay is computed from it is not modelled.
- WorkerTick.WorkerHost.Tick: sequential: what other calls do to the same worker during a tick is in `WorkerWake` and `WorkerReceipts`.
- WorkerReceipts.EverySuccessIsBacked: one worker; two workers never plan the same command, because a command names its campaign and a campaign has one worker.
- WorkerReceipts.KeysAreConsumedOncePerBinding: an after-hook's lookup of its key and the ledger match after it are one event, since a match that holds at the later point also holds at the lookup.
- VerificationOpens.OpensAreBounded: opens of one submission reference; the case-state checks before an open, which would also block later attempts, are not modelled.
- CanonicalJsonOrder.PrintsAgreeIff: integers only; the shortest decimal print of other doubles is not modelled.
- RunnerStorage.OneWinnerPerRevision: the two end-to-end commands write the plan without `save_plan` and are not writers here.
- DummyPlan.Plan.SimulateDummy: the personal-data pattern is a parameter, and the fixed notes and evidence of the simulation are taken to pass it.
- Registry records, catalog rows and message contents are opaque; field validation is not modelled.
- SMTP, IMAP, the browser bridge, HTTP fetches, encryption and key rotation appear only as outcomes.
- Campaign ledger, planner, team access, evidence vault, custom targets, preference controls and doctor or setup reports: single-call checks and reports without shared state.
- Catalog validation, `install.sh` and `release_check.py`: conjunctions over constants and effects outside the repository.
