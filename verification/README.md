# CloseLoop, verified

CloseLoop keeps one durable row per resolution. Several service instances advance that row by optimistic
compare-and-swap, call a cancellation provider at most once, read the account back a bounded number of
times, and reach a terminal outcome only through a deterministic verifier. This project models that
protocol in Dafny and proves what it keeps under every interleaving and every crash.

## How the project is built

- `Models`, `Outcomes`, `Records`: the values (receipts, evidence, contracts, violations, recoveries, the
  record). Times are whole microseconds. A digest is the term that was hashed, so digests are equal exactly
  when the hashed fields are.
- `Verifier`, `Confirmation`, `Lifecycle`: the decisions, and what each service call does to its copy of a
  record between two accesses to the store or to a provider.
- `Rules`, `Effects`: the rules of the service spelled out on fields and claims, and exactly when each kind of
  save is stored and what it leaves, stated without the functions that compute it.
- `Contract`, `Validator`, `Validity`, `Codec`, `RoundTrip`, `Decoding`: what the store accepts, the validator as
  it loops and what it guarantees, the persisted form, reading it back, and what is never read.
- `RecordObject`, `Repositories`, `Service`, `DemoProvider`, `Demo`, `Listing`, `Admission`: the imperative
  code as classes, methods and loops, each method proved against the functions above.
- `Traces` and the invariants over them (`Counting`, `Scheduling`, `Attempts`, `Recoveries`, `Attention`,
  `Invariants`, `Rederivation`, with `Counts` for a fact about sets): the rows that one resolution goes
  through, whoever wrote them.
- `Growth`, `Verdicts`, `Timing`, `Provenance`, `Saving`: what follows for all traces.
- `Protocol`, `Safety`, `SafeSteps`, `Theorems`: processes that load, save and call providers in any order
  and may stop at any point, the invariant of their runs, and the safety theorems. `Clocks` adds one clock to
  these runs, `Exhaustion` follows rows whose budget is spent.
- `Stores`, `SqlRefinement`: the two conditional saves, compared with each other and with one atomic
  compare-and-swap.
- `Starting`: when a new record can be stored. `Reachability`, `Scenarios`, `Counterexamples`: runs of the
  protocol, built step by step, that show where a description promises too much. `Wrappers`: Option and Result.

`dafny verify dfyconfig.toml` checks everything.

## Where the code does less than its descriptions

1. A record is read back unchanged only if each of its attempts is judged alike whether the record's target
   or the receipt's is expected: the decoder takes the receipt's (`repository_contract.py:130`), the service
   its own (`lifecycle.py:441`). A provider that reports success without a target digest and then shows
   fresh evidence leaves a row that can no longer be read. `RoundTrip.DecodingInvertsEncodingExactly` gives
   the exact condition, `Counterexamples.UnnamedReceiptsCannotBeReadBack` a run.
2. A save that was built from the current row is accepted exactly if that row is open, the clock did not
   run back behind its last transition, the attestation is inside the store's own window, and the charge
   that the check rests on is found again under its identifier
   (`Saving.SavesFailOnlyForClocksAndIdentifiers`). With one clock and identified charges, confirmations and
   rechecks are refused for a version or terminal conflict only (`Clocks.RefusalsAreConflicts`). Recovery and
   billing calls read their clock before they load the row, so they can be refused for their time
   (`Counterexamples.EarlyClocksLoseEvidence`), and a charge with an empty identifier stops every check that would rest on it
   (`Counterexamples.NamelessChargesStopChecks`).
3. The verifier's window of whole seconds admits ages up to, but not including, 121 seconds; the store stops
   at 120 (`Confirmation.WindowsDifferByLessThanASecond`, `Counterexamples.SlowConfirmationsAreNotStored`).
4. `docs/adversarial-security.md:119` says that a failed check or an exhausted budget leaves
   `AWAITING_PROOF`. A row that is in `VERIFYING` with its last check claimed leaves that state exactly if its
   very next save records that check (`Exhaustion.SpentRowsLeaveExactlyByCheck`), and it can still do so
   exactly while a live call holds the current row with a check that can be recorded
   (`Exhaustion.SpentRowsStayExactlyWithoutHolder`). It is stranded when that call stops
   (`Counterexamples.StoppedCallsStrandTheRow`), and also when a billing or recovery save overtakes it, even
   with a charge stored (`Counterexamples.OvertakenCallsStrandTheRow`): `recheck_resolution` refuses every
   later attempt (`lifecycle.py:365`).
5. `docs/trust-model.md:124` derives failure from an accepted receipt and the whole window only. A check ends
   `NOT_COMPLETED` exactly as `Verdicts.ChecksDecideExactly` says; a recent charge suffices at the first check,
   without an accepted receipt (`Counterexamples.ChargesFailTheFirstCheck`).
6. The service has branches that offer a refund draft on a terminal record and let one be confirmed
   (`lifecycle.py:521`, `lifecycle.py:614`), but both stores refuse to write a terminal row, so no draft is
   added to one or executed from one (`Growth.TerminalRowsAreFinal`, `Theorems.RecoveredOnlyWhenAuthorised`).
7. Permits of the public demo all come back unless creating an inner task raises
   (`Admission.PermitsComeBackExactly`). The runs that are still going stay within the bound as long as no
   inner task is cancelled (`Admission.UnfinishedRunsStayBounded`); after cancellations they can exceed it
   exactly if more runs have outlived their tasks than permits are lost (`Admission.BoundIsExceededExactly`,
   `Admission.CancelledTasksOverrun`).
8. The SQL listings order by one time column only. They agree with the DynamoDB listings, whatever the database
   does with equal times, exactly if no record that is shown ties with the next one
   (`Listing.BackendsListAlikeExactly`).

## Model

| member | source | states |
|---|---|---|
| `Theorems.CancelledAtMostOnce` | src/closeloop/lifecycle.py:293-330 | In every run of interleaved and crashing calls, two calls of cancel_subscription are for different resolutions |
| `Theorems.CancelledOnlyWhenAuthorised` | src/closeloop/lifecycle.py:299-325 | Each call of cancel_subscription comes after a stored EXECUTING row of that very key, under a token whose own decoded claims say confirmed, name this verifier and the row's owner, resolution, action and digest, and were live when it was confirmed; the row keeps those claims as its one attestation |
| `Theorems.RecoveredAtMostOnce` | src/closeloop/lifecycle.py:640-650 | Two calls of execute_recovery are for different resolutions or different recovery ids, whoever confirms and however often |
| `Theorems.RecoveredOnlyWhenAuthorised` | src/closeloop/lifecycle.py:589-645 | Each call of execute_recovery comes after a stored open row in which that recovery is EXECUTING before it expired, under a token whose own decoded claims confirm that very recovery of that owner and resolution to this verifier and were live then; it is a refund draft for a stored charge or a follow-up of an AWAITING_PROOF row |
| `Theorems.AttestationsAreUsedOnce` | src/closeloop/confirmation.py:185-195 | One token authorises at most one side effect, a cancellation or a recovery, across all owners and resolutions of the store |
| `Theorems.ReadBacksStayWithinBudget` | src/closeloop/lifecycle.py:380-395 | The read-backs made for a resolution never outnumber its stored check_count, and that never exceeds four |
| `Theorems.StoredRowsAreKept` | src/closeloop/repository.py:141-207 | From any state of a run to a later one, every stored row is kept and rows are only added |
| `Theorems.TerminalOutcomesAreImmutable` | src/closeloop/repository.py:167-170 | A resolution that is VERIFIED or NOT_COMPLETED in one state of a run is exactly the same in every later state |
| `Theorems.StoredRowsAreAccountable` | src/closeloop/repository_contract.py:171-448 | Every row in every reachable store is valid, carries its own version and key, rests on proof when VERIFIED and on a charge or the full window when NOT_COMPLETED, and holds at most three events and three proposals |
| `Theorems.VersionsAreOfKey` | src/closeloop/lifecycle.py:380-395 | Distinct permits of one resolution carry distinct versions, so counting versions counts read-backs |
| `Theorems.ClaimsAreCounted` | src/closeloop/lifecycle.py:380-395 | check_count is the number of saves that claimed a check |
| `Theorems.ConfirmationWasExpected` | src/closeloop/lifecycle.py:299-312 | A stored confirmation was accepted for a cancellation of that row's owner and resolution |
| `Theorems.RecoveryWasExpected` | src/closeloop/lifecycle.py:624-634 | A stored claim of a recovery was accepted for that recovery of that owner and resolution |
| `SafeSteps.RunsAreSafe` | src/closeloop/lifecycle.py:281-412 | The invariant of all runs: traces are well formed, a process's copy is the row of its version, no two processes hold the same permit or the same running recovery, and every provider call and read-back rests on its own save |
| `SafeSteps.StepKeepsSafe` | src/closeloop/lifecycle.py:281-745 | Every step of every call (load, save, provider call, read-back, reload, crash) keeps that invariant |
| `SafeSteps.ExecutionIsClaimed` | src/closeloop/lifecycle.py:640-645 | A recovery handed to the provider was awaiting confirmation in the row before and is stored as executing in the row after, unchanged until the same call finishes it |
| `Safety.AcceptedCopyIsCurrent` | src/closeloop/repository.py:171-174 | A save that is accepted was built from the current row, because equal versions are equal rows |
| `Traces.TraceRowsAreValid` | src/closeloop/repository_contract.py:171-448 | Every row of a trace passes the validator, carries its index as version and keeps owner and identifier |
| `Traces.LifecycleOf` | src/closeloop/lifecycle.py:281-515 | What an accepted save changes in the lifecycle part of a row, kind by kind, and that recovery and billing saves leave that part alone |
| `Traces.MetadataFrame` | src/closeloop/lifecycle.py:603-745 | Recovery and billing saves change only recoveries, attention, violations, the update time and the version |
| `Traces.RecordCheckFrame` | src/closeloop/lifecycle.py:414-515 | A recorded check changes only the verification fields, recoveries and attention |
| `Counting.CountingIsKept` | src/closeloop/lifecycle.py:328-332 | check_count equals the VERIFYING entries, one EXECUTING entry follows the start, and the history is 3 + check_count + attempts long, after every save |
| `Counting.NewIsCounted` | src/closeloop/lifecycle.py:255-278 | A new record satisfies the counting identities |
| `Counting.RecheckStarts` | src/closeloop/lifecycle.py:349-366 | A recheck is only claimed from AWAITING_PROOF or VERIFYING, with budget left and no recovery executing |
| `Scheduling.SchedulingIsKept` | src/closeloop/lifecycle.py:456-481 | The current result is the last attempt's, and next_check_at is its time plus five minutes per check exactly while the budget lasts |
| `Scheduling.EligibleChecksMayEndWindow` | src/closeloop/lifecycle.py:354-359 | A check that may end the window uses the last of the budget at least a full interval after the attempt before it |
| `Attempts.AttemptsStaySound` | src/closeloop/lifecycle.py:414-465 | Every stored attempt stays judged as the verifier judges it from the record, and eligible attempts end the window |
| `Attempts.EvidenceIsAlwaysValid` | src/closeloop/lifecycle.py:824-846 | Whatever the provider answers, the evidence kept is well formed |
| `Attempts.ReceiptIsAlwaysValid` | src/closeloop/lifecycle.py:808-821 | Whatever the provider answers, the receipt kept is well formed |
| `Recoveries.RecoveriesKeepOrder` | src/closeloop/lifecycle.py:483-493 | Every save moves each recovery at most once along its protocol, keeps reasons and ids distinct, completes follow-ups only with VERIFIED, and leaves executing ones to the call that runs them |
| `Recoveries.AtMostThreeProposals` | src/closeloop/lifecycle.py:535-541 | A resolution has at most three proposals, for distinct reasons |
| `Attention.AttentionStaysDistinct` | src/closeloop/lifecycle.py:495-515 | The dedupe keys of a record's events stay pairwise distinct and warranted by its state |
| `Attention.AtMostThreeEvents` | src/closeloop/outcomes.py:147-174 | At most three events with distinct keys accumulate |
| `Invariants.SoundnessIsKept` | src/closeloop/lifecycle.py:281-745 | All these invariants together survive every accepted save |
| `Invariants.TraceRowsAreSound` | src/closeloop/lifecycle.py:281-745 | They hold of every row of every trace |
| `Invariants.ViolationsGrow` | src/closeloop/lifecycle.py:727-729 | Stored violations are only appended, and stay admissible under the contract |
| `Invariants.ChargesKeepVerifiedAway` | src/closeloop/lifecycle.py:729-744 | A VERIFIED row has no violation observed at or before its check |
| `Rederivation.TraceRowsAreRederivable` | src/closeloop/repository_contract.py:118-147 | The verdict of every stored attempt can be derived again from the record and the attempt's violation identifier |
| `Growth.LaterRowsExtend` | src/closeloop/repository_contract.py:243-261 | Of two stored versions the earlier history is a prefix of the later one, longer by at most the number of saves between; attempts, violations and check_count only grow; confirmation and receipt never change |
| `Growth.HistoriesAreWalks` | src/closeloop/lifecycle.py:71-92 | Every stored history is a walk of the transition graph that ends in the row's state, with at most one EXECUTING entry |
| `Growth.TerminalRowsAreFinal` | src/closeloop/dynamodb_repository.py:104-143 | A terminal row is the last of its trace |
| `Growth.ConfirmedOnce` | src/closeloop/lifecycle.py:293-325 | A trace holds at most one accepted confirmation |
| `Growth.RecoveriesMoveByProtocol` | src/closeloop/lifecycle.py:603-693 | From row to row each recovery stays or makes one move of AWAITING_CONFIRMATION to DECLINED, EXPIRED or EXECUTING, EXECUTING to VERIFYING, COMPLETED or FAILED, VERIFYING to COMPLETED or FAILED; new ones await confirmation |
| `Growth.RecoveriesExtend` | src/closeloop/lifecycle.py:535-568 | A stored recovery keeps its place, identity and digest, and never awaits confirmation again |
| `Growth.RecoveryClaimedOnce` | src/closeloop/lifecycle.py:598-600 | Each recovery is claimed for execution at most once |
| `Verdicts.VerifiedRestsOnProof` | src/closeloop/verifier.py:112-189 | VERIFIED rests on readable evidence at most 30 s old with auto-renew off and an end date, an accepted receipt and evidence for this target and the last attempt, and no violation observed by then |
| `Verdicts.NotCompletedRestsOnRefutation` | src/closeloop/verifier.py:84-176 | NOT_COMPLETED rests on a charge between deadline and check at most seven days old, or on a spent budget, auto-renew still on and a last check 5·(max_checks−1) minutes after the one before |
| `Verdicts.ChargeRulesOutVerified` | src/closeloop/lifecycle.py:427-434 | Once a charge is stored, no check at or after it is ever stored as VERIFIED, even one in flight when it was recorded |
| `Verdicts.FollowupsAreSettled` | src/closeloop/lifecycle.py:483-493 | A follow-up is COMPLETED only in a VERIFIED row, and no terminal row holds one in EXECUTING or VERIFYING |
| `Provenance.ReceiptsComeFromTheProvider` | src/closeloop/lifecycle.py:808-821 | The receipt of every stored row was built from the answer to one earlier provider call; one that reports success is that answer unchanged |
| `Provenance.OutcomesComeFromReadBacks` | src/closeloop/lifecycle.py:824-846 | A terminal row was left by a check, and unless a charge decided it its evidence is the provider's own answer to that read-back: a failure to read never becomes an outcome |
| `Provenance.ChecksRaiseAttention` | src/closeloop/lifecycle.py:495-512 | After a stored check the event that its row calls for is there, added once, and nothing else is |
| `Provenance.ProposalsAreJustified` | src/closeloop/lifecycle.py:517-568 | A proposal is stored with its event, expires after five minutes, and rests on fresh evidence of renewal in an AWAITING_PROOF row, or on a stored charge for a refund draft |
| `Provenance.RecoveriesEndByReceipt` | src/closeloop/lifecycle.py:667-691 | An executing recovery ends as FAILED unless a receipt for that very action claims success; then a refund draft is COMPLETED and a follow-up VERIFYING; no other recovery changes |
| `Provenance.ChecksStaySilentExactly` | src/closeloop/outcomes.py:147-172 | A stored check raises nothing exactly if its row is open, uncharged and not known to renew within six hours of a deadline still ahead, or if the row's condition was raised before |
| `Rules.TokensAreAcceptedExactly` | src/closeloop/confirmation.py:112-205 | A token is accepted exactly if its own claims say confirmed, name this verifier, the expected owner, resolution, action and digest, and are live: issued by now, not expired, for at most 300 s, less than 121 s old; its claims are what is kept |
| `Rules.RechecksAreAdmittedExactly` | src/closeloop/lifecycle.py:349-378 | A recheck is admitted exactly with budget left and no recovery executing, from VERIFYING five minutes after the last update, from AWAITING_PROOF with the due schedule token or, without one, by force or when due |
| `Rules.ForceAdmitsAtAnyTime` | src/closeloop/lifecycle.py:367-378 | A forced recheck without a schedule is admitted from every AWAITING_PROOF row with budget left and no recovery executing, at any time |
| `Rules.DecisionsAreMadeExactly` | src/closeloop/lifecycle.py:586-645 | A decision on a recovery is made exactly when it is pending and expired, or may be carried out and is declined or truly confirmed; which of the three it is, and that nothing else changes |
| `Rules.ChargesAreAdmittedExactly` | src/closeloop/lifecycle.py:702-726 | Billing evidence is admitted exactly if it is a renewal charge of this owner, resolution and target that the contract prohibits, with a positive amount, known currency, the billing source and an identifier of 1 to 128 characters, observed from the deadline on and at most seven days ago |
| `Rules.ChargesAreRecordedExactly` | src/closeloop/lifecycle.py:727-744 | A new charge is kept with its urgent event, raised once, and with a refund draft if recovery is enabled and none was proposed before |
| `Rules.ChecksLeaveExactly` | src/closeloop/lifecycle.py:414-515 | The attempt, the schedule of five minutes per check, the state and the reason that a check leaves, the recoveries it settles, and the event and proposal it adds |
| `Rules.OccasionsAreExact` | src/closeloop/outcomes.py:147-172 | Each of the five conditions of attention holds exactly when it is the one raised |
| `Rules.AttendingAddsExactly` | src/closeloop/lifecycle.py:509-568 | An event is added exactly once for each condition, and with it a proposal exactly when recovery is enabled, the row is open or charged, it may help, and none was made for that reason |
| `Rules.RecoveriesSettleExactly` | src/closeloop/lifecycle.py:483-493 | A waiting recovery is completed, failed or left waiting with the outcome |
| `Rules.RecoveriesFinishExactly` | src/closeloop/lifecycle.py:651-693 | An executed recovery ends by the provider's receipt for that very action, and keeps that receipt or says that it was unknown or malformed |
| `Rules.AnswersAreKeptExactly` | src/closeloop/lifecycle.py:808-821 | A provider's answer is kept unchanged exactly if it is well formed; otherwise a failure under a new request id is |
| `Rules.ReadBacksAreKeptExactly` | src/closeloop/lifecycle.py:824-846 | A read-back is kept unchanged exactly if it is well formed; otherwise an unreadable account is |
| `Rules.RequestsAreStartedExactly` | src/closeloop/lifecycle.py:240-278 | Which requests are accepted, and what is stored of them: stripped text, target, deadline and charge clause |
| `Rules.StripsExactly` | src/closeloop/lifecycle.py:247-249 | The stored text is the request without the spaces around it |
| `Rules.DeadlinesAreExact` | src/closeloop/outcomes.py:95-106 | The deadline is none, the next midnight, or the start of the Friday in the coming week or in the one after |
| `Rules.CancelDigestsBind` | src/closeloop/confirmation.py:57-83 | Two cancellations share a digest exactly if owner, resolution, intent, mode and target are the same |
| `Rules.RecoveryDigestsBind` | src/closeloop/outcomes.py:220-226 | Two recoveries share a digest exactly if they agree in all that is hashed, down to reason and expiry |
| `Lifecycle.LatestViolationIsNewest` | src/closeloop/lifecycle.py:427-434 | The violation that a check is judged by is the newest one observed by then |
| `Effects.ConfirmationsAreStoredExactly` | src/closeloop/lifecycle.py:293-322 | A confirmation is stored exactly over an AWAITING_CONFIRMATION row, on a forward clock, under a truly confirming token of a known issuer at most 120 s old |
| `Effects.ConfirmationsLeaveExactly` | src/closeloop/lifecycle.py:313-322 | It leaves EXECUTING with the claims of that token, and nothing else |
| `Effects.AnswersAreStoredExactly` | src/closeloop/lifecycle.py:328-333 | The provider's answer is stored exactly over EXECUTING on a forward clock |
| `Effects.AnswersLeaveExactly` | src/closeloop/lifecycle.py:328-333 | It leaves VERIFYING with receipt, time and first check, and nothing else |
| `Effects.RechecksAreStoredExactly` | src/closeloop/lifecycle.py:349-395 | A check is claimed over a row exactly when one is admitted and the clock is not behind the row |
| `Effects.RechecksLeaveExactly` | src/closeloop/lifecycle.py:380-395 | The claim takes one check and, from AWAITING_PROOF, drops the last result and its schedule |
| `Effects.ChecksAreStoredExactly` | src/closeloop/lifecycle.py:396-411 | A read-back is recorded exactly over VERIFYING, under unused identifiers, in time, with an identified charge |
| `Effects.ChecksLeave` | src/closeloop/lifecycle.py:414-515 | A stored check leaves the attempt, state, schedule, settled recoveries, event and proposal that the rules call for |
| `Effects.ChecksSettleRecoveries` | src/closeloop/lifecycle.py:483-493 | In every trace a waiting recovery is COMPLETED exactly when the check leaves VERIFIED, FAILED exactly with NOT_COMPLETED, and still VERIFYING exactly with AWAITING_PROOF, marked at the check's time; all others are unchanged |
| `Effects.DecisionsAreStoredExactly` | src/closeloop/lifecycle.py:586-645 | A decision is stored exactly over an open row, in time, for a pending recovery that expired, or may be carried out and was declined or truly confirmed |
| `Effects.DecisionsMoveOneRecovery` | src/closeloop/lifecycle.py:603-645 | In every trace a stored decision leaves EXPIRED exactly at or after the expiry, DECLINED exactly before it without consent, EXECUTING exactly before it with consent and the token's id, and every other recovery unchanged |
| `Effects.ChargesAreStoredExactly` | src/closeloop/lifecycle.py:705-745 | A charge is stored exactly if it is admissible and new, over an open row, on a clock that is not behind it |
| `Effects.ChargesLeaveExactly` | src/closeloop/lifecycle.py:727-745 | A stored charge is kept, with its urgent event there and its refund draft where none was proposed before |
| `Effects.FinishesLeaveExactly` | src/closeloop/lifecycle.py:651-693 | A stored end of a recovery changes that recovery by its receipt and nothing else |
| `Verdicts.ChecksDecideExactly` | src/closeloop/verifier.py:84-189 | A stored check leaves VERIFIED if and only if there is proof and no charge was observed by then, and NOT_COMPLETED if and only if the latest such charge is at most seven days old, at any check and with any receipt, or there is none and the eligible last check proves renewal |
| `Exhaustion.SpentRowsLeaveExactlyByCheck` | src/closeloop/lifecycle.py:365-395 | A row in VERIFYING with a spent budget leaves that state, at once and for good, if and only if its very next save records a check |
| `Exhaustion.SpentRowsStayExactlyWithoutHolder` | src/closeloop/lifecycle.py:365-412 | In a reachable state such a row stays in VERIFYING in every continuation if and only if no live call holds the current row with a check whose time, attempt id and charge can still be recorded |
| `Exhaustion.StrandedForGood` | src/closeloop/lifecycle.py:365-412 | Once no call can record the check, none ever can |
| `Timing.SchedulesAreFiveMinutesApart` | src/closeloop/lifecycle.py:467-472 | Along a trace each new next_check_at is at least five minutes after the one before, forced checks included |
| `Timing.ScheduleTokensAreUsedOnce` | src/closeloop/lifecycle.py:367-371 | A schedule token that claimed a check from AWAITING_PROOF never claims another |
| `Timing.SupersededTokensAreRefused` | src/closeloop/lifecycle.py:367-371 | A token that a later check has superseded claims nothing |
| `Timing.FailureTakesTwentyFiveMinutes` | src/closeloop/lifecycle.py:360-395 | With four checks and none forced, failure without a charge comes at least 25 minutes after the first VERIFYING entry, whichever checks were interrupted |
| `Timing.HistoriesAreBounded` | src/closeloop/lifecycle.py:328-333 | |state_history| = 3 + check_count + attempts once started, so at most eleven entries |
| `Saving.SavesFailOnlyForClocksAndIdentifiers` | src/closeloop/repository_contract.py:171-448 | A record that the service builds from a sound row is accepted over it if and only if the row is open, the clock did not run back, the attestation is storable and the charge is identified |
| `Saving.DistinctIdentifiersSuffice` | src/closeloop/repository_contract.py:426-433 | Unique, nonempty violation ids make every charge identifiable |
| `Saving.OutcomeIsValid` | src/closeloop/repository_contract.py:171-448 | The validator is inductive: what a step builds from a valid row is valid exactly under the same condition |
| `Clocks.RefusalsAreConflicts` | src/closeloop/lifecycle.py:321-411 | Under one clock that never runs back, and with distinct nonempty charge identifiers, a save of a confirmation or recheck is accepted in any run if and only if its version is current and the row is open; the first save of a confirmation also needs a storable attestation |
| `Clocks.ClockedStatesAreInTime` | src/closeloop/lifecycle.py:298-352 | In such runs no stored transition is later than now, and no call holds a copy newer than its own last step |
| `Starting.StartedRecordsAreValidExactly` | src/closeloop/repository_contract.py:158-168 | What start_resolution builds passes validate_new_record exactly when identifier and mode are not blank and time does not run back |
| `Starting.StrippedIsNotBlank` | src/closeloop/lifecycle.py:247-249 | A stripped intent that is not empty is not blank |
| `Verifier.PassExactlyForProof` | src/closeloop/verifier.py:84-189 | PASS if and only if there is proof of cancellation and no violation at hand |
| `Verifier.FailExactlyForRefutation` | src/closeloop/verifier.py:84-176 | FAIL if and only if there is a correlated charge, or fresh correlated evidence of renewal at the end of the window |
| `Verifier.ReasonsAreExact` | src/closeloop/verifier.py:66-199 | Each reason is given exactly for its condition, and the result repeats the receipt and the evidence it was given |
| `Confirmation.WindowsDifferByLessThanASecond` | src/closeloop/confirmation.py:170-178 | The whole-second window contains the store's exact one and differs from it only for ages strictly between 120 and 121 seconds |
| `Confirmation.TokenSpeaksForOneAction` | src/closeloop/confirmation.py:185-195 | A token accepted twice was accepted for the same owner, resolution, action and digest |
| `Outcomes.FridayDeadlineIsAComingFriday` | src/closeloop/outcomes.py:98-105 | A Friday deadline is the start of a Friday within the next seven days, or the seven after those for "next" |
| `Contract.ViolationByIdIsTheFirst` | src/closeloop/repository_contract.py:426-433 | The violation looked up by identifier is the first stored one that has it, and there is none exactly when no stored one has it |
| `Validator.ValidateTargetRecord` | src/closeloop/repository_contract.py:171-448 | The validator, with its loops, accepts exactly the records that satisfy IsValid |
| `Validator.ValidateBinding` | src/closeloop/repository_contract.py:174-204 | The binding loops accept exactly when target, contract, events, recoveries and violations belong to the record |
| `Validator.ValidateAttempts` | src/closeloop/repository_contract.py:223-236 | The attempt loop accepts exactly the histories with distinct ids, increasing counts within the budget and nondecreasing times |
| `Validator.ValidateHistory` | src/closeloop/repository_contract.py:243-267 | The history loops accept exactly the walks from REQUESTED with nondecreasing times inside the record's times |
| `Validator.TransitionTimes` | src/closeloop/repository_contract.py:292-295 | The dictionary of entry times maps each state that was entered to its last entry |
| `Validator.AttestedTransitions` | src/closeloop/repository_contract.py:303-307 | The attested transitions, in order |
| `Validator.ValidatePhase` | src/closeloop/repository_contract.py:269-448 | What the record must hold in its state: confirmation, receipt, evidence, and a result that the verifier gives again |
| `Validity.ValidRecordsHoldTheirOwn` | src/closeloop/repository_contract.py:174-204 | Target, contract, events, violations and recoveries of every valid record are its own |
| `Validity.ValidRecordsAreConfirmed` | src/closeloop/repository_contract.py:303-347 | Every started valid record has exactly one attestation, at EXECUTING, for its own action and at most 120 s old when confirmed; no other record has one |
| `Validity.ConfirmationsCannotBeTransplanted` | src/closeloop/repository_contract.py:328-337 | Two valid records that share their confirmation are of the same owner, resolution, intent, mode and target |
| `Validity.ValidRecordsAreInOrder` | src/closeloop/repository_contract.py:243-301 | History, confirmation, receipt, evidence and result of every valid record are in the order of its lifecycle |
| `Validity.ValidRecordsHoldNothingEarly` | src/closeloop/repository_contract.py:269-401 | No valid record holds what a later step would leave |
| `Validity.ValidRecordsKeepTheirBudget` | src/closeloop/repository_contract.py:205-240 | Budget, schedule and attempts of every valid record |
| `Validity.OutcomesCannotBeForged` | src/closeloop/repository_contract.py:402-446 | A valid record is VERIFIED exactly if its own receipt and evidence prove it and its last attempt names no charge, and NOT_COMPLETED exactly if that charge is late or its last check proves renewal at the end of the window |
| `Codec.HistoryFromMapping` | src/closeloop/repository_contract.py:599-634 | The history-building loop computes what the rows decode to, or the first reason why they cannot be read |
| `Codec.AttemptsFromMapping` | src/closeloop/repository_contract.py:70-155 | The loop that re-verifies each attempt against those before it computes DecodeAttempts |
| `Codec.ErrorsAreFinalInHistory` | src/closeloop/repository_contract.py:599-634 | The first unreadable transition decides the result |
| `Codec.ErrorsAreFinalInAttempts` | src/closeloop/repository_contract.py:70-155 | The first unreadable attempt decides the result |
| `RoundTrip.DecodingInvertsEncodingExactly` | src/closeloop/repository_contract.py:451-722 | Decoding an encoded record returns that record if every attempt is judged alike under the receipt's target and the record's, and fails otherwise |
| `RoundTrip.StoredRowsAreReadBack` | src/closeloop/repository_contract.py:553-722 | Every row of a trace is read back unchanged or not at all, and always when its receipt names the record's target |
| `RoundTrip.RedecodingAgrees` | src/closeloop/repository_contract.py:118-140 | The decoder derives a stored attempt's verdict again exactly when receipt and record expect alike |
| `RoundTrip.CountsOutgrowIndices` | src/closeloop/repository_contract.py:101-103 | The i-th attempt has check_count at least i, so the decoder's bound holds |
| `RoundTrip.AttemptsDecode` | src/closeloop/repository_contract.py:70-155 | All attempts decode back, the recomputed terminal-failure window included, exactly under that condition |
| `RoundTrip.HistoryDecodes` | src/closeloop/repository_contract.py:725-743 | Encoded histories decode to themselves |
| `Decoding.DecodedRecordsAreGenuine` | src/closeloop/repository_contract.py:553-722 | Whatever the store holds, a record read from it is valid, says exactly what the row says, and every attempt in it has the verdict that its own evidence gives, a stored charge if it names one, and a full interval before it if it ended the window |
| `Decoding.DecodedAttemptsAreGenuine` | src/closeloop/repository_contract.py:70-155 | The same of every attempt that the decoding loop lets through |
| `Decoding.DecodedHistoryIsTheRow` | src/closeloop/repository_contract.py:599-634 | A decoded history encodes to the stored one |
| `Stores.BackendsAcceptAlike` | src/closeloop/dynamodb_repository.py:98-163 | The SQL checks with the guarded UPDATE and the conditional put accept exactly the same stored rows and new records |
| `Stores.BackendsRefuseAlike` | src/closeloop/dynamodb_repository.py:219-246 | On a readable row both refuse a valid record for the same reason, but for a changed history under an equal version |
| `Stores.SqlDecidesAtomically` | src/closeloop/repository.py:147-199 | On the row of a record the two SQL phases together are one atomic decision, and the second never refuses what the first has passed |
| `Stores.ConditionsAgree` | src/closeloop/dynamodb_repository.py:104-143 | The condition expression holds exactly for the current version, an open predecessor state and the exact expected history |
| `SqlRefinement.SqlRefinesAtomicStore` | src/closeloop/repository.py:147-203 | Every run of reads followed later by guarded UPDATEs is, row for row, a run of atomic compare-and-swaps that also compare the history |
| `SqlRefinement.GuardedUpdateIsAtomic` | src/closeloop/repository.py:299-322 | The guard on version and state admits a writer exactly when comparing the whole history would |
| `SqlRefinement.UnchangedRowsAdmitTheirWriter` | src/closeloop/repository.py:189-198 | A half-done save goes through exactly when its row is still at the version that it read |
| `SqlRefinement.SqlRunsAreConsistent` | src/closeloop/repository.py:147-203 | In every run equal versions mean equal rows, and each half-done save was checked against the row of its version |
| `RecordObject.ResolutionRecord.Transit` | src/closeloop/lifecycle.py:857-877 | Moves along an edge of the graph and appends the transition, or refuses and changes nothing |
| `RecordObject.ResolutionRecord.BeginExecution` | src/closeloop/lifecycle.py:293-319 | Accepted exactly from AWAITING_CONFIRMATION under a token whose claims confirm this cancellation; then EXECUTING with those claims kept, otherwise nothing changes |
| `RecordObject.ResolutionRecord.ClaimFirstCheck` | src/closeloop/lifecycle.py:328-332 | Receipt, first check and VERIFYING, and nothing else |
| `RecordObject.ResolutionRecord.IsRecoveryRunning` | src/closeloop/lifecycle.py:349-350 | The scan finds a recovery in EXECUTING exactly if there is one |
| `RecordObject.ResolutionRecord.CheckRecheck` | src/closeloop/lifecycle.py:349-378 | No refusal exactly when state, budget, recoveries, time, schedule token and force admit a check; eligible exactly for the last check, claimed when due |
| `RecordObject.ResolutionRecord.ClaimRecheck` | src/closeloop/lifecycle.py:349-395 | The claim is made exactly when a check is admitted; otherwise nothing changes |
| `RecordObject.ResolutionRecord.FindViolation` | src/closeloop/lifecycle.py:427-434 | The backward search finds the newest stored violation observed no later than the check: none stored after it was, and none is found exactly when all were observed later |
| `RecordObject.ResolutionRecord.StoreAttempt` | src/closeloop/lifecycle.py:450-481 | Attempt, result, schedule, resolution time and the move out of VERIFYING |
| `RecordObject.ResolutionRecord.SettleRecoveries` | src/closeloop/lifecycle.py:483-493 | The in-place loop completes a waiting recovery exactly on PASS and fails it exactly on FAIL, with a mark at that time, and changes no other |
| `RecordObject.ResolutionRecord.CreateRecoveryProposal` | src/closeloop/lifecycle.py:517-568 | A proposal is added exactly when one is justified, open and new |
| `RecordObject.ResolutionRecord.RecordVerification` | src/closeloop/lifecycle.py:414-515 | The attempt, verdict, schedule and state that the rules call for, waiting recoveries settled in the sense of the outcome, and the event and proposal that the new state calls for |
| `RecordObject.ResolutionRecord.DecideRecovery` | src/closeloop/lifecycle.py:586-644 | A decision is made exactly on a pending recovery that expired, or may be carried out and was declined or truly confirmed; it becomes EXPIRED, DECLINED or EXECUTING accordingly and nothing else changes |
| `RecordObject.ResolutionRecord.FinishRecovery` | src/closeloop/lifecycle.py:651-693 | The recovery with that id ends by the provider's receipt, which is kept, and nothing else changes; nothing at all when it is gone |
| `RecordObject.ResolutionRecord.RecordOutcomeViolation` | src/closeloop/lifecycle.py:695-744 | Refused exactly unless it is a bound, prohibited renewal charge between the deadline and now and at most seven days old; a new one is kept with its urgent event and refund draft |
| `RecordObject.StartResolution` | src/closeloop/lifecycle.py:240-278 | Accepted exactly with an owner, a text of at most 2000 characters and a supported intent; the fresh record holds the stripped text, its deadline and its charge clause, and awaits confirmation |
| `Repositories.SqlResolutionRepository.Create` | src/closeloop/repository.py:114-123 | Inserts a valid new record unless the identifier is taken, by any owner |
| `Repositories.SqlResolutionRepository.GetOwned` | src/closeloop/repository.py:125-139 | Returns the decoded row of that identifier and owner, or why not |
| `Repositories.SqlResolutionRepository.SaveOwned` | src/closeloop/repository.py:141-207 | Read, checks and UPDATE change the table and the record's version exactly when SqlCheck passes, and otherwise nothing |
| `Repositories.SqlResolutionRepository.UpdateWhere` | src/closeloop/repository.py:299-322 | The guarded UPDATE matches one row or none |
| `Repositories.DynamoDbResolutionRepository.Create` | src/closeloop/dynamodb_repository.py:61-83 | Puts a valid new record unless owner and identifier are taken together |
| `Repositories.DynamoDbResolutionRepository.GetOwned` | src/closeloop/dynamodb_repository.py:85-96 | Returns the decoded item, or why not |
| `Repositories.DynamoDbResolutionRepository.SaveOwned` | src/closeloop/dynamodb_repository.py:98-163 | One conditional put changes the items and the record's version exactly when DynamoCheck passes; a failed one is classified by a second read |
| `Repositories.DynamoDbResolutionRepository.ListOwned` | src/closeloop/dynamodb_repository.py:165-217 | The listing holds the first `limit` of that owner's open, or ended, records in their order |
| `Repositories.AnswersListAlike` | src/closeloop/dynamodb_repository.py:165-217 | Two answers to one query give the same listing, however the items are split into pages |
| `Repositories.AnsweredRecordsAreDistinct` | src/closeloop/dynamodb_repository.py:165-217 | An answered query holds each of the owner's resolutions once |
| `Repositories.CheckedRowsPassTheGuard` | src/closeloop/repository.py:187-198 | A row that nobody changes between check and UPDATE passes the guard |
| `Listing.ListOwned` | src/closeloop/dynamodb_repository.py:165-217 | The page loop, the sort and the cut compute the listing of all the pages' rows, or the first row that cannot be read |
| `Listing.CollectPage` | src/closeloop/dynamodb_repository.py:177-181 | One page appends exactly its records of the right kind |
| `Listing.ListingHoldsTheFirst` | src/closeloop/dynamodb_repository.py:189-190 | The result is the first `limit` records of its kind, open ones by creation and identifier, ended ones by latest update: ordered, nothing else, and what is missing comes later and only because it is full |
| `Listing.BeforeIsLexicographic` | src/closeloop/dynamodb_repository.py:189-190 | Identifiers are compared as texts, by the first character that differs |
| `Listing.PagesDoNotMatter` | src/closeloop/dynamodb_repository.py:165-217 | The same rows in other pages and another order give the same listing |
| `Listing.ListingsPartition` | src/closeloop/dynamodb_repository.py:165-217 | The open and the recent records together are all records, and none is both |
| `Listing.BackendsListAlikeExactly` | src/closeloop/repository.py:209-241 | Everything the SQL query may answer is what DynamoDB lists, if and only if no record among those shown shares its time with the next one |
| `Listing.OrderIsUnique` | src/closeloop/dynamodb_repository.py:189-216 | There is only one way to put the same records in order, by time and then by identifier |
| `Service.ResolutionService.StartResolution` | src/closeloop/lifecycle.py:240-279 | Stores a new trace exactly when the request is accepted, valid and its identifier unused |
| `Service.ResolutionService.ConfirmResolutionAction` | src/closeloop/lifecycle.py:281-334 | With any provider, succeeds exactly with consent, a readable AWAITING_CONFIRMATION row, a truly confirming token the store keeps, forward clock readings and an identified charge; it makes all three saves, or stops exactly at the one that cannot be made |
| `Service.ResolutionService.RecheckResolution` | src/closeloop/lifecycle.py:336-412 | With any provider, which is not asked to cancel, succeeds exactly when the row is readable and a check is admitted in time with an identified charge; it makes both saves, or stops exactly at the one that cannot be made |
| `Service.ResolutionService.Save` | src/closeloop/lifecycle.py:322-333 | A save succeeds exactly when the store accepts it over the current row |
| `DemoProvider.DemoProvider.CancelSubscription` | src/closeloop/demo_provider.py:30-41 | Always reports success for the target; changes the account only in the healthy and outage modes |
| `DemoProvider.DemoProvider.ReadCancellationEvidence` | src/closeloop/demo_provider.py:43-63 | The evidence is readable exactly outside the outage mode; then it is fresh and shows whether the account renews now, otherwise nothing; it always names this target and this attempt |
| `DemoProvider.UseProvider` | src/closeloop/demo_provider.py:14-63 | A new provider that is asked to cancel, or not, and then read shows the changed or unchanged account of its mode behind a receipt that always reports success |
| `Demo.RunPublicDemo` | src/closeloop/public_demo_api.py:184-219 | Healthy ends VERIFIED, false success and outage stay open, terminal failure takes exactly three rechecks to NOT_COMPLETED with the budget spent; one confirmation in each |
| `Demo.RecheckWhenDue` | src/closeloop/public_demo_api.py:204-214 | A pass of the driver loop succeeds and uses one check; the fourth ends the window |
| `Demo.DemoConfirmationRuns` | src/closeloop/public_demo_api.py:190-203 | No save of the demo's confirmation fails, and the first verdict follows from the mode |
| `Demo.DemoRecheckRuns` | src/closeloop/public_demo_api.py:204-214 | No save of a recheck at the due time fails |
| `Demo.DemoVerdict` | src/closeloop/demo_provider.py:43-63 | The verdict on each mode's read-back |
| `Demo.OrderlyEnvironmentsExist` | src/closeloop/public_demo_api.py:176-203 | The clock, identifiers and token that the demo runs assume can be had in every mode |
| `Demo.MintedTokensAreAccepted` | src/closeloop/public_demo_api.py:521-544 | A minted token is accepted by the verifier and by the store until it expires |
| `Admission.RunsAreBalanced` | src/closeloop/public_demo_api.py:748-777 | In every run, free permits and holders add up to the bound and each request has released exactly as often as it is closed |
| `Admission.PermitsAreReleasedOnce` | src/closeloop/public_demo_api.py:722-729 | On every exit path a request gives its permit back once, and no release is one too many |
| `Admission.PermitsComeBackExactly` | src/closeloop/public_demo_api.py:757-777 | When nothing is pending all permits are back if and only if no task failed to be created |
| `Admission.UnfinishedRunsStayBounded` | src/closeloop/public_demo_api.py:748-777 | Unfinished runs never exceed max_concurrency while no inner task is cancelled |
| `Admission.BoundIsExceededExactly` | src/closeloop/public_demo_api.py:722-777 | From any reachable desk, with no further task cancelled, unfinished runs can come to exceed max_concurrency if and only if more runs have outlived their cancelled tasks than permits are lost |
| `Admission.FillsUp` | src/closeloop/public_demo_api.py:754-777 | Every permit that can come back does and is taken again, which reaches the largest number of unfinished runs |
| `Admission.SettledForGood` | src/closeloop/public_demo_api.py:722-777 | Orphaned runs only end and lost permits stay lost, whatever follows |
| `Admission.CancelledTasksOverrun` | src/closeloop/public_demo_api.py:722-729 | With a cancelled inner task they can |
| `Admission.DemoRoute.RunPublicDemo` | src/closeloop/public_demo_api.py:754-757 | A permit is taken without waiting, or the request is turned away and nothing changes |
| `Admission.DemoRoute.ResumeHandler` | src/closeloop/public_demo_api.py:758-777 | Each way in which the wait ends releases now or leaves a callback, as the state machine says |
| `Counterexamples.UnnamedReceiptsCannotBeReadBack` | src/closeloop/repository_contract.py:118-140 | A reachable state of the protocol whose current row cannot be decoded: success without a target digest, then fresh evidence |
| `Counterexamples.EarlyClocksLoseEvidence` | src/closeloop/lifecycle.py:701-745 | A reachable state in which a billing call holds the current open row, has admissible evidence and is refused, because its clock was read before a confirmation was stored |
| `Counterexamples.NamelessChargesStopChecks` | src/closeloop/repository_contract.py:426-433 | A reachable state, after a charge with an empty identifier and a confirmation, in which the call that holds the current open row cannot store its check |
| `Counterexamples.ChargesFailTheFirstCheck` | src/closeloop/verifier.py:84-110 | A reachable NOT_COMPLETED row at check_count 1 of 4, without an accepted receipt or readable evidence, because of a charge |
| `Counterexamples.StoppedCallsStrandTheRow` | src/closeloop/lifecycle.py:380-395 | A reachable state in which four calls stopped after their claims: no call is alive and the row is stranded in VERIFYING |
| `Counterexamples.OvertakenCallsStrandTheRow` | src/closeloop/lifecycle.py:695-745 | A reachable state in which a billing save overtook the last check: its call is alive with a read-back, the charge is stored, and the row is stranded in VERIFYING |
| `Counterexamples.BothProvidersAreCalled` | src/closeloop/lifecycle.py:640-650 | A reachable state after a call of cancel_subscription and a call of execute_recovery, so the theorems on side effects speak of something |
| `Counterexamples.SlowConfirmationsAreNotStored` | src/closeloop/repository_contract.py:338-347 | Every confirmation accepted by the verifier after more than 120 seconds is refused by the store, before the provider is called |

## Left out

- Service.ResolutionService.ConfirmResolutionAction: runs over the SQL repository without interference; interleavings are in `Protocol`, and `Stores.BackendsAcceptAlike` says that the other store accepts the same saves.
- Service.ResolutionService.RecheckResolution: runs over the SQL repository without interference, as above.
- JWT signatures, SHA-256, JSON and ISO-8601 text: tokens decode through an arbitrary partial function to claims, digests are free terms, times are integers; the calendar's year 9999 bound does not exist.
- Naive datetimes: every stored time is taken to carry a zone.
- SQLAlchemy, boto3, schema migration, environment selection and the DynamoDB item-size bound: only the guarded read and update and the conditional put are modelled; a storage error is a step without effect or one whose effect nobody acknowledges.
- The transport and wiring modules (`http_app.py`, `mcp_server.py`, `auth.py`, `alexa_contracts.py`), the proof-card page and the scripts.
- The checks of owner and identifier formats before a call loads anything (`lifecycle.py:794-806`): a call that fails them does nothing.
- The views (`_status_view`, `_evidence_view`, `_conversation_view`, `_consumer_summary`, `_receipt_view`, `_presentation_result`): wording and field copying.
- The intent's regular expressions: the deadline phrase and the charge clause they recognise are inputs. Fixed texts of contracts and events (version, desired state, requirement, policy, message) are dropped.
- The defaults for legacy rows without a target, and re-parsing of nested recovery and event fields: rows are those that the service writes.
- Sharing of mutable `RecoveryAction` objects: the record object holds its recoveries as values in a sequence and replaces them, so that the provider sees the action it was given and not a later state of the same object.
- The order in which the validator's clauses report: its model says whether a record is valid, not which message a bad one gets.
- The loops of `ResolutionService` for recovery and billing calls as one method each: their steps are methods of `RecordObject.ResolutionRecord`, and the order of load, save, provider call and reload is in `Protocol`.
- Progress in general: a crash can leave EXECUTING rows and recoveries in EXECUTING, by design; only for VERIFYING rows with a spent budget is it settled when they can still move.
- The three scripted demo scenarios (`persistent_resolution`, `recovery_loop`, `outcome_violation`) and the request parsing of the demo route: the four plain scenarios are driven end to end.
- The thread pool and timer of the demo route: the end of a wait is an event that may come in any order.
