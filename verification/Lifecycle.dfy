/**
  What one call of the resolution service does to its copy of a record between two accesses to the
  store or to a provider (lifecycle.py). Identifiers and clock readings are parameters.
 */
module Lifecycle {
  import opened Wrappers
  import opened Models
  import opened Outcomes
  import opened Verifier
  import Confirmation
  import opened Records

  const MAX_INTENT_LENGTH: int := 2000
  const MAX_EVIDENCE_ID_LENGTH: int := 128
  const INVALID_RECEIPT_MESSAGE: string := "Execution provider did not return a valid receipt."

  datatype Refusal =
    | OwnerRequired
    | IntentEmpty
    | IntentTooLong
    | UnsupportedRequest
    | WrongState
    | AttestationRejected
    | RecoveryRunning
    | AttemptInProgress
    | AttemptLimitReached
    | ScheduleStale
    | SchedulePremature
    | NotDue
    | UnknownRecovery
    | RecoveryMismatch
    | RecoveryNotAwaiting
    | RecoveryNotOpen
    | ContractUntracked
    | EvidenceForeign
    | EvidenceInadmissible

  // ----- start_resolution

  /** The intent interpreter's answer: the deadline phrase, and whether renewal charges are prohibited. */
  datatype Interpretation = Unsupported | Supported(phrase: DeadlinePhrase, prohibitsRenewalCharge: bool)

  function StartResolution(owner: string, intent: string, mode: string, interpretation: Interpretation,
                           resolutionId: string, requestedAt: int, offeredAt: int): Result<Record, Refusal>
  {
    var text := Strip(intent);
    if IsBlank(owner) then Err(OwnerRequired)
    else if text == "" then Err(IntentEmpty)
    else if |text| > MAX_INTENT_LENGTH then Err(IntentTooLong)
    else
      match interpretation
      case Unsupported => Err(UnsupportedRequest)
      case Supported(phrase, prohibits) =>
        var target := DemoResourceIdentity(owner);
        var contract := OutcomeContract(Cancellation, target.digest, DeadlineFor(phrase, requestedAt), prohibits);
        Ok(NewRecord(resolutionId, owner, text, mode, contract, requestedAt, offeredAt))
  }

  function NewRecord(resolutionId: string, owner: string, intent: string, mode: string,
                     contract: OutcomeContract, requestedAt: int, offeredAt: int): Record
  {
    Record(resolutionId, owner, intent, mode, DemoResourceIdentity(owner), AWAITING_CONFIRMATION,
           requestedAt, offeredAt, None, None, None, None, None, None, None,
           [Transition(REQUESTED, requestedAt, Some(Confirmation.ConfirmationV1), None),
            Transition(AWAITING_CONFIRMATION, offeredAt, None, None)],
           0, Cancellation, None, None, 0, MAX_VERIFICATION_CHECKS, [], None, None, Some(contract), [], [], [])
  }

  // ----- the transition every flow goes through

  function Enter(r: Record, next: State, at: int, attestation: Option<Confirmation.Attestation>): Record {
    r.(state := next, updatedAt := at, history := r.history + [Transition(next, at, None, attestation)])
  }

  // ----- confirm_resolution_action

  /** Checks the confirmation and enters EXECUTING; `confirmedAt` and `at` are two readings of the clock. */
  function BeginExecution(v: Confirmation.Verifier, r: Record, token: string, confirmedAt: int, at: int)
    : Result<Record, Refusal>
  {
    if r.state != AWAITING_CONFIRMATION then Err(WrongState)
    else
      var expected := Confirmation.ExpectedConfirmation(
                        r.ownerId, r.resolutionId, CancelSubscription, CancelActionDigest(r));
      match Confirmation.VerifyAttestation(v, token, expected, confirmedAt)
      case None => Err(AttestationRejected)
      case Some(attestation) =>
        Ok(EnterExecution(r, attestation, confirmedAt, at))
  }

  function EnterExecution(r: Record, attestation: Confirmation.Attestation, confirmedAt: int, at: int): Record {
    Enter(r.(confirmedAt := Some(confirmedAt)), EXECUTING, at, Some(attestation))
  }

  /** The receipt that is kept: the provider's if it is valid, otherwise a failure under a fresh request id. */
  function ReceiptFor(reply: Reply<ActionReceipt>, freshId: string): ActionReceipt {
    if reply.Returned? && IsValidReceipt(reply.value) then reply.value
    else ActionReceipt(freshId, false, INVALID_RECEIPT_MESSAGE, None)
  }

  /** Stores the provider's answer and claims the first check. */
  function ClaimFirstCheck(r: Record, receipt: ActionReceipt, observedAt: int, at: int): Record {
    Enter(r.(claim := Some(receipt), claimObservedAt := Some(observedAt), checkCount := r.checkCount + 1),
          VERIFYING, at, None)
  }

  // ----- recheck_resolution

  predicate HasRunningRecovery(r: Record) {
    exists i :: 0 <= i < |r.recoveries| && r.recoveries[i].state == Executing
  }

  /** Whether a check claimed now may end the bounded window. */
  predicate IsTerminalFailureEligible(r: Record, now: int) {
    && r.state == AWAITING_PROOF
    && r.nextCheckAt.Some?
    && r.checkCount + 1 >= r.maxChecks
    && now >= r.nextCheckAt.value
  }

  function RecheckRefusal(r: Record, now: int, scheduledFor: Option<int>, force: bool): Option<Refusal> {
    if HasRunningRecovery(r) then Some(RecoveryRunning)
    else if r.state != AWAITING_PROOF && r.state != VERIFYING then Some(WrongState)
    else if r.state == VERIFYING && now < r.updatedAt + CHECK_INTERVAL then Some(AttemptInProgress)
    else if r.checkCount >= r.maxChecks then Some(AttemptLimitReached)
    else if r.state == AWAITING_PROOF && scheduledFor.Some? then
      if r.nextCheckAt != scheduledFor then Some(ScheduleStale)
      else if now < r.nextCheckAt.value then Some(SchedulePremature)
      else None
    else if r.state == AWAITING_PROOF && !force && r.nextCheckAt.Some? && now < r.nextCheckAt.value then
      Some(NotDue)
    else None
  }

  /** Claims the next check, from AWAITING_PROOF or after a check that was interrupted. */
  function ClaimRecheck(r: Record, now: int): Record {
    if r.state == AWAITING_PROOF then
      Enter(r.(checkCount := r.checkCount + 1, nextCheckAt := None, evidence := None, evidenceObservedAt := None,
               verification := None, verifiedAt := None),
            VERIFYING, now, None)
    else
      Enter(r.(checkCount := r.checkCount + 1), VERIFYING, now, None)
  }

  // ----- _record_verification

  /** The evidence that is kept: the provider's if it is valid, otherwise an unreadable account. */
  function EvidenceFor(reply: Reply<Evidence>, target: ResourceIdentity, attemptId: string): Evidence {
    if reply.Returned? && IsValidEvidence(reply.value) then reply.value
    else Evidence(false, None, None, None, Some(target.digest), Some(attemptId))
  }

  /** The most recently stored violation that was observed no later than the check. */
  function LatestViolation(vs: seq<OutcomeViolation>, at: int): (v: Option<OutcomeViolation>)
    ensures v.Some? ==> v.value in vs && v.value.observedAt <= at
    ensures v.None? <==> forall i :: 0 <= i < |vs| ==> at < vs[i].observedAt
  {
    if vs == [] then None
    else if Last(vs).observedAt <= at then Some(Last(vs))
    else LatestViolation(vs[..|vs| - 1], at)
  }

  /** It is the newest one: every violation stored after it was observed later than the check. */
  lemma {:induction false} LatestViolationIsNewest(vs: seq<OutcomeViolation>, at: int)
    ensures match LatestViolation(vs, at)
            case None => forall i :: 0 <= i < |vs| ==> at < vs[i].observedAt
            case Some(w) => exists i :: 0 <= i < |vs| && vs[i] == w && vs[i].observedAt <= at
                                        && forall j :: i < j < |vs| ==> at < vs[j].observedAt
  {
    if vs != [] && at < Last(vs).observedAt && LatestViolation(vs, at).Some? {
      var front := vs[..|vs| - 1];
      LatestViolationIsNewest(front, at);
      var i :| 0 <= i < |front| && front[i] == LatestViolation(vs, at).value && front[i].observedAt <= at
               && forall j :: i < j < |front| ==> at < front[j].observedAt;
      forall j | i < j < |vs| ensures at < vs[j].observedAt {
        assert j < |front| ==> vs[j] == front[j];
      }
    }
  }

  /** There is only one newest. */
  lemma NewestIsLatest(vs: seq<OutcomeViolation>, at: int, i: nat)
    requires i < |vs| && vs[i].observedAt <= at && forall j :: i < j < |vs| ==> at < vs[j].observedAt
    ensures LatestViolation(vs, at) == Some(vs[i])
  {
    hide LatestViolation;
    LatestViolationIsNewest(vs, at);
  }

  function ExpectationOf(r: Record, attemptId: string, at: int): Expectation {
    Expectation(Some(r.target.digest), Some(attemptId), Some(r.ownerId), Some(r.resolutionId),
                if r.contract.Some? then r.contract.value.deadlineAt else None, Some(at))
  }

  function TerminalStateFor(v: Verdict): State {
    match v
    case PASS => VERIFIED
    case FAIL => NOT_COMPLETED
    case INCONCLUSIVE => AWAITING_PROOF
  }

  /** The verdict on one read-back. */
  function Judge(r: Record, receipt: ActionReceipt, evidence: Evidence, attemptId: string, eligible: bool, at: int)
    : VerificationResult
  {
    VerifyCancellation(receipt, evidence, eligible && r.checkCount >= r.maxChecks,
                       LatestViolation(r.violations, at), ExpectationOf(r, attemptId, at))
  }

  function AttemptOf(r: Record, receipt: ActionReceipt, evidence: Evidence, attemptId: string, eligible: bool, at: int)
    : Attempt
  {
    var violation := LatestViolation(r.violations, at);
    Attempt(at, evidence, Judge(r, receipt, evidence, attemptId, eligible, at), attemptId, r.checkCount, eligible,
            if violation.Some? then Some(violation.value.violationId) else None)
  }

  /** Stores the attempt and its result, schedules the next check, and leaves VERIFYING. */
  function StoreAttempt(r: Record, a: Attempt): Record {
    var open := a.result.verdict == INCONCLUSIVE;
    Enter(r.(evidence := Some(a.evidence),
             evidenceObservedAt := Some(a.checkedAt),
             verification := Some(a.result),
             verifiedAt := Some(a.checkedAt),
             lastCheckedAt := Some(a.checkedAt),
             attempts := r.attempts + [a],
             nextCheckAt := if open && r.checkCount < r.maxChecks
                            then Some(a.checkedAt + CHECK_INTERVAL * r.checkCount) else None,
             resolvedAt := if open then None else Some(a.checkedAt),
             resolutionReason := Some(a.result.reason)),
          TerminalStateFor(a.result.verdict), a.checkedAt, None)
  }

  function Settle(action: RecoveryAction, verdict: Verdict, at: int): RecoveryAction {
    if action.state == Verifying && verdict != INCONCLUSIVE then
      var next := if verdict == PASS then Completed else Failed;
      action.(state := next, marks := action.marks + [RecoveryMark(next, at)])
    else action
  }

  /** Recoveries that were waiting for a read-back end with it. */
  function SettleAll(actions: seq<RecoveryAction>, verdict: Verdict, at: int): (s: seq<RecoveryAction>)
    ensures |s| == |actions|
    ensures forall i :: 0 <= i < |s| ==> s[i] == Settle(actions[i], verdict, at)
  {
    if actions == [] then []
    else SettleAll(actions[..|actions| - 1], verdict, at) + [Settle(Last(actions), verdict, at)]
  }

  /** What the service instance contributes: its identifiers, and whether it has a recovery provider. */
  datatype Supply = Supply(eventId: string, recoveryId: string, recoveryEnabled: bool)

  predicate HasEvent(r: Record, key: DedupeKey) {
    exists i :: 0 <= i < |r.attention| && r.attention[i].key == key
  }

  predicate HasRecoveryFor(r: Record, reason: AttentionReason) {
    exists i :: 0 <= i < |r.recoveries| && r.recoveries[i].reason == reason
  }

  function EventOf(r: Record, key: DedupeKey, eventId: string, at: int): AttentionEvent {
    AttentionEvent(eventId, r.ownerId, r.resolutionId, r.target.digest, key, at)
  }

  /** Fresh evidence that the subscription still renews; without it only a charge justifies a proposal. */
  predicate JustifiesFollowup(r: Record) {
    && ShowsRenewal(r.evidence)
    && r.attempts != []
  }

  function ProposalOf(r: Record, reason: AttentionReason, recoveryId: string, now: int): RecoveryAction {
    var draft := RecoveryAction(
                   recoveryId, r.ownerId, r.resolutionId, r.target.digest,
                   if reason == OutcomeViolated then PrepareRefundRequest else PrepareSupportFollowup,
                   Foreign(""), reason, AwaitingConfirmation, now, now + PROPOSAL_LIFETIME,
                   if r.attempts != [] then Some(Last(r.attempts).attemptId) else None,
                   None, None, [RecoveryMark(AwaitingConfirmation, now)]);
    draft.(digest := RecoveryActionDigest(draft))
  }

  function CreateRecoveryProposal(r: Record, reason: AttentionReason, now: int, supply: Supply): Record {
    if
      || !supply.recoveryEnabled
      || (IsTerminal(r.state) && reason != OutcomeViolated)
      || (reason != OutcomeViolated && !JustifiesFollowup(r))
      || HasRecoveryFor(r, reason)
    then r
    else r.(recoveries := r.recoveries + [ProposalOf(r, reason, supply.recoveryId, now)])
  }

  function AttentionAfterCheck(r: Record, at: int): Option<DedupeKey> {
    if r.contract.None? then None
    else AttentionKey(r.contract.value, r.state == VERIFIED, r.state == NOT_COMPLETED, r.evidence,
                      r.violations != [], at)
  }

  /** Raises attention at most once for each condition, and offers a recovery where one may help. */
  function Attend(r: Record, key: Option<DedupeKey>, at: int, proposes: bool, supply: Supply): Record {
    if key.None? || HasEvent(r, key.value) then r
    else
      var noted := r.(attention := r.attention + [EventOf(r, key.value, supply.eventId, at)]);
      if proposes then CreateRecoveryProposal(noted, key.value.reason, at, supply) else noted
  }

  /** The whole of _record_verification after the read-back. */
  function RecordVerification(r: Record, receipt: ActionReceipt, evidence: Evidence, attemptId: string,
                              eligible: bool, at: int, supply: Supply): Record
  {
    var a := AttemptOf(r, receipt, evidence, attemptId, eligible, at);
    var stored := StoreAttempt(r, a);
    var settled := stored.(recoveries := SettleAll(stored.recoveries, a.result.verdict, at));
    var key := AttentionAfterCheck(settled, at);
    var proposes := && key.Some?
                    && (key.value.level == ACTION_NEEDED || key.value.level == URGENT)
                    && !IsTerminal(settled.state);
    Attend(settled, key, at, proposes, supply)
  }

  // ----- confirm_recovery_action

  /** The first recovery with an identifier; |r.recoveries| when there is none. */
  function RecoveryIndex(actions: seq<RecoveryAction>, recoveryId: string): (i: nat)
    ensures i <= |actions|
    ensures i < |actions| ==> actions[i].recoveryId == recoveryId
    ensures forall j :: 0 <= j < i ==> actions[j].recoveryId != recoveryId
  {
    if actions == [] then 0
    else if actions[0].recoveryId == recoveryId then 0
    else
      assert forall j :: 0 < j < |actions| ==> actions[j] == actions[1..][j - 1];
      1 + RecoveryIndex(actions[1..], recoveryId)
  }

  function MoveRecovery(r: Record, i: nat, next: RecoveryState, at: int): Record
    requires i < |r.recoveries|
  {
    var action := r.recoveries[i];
    var moved := action.(state := next, marks := action.marks + [RecoveryMark(next, at)]);
    r.(recoveries := r.recoveries[i := moved], updatedAt := at)
  }

  predicate IsRefundPreparation(r: Record, action: RecoveryAction) {
    action.kind == PrepareRefundRequest && r.violations != []
  }

  datatype RecoveryDecision =
    | ToExpire(record: Record)
    | ToDecline(record: Record)
    | ToExecute(record: Record, action: RecoveryAction, isRefund: bool)

  function DecideRecovery(v: Confirmation.Verifier, r: Record, owner: string, resolution: string,
                          recoveryId: string, confirmed: bool, token: string, now: int)
    : Result<RecoveryDecision, Refusal>
  {
    var i := RecoveryIndex(r.recoveries, recoveryId);
    if i == |r.recoveries| then Err(UnknownRecovery)
    else
      var action := r.recoveries[i];
      if action.owner != owner || action.resolution != resolution then Err(UnknownRecovery)
      else if action.targetDigest != r.target.digest || action.digest != RecoveryActionDigest(action) then
        Err(RecoveryMismatch)
      else if action.state != AwaitingConfirmation then Err(RecoveryNotAwaiting)
      else if now >= action.expiresAt then Ok(ToExpire(MoveRecovery(r, i, Expired, now)))
      else if !IsRefundPreparation(r, action) && r.state != AWAITING_PROOF then Err(RecoveryNotOpen)
      else if !confirmed then Ok(ToDecline(MoveRecovery(r, i, Declined, now)))
      else
        var expected := Confirmation.ExpectedConfirmation(owner, resolution, action.kind, action.digest);
        match Confirmation.VerifyAttestation(v, token, expected, now)
        case None => Err(AttestationRejected)
        case Some(attestation) =>
          var moved := MoveRecovery(r, i, Executing, now);
          var claimed := moved.recoveries[i].(attestationId := Some(attestation.attestationId));
          Ok(ToExecute(moved.(recoveries := moved.recoveries[i := claimed]), claimed, IsRefundPreparation(r, action)))
  }

  /** The recovery provider's answer; a dictionary of the wrong shape counts as Shapeless. */
  datatype RecoveryReply =
    | Raised
    | Shapeless
    | Answered(source: string, requestId: string, actionDigest: Digest, targetDigest: Digest,
               claimedSuccess: bool, summary: string)

  predicate IsValidRecoveryReply(reply: RecoveryReply, action: RecoveryAction) {
    reply.Answered? && reply.actionDigest == action.digest && reply.targetDigest == action.targetDigest
  }

  /** The state a recovery is left in; `asked` is the copy of the action that the provider was given. */
  function RecoveryStateAfter(asked: RecoveryAction, isRefund: bool, reply: RecoveryReply): RecoveryState {
    if !IsValidRecoveryReply(reply, asked) || !reply.claimedSuccess then Failed
    else if isRefund then Completed
    else Verifying
  }

  function RecoveryReceiptFor(asked: RecoveryAction, stored: RecoveryAction, reply: RecoveryReply): RecoveryReceipt {
    if reply.Raised? then UnknownAfterProviderError(stored.digest, stored.targetDigest)
    else if IsValidRecoveryReply(reply, asked) then
      ProviderReceipt(reply.source, reply.requestId, reply.actionDigest, reply.targetDigest,
                      reply.claimedSuccess, reply.summary)
    else MalformedOrMismatched(stored.digest, stored.targetDigest)
  }

  /** Writes the provider's answer into a freshly loaded record; the time is the one of the confirmation. */
  function FinishRecovery(r: Record, asked: RecoveryAction, isRefund: bool, reply: RecoveryReply, now: int)
    : Option<Record>
  {
    var i := RecoveryIndex(r.recoveries, asked.recoveryId);
    if i == |r.recoveries| then None
    else
      var moved := MoveRecovery(r, i, RecoveryStateAfter(asked, isRefund, reply), now);
      var kept := moved.recoveries[i].(receipt := Some(RecoveryReceiptFor(asked, r.recoveries[i], reply)));
      Some(moved.(recoveries := moved.recoveries[i := kept]))
  }

  // ----- record_outcome_violation

  predicate HasEvidence(r: Record, evidenceId: string) {
    exists i :: 0 <= i < |r.violations| && r.violations[i].evidenceId == evidenceId
  }

  predicate IsAdmissibleViolation(contract: OutcomeContract, e: OutcomeViolation, now: int) {
    && e.eventType == RenewalCharge
    && e.amountCents > 0
    && IsKnownCurrency(e.currency)
    && e.source == DemoBillingReadback
    && 0 < |e.evidenceId| <= MAX_EVIDENCE_ID_LENGTH
    && contract.deadlineAt.Some?
    && contract.deadlineAt.value <= e.observedAt <= now
    && now - e.observedAt <= MAX_VIOLATION_AGE
  }

  function ViolationRefusal(r: Record, owner: string, resolution: string, e: OutcomeViolation, now: int)
    : Option<Refusal>
  {
    if r.contract.None? || !r.contract.value.prohibitsRenewalCharge then Some(ContractUntracked)
    else if e.owner != owner || e.resolution != resolution || e.targetDigest != r.target.digest then
      Some(EvidenceForeign)
    else if !IsAdmissibleViolation(r.contract.value, e, now) then Some(EvidenceInadmissible)
    else None
  }

  /** Adds a violation that is not known yet. */
  function RecordViolation(r: Record, e: OutcomeViolation, now: int, supply: Supply): Record
    requires r.contract.Some?
  {
    var noted := r.(violations := r.violations + [e]);
    var key := AttentionKey(r.contract.value, r.state == VERIFIED, r.state == NOT_COMPLETED, None, true, now);
    Attend(noted, key, now, true, supply).(updatedAt := now)
  }
}
