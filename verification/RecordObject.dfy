/**
  The record as the service handles it: an object whose fields one call assigns step by step
  (lifecycle.py). Each method is proved against the step function of the same name and against the rules.
 */
module RecordObject {
  import opened Wrappers
  import opened Models
  import opened Outcomes
  import opened Verifier
  import Confirmation
  import opened Records
  import Lifecycle
  import opened Rules

  /** What confirm_recovery_action goes on to do after it has changed its copy. */
  datatype RecoveryMove = MovedToExpired | MovedToDeclined | MovedToExecuting(action: RecoveryAction, isRefund: bool)

  function MoveOf(d: Lifecycle.RecoveryDecision): RecoveryMove {
    match d
    case ToExpire(_) => MovedToExpired
    case ToDecline(_) => MovedToDeclined
    case ToExecute(_, action, isRefund) => MovedToExecuting(action, isRefund)
  }

  class ResolutionRecord {
    const resolutionId: string
    const ownerId: string
    const intent: string
    const providerMode: string
    const target: ResourceIdentity
    const createdAt: int
    const resolutionType: ResolutionType
    const maxChecks: int
    const contract: Option<OutcomeContract>
    var state: State
    var updatedAt: int
    var confirmedAt: Option<int>
    var claim: Option<ActionReceipt>
    var claimObservedAt: Option<int>
    var evidence: Option<Evidence>
    var evidenceObservedAt: Option<int>
    var verification: Option<VerificationResult>
    var verifiedAt: Option<int>
    var history: seq<Transition>
    var version: int
    var lastCheckedAt: Option<int>
    var nextCheckAt: Option<int>
    var checkCount: int
    var attempts: seq<Attempt>
    var resolvedAt: Option<int>
    var resolutionReason: Option<Reason>
    var attention: seq<AttentionEvent>
    var recoveries: seq<RecoveryAction>
    var violations: seq<OutcomeViolation>

    /** The value that the object holds now. */
    function Snapshot(): Record
      reads this
    {
      Record(resolutionId, ownerId, intent, providerMode, target, state, createdAt, updatedAt, confirmedAt, claim,
             claimObservedAt, evidence, evidenceObservedAt, verification, verifiedAt, history, version, resolutionType,
             lastCheckedAt, nextCheckAt, checkCount, maxChecks, attempts, resolvedAt, resolutionReason, contract,
             attention, recoveries, violations)
    }

    /** The record that was read from the store. */
    constructor (r: Record)
      ensures Snapshot() == r
    {
      resolutionId, ownerId, intent, providerMode, target := r.resolutionId, r.ownerId, r.intent, r.providerMode, r.target;
      createdAt, resolutionType, maxChecks, contract := r.createdAt, r.resolutionType, r.maxChecks, r.contract;
      state, updatedAt, confirmedAt, claim, claimObservedAt := r.state, r.updatedAt, r.confirmedAt, r.claim, r.claimObservedAt;
      evidence, evidenceObservedAt, verification, verifiedAt :=
        r.evidence, r.evidenceObservedAt, r.verification, r.verifiedAt;
      history, version, lastCheckedAt, nextCheckAt, checkCount :=
        r.history, r.version, r.lastCheckedAt, r.nextCheckAt, r.checkCount;
      attempts, resolvedAt, resolutionReason := r.attempts, r.resolvedAt, r.resolutionReason;
      attention, recoveries, violations := r.attention, r.recoveries, r.violations;
    }

    /** A record in REQUESTED, as start_resolution first builds it. */
    constructor Requested(resolutionId: string, owner: string, intent: string, mode: string,
                          contract: OutcomeContract, requestedAt: int)
      ensures Snapshot() == Record(
                resolutionId, owner, intent, mode, DemoResourceIdentity(owner), REQUESTED, requestedAt, requestedAt,
                None, None, None, None, None, None, None,
                [Transition(REQUESTED, requestedAt, Some(Confirmation.ConfirmationV1), None)], 0, Cancellation,
                None, None, 0, MAX_VERIFICATION_CHECKS, [], None, None, Some(contract), [], [], [])
    {
      this.resolutionId, ownerId, this.intent, providerMode := resolutionId, owner, intent, mode;
      target := DemoResourceIdentity(owner);
      state, createdAt, updatedAt := REQUESTED, requestedAt, requestedAt;
      confirmedAt, claim, claimObservedAt, evidence, evidenceObservedAt := None, None, None, None, None;
      verification, verifiedAt, lastCheckedAt, nextCheckAt := None, None, None, None;
      resolvedAt, resolutionReason := None, None;
      history := [Transition(REQUESTED, requestedAt, Some(Confirmation.ConfirmationV1), None)];
      version, checkCount, maxChecks, resolutionType := 0, 0, MAX_VERIFICATION_CHECKS, Cancellation;
      this.contract, attempts, attention, recoveries, violations := Some(contract), [], [], [], [];
    }

    // ----- the transition every flow goes through

    /** Refuses, and changes nothing, unless the graph has an edge from the current state. */
    method Transit(next: State, at: int, attestation: Option<Confirmation.Attestation>) returns (ok: bool)
      modifies this
      ensures ok == CanMove(old(state), next)
      ensures Snapshot() == if ok then Lifecycle.Enter(old(Snapshot()), next, at, attestation) else old(Snapshot())
    {
      if state !in AllowedPreviousStates(next) {
        return false;
      }
      state := next;
      updatedAt := at;
      history := history + [Transition(next, at, None, attestation)];
      return true;
    }

    // ----- confirm_resolution_action

    method BeginExecution(v: Confirmation.Verifier, token: string, confirmedAt: int, at: int)
      returns (refusal: Option<Lifecycle.Refusal>)
      modifies this
      ensures match Lifecycle.BeginExecution(v, old(Snapshot()), token, confirmedAt, at)
              case Ok(r) => refusal == None && Snapshot() == r
              case Err(e) => refusal == Some(e) && Snapshot() == old(Snapshot())
      ensures refusal.None? <==>
                && old(state) == AWAITING_CONFIRMATION
                && Confirms(v, token, ownerId, resolutionId, CancelSubscription,
                            CancelDigest(ownerId, resolutionId, intent, providerMode, target.digest), confirmedAt)
      ensures refusal.None? ==>
                && v.decode(token).Some?
                && state == EXECUTING && updatedAt == at && this.confirmedAt == Some(confirmedAt)
                && history == old(history) + [Transition(EXECUTING, at, None, Some(KeptOf(token, v.decode(token).value)))]
    {
      hide Confirmation.VerifyAttestation, Confirms, KeptOf;
      if state != AWAITING_CONFIRMATION {
        return Some(Lifecycle.WrongState);
      }
      var expected := Confirmation.ExpectedConfirmation(
        ownerId, resolutionId, CancelSubscription,
        CancelDigest(ownerId, resolutionId, intent, providerMode, target.digest));
      var attestation := Confirmation.VerifyAttestation(v, token, expected, confirmedAt);
      TokensAreAcceptedExactly(v, token, expected, confirmedAt);
      if attestation.None? {
        return Some(Lifecycle.AttestationRejected);
      }
      ConfirmingTokensDecode(v, token, ownerId, resolutionId, CancelSubscription, expected.actionDigest, confirmedAt);
      this.confirmedAt := Some(confirmedAt);
      var moved := Transit(EXECUTING, at, attestation);
      return None;
    }

    /** Keeps the provider's answer, takes the first check from the budget and enters VERIFYING. */
    method ClaimFirstCheck(receipt: ActionReceipt, observedAt: int, at: int) returns (ok: bool)
      requires state == EXECUTING
      modifies this
      ensures ok && Snapshot() == Lifecycle.ClaimFirstCheck(old(Snapshot()), receipt, observedAt, at)
    {
      claim := Some(receipt);
      claimObservedAt := Some(observedAt);
      checkCount := checkCount + 1;
      ok := Transit(VERIFYING, at, None);
    }

    // ----- recheck_resolution

    method IsRecoveryRunning() returns (found: bool)
      ensures found == Lifecycle.HasRunningRecovery(Snapshot())
    {
      for i := 0 to |recoveries|
        invariant forall j :: 0 <= j < i ==> recoveries[j].state != Executing
      {
        if recoveries[i].state == Executing {
          assert Snapshot().recoveries[i].state == Executing;
          return true;
        }
      }
      return false;
    }

    /** Says why no check may be made now, if so, and whether one made now may end the window. */
    method CheckRecheck(now: int, scheduledFor: Option<int>, force: bool)
      returns (refusal: Option<Lifecycle.Refusal>, eligible: bool)
      ensures refusal == Lifecycle.RecheckRefusal(Snapshot(), now, scheduledFor, force)
      ensures eligible == (refusal.None? && Lifecycle.IsTerminalFailureEligible(Snapshot(), now))
      ensures refusal.None? <==> MayBeRechecked(Snapshot(), now, scheduledFor, force)
      ensures eligible <==> refusal.None? && MayEndTheWindow(Snapshot(), now)
    {
      hide Lifecycle.HasRunningRecovery, MayBeRechecked, MayEndTheWindow;
      RechecksAreAdmittedExactly(Snapshot(), now, scheduledFor, force);
      var running := IsRecoveryRunning();
      if running {
        return Some(Lifecycle.RecoveryRunning), false;
      }
      if state != AWAITING_PROOF && state != VERIFYING {
        return Some(Lifecycle.WrongState), false;
      }
      eligible := state == AWAITING_PROOF && nextCheckAt.Some? && checkCount + 1 >= maxChecks && now >= nextCheckAt.value;
      if state == VERIFYING && now < updatedAt + CHECK_INTERVAL {
        return Some(Lifecycle.AttemptInProgress), false;
      }
      if checkCount >= maxChecks {
        return Some(Lifecycle.AttemptLimitReached), false;
      }
      if state == AWAITING_PROOF && scheduledFor.Some? {
        if nextCheckAt.None? || scheduledFor.value != nextCheckAt.value {
          return Some(Lifecycle.ScheduleStale), false;
        }
        if now < nextCheckAt.value {
          return Some(Lifecycle.SchedulePremature), false;
        }
      } else if state == AWAITING_PROOF && !force && nextCheckAt.Some? && now < nextCheckAt.value {
        return Some(Lifecycle.NotDue), false;
      }
      return None, eligible;
    }

    /** Takes a check from the budget and claims it, dropping what the previous check left. */
    method ClaimCheck(now: int)
      requires state == AWAITING_PROOF || state == VERIFYING
      modifies this
      ensures Snapshot() == Lifecycle.ClaimRecheck(old(Snapshot()), now)
    {
      checkCount := checkCount + 1;
      if state == AWAITING_PROOF {
        ForgetLastCheck();
      }
      var moved := Transit(VERIFYING, now, None);
    }

    method ForgetLastCheck()
      modifies this
      ensures Snapshot() == old(Snapshot()).(nextCheckAt := None, evidence := None, evidenceObservedAt := None,
                                             verification := None, verifiedAt := None)
    {
      nextCheckAt := None;
      ForgetReading();
    }

    method ForgetReading()
      modifies this`evidence, this`evidenceObservedAt, this`verification, this`verifiedAt
      ensures evidence.None? && evidenceObservedAt.None? && verification.None? && verifiedAt.None?
    {
      evidence := None;
      evidenceObservedAt := None;
      verification := None;
      verifiedAt := None;
    }

    /** Claims a check if one may be made now. */
    method ClaimRecheck(now: int, scheduledFor: Option<int>, force: bool)
      returns (refusal: Option<Lifecycle.Refusal>, eligible: bool)
      modifies this
      ensures refusal == Lifecycle.RecheckRefusal(old(Snapshot()), now, scheduledFor, force)
      ensures eligible == (refusal.None? && Lifecycle.IsTerminalFailureEligible(old(Snapshot()), now))
      ensures Snapshot() == if refusal.None? then Lifecycle.ClaimRecheck(old(Snapshot()), now) else old(Snapshot())
      ensures refusal.None? <==> MayBeRechecked(old(Snapshot()), now, scheduledFor, force)
      ensures eligible <==> refusal.None? && MayEndTheWindow(old(Snapshot()), now)
    {
      hide Lifecycle.HasRunningRecovery, Lifecycle.ClaimRecheck, Lifecycle.IsTerminalFailureEligible;
      hide MayBeRechecked, MayEndTheWindow;
      refusal, eligible := CheckRecheck(now, scheduledFor, force);
      if refusal.None? {
        ClaimCheck(now);
      }
    }

    // ----- _record_verification

    /** Looks back from the newest violation for one that was observed no later than the check. */
    method FindViolation(at: int) returns (found: Option<OutcomeViolation>)
      ensures found == Lifecycle.LatestViolation(violations, at)
      ensures match found
              case None => forall i :: 0 <= i < |violations| ==> at < violations[i].observedAt
              case Some(w) => exists i :: 0 <= i < |violations| && violations[i] == w && violations[i].observedAt <= at
                                          && forall j :: i < j < |violations| ==> at < violations[j].observedAt
    {
      hide Lifecycle.LatestViolation;
      var i := |violations|;
      while i > 0
        invariant 0 <= i <= |violations|
        invariant forall j :: i <= j < |violations| ==> at < violations[j].observedAt
      {
        i := i - 1;
        if violations[i].observedAt <= at {
          Lifecycle.NewestIsLatest(violations, at, i);
          return Some(violations[i]);
        }
      }
      return None;
    }

    /** Stores one attempt, its result and the schedule that follows, and leaves VERIFYING. */
    method StoreAttempt(a: Attempt)
      requires state == VERIFYING
      modifies this
      ensures Snapshot() == Lifecycle.StoreAttempt(old(Snapshot()), a)
    {
      StoreResult(a);
      var moved := Transit(Lifecycle.TerminalStateFor(a.result.verdict), a.checkedAt, None);
    }

    method StoreResult(a: Attempt)
      modifies this
      ensures var open := a.result.verdict == INCONCLUSIVE;
              Snapshot() == old(Snapshot()).(
                evidence := Some(a.evidence), evidenceObservedAt := Some(a.checkedAt),
                verification := Some(a.result), verifiedAt := Some(a.checkedAt), lastCheckedAt := Some(a.checkedAt),
                attempts := old(attempts) + [a],
                nextCheckAt := if open && checkCount < maxChecks
                               then Some(a.checkedAt + CHECK_INTERVAL * checkCount) else None,
                resolvedAt := if open then None else Some(a.checkedAt),
                resolutionReason := Some(a.result.reason))
    {
      StoreReading(a);
      StoreSchedule(a);
    }

    method StoreReading(a: Attempt)
      modifies this`evidence, this`evidenceObservedAt, this`verification, this`verifiedAt, this`lastCheckedAt,
               this`attempts
      ensures evidence == Some(a.evidence) && evidenceObservedAt == Some(a.checkedAt)
      ensures verification == Some(a.result) && verifiedAt == Some(a.checkedAt) && lastCheckedAt == Some(a.checkedAt)
      ensures attempts == old(attempts) + [a]
    {
      evidence := Some(a.evidence);
      evidenceObservedAt := Some(a.checkedAt);
      verification := Some(a.result);
      verifiedAt := Some(a.checkedAt);
      lastCheckedAt := Some(a.checkedAt);
      attempts := attempts + [a];
    }

    method StoreSchedule(a: Attempt)
      modifies this`nextCheckAt, this`resolvedAt, this`resolutionReason
      ensures resolutionReason == Some(a.result.reason)
      ensures resolvedAt == if a.result.verdict == INCONCLUSIVE then None else Some(a.checkedAt)
      ensures nextCheckAt == if a.result.verdict == INCONCLUSIVE && checkCount < maxChecks
                             then Some(a.checkedAt + CHECK_INTERVAL * checkCount) else None
    {
      if a.result.verdict == INCONCLUSIVE {
        nextCheckAt := if checkCount < maxChecks then Some(a.checkedAt + CHECK_INTERVAL * checkCount) else None;
        resolvedAt := None;
      } else {
        nextCheckAt := None;
        resolvedAt := Some(a.checkedAt);
      }
      resolutionReason := Some(a.result.reason);
    }

    /** Walks over the recoveries and ends those that were waiting for a verdict. */
    method SettleRecoveries(verdict: Verdict, at: int)
      modifies this
      ensures Snapshot() == old(Snapshot()).(recoveries := Lifecycle.SettleAll(old(recoveries), verdict, at))
      ensures forall i :: 0 <= i < |recoveries| ==> IsSettled(old(recoveries)[i], recoveries[i], StateOf(verdict), at)
    {
      for i := 0 to |recoveries|
        invariant |recoveries| == old(|recoveries|)
        invariant Snapshot() == old(Snapshot()).(recoveries := recoveries)
        invariant forall j :: 0 <= j < i ==> recoveries[j] == Lifecycle.Settle(old(recoveries)[j], verdict, at)
        invariant forall j :: i <= j < |recoveries| ==> recoveries[j] == old(recoveries)[j]
      {
        var recovery := recoveries[i];
        if recovery.state == Verifying {
          var next := if verdict == PASS then Completed else if verdict == FAIL then Failed else Verifying;
          recovery := recovery.(state := next);
          if next != Verifying {
            recovery := recovery.(marks := recovery.marks + [RecoveryMark(next, at)]);
          }
          recoveries := recoveries[i := recovery];
        }
      }
      assert recoveries == Lifecycle.SettleAll(old(recoveries), verdict, at);
      forall i | 0 <= i < |recoveries| ensures IsSettled(old(recoveries)[i], recoveries[i], StateOf(verdict), at) {
        RecoveriesSettleExactly(old(recoveries)[i], verdict, at);
      }
    }

    method IsAttended(key: DedupeKey) returns (found: bool)
      ensures found == Lifecycle.HasEvent(Snapshot(), key)
    {
      for i := 0 to |attention|
        invariant forall j :: 0 <= j < i ==> attention[j].key != key
      {
        if attention[i].key == key {
          assert Snapshot().attention[i].key == key;
          return true;
        }
      }
      return false;
    }

    method IsProposed(reason: AttentionReason) returns (found: bool)
      ensures found == Lifecycle.HasRecoveryFor(Snapshot(), reason)
    {
      for i := 0 to |recoveries|
        invariant forall j :: 0 <= j < i ==> recoveries[j].reason != reason
      {
        if recoveries[i].reason == reason {
          assert Snapshot().recoveries[i].reason == reason;
          return true;
        }
      }
      return false;
    }

    method CreateRecoveryProposal(reason: AttentionReason, now: int, supply: Lifecycle.Supply)
      modifies this
      ensures Snapshot() == Lifecycle.CreateRecoveryProposal(old(Snapshot()), reason, now, supply)
    {
      if !supply.recoveryEnabled || (IsTerminal(state) && reason != OutcomeViolated) {
        return;
      }
      if reason != OutcomeViolated {
        if !ShowsRenewal(evidence) || attempts == [] {
          return;
        }
      }
      var kind := if reason == OutcomeViolated then PrepareRefundRequest else PrepareSupportFollowup;
      var proposed := IsProposed(reason);
      if proposed {
        return;
      }
      var expiresAt := now + PROPOSAL_LIFETIME;
      var digest := RecoveryDigest(supply.recoveryId, ownerId, resolutionId, target.digest, kind, reason, expiresAt);
      var evidenceAttempt := if attempts != [] then Some(Last(attempts).attemptId) else None;
      recoveries := recoveries + [RecoveryAction(
                                    supply.recoveryId, ownerId, resolutionId, target.digest, kind, digest, reason,
                                    AwaitingConfirmation, now, expiresAt, evidenceAttempt, None, None,
                                    [RecoveryMark(AwaitingConfirmation, now)])];
    }

    /** Raises attention unless the same condition has raised it before. */
    method Attend(key: Option<DedupeKey>, at: int, proposes: bool, supply: Lifecycle.Supply)
      modifies this
      ensures Snapshot() == Lifecycle.Attend(old(Snapshot()), key, at, proposes, supply)
    {
      if key.Some? {
        var attended := IsAttended(key.value);
        if !attended {
          attention := attention + [AttentionEvent(supply.eventId, ownerId, resolutionId, target.digest, key.value, at)];
          if proposes {
            CreateRecoveryProposal(key.value.reason, at, supply);
          }
        }
      }
    }

    method RecordVerification(receipt: ActionReceipt, seen: Evidence, attemptId: string, eligible: bool, at: int,
                              supply: Lifecycle.Supply)
      requires state == VERIFYING
      modifies this
      ensures Snapshot() == Lifecycle.RecordVerification(old(Snapshot()), receipt, seen, attemptId, eligible, at, supply)
      ensures IsAttempted(old(Snapshot()), receipt, seen, attemptId, eligible, at, Snapshot())
      ensures IsFollowedUp(old(Snapshot()), Snapshot(), at, supply)
    {
      ChecksLeaveExactly(Snapshot(), receipt, seen, attemptId, eligible, at, supply);
      hide IsAttempted, IsFollowedUp, IsSettled;
      hide VerifyCancellation, Lifecycle.LatestViolation, Lifecycle.Attend, Lifecycle.StoreAttempt, AttentionKey;
      hide Lifecycle.SettleAll, IsTerminal;
      var violation := FindViolation(at);
      var expectation := Lifecycle.ExpectationOf(Snapshot(), attemptId, at);
      var result := VerifyCancellation(receipt, seen, eligible && checkCount >= maxChecks, violation, expectation);
      StoreAttempt(Attempt(at, seen, result, attemptId, checkCount, eligible,
                           if violation.Some? then Some(violation.value.violationId) else None));
      SettleRecoveries(result.verdict, at);
      if contract.Some? {
        var key := AttentionKey(contract.value, state == VERIFIED, state == NOT_COMPLETED, evidence,
                                violations != [], at);
        var proposes := key.Some? && key.value.level in {ACTION_NEEDED, URGENT} && !IsTerminal(state);
        Attend(key, at, proposes, supply);
      } else {
        AttendingNothing(Snapshot(), at, supply);
      }
    }

    // ----- confirm_recovery_action

    /** The position of the first recovery with an identifier, or the number of recoveries. */
    method FindRecovery(recoveryId: string) returns (i: nat)
      ensures i == Lifecycle.RecoveryIndex(recoveries, recoveryId)
    {
      i := 0;
      while i < |recoveries| && recoveries[i].recoveryId != recoveryId
        invariant i <= |recoveries|
        invariant forall j :: 0 <= j < i ==> recoveries[j].recoveryId != recoveryId
      {
        i := i + 1;
      }
    }

    method MoveRecovery(i: nat, next: RecoveryState, at: int)
      requires i < |recoveries|
      modifies this
      ensures Snapshot() == Lifecycle.MoveRecovery(old(Snapshot()), i, next, at)
    {
      recoveries := recoveries[i := recoveries[i].(state := next, marks := recoveries[i].marks + [RecoveryMark(next, at)])];
      updatedAt := at;
    }

    method DecideRecovery(v: Confirmation.Verifier, owner: string, resolution: string, recoveryId: string,
                          confirmed: bool, token: string, now: int)
      returns (outcome: Result<RecoveryMove, Lifecycle.Refusal>, ghost n: nat)
      modifies this
      ensures match Lifecycle.DecideRecovery(v, old(Snapshot()), owner, resolution, recoveryId, confirmed, token, now)
              case Ok(d) => outcome == Ok(MoveOf(d)) && Snapshot() == d.record
              case Err(e) => outcome == Err(e) && Snapshot() == old(Snapshot())
      ensures n == Lifecycle.RecoveryIndex(old(recoveries), recoveryId)
      ensures outcome.Ok? <==> MayBeDecided(v, old(Snapshot()), n, owner, resolution, recoveryId, confirmed, token, now)
      ensures outcome.Ok? ==> IsDecided(v, old(Snapshot()), n, confirmed, token, now, Snapshot())
      ensures outcome.Ok? ==> match recoveries[n].state
                              case Expired => outcome.value.MovedToExpired?
                              case Declined => outcome.value.MovedToDeclined?
                              case _ => outcome.value.MovedToExecuting? && outcome.value.action == recoveries[n]
    {
      hide MayBeDecided, IsDecided;
      ghost var before := Snapshot();
      n := Lifecycle.RecoveryIndex(recoveries, recoveryId);
      DecisionsAreMadeExactly(v, before, owner, resolution, recoveryId, confirmed, token, now);
      DecidedPosition(v, before, owner, resolution, recoveryId, confirmed, token, now);
      hide Confirmation.VerifyAttestation, Lifecycle.RecoveryIndex;
      var i := FindRecovery(recoveryId);
      if i == |recoveries| {
        return Err(Lifecycle.UnknownRecovery), n;
      }
      var action := recoveries[i];
      if action.owner != owner || action.resolution != resolution {
        return Err(Lifecycle.UnknownRecovery), n;
      }
      if action.targetDigest != target.digest || action.digest != RecoveryActionDigest(action) {
        return Err(Lifecycle.RecoveryMismatch), n;
      }
      if action.state != AwaitingConfirmation {
        return Err(Lifecycle.RecoveryNotAwaiting), n;
      }
      if now >= action.expiresAt {
        MoveRecovery(i, Expired, now);
        return Ok(MovedToExpired), n;
      }
      var isRefund := action.kind == PrepareRefundRequest && violations != [];
      if !isRefund && state != AWAITING_PROOF {
        return Err(Lifecycle.RecoveryNotOpen), n;
      }
      if !confirmed {
        MoveRecovery(i, Declined, now);
        return Ok(MovedToDeclined), n;
      }
      var expected := Confirmation.ExpectedConfirmation(owner, resolution, action.kind, action.digest);
      var attestation := Confirmation.VerifyAttestation(v, token, expected, now);
      if attestation.None? {
        return Err(Lifecycle.AttestationRejected), n;
      }
      ClaimRecovery(i, attestation.value.attestationId, now);
      return Ok(MovedToExecuting(recoveries[i], isRefund)), n;
    }

    method ClaimRecovery(i: nat, attestationId: string, now: int)
      requires i < |recoveries|
      modifies this
      ensures var moved := Lifecycle.MoveRecovery(old(Snapshot()), i, Executing, now);
              var claimed := moved.recoveries[i].(attestationId := Some(attestationId));
              Snapshot() == moved.(recoveries := moved.recoveries[i := claimed])
    {
      MoveRecovery(i, Executing, now);
      recoveries := recoveries[i := recoveries[i].(attestationId := Some(attestationId))];
    }

    /** Writes the provider's answer; false when the recovery is no longer there. */
    method FinishRecovery(asked: RecoveryAction, isRefund: bool, reply: Lifecycle.RecoveryReply, now: int)
      returns (ok: bool)
      modifies this
      ensures match Lifecycle.FinishRecovery(old(Snapshot()), asked, isRefund, reply, now)
              case Some(r) => ok && Snapshot() == r
              case None => !ok && Snapshot() == old(Snapshot())
      ensures ok <==> exists action :: action in old(recoveries) && action.recoveryId == asked.recoveryId
      ensures ok ==> IsFinished(old(Snapshot()), Lifecycle.RecoveryIndex(old(recoveries), asked.recoveryId), asked, isRefund,
                                reply, now, Snapshot())
    {
      hide IsFinished, Lifecycle.RecoveryIndex;
      RecoveriesFinishExactly(Snapshot(), asked, isRefund, reply, now);
      FoundByIdentifier(recoveries, asked.recoveryId);
      var i := FindRecovery(asked.recoveryId);
      if i == |recoveries| {
        return false;
      }
      var receipt := Lifecycle.RecoveryReceiptFor(asked, recoveries[i], reply);
      recoveries := recoveries[i := recoveries[i].(receipt := Some(receipt))];
      var next := Lifecycle.RecoveryStateAfter(asked, isRefund, reply);
      MoveRecovery(i, next, now);
      return true;
    }

    // ----- record_outcome_violation

    method IsKnownEvidence(evidenceId: string) returns (found: bool)
      ensures found == Lifecycle.HasEvidence(Snapshot(), evidenceId)
    {
      for i := 0 to |violations|
        invariant forall j :: 0 <= j < i ==> violations[j].evidenceId != evidenceId
      {
        if violations[i].evidenceId == evidenceId {
          assert Snapshot().violations[i].evidenceId == evidenceId;
          return true;
        }
      }
      return false;
    }

    /** Adds admissible evidence of a charge, once. */
    method RecordOutcomeViolation(owner: string, resolution: string, e: OutcomeViolation, now: int,
                                  supply: Lifecycle.Supply)
      returns (refusal: Option<Lifecycle.Refusal>, written: bool)
      modifies this
      ensures refusal == Lifecycle.ViolationRefusal(old(Snapshot()), owner, resolution, e, now)
      ensures written == (refusal.None? && !Lifecycle.HasEvidence(old(Snapshot()), e.evidenceId))
      ensures !written ==> Snapshot() == old(Snapshot())
      ensures written ==> old(Snapshot()).contract.Some?
                          && Snapshot() == Lifecycle.RecordViolation(old(Snapshot()), e, now, supply)
      ensures refusal.None? <==> IsAdmissibleCharge(old(Snapshot()), owner, resolution, e, now)
      ensures written <==> refusal.None? && forall i :: 0 <= i < |old(violations)| ==> old(violations)[i].evidenceId != e.evidenceId
      ensures written ==> IsCharged(old(Snapshot()), e, now, supply, Snapshot())
    {
      hide Lifecycle.Attend, IsAdmissibleCharge, IsCharged, AttentionKey;
      ChargesAreAdmittedExactly(Snapshot(), owner, resolution, e, now);
      if contract.Some? {
        ChargesAreRecordedExactly(Snapshot(), e, now, supply);
      }
      if contract.None? || !contract.value.prohibitsRenewalCharge {
        return Some(Lifecycle.ContractUntracked), false;
      }
      if e.owner != owner || e.resolution != resolution || e.targetDigest != target.digest {
        return Some(Lifecycle.EvidenceForeign), false;
      }
      if !Lifecycle.IsAdmissibleViolation(contract.value, e, now) {
        return Some(Lifecycle.EvidenceInadmissible), false;
      }
      var known := IsKnownEvidence(e.evidenceId);
      if known {
        return None, false;
      }
      violations := violations + [e];
      var key := AttentionKey(contract.value, state == VERIFIED, state == NOT_COMPLETED, None, true, now);
      Attend(key, now, true, supply);
      updatedAt := now;
      return None, true;
    }
  }

  lemma FoundByIdentifier(actions: seq<RecoveryAction>, id: string)
    ensures Lifecycle.RecoveryIndex(actions, id) < |actions| <==> exists action :: action in actions && action.recoveryId == id
  {
    if Lifecycle.RecoveryIndex(actions, id) < |actions| {
      assert actions[Lifecycle.RecoveryIndex(actions, id)] in actions;
    }
  }

  lemma AttendingNothing(r: Record, at: int, supply: Lifecycle.Supply)
    ensures forall proposes :: Lifecycle.Attend(r, None, at, proposes, supply) == r
  {
  }

  /** start_resolution, up to the insert. */
  method StartResolution(owner: string, intent: string, mode: string, interpretation: Lifecycle.Interpretation,
                         resolutionId: string, requestedAt: int, offeredAt: int)
    returns (refusal: Option<Lifecycle.Refusal>, r: Option<ResolutionRecord>)
    ensures match Lifecycle.StartResolution(owner, intent, mode, interpretation, resolutionId, requestedAt, offeredAt)
            case Ok(expected) => refusal == None && r.Some? && fresh(r.value) && r.value.Snapshot() == expected
            case Err(e) => refusal == Some(e) && r == None
    ensures r.Some? <==> !IsBlank(owner) && !IsBlank(intent) && |Strip(intent)| <= 2000 && interpretation.Supported?
    ensures r.Some? ==>
              IsStarted(r.value.Snapshot(), owner, intent, mode, interpretation.phrase, interpretation.prohibitsRenewalCharge,
                        resolutionId, requestedAt, offeredAt)
  {
    hide Strip, IsStarted, IsBlank, DeadlineFor;
    RequestsAreStartedExactly(owner, intent, mode, interpretation, resolutionId, requestedAt, offeredAt);
    if IsBlank(owner) {
      return Some(Lifecycle.OwnerRequired), None;
    }
    var text := Strip(intent);
    if text == "" {
      return Some(Lifecycle.IntentEmpty), None;
    }
    if |text| > Lifecycle.MAX_INTENT_LENGTH {
      return Some(Lifecycle.IntentTooLong), None;
    }
    if interpretation.Unsupported? {
      return Some(Lifecycle.UnsupportedRequest), None;
    }
    var target := DemoResourceIdentity(owner);
    var deadline := DeadlineFor(interpretation.phrase, requestedAt);
    var contract := OutcomeContract(Cancellation, target.digest, deadline, interpretation.prohibitsRenewalCharge);
    var started := new ResolutionRecord.Requested(resolutionId, owner, text, mode, contract, requestedAt);
    var moved := started.Transit(AWAITING_CONFIRMATION, offeredAt, None);
    return None, Some(started);
  }
}
