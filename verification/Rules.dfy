/**
  The rules of the service, spelled out on the fields and claims that they speak of. Each rule says when
  something is admitted or what it leaves; the lemmas say that the steps of a call keep exactly to it.
 */
module Rules {
  import opened Wrappers
  import opened Models
  import opened Outcomes
  import opened Verifier
  import Confirmation
  import opened Records
  import opened Lifecycle

  // ----- confirmation tokens

  /** Issued, not expired, for at most 300 seconds, and less than 121 seconds ago; whole seconds are cut off towards 1970. */
  predicate IsLive(c: Confirmation.Claims, now: int) {
    && c.issuedAt < c.expiresAt <= c.issuedAt + 300
    && if now >= 0 then c.issuedAt * SECOND <= now < c.expiresAt * SECOND && now < (c.issuedAt + 121) * SECOND
       else (c.issuedAt - 1) * SECOND < now <= (c.expiresAt - 1) * SECOND && now <= (c.issuedAt + 120) * SECOND
  }

  /** The token's own claims confirm this action of this owner on this resolution, to this verifier, now. */
  predicate Confirms(v: Confirmation.Verifier, token: string, owner: string, resolution: string, action: ActionKind,
                     digest: Digest, now: int)
  {
    && !IsBlank(token) && Confirmation.Utf8Length(token) <= 4096
    && v.decode(token).Some?
    && var c := v.decode(token).value;
       && c.confirmed
       && c.issuer == v.issuer && c.audience == v.audience && c.version == Confirmation.ConfirmationV1
       && c.subject == owner && c.resolution == resolution && c.action == action
       && c.actionDigest == digest && IsHexDigest(digest)
       && IsLive(c, now)
       && 1 <= |c.tokenId| <= 128
  }

  /** What is kept of a token: its provenance, and the hash of its text. */
  function KeptOf(token: string, c: Confirmation.Claims): Confirmation.Attestation {
    Confirmation.Attestation(Confirmation.ConfirmationV1, c.issuer, c.tokenId, c.issuedAt * SECOND, c.expiresAt * SECOND,
                             c.actionDigest, TokenDigest(token))
  }

  lemma WindowIsLive(c: Confirmation.Claims, now: int)
    ensures Confirmation.InWholeSecondWindow(c.issuedAt, c.expiresAt, now) <==> IsLive(c, now)
  {
    var epoch := Confirmation.EpochSeconds(now);
    if now >= 0 {
      assert epoch * SECOND <= now < (epoch + 1) * SECOND;
    } else {
      assert (epoch - 1) * SECOND < now <= epoch * SECOND;
    }
  }

  /** A token is accepted exactly if its claims confirm the action, and then they are what is kept. */
  lemma TokensAreAcceptedExactly(v: Confirmation.Verifier, token: string, x: Confirmation.ExpectedConfirmation, now: int)
    ensures Confirmation.VerifyAttestation(v, token, x, now).Some?
            <==> Confirms(v, token, x.principal, x.resolution, x.action, x.actionDigest, now)
    ensures Confirmation.VerifyAttestation(v, token, x, now).Some? ==>
              Confirmation.VerifyAttestation(v, token, x, now).value == KeptOf(token, v.decode(token).value)
  {
    hide Confirmation.InWholeSecondWindow, IsLive, IsBlank, Confirmation.Utf8Length;
    if v.decode(token).Some? {
      WindowIsLive(v.decode(token).value, now);
    }
  }

  // ----- rechecks

  predicate HasNoneExecuting(r: Record) {
    forall action :: action in r.recoveries ==> action.state != Executing
  }

  /**
    A check may be claimed: with budget left and no recovery executing, from VERIFYING five minutes after the
    last update; from AWAITING_PROOF with the due schedule token, or without a token by force or once it is due.
   */
  predicate MayBeRechecked(r: Record, now: int, scheduledFor: Option<int>, force: bool) {
    && HasNoneExecuting(r)
    && r.checkCount < r.maxChecks
    && match r.state
       case VERIFYING => r.updatedAt + 5 * MINUTE <= now
       case AWAITING_PROOF =>
         if scheduledFor.Some? then r.nextCheckAt == scheduledFor && scheduledFor.value <= now
         else force || r.nextCheckAt.None? || r.nextCheckAt.value <= now
       case _ => false
  }

  /** The last check of the budget, claimed from AWAITING_PROOF when it was due. */
  predicate MayEndTheWindow(r: Record, now: int) {
    && r.state == AWAITING_PROOF && r.nextCheckAt.Some? && r.nextCheckAt.value <= now
    && r.maxChecks <= r.checkCount + 1
  }

  lemma RechecksAreAdmittedExactly(r: Record, now: int, scheduledFor: Option<int>, force: bool)
    ensures RecheckRefusal(r, now, scheduledFor, force).None? <==> MayBeRechecked(r, now, scheduledFor, force)
    ensures RecheckRefusal(r, now, scheduledFor, force) == Some(RecoveryRunning) <==> !HasNoneExecuting(r)
    ensures RecheckRefusal(r, now, scheduledFor, force) == Some(WrongState) <==>
              HasNoneExecuting(r) && r.state != VERIFYING && r.state != AWAITING_PROOF
    ensures IsTerminalFailureEligible(r, now) <==> MayEndTheWindow(r, now)
  {
  }

  /** By force, a check is admitted from every open row with budget left that awaits proof, at any time. */
  lemma ForceAdmitsAtAnyTime(r: Record, now: int)
    requires r.state == AWAITING_PROOF && r.checkCount < r.maxChecks && HasNoneExecuting(r)
    ensures MayBeRechecked(r, now, None, true)
  {
  }

  // ----- settlement

  /** What a check that leaves `state` makes of a recovery. */
  predicate IsSettled(before: RecoveryAction, after: RecoveryAction, state: State, at: int) {
    && after == before.(state := after.state, marks := after.marks)
    && (before.state != Verifying ==> after == before)
    && (before.state == Verifying ==>
          && (after.state == Completed <==> state == VERIFIED)
          && (after.state == Failed <==> state == NOT_COMPLETED)
          && (after.state == Verifying <==> state == AWAITING_PROOF)
          && after.marks == before.marks + (if state == AWAITING_PROOF then [] else [RecoveryMark(after.state, at)]))
  }

  lemma RecoveriesSettleExactly(action: RecoveryAction, verdict: Verdict, at: int)
    ensures IsSettled(action, Settle(action, verdict, at), TerminalStateFor(verdict), at)
  {
  }

  // ----- recovery decisions

  /** A recovery is found under its identifier, belongs to the record, and still awaits its confirmation. */
  predicate IsPendingAt(r: Record, n: nat, owner: string, resolution: string, id: string) {
    && n < |r.recoveries|
    && (forall j :: 0 <= j < n ==> r.recoveries[j].recoveryId != id)
    && var action := r.recoveries[n];
       && action.recoveryId == id && action.owner == owner && action.resolution == resolution
       && action.targetDigest == r.target.digest
       && action.digest == RecoveryDigest(id, owner, resolution, r.target.digest, action.kind, action.reason, action.expiresAt)
       && action.state == AwaitingConfirmation
  }

  predicate MayBeCarriedOut(r: Record, action: RecoveryAction) {
    r.state == AWAITING_PROOF || (action.kind == PrepareRefundRequest && |r.violations| > 0)
  }

  /** The recovery at `n` is decided: it expired, or it may be carried out and was declined or truly confirmed. */
  predicate MayBeDecided(v: Confirmation.Verifier, r: Record, n: nat, owner: string, resolution: string, id: string,
                         confirmed: bool, token: string, now: int)
  {
    && IsPendingAt(r, n, owner, resolution, id)
    && var action := r.recoveries[n];
       || action.expiresAt <= now
       || (MayBeCarriedOut(r, action)
           && (confirmed ==> Confirms(v, token, owner, resolution, action.kind, action.digest, now)))
  }

  /** What a decision makes of the record: one recovery moves on, and nothing else changes. */
  predicate IsDecided(v: Confirmation.Verifier, a: Record, n: nat, confirmed: bool, token: string, now: int, b: Record) {
    && n < |a.recoveries| == |b.recoveries|
    && b == a.(recoveries := b.recoveries, updatedAt := now)
    && (forall j :: 0 <= j < |a.recoveries| && j != n ==> b.recoveries[j] == a.recoveries[j])
    && var before, after := a.recoveries[n], b.recoveries[n];
       && after == before.(state := after.state, marks := before.marks + [RecoveryMark(after.state, now)],
                           attestationId := after.attestationId)
       && (after.state == Expired || after.state == Declined || after.state == Executing)
       && (after.state == Expired <==> before.expiresAt <= now)
       && (after.state == Declined <==> now < before.expiresAt && !confirmed)
       && (after.state == Executing <==> now < before.expiresAt && confirmed)
       && (after.state == Executing ==>
             v.decode(token).Some? && after.attestationId == Some(v.decode(token).value.tokenId))
       && (after.state != Executing ==> after.attestationId == before.attestationId)
  }

  lemma DecisionsAreMadeExactly(v: Confirmation.Verifier, r: Record, owner: string, resolution: string, id: string,
                                confirmed: bool, token: string, now: int)
    ensures var n := RecoveryIndex(r.recoveries, id);
            var d := DecideRecovery(v, r, owner, resolution, id, confirmed, token, now);
            && (d.Ok? <==> MayBeDecided(v, r, n, owner, resolution, id, confirmed, token, now))
            && (d.Ok? ==> IsDecided(v, r, n, confirmed, token, now, d.value.record))
            && (d.Ok? ==> (d.value.ToExpire? <==> d.value.record.recoveries[n].state == Expired)
                          && (d.value.ToDecline? <==> d.value.record.recoveries[n].state == Declined))
            && (d.Ok? && d.value.ToExecute? ==>
                  && d.value.action == d.value.record.recoveries[n]
                  && d.value.isRefund == (r.recoveries[n].kind == PrepareRefundRequest && |r.violations| > 0))
  {
    hide Confirmation.VerifyAttestation, RecoveryIndex, Confirms;
    var n := RecoveryIndex(r.recoveries, id);
    if n < |r.recoveries| {
      var action := r.recoveries[n];
      TokensAreAcceptedExactly(
        v, token, Confirmation.ExpectedConfirmation(owner, resolution, action.kind, action.digest), now);
      if Confirms(v, token, owner, resolution, action.kind, action.digest, now) {
        ConfirmingTokensDecode(v, token, owner, resolution, action.kind, action.digest, now);
      }
    }
  }

  lemma DecidedPosition(v: Confirmation.Verifier, r: Record, owner: string, resolution: string, id: string,
                        confirmed: bool, token: string, now: int)
    ensures DecideRecovery(v, r, owner, resolution, id, confirmed, token, now).Ok? ==>
              var n := RecoveryIndex(r.recoveries, id);
              n < |r.recoveries| == |DecideRecovery(v, r, owner, resolution, id, confirmed, token, now).value.record.recoveries|
  {
    hide Confirmation.VerifyAttestation, RecoveryIndex;
  }

  lemma ConfirmingTokensDecode(v: Confirmation.Verifier, token: string, owner: string, resolution: string,
                               action: ActionKind, digest: Digest, now: int)
    requires Confirms(v, token, owner, resolution, action, digest, now)
    ensures v.decode(token).Some?
  {
  }

  /** At most one position can be pending under an identifier. */
  lemma PendingIsUnique(r: Record, n: nat, owner: string, resolution: string, id: string)
    requires IsPendingAt(r, n, owner, resolution, id)
    ensures RecoveryIndex(r.recoveries, id) == n
  {
  }

  // ----- charges

  /** A renewal charge of this very subscription, after the deadline and at most seven days ago, that the contract prohibits. */
  predicate IsAdmissibleCharge(r: Record, owner: string, resolution: string, e: OutcomeViolation, now: int) {
    && r.contract.Some? && r.contract.value.prohibitsRenewalCharge
    && r.contract.value.deadlineAt.Some?
    && r.contract.value.deadlineAt.value <= e.observedAt <= now <= e.observedAt + 7 * DAY
    && e.owner == owner && e.resolution == resolution && e.targetDigest == r.target.digest
    && e.eventType == RenewalCharge && 0 < e.amountCents
    && (e.currency == USD || e.currency == CAD || e.currency == GBP || e.currency == EUR)
    && e.source == DemoBillingReadback
    && 1 <= |e.evidenceId| <= 128
  }

  /** A proposal for the given reason: five minutes to confirm it, bound to this record and its last attempt. */
  function Proposed(r: Record, reason: AttentionReason, recoveryId: string, now: int): RecoveryAction {
    var kind := if reason == OutcomeViolated then PrepareRefundRequest else PrepareSupportFollowup;
    RecoveryAction(
      recoveryId, r.ownerId, r.resolutionId, r.target.digest, kind,
      RecoveryDigest(recoveryId, r.ownerId, r.resolutionId, r.target.digest, kind, reason, now + 5 * MINUTE),
      reason, AwaitingConfirmation, now, now + 5 * MINUTE,
      if r.attempts == [] then None else Some(r.attempts[|r.attempts| - 1].attemptId), None, None,
      [RecoveryMark(AwaitingConfirmation, now)])
  }

  function Noted(r: Record, key: DedupeKey, eventId: string, now: int): AttentionEvent {
    AttentionEvent(eventId, r.ownerId, r.resolutionId, r.target.digest, key, now)
  }

  predicate WasNoted(r: Record, key: DedupeKey) {
    exists e :: e in r.attention && e.key == key
  }

  predicate WasProposed(r: Record, reason: AttentionReason) {
    exists action :: action in r.recoveries && action.reason == reason
  }

  const CHARGED: DedupeKey := DedupeKey(URGENT, OutcomeViolated)

  /**
    What a new charge makes of the record: the charge is kept, the urgent event is there, raised once, and
    with the event comes a refund draft if recovery is enabled and none was proposed before.
   */
  predicate IsCharged(a: Record, e: OutcomeViolation, now: int, supply: Supply, b: Record) {
    && b == a.(violations := a.violations + [e], attention := b.attention, recoveries := b.recoveries, updatedAt := now)
    && b.attention == a.attention
       + (if WasNoted(a, CHARGED) then [] else [Noted(a, CHARGED, supply.eventId, now)])
    && b.recoveries == a.recoveries
       + (if !WasNoted(a, CHARGED) && supply.recoveryEnabled && !WasProposed(a, OutcomeViolated)
          then [Proposed(a, OutcomeViolated, supply.recoveryId, now)] else [])
  }

  lemma ChargesAreAdmittedExactly(r: Record, owner: string, resolution: string, e: OutcomeViolation, now: int)
    ensures ViolationRefusal(r, owner, resolution, e, now).None? <==> IsAdmissibleCharge(r, owner, resolution, e, now)
  {
  }

  lemma ChargesAreRecordedExactly(r: Record, e: OutcomeViolation, now: int, supply: Supply)
    requires r.contract.Some?
    ensures IsCharged(r, e, now, supply, RecordViolation(r, e, now, supply))
  {
    assert HasEvent(r, CHARGED) <==> WasNoted(r, CHARGED);
    assert HasRecoveryFor(r, OutcomeViolated) <==> WasProposed(r, OutcomeViolated);
  }
  // ----- what the providers answer

  /** An answer is kept as it is if it is well formed; anything else counts as a failure under a new request id. */
  lemma AnswersAreKeptExactly(reply: Reply<ActionReceipt>, freshId: string)
    ensures var kept := ReceiptFor(reply, freshId);
            if reply.Returned? && !IsBlank(reply.value.requestId)
               && (reply.value.targetDigest.Some? ==> IsHexDigest(reply.value.targetDigest.value))
            then kept == reply.value
            else kept.requestId == freshId && !kept.success && kept.targetDigest.None?
  {
  }

  /** A read-back is kept as it is if it is well formed; anything else counts as an unreadable account. */
  lemma ReadBacksAreKeptExactly(reply: Reply<Evidence>, target: ResourceIdentity, attemptId: string)
    ensures var kept := EvidenceFor(reply, target, attemptId);
            if reply.Returned?
               && (reply.value.freshness.Some? ==> 0 <= reply.value.freshness.value)
               && (reply.value.targetDigest.Some? ==> IsHexDigest(reply.value.targetDigest.value))
               && (reply.value.attemptId.Some? ==> !IsBlank(reply.value.attemptId.value))
               && (reply.value.endDate.Some? ==> IsIsoDate(reply.value.endDate.value))
            then kept == reply.value
            else kept == Evidence(false, None, None, None, Some(target.digest), Some(attemptId))
  {
  }

  // ----- what a check leaves

  function StateOf(verdict: Verdict): State {
    match verdict
    case PASS => VERIFIED
    case FAIL => NOT_COMPLETED
    case INCONCLUSIVE => AWAITING_PROOF
  }

  /**
    The attempt that a check adds, judged in the record's own context, and the fields that show it. The next
    check is due after five minutes for each check so far, while the budget lasts.
   */
  predicate IsAttempted(a: Record, receipt: ActionReceipt, e: Evidence, attemptId: string, eligible: bool, at: int,
                        b: Record)
  {
    var w := LatestViolation(a.violations, at);
    var result := VerifyCancellation(
                    receipt, e, eligible && a.checkCount >= a.maxChecks, w,
                    Expectation(Some(a.target.digest), Some(attemptId), Some(a.ownerId), Some(a.resolutionId),
                                if a.contract.Some? then a.contract.value.deadlineAt else None, Some(at)));
    var state := StateOf(result.verdict);
    b == a.(state := state,
            updatedAt := at,
            history := a.history + [Transition(state, at, None, None)],
            evidence := Some(e), evidenceObservedAt := Some(at),
            verification := Some(result), verifiedAt := Some(at), lastCheckedAt := Some(at),
            attempts := a.attempts + [Attempt(at, e, result, attemptId, a.checkCount, eligible,
                                              if w.Some? then Some(w.value.violationId) else None)],
            nextCheckAt := if state == AWAITING_PROOF && a.checkCount < a.maxChecks
                           then Some(at + 5 * MINUTE * a.checkCount) else None,
            resolvedAt := if state == AWAITING_PROOF then None else Some(at),
            resolutionReason := Some(result.reason),
            recoveries := b.recoveries,
            attention := b.attention)
  }

  /** The conditions that raise attention, each with its level; at most one of them holds. */
  predicate IsOccasion(r: Record, at: int, key: DedupeKey) {
    && r.contract.Some?
    && var deadline := r.contract.value.deadlineAt;
       match key
       case DedupeKey(URGENT, OutcomeViolated) => |r.violations| > 0
       case DedupeKey(INFORMATIONAL, VerifiedNotice) => |r.violations| == 0 && r.state == VERIFIED
       case DedupeKey(ACTION_NEEDED, NotCompletedNotice) => |r.violations| == 0 && r.state == NOT_COMPLETED
       case DedupeKey(URGENT, DeadlinePassed) =>
         |r.violations| == 0 && !IsTerminal(r.state) && deadline.Some? && deadline.value <= at
       case DedupeKey(ACTION_NEEDED, DeadlineApproaching) =>
         && |r.violations| == 0 && !IsTerminal(r.state) && deadline.Some? && at < deadline.value <= at + 6 * HOUR
         && ShowsFreshRenewal(r)
       case _ => false
  }

  /** Readable evidence, at most 300 seconds old, that the subscription still renews. */
  predicate ShowsFreshRenewal(r: Record) {
    && r.evidence.Some? && r.evidence.value.readable && r.evidence.value.autoRenew == Some(true)
    && r.evidence.value.freshness.Some? && r.evidence.value.freshness.value <= 300
  }

  lemma OccasionsAreExact(r: Record, at: int, key: DedupeKey)
    ensures AttentionAfterCheck(r, at) == Some(key) <==> IsOccasion(r, at, key)
  {
  }

  /** A recovery is proposed with a new event: on open rows that still await proof, if it may help, once for each reason. */
  predicate CallsForProposal(a: Record, b: Record, key: DedupeKey, supply: Supply) {
    && supply.recoveryEnabled && b.state == AWAITING_PROOF
    && (key.level == ACTION_NEEDED || key.level == URGENT)
    && (key.reason == OutcomeViolated || (ShowsFreshRenewal(b) && |b.attempts| > 0))
    && !WasProposed(a, key.reason)
  }

  /** The attention and the recoveries that a check leaves. */
  ghost predicate IsFollowedUp(a: Record, b: Record, at: int, supply: Supply) {
    && |a.recoveries| <= |b.recoveries|
    && (forall n :: 0 <= n < |a.recoveries| ==> IsSettled(a.recoveries[n], b.recoveries[n], b.state, at))
    && (forall key :: IsOccasion(b, at, key) && !WasNoted(a, key) ==>
          && b.attention == a.attention + [Noted(b, key, supply.eventId, at)]
          && b.recoveries[|a.recoveries|..] ==
               if CallsForProposal(a, b, key, supply) then [Proposed(b, key.reason, supply.recoveryId, at)] else [])
    && ((forall key :: IsOccasion(b, at, key) ==> WasNoted(a, key)) ==>
          b.attention == a.attention && |b.recoveries| == |a.recoveries|)
  }

  lemma ChecksLeaveExactly(r: Record, receipt: ActionReceipt, e: Evidence, attemptId: string, eligible: bool, at: int,
                           supply: Supply)
    ensures var b := RecordVerification(r, receipt, e, attemptId, eligible, at, supply);
            IsAttempted(r, receipt, e, attemptId, eligible, at, b) && IsFollowedUp(r, b, at, supply)
  {
    hide VerifyCancellation, LatestViolation, AttentionAfterCheck, IsOccasion;
    var x := AttemptOf(r, receipt, e, attemptId, eligible, at);
    var settled := StoreAttempt(r, x).(recoveries := SettleAll(r.recoveries, x.result.verdict, at));
    var key := AttentionAfterCheck(settled, at);
    var b := RecordVerification(r, receipt, e, attemptId, eligible, at, supply);
    SettledAreFollowedUp(r, settled, x.result.verdict, key, at, supply);
  }

  /** What attending to a condition adds to a record. */
  lemma AttendingAddsExactly(r: Record, key: DedupeKey, at: int, proposes: bool, supply: Supply)
    ensures var b := Attend(r, Some(key), at, proposes, supply);
            && b == r.(recoveries := b.recoveries, attention := b.attention)
            && b.attention == r.attention + (if WasNoted(r, key) then [] else [Noted(r, key, supply.eventId, at)])
            && b.recoveries == r.recoveries
               + (if !WasNoted(r, key) && proposes && supply.recoveryEnabled
                     && (!IsTerminal(r.state) || key.reason == OutcomeViolated)
                     && (key.reason == OutcomeViolated || (ShowsFreshRenewal(r) && |r.attempts| > 0))
                     && !WasProposed(r, key.reason)
                  then [Proposed(r, key.reason, supply.recoveryId, at)] else [])
  {
    assert HasEvent(r, key) <==> WasNoted(r, key);
    assert HasRecoveryFor(r, key.reason) <==> WasProposed(r, key.reason);
  }

  lemma SettledAreFollowedUp(a: Record, settled: Record, verdict: Verdict, key: Option<DedupeKey>, at: int, supply: Supply)
    requires settled.recoveries == SettleAll(a.recoveries, verdict, at) && settled.attention == a.attention
    requires settled.state == TerminalStateFor(verdict) && key == AttentionAfterCheck(settled, at)
    ensures var proposes := && key.Some? && (key.value.level == ACTION_NEEDED || key.value.level == URGENT)
                            && !IsTerminal(settled.state);
            var b := Attend(settled, key, at, proposes, supply);
            && b == settled.(recoveries := b.recoveries, attention := b.attention)
            && IsFollowedUp(a, b, at, supply)
  {
    hide AttentionAfterCheck, IsOccasion, IsSettled, WasNoted, WasProposed, ShowsFreshRenewal;
    var proposes := && key.Some? && (key.value.level == ACTION_NEEDED || key.value.level == URGENT)
                    && !IsTerminal(settled.state);
    var b := Attend(settled, key, at, proposes, supply);
    forall n | 0 <= n < |a.recoveries| ensures IsSettled(a.recoveries[n], settled.recoveries[n], settled.state, at) {
      RecoveriesSettleExactly(a.recoveries[n], verdict, at);
    }
    forall k ensures IsOccasion(settled, at, k) <==> key == Some(k) {
      OccasionsAreExact(settled, at, k);
    }
    if key.Some? {
      hide Attend;
      AttendingAddsExactly(settled, key.value, at, proposes, supply);
      SameNotes(a, settled, key.value);
      ReasonsAreSettled(a, settled, verdict, at, key.value.reason);
    }
    AttendingLeavesOccasions(settled, b, at);
  }

  lemma AttendingLeavesOccasions(r: Record, b: Record, at: int)
    requires b == r.(recoveries := b.recoveries, attention := b.attention)
    ensures forall key :: IsOccasion(b, at, key) <==> IsOccasion(r, at, key)
    ensures ShowsFreshRenewal(b) <==> ShowsFreshRenewal(r)
  {
  }

  lemma SameNotes(a: Record, b: Record, key: DedupeKey)
    requires a.attention == b.attention
    ensures WasNoted(a, key) <==> WasNoted(b, key)
  {
  }

  lemma SameReasons(a: seq<RecoveryAction>, b: seq<RecoveryAction>, reason: AttentionReason)
    requires |a| == |b| && forall n :: 0 <= n < |a| ==> a[n].reason == b[n].reason
    ensures (exists action :: action in a && action.reason == reason) ==> exists action :: action in b && action.reason == reason
  {
    if action :| action in a && action.reason == reason {
      var n :| 0 <= n < |a| && a[n] == action;
      assert b[n] in b;
    }
  }

  lemma ReasonsAreSettled(a: Record, b: Record, verdict: Verdict, at: int, reason: AttentionReason)
    requires b.recoveries == SettleAll(a.recoveries, verdict, at)
    ensures WasProposed(a, reason) <==> WasProposed(b, reason)
  {
    hide SettleAll;
    SameReasons(a.recoveries, b.recoveries, reason);
    SameReasons(b.recoveries, a.recoveries, reason);
  }
  // ----- how an executed recovery ends

  /** The provider's receipt for this very action says that it succeeded. */
  predicate IsSuccess(reply: RecoveryReply, asked: RecoveryAction) {
    && reply.Answered? && reply.claimedSuccess
    && reply.actionDigest == asked.digest && reply.targetDigest == asked.targetDigest
  }

  /** What the provider's answer makes of the record: the recovery at `n` ends or waits for a read-back, with a receipt. */
  predicate IsFinished(a: Record, n: nat, asked: RecoveryAction, isRefund: bool, reply: RecoveryReply, now: int, b: Record) {
    && n < |a.recoveries| == |b.recoveries|
    && b == a.(recoveries := b.recoveries, updatedAt := now)
    && (forall j :: 0 <= j < |a.recoveries| && j != n ==> b.recoveries[j] == a.recoveries[j])
    && var before, after := a.recoveries[n], b.recoveries[n];
       && after == before.(state := after.state, marks := before.marks + [RecoveryMark(after.state, now)],
                           receipt := after.receipt)
       && after.state == (if !IsSuccess(reply, asked) then Failed else if isRefund then Completed else Verifying)
       && after.receipt ==
            Some(if reply.Raised? then UnknownAfterProviderError(before.digest, before.targetDigest)
                 else if reply.Answered? && reply.actionDigest == asked.digest && reply.targetDigest == asked.targetDigest
                 then ProviderReceipt(reply.source, reply.requestId, asked.digest, asked.targetDigest,
                                      reply.claimedSuccess, reply.summary)
                 else MalformedOrMismatched(before.digest, before.targetDigest))
  }

  lemma RecoveriesFinishExactly(r: Record, asked: RecoveryAction, isRefund: bool, reply: RecoveryReply, now: int)
    ensures var n := RecoveryIndex(r.recoveries, asked.recoveryId);
            match FinishRecovery(r, asked, isRefund, reply, now)
            case None => n == |r.recoveries|
            case Some(b) => IsFinished(r, n, asked, isRefund, reply, now, b)
  {
    hide RecoveryIndex;
  }

  // ----- new resolutions

  /** A deadline is the start of the next day, or of the Friday in the coming seven days or in the seven after those. */
  predicate IsDeadline(phrase: DeadlinePhrase, requestedAt: int, deadline: Option<int>) {
    match phrase
    case NoDeadline => deadline.None?
    case ByTomorrow => deadline.Some? && deadline.value % DAY == 0 && requestedAt < deadline.value <= requestedAt + DAY
    case ByFriday(next) =>
      && deadline.Some? && deadline.value % DAY == 0 && (deadline.value / DAY) % 7 == 1
      && (if next then 7 * DAY else 0) < deadline.value - requestedAt <= (if next then 14 * DAY else 7 * DAY)
  }

  /** The text without the spaces around it. */
  ghost predicate IsStripped(text: string, core: string) {
    && (core == "" ==> IsBlank(text))
    && (core != "" ==> !IsSpace(core[0]) && !IsSpace(core[|core| - 1]))
    && exists i, j :: IsCore(text, core, i, j)
  }

  predicate IsCore(text: string, core: string, i: int, j: int) {
    0 <= i <= j <= |text| && core == text[i..j] && IsBlank(text[..i]) && IsBlank(text[j..])
  }

  lemma {:induction false} LeftIsStripped(s: string) returns (i: nat)
    ensures i <= |s| && StripLeft(s) == s[i..] && IsBlank(s[..i])
    ensures StripLeft(s) == "" || !IsSpace(StripLeft(s)[0])
  {
    hide IsSpace;
    if s == [] || !IsSpace(s[0]) {
      i := 0;
    } else {
      var n := LeftIsStripped(s[1..]);
      i := n + 1;
      forall k | 0 <= k < i ensures IsSpace(s[k]) {
        assert k > 0 ==> s[1..][..n][k - 1] == s[k];
      }
    }
  }

  lemma {:induction false} RightIsStripped(s: string) returns (j: nat)
    ensures j <= |s| && StripRight(s) == s[..j] && IsBlank(s[j..])
    ensures StripRight(s) == "" || !IsSpace(StripRight(s)[|StripRight(s)| - 1])
  {
    hide IsSpace;
    if s == [] || !IsSpace(s[|s| - 1]) {
      j := |s|;
    } else {
      var front := s[..|s| - 1];
      j := RightIsStripped(front);
      assert front[..j] == s[..j];
      forall k | j <= k < |s| ensures IsSpace(s[k]) {
        assert k < |front| ==> front[j..][k - j] == s[k];
      }
    }
  }

  lemma StripsExactly(s: string)
    ensures IsStripped(s, Strip(s))
  {
    hide IsSpace, IsBlank, StripLeft, StripRight;
    var left := StripLeft(s);
    var i := LeftIsStripped(s);
    var j := RightIsStripped(left);
    assert left[..j] == s[i..i + j] && left[j..] == s[i + j..];
    assert IsCore(s, Strip(s), i, i + j);
    if j == 0 {
      assert left[j..] == left;
      BlankIsEmpty(left);
      assert s[..i] == s;
    }
  }

  lemma DeadlinesAreExact(phrase: DeadlinePhrase, requestedAt: int)
    ensures IsDeadline(phrase, requestedAt, DeadlineFor(phrase, requestedAt))
  {
    var date := DateOf(requestedAt);
    assert requestedAt == date * DAY + requestedAt % DAY;
    match phrase {
      case NoDeadline =>
      case ByTomorrow => assert ((date + 1) * DAY) % DAY == 0;
      case ByFriday(next) => FridayDeadlineIsAComingFriday(next, requestedAt);
    }
  }

  /** A request as it is stored: what was asked for, by whom, until when, and whether charges are prohibited. */
  ghost predicate IsStarted(r: Record, owner: string, intent: string, mode: string, phrase: DeadlinePhrase, prohibits: bool,
                      resolutionId: string, requestedAt: int, offeredAt: int)
  {
    && r.resolutionId == resolutionId && r.ownerId == owner && r.providerMode == mode && IsStripped(intent, r.intent)
    && r.target == ResourceIdentity(
                     DemoProviderName, SubjectDigest(owner), StreamBoxSubscription,
                     TargetDigest(DemoProviderName, SubjectDigest(owner), StreamBoxSubscription))
    && r.contract.Some?
    && r.contract.value.resolutionType == r.resolutionType == Cancellation
    && r.contract.value.targetDigest == r.target.digest
    && r.contract.value.prohibitsRenewalCharge == prohibits
    && IsDeadline(phrase, requestedAt, r.contract.value.deadlineAt)
    && r.state == AWAITING_CONFIRMATION && r.createdAt == requestedAt && r.updatedAt == offeredAt
    && r.history == [Transition(REQUESTED, requestedAt, Some(Confirmation.ConfirmationV1), None),
                     Transition(AWAITING_CONFIRMATION, offeredAt, None, None)]
    && r.version == 0 && r.checkCount == 0 && r.maxChecks == 4
    && r.attempts == [] && r.attention == [] && r.recoveries == [] && r.violations == []
    && r.confirmedAt.None? && r.claim.None? && r.evidence.None? && r.verification.None? && r.nextCheckAt.None?
    && r.resolvedAt.None?
  }

  /** A request is accepted exactly if it has an owner, a text of at most 2000 characters, and a supported intent. */
  lemma RequestsAreStartedExactly(owner: string, intent: string, mode: string, interpretation: Interpretation,
                                  resolutionId: string, requestedAt: int, offeredAt: int)
    ensures var started := StartResolution(owner, intent, mode, interpretation, resolutionId, requestedAt, offeredAt);
            && (started.Ok? <==>
                  !IsBlank(owner) && !IsBlank(intent) && |Strip(intent)| <= 2000 && interpretation.Supported?)
            && (started.Ok? ==>
                  IsStarted(started.value, owner, intent, mode, interpretation.phrase, interpretation.prohibitsRenewalCharge,
                            resolutionId, requestedAt, offeredAt))
  {
    hide Strip, DeadlineFor, IsDeadline;
    StripsExactly(intent);
    if IsBlank(intent) {
      BlankHasNoCore(intent, Strip(intent));
    }
    if interpretation.Supported? {
      DeadlinesAreExact(interpretation.phrase, requestedAt);
    }
  }

  lemma BlankHasNoCore(text: string, core: string)
    requires IsBlank(text) && IsStripped(text, core)
    ensures core == ""
  {
    var i, j :| IsCore(text, core, i, j);
    PartIsBlank(text, i, j);
    BlankIsEmpty(core);
  }

  lemma PartIsBlank(text: string, i: nat, j: nat)
    requires IsBlank(text) && i <= j <= |text|
    ensures IsBlank(text[i..j])
  {
  }

  lemma BlankIsEmpty(text: string)
    requires IsBlank(text) && (text == "" || !IsSpace(text[0]))
    ensures text == ""
  {
  }

  // ----- what the digests bind

  /** A cancellation's digest is shared only by the same owner, resolution, intent, mode and target. */
  lemma CancelDigestsBind(a: Record, b: Record)
    ensures CancelActionDigest(a) == CancelActionDigest(b) <==>
            && a.ownerId == b.ownerId && a.resolutionId == b.resolutionId && a.intent == b.intent
            && a.providerMode == b.providerMode && a.target.digest == b.target.digest
  {
  }

  /** A recovery's digest is shared only by the same recovery, down to its reason and expiry. */
  lemma RecoveryDigestsBind(a: RecoveryAction, b: RecoveryAction)
    ensures RecoveryActionDigest(a) == RecoveryActionDigest(b) <==>
            && a.recoveryId == b.recoveryId && a.owner == b.owner && a.resolution == b.resolution
            && a.targetDigest == b.targetDigest && a.kind == b.kind && a.reason == b.reason && a.expiresAt == b.expiresAt
  {
  }
}
