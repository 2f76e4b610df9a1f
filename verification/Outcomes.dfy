/** Outcome contracts, attention events, recovery actions and billing violations (outcomes.py). */
module Outcomes {
  import opened Wrappers
  import opened Models

  const ATTENTION_WINDOW: int := 6 * HOUR
  const MAX_RENEWAL_EVIDENCE_AGE: int := 300

  datatype ResolutionType = Cancellation | Refund | Return | WarrantyClaim | ServiceRequest | Appointment

  /** The promise that a resolution tracks; the fields with one fixed value are left out. */
  datatype OutcomeContract = OutcomeContract(
    resolutionType: ResolutionType, targetDigest: Digest, deadlineAt: Option<int>, prohibitsRenewalCharge: bool)

  datatype AttentionLevel = SILENT | INFORMATIONAL | ACTION_NEEDED | URGENT

  /** Level and reason together are the dedupe key of an event. */
  datatype DedupeKey = DedupeKey(level: AttentionLevel, reason: AttentionReason)

  datatype AttentionEvent = AttentionEvent(
    eventId: string, owner: string, resolution: string, targetDigest: Digest, key: DedupeKey, createdAt: int)

  datatype EventType = RenewalCharge | OtherEvent(name: string)

  datatype Currency = USD | CAD | GBP | EUR | OtherCurrency(code: string)

  datatype BillingSource = DemoBillingReadback | IndependentBillingReadback | OtherSource(name: string)

  datatype OutcomeViolation = OutcomeViolation(
    violationId: string, owner: string, resolution: string, targetDigest: Digest, eventType: EventType,
    amountCents: int, currency: Currency, source: BillingSource, evidenceId: string, observedAt: int)

  datatype RecoveryState =
    | AwaitingConfirmation
    | Declined
    | Executing
    | Verifying
    | Completed
    | Failed
    | Expired

  /** The stored account of what the recovery provider answered. */
  datatype RecoveryReceipt =
    | ProviderReceipt(source: string, requestId: string, actionDigest: Digest, targetDigest: Digest,
                      claimedSuccess: bool, summary: string)
    | UnknownAfterProviderError(actionDigest: Digest, targetDigest: Digest)
    | MalformedOrMismatched(actionDigest: Digest, targetDigest: Digest)

  datatype RecoveryMark = RecoveryMark(state: RecoveryState, at: int)

  datatype RecoveryAction = RecoveryAction(
    recoveryId: string, owner: string, resolution: string, targetDigest: Digest, kind: ActionKind,
    digest: Digest, reason: AttentionReason, state: RecoveryState, createdAt: int, expiresAt: int,
    evidenceAttemptId: Option<string>, attestationId: Option<string>, receipt: Option<RecoveryReceipt>,
    marks: seq<RecoveryMark>)

  /** The digest that a recovery confirmation has to carry. */
  function RecoveryActionDigest(a: RecoveryAction): Digest {
    RecoveryDigest(a.recoveryId, a.owner, a.resolution, a.targetDigest, a.kind, a.reason, a.expiresAt)
  }

  predicate IsKnownCurrency(c: Currency) {
    !c.OtherCurrency?
  }

  /** Readable evidence, at most five minutes old, that the subscription still renews. */
  predicate ShowsRenewal(evidence: Option<Evidence>) {
    && evidence.Some?
    && evidence.value.readable
    && evidence.value.autoRenew == Some(true)
    && evidence.value.freshness.Some?
    && evidence.value.freshness.value <= MAX_RENEWAL_EVIDENCE_AGE
  }

  /** The part of an event that does not depend on identifiers; None means silence. */
  function AttentionKey(contract: OutcomeContract, verified: bool, notCompleted: bool,
                        evidence: Option<Evidence>, hasViolation: bool, now: int): Option<DedupeKey>
  {
    if hasViolation then Some(DedupeKey(URGENT, OutcomeViolated))
    else if verified then Some(DedupeKey(INFORMATIONAL, VerifiedNotice))
    else if notCompleted then Some(DedupeKey(ACTION_NEEDED, NotCompletedNotice))
    else if contract.deadlineAt.Some? && now >= contract.deadlineAt.value then
      Some(DedupeKey(URGENT, DeadlinePassed))
    else if
      && contract.deadlineAt.Some?
      && contract.deadlineAt.value - now <= ATTENTION_WINDOW
      && ShowsRenewal(evidence)
    then Some(DedupeKey(ACTION_NEEDED, DeadlineApproaching))
    else None
  }

  /** Nothing is raised exactly while a resolution is open, uncharged, and not known to renew near its deadline. */
  lemma SilenceIsExact(contract: OutcomeContract, verified: bool, notCompleted: bool, evidence: Option<Evidence>,
                       hasViolation: bool, now: int)
    ensures AttentionKey(contract, verified, notCompleted, evidence, hasViolation, now).None? <==>
            && !hasViolation && !verified && !notCompleted
            && (contract.deadlineAt.Some? ==>
                  && now < contract.deadlineAt.value
                  && (now < contract.deadlineAt.value - ATTENTION_WINDOW || !ShowsRenewal(evidence)))
  {
  }

  /** The deadline phrase recognised in the request, if any. */
  datatype DeadlinePhrase = NoDeadline | ByTomorrow | ByFriday(next: bool)

  /** Days since 1970-01-01 of an instant; the date that a UTC calendar shows. */
  function DateOf(t: int): int {
    t / DAY
  }

  /** Monday is 0; 1970-01-01 was a Thursday. */
  function Weekday(date: int): int {
    (date + 3) % 7
  }

  const FRIDAY: int := 4

  function DeadlineFor(phrase: DeadlinePhrase, requestedAt: int): Option<int> {
    match phrase
    case NoDeadline => None
    case ByTomorrow => Some((DateOf(requestedAt) + 1) * DAY)
    case ByFriday(next) =>
      var ahead := (FRIDAY - Weekday(DateOf(requestedAt))) % 7;
      var days := (if ahead == 0 then 7 else ahead) + (if next then 7 else 0);
      Some((DateOf(requestedAt) + days) * DAY)
  }

  /** A Friday deadline is the start of a Friday, in the coming week or in the one after it. */
  lemma FridayDeadlineIsAComingFriday(next: bool, requestedAt: int)
    ensures var d := DeadlineFor(ByFriday(next), requestedAt);
            && d.Some?
            && d.value % DAY == 0
            && Weekday(DateOf(d.value)) == FRIDAY
            && (if next then 7 * DAY else 0) < d.value - requestedAt <= (if next then 14 * DAY else 7 * DAY)
  {
    var date := DateOf(requestedAt);
    var ahead := (FRIDAY - Weekday(date)) % 7;
    var days := (if ahead == 0 then 7 else ahead) + (if next then 7 else 0);
    var d := (date + days) * DAY;
    assert d / DAY == date + days && d % DAY == 0;
    assert requestedAt == date * DAY + requestedAt % DAY;
  }
}
