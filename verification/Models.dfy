/** Value objects of the cancellation workflow (models.py) and the text checks applied to them. */
module Models {
  import opened Wrappers

  /** Instants and durations are whole microseconds. */
  const SECOND: int := 1_000_000
  const MINUTE: int := 60 * SECOND
  const HOUR: int := 60 * MINUTE
  const DAY: int := 24 * HOUR

  /** What a confirmation or a recovery proposal asks for. */
  datatype ActionKind =
    | CancelSubscription
    | PrepareSupportFollowup
    | PrepareRefundRequest
    | OtherAction(name: string)

  /** Why attention was raised; a recovery proposal repeats the reason of its event. */
  datatype AttentionReason =
    | OutcomeViolated
    | VerifiedNotice
    | NotCompletedNotice
    | DeadlinePassed
    | DeadlineApproaching

  datatype ProviderName = DemoProviderName | OtherProviderName(name: string)

  datatype ResourceName = StreamBoxSubscription | OtherResource(name: string)

  /**
    A SHA-256 hex digest, represented by what was hashed: two digests are equal exactly when the
    same fields were hashed under the same domain. Foreign is any text that came from outside.
   */
  datatype Digest =
    | SubjectDigest(owner: string)
    | TargetDigest(provider: ProviderName, subject: Digest, resource: ResourceName)
    | CancelDigest(principal: string, resolution: string, intent: string, mode: string, target: Digest)
    | RecoveryDigest(recoveryId: string, owner: string, resolution: string, target: Digest,
                     action: ActionKind, reason: AttentionReason, expiresAt: int)
    | TokenDigest(token: string)
    | Foreign(text: string)

  predicate IsHexDigit(c: char) {
    '0' <= c <= '9' || 'a' <= c <= 'f'
  }

  /** Sixty-four lower-case hex digits; every digest the service computes itself has that form. */
  predicate IsHexDigest(d: Digest) {
    d.Foreign? ==> |d.text| == 64 && forall i :: 0 <= i < |d.text| ==> IsHexDigit(d.text[i])
  }

  /** The characters that str.strip removes. */
  predicate IsSpace(c: char) {
    var n := c as int;
    || 0x09 <= n <= 0x0D || 0x1C <= n <= 0x20 || n == 0x85 || n == 0xA0 || n == 0x1680
    || 0x2000 <= n <= 0x200A || n == 0x2028 || n == 0x2029 || n == 0x202F || n == 0x205F || n == 0x3000
  }

  /** True for the texts whose strip() is empty. */
  predicate IsBlank(s: string) {
    forall i :: 0 <= i < |s| ==> IsSpace(s[i])
  }

  function StripLeft(s: string): string {
    if s == [] || !IsSpace(s[0]) then s else StripLeft(s[1..])
  }

  function StripRight(s: string): string {
    if s == [] || !IsSpace(s[|s| - 1]) then s else StripRight(s[..|s| - 1])
  }

  function Strip(s: string): string {
    StripRight(StripLeft(s))
  }

  /** The resource a resolution acts on. */
  datatype ResourceIdentity = ResourceIdentity(
    provider: ProviderName, subject: Digest, resource: ResourceName, digest: Digest)

  /** The explicitly simulated target that belongs to an owner. */
  function DemoResourceIdentity(owner: string): ResourceIdentity {
    var subject := SubjectDigest(owner);
    ResourceIdentity(DemoProviderName, subject, StreamBoxSubscription,
                     TargetDigest(DemoProviderName, subject, StreamBoxSubscription))
  }

  /** What the provider claims about the cancellation it was asked for. */
  datatype ActionReceipt = ActionReceipt(
    requestId: string, success: bool, message: string, targetDigest: Option<Digest>)

  /** What an independent read-back of the account showed. */
  datatype Evidence = Evidence(
    readable: bool, autoRenew: Option<bool>, endDate: Option<string>, freshness: Option<int>,
    targetDigest: Option<Digest>, attemptId: Option<string>)

  datatype Verdict = PASS | FAIL | INCONCLUSIVE

  datatype ConsumerState = ShownVerified | ShownNotCompleted | ShownAwaitingProof

  /** The explanations that the verifier attaches to its verdicts. */
  datatype Reason =
    | ChargedAfterDeadline
    | ViolationUncorrelated
    | EvidenceMalformed
    | AccountUnavailable
    | EvidenceStale
    | ReceiptUnreliable
    | EvidenceUncorrelated
    | WindowEndedStillRenewing
    | StillRenewing
    | RenewalDisabled
    | EvidenceInsufficient

  datatype VerificationResult = VerificationResult(
    verdict: Verdict, consumer: ConsumerState, reason: Reason, receipt: ActionReceipt, evidence: Evidence)

  /** A call into a provider: an exception or a value of the wrong shape, or a well-typed value. */
  datatype Reply<+T> = Unavailable | Returned(value: T)
}
