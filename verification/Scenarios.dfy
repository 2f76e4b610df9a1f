/** One resolution, its tokens and its charges, and what each save makes of its row. */
module Scenarios {
  import opened Wrappers
  import opened Models
  import opened Outcomes
  import opened Verifier
  import Confirmation
  import opened Records
  import opened Lifecycle
  import opened Contract
  import opened Traces
  import opened Saving
  import opened RoundTrip
  import opened Reachability
  import opened DemoProvider
  import opened Service
  import opened Starting
  import opened Demo

  const LATER: int := 2 * DAY

  /** A resolution that was requested at time 0, to be cancelled by tomorrow and never charged again. */
  function Requested(): Record {
    NewRecord("id", "owner", "cancel", HEALTHY,
              OutcomeContract(Cancellation, DemoResourceIdentity("owner").digest, Some(DAY), true), 0, 0)
  }

  /** A charge of that resolution's subscription. */
  function Charge(id: string, at: int): OutcomeViolation {
    OutcomeViolation(id, "owner", "id", DemoResourceIdentity("owner").digest, RenewalCharge, 1, USD,
                     DemoBillingReadback, "e", at)
  }

  /** A service instance with a recovery provider. */
  const WITH_RECOVERY: Supply := Supply("n", "q", true)

  /** The refund draft that a charge leads to before any check was made. */
  function RefundDraft(): RecoveryAction {
    ProposalOf(Requested(), OutcomeViolated, "q", LATER)
  }

  /** A verifier that knows two tokens: one confirms the cancellation, the other the refund draft. */
  function Tokens(): Confirmation.Verifier {
    Confirmation.Verifier(
      (token: string) =>
        if token == "t" then Some(MintedClaims(Requested(), LATER, "j"))
        else if token == "u" then
          Some(MintedClaims(Requested(), LATER, "k").(action := PrepareRefundRequest, actionDigest := RefundDraft().digest))
        else None,
      DEMO_ISSUER, DEMO_AUDIENCE)
  }

  lemma RequestedIsNew()
    ensures IsNewRecord(Requested())
  {
    hide Strip, IsBlank, IsValidNew;
    RequestedIsStarted();
    StartedRecordsAreValidExactly("owner", "cancel", HEALTHY, Supported(ByTomorrow, true), "id", 0, 0);
    StartedRecord("owner", "cancel", HEALTHY, Supported(ByTomorrow, true), "id", 0, 0);
  }

  lemma RequestedIsStarted()
    ensures StartResolution("owner", "cancel", HEALTHY, Supported(ByTomorrow, true), "id", 0, 0) == Ok(Requested())
    ensures !IsBlank("id") && !IsBlank(HEALTHY)
  {
    assert !IsSpace("owner"[0]) && !IsSpace("id"[0]) && !IsSpace(HEALTHY[0]);
    assert !IsSpace("cancel"[0]) && !IsSpace("cancel"[5]);
    assert Strip("cancel") == "cancel";
  }

  /** A row of that resolution; `at` is the time of its last transition. */
  predicate IsRowOf(r: Record, at: int) {
    && r.resolutionId == "id" && r.ownerId == "owner" && r.intent == "cancel" && r.providerMode == HEALTHY
    && r.target == Requested().target && r.contract == Requested().contract
    && r.maxChecks == MAX_VERIFICATION_CHECKS
    && r.history != [] && Last(r.history).at == at
  }

  /** The parts that the claims of a check leave alone. */
  predicate SameLists(a: Record, b: Record) {
    && b.attempts == a.attempts && b.violations == a.violations && b.recoveries == a.recoveries
    && b.attention == a.attention
  }

  // ----- a confirmation at LATER

  function ConfirmedLater(): Op {
    Confirm("t", LATER, LATER)
  }

  lemma TokenIsMinted()
    ensures IsMinted(Tokens(), Requested(), "t", LATER, "j", LATER)
  {
    hide CancelActionDigest, IsBlank, RefundDraft;
    LettersAreNotBlank();
    assert Confirmation.Utf8Length("t") == 1;
    assert Confirmation.EpochSeconds(LATER) == 172_800;
    assert Confirmation.EpochSeconds(LATER + TOKEN_LIFETIME) == 172_830;
  }

  lemma ConfirmationOf(r: Record)
    requires IsRowOf(r, 0) && r.state == AWAITING_CONFIRMATION
    ensures IsAdmissible(Tokens(), r, ConfirmedLater())
    ensures var b := RowAfter(Tokens(), r, ConfirmedLater());
            && IsRowOf(b, LATER) && b.state == EXECUTING && b.checkCount == r.checkCount && SameLists(r, b)
  {
    hide IsMinted, Confirmation.VerifyAttestation, IsStorable, Tokens;
    TokenIsMinted();
    MintedTokensAreAccepted(Tokens(), Requested(), "t", LATER, "j", LATER);
    assert CancelActionDigest(r) == CancelActionDigest(Requested());
  }

  // ----- the provider's answer

  function AnsweredLater(answer: Reply<ActionReceipt>): Op {
    FirstClaim(answer, "f", LATER, LATER)
  }

  lemma AnswerOf(v: Confirmation.Verifier, r: Record, answer: Reply<ActionReceipt>)
    requires IsRowOf(r, LATER) && r.state == EXECUTING
    ensures IsAdmissible(v, r, AnsweredLater(answer))
    ensures var b := RowAfter(v, r, AnsweredLater(answer));
            && IsRowOf(b, LATER) && b.state == VERIFYING && b.updatedAt == LATER
            && b.checkCount == r.checkCount + 1 && SameLists(r, b) && b.claim == Some(ReceiptFor(answer, "f"))
  {
    hide ReceiptFor, IsBlank;
    LettersAreNotBlank();
  }

  // ----- a charge

  lemma ChargeOf(v: Confirmation.Verifier, r: Record, at: int, id: string, time: int, supply: Supply)
    requires IsRowOf(r, at) && !IsTerminal(r.state) && at <= time && time <= DAY + MAX_VIOLATION_AGE && DAY <= time
    requires r.violations == [] && r.recoveries == [] && r.attention == []
    requires supply == NO_RECOVERY || (supply == WITH_RECOVERY && time == LATER && r.attempts == [])
    ensures var op := Observe(Charge(id, time), time, supply);
            && !HasEvidence(r, "e") && IsAdmissible(v, r, op)
            && var b := RowAfter(v, r, op);
               && IsRowOf(b, at) && b.violations == [Charge(id, time)]
               && b.state == r.state && b.checkCount == r.checkCount && b.attempts == r.attempts && b.claim == r.claim
               && b.recoveries == (if supply.recoveryEnabled then [RefundDraft()] else [])
  {
    hide Attend, RefundDraft;
    var w := Charge(id, time);
    assert r.violations + [w] == [w];
    OfferOf(r.(violations := [w]), time, supply);
    AttendFrame(r.(violations := [w]), Some(DedupeKey(URGENT, OutcomeViolated)), time, true, supply);
  }

  lemma OfferOf(r: Record, time: int, supply: Supply)
    requires r.ownerId == "owner" && r.resolutionId == "id" && r.target == Requested().target
    requires r.recoveries == [] && r.attention == []
    requires supply == NO_RECOVERY || (supply == WITH_RECOVERY && time == LATER && r.attempts == [])
    ensures var b := Attend(r, Some(DedupeKey(URGENT, OutcomeViolated)), time, true, supply);
            b.recoveries == if supply.recoveryEnabled then [RefundDraft()] else []
  {
  }

  // ----- a check that is claimed again

  function ResumedAt(time: int): Op {
    Recheck(time, None, false)
  }

  lemma ResumptionOf(v: Confirmation.Verifier, r: Record, at: int)
    requires IsRowOf(r, at) && r.state == VERIFYING && r.updatedAt == at && r.checkCount < MAX_VERIFICATION_CHECKS
    requires r.recoveries == []
    ensures var op := ResumedAt(at + CHECK_INTERVAL);
            && IsAdmissible(v, r, op)
            && var b := RowAfter(v, r, op);
               && IsRowOf(b, at + CHECK_INTERVAL) && b.state == VERIFYING && b.updatedAt == at + CHECK_INTERVAL
               && b.checkCount == r.checkCount + 1 && SameLists(r, b) && b.claim == r.claim
  {
  }

  lemma UncheckedIsReadable(r: Record)
    requires r.attempts == []
    ensures IsReadableBack(r)
  {
  }
}
