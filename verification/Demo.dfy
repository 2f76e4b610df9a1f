/** The public demo: one isolated resolution driven through the service (public_demo_api.py). */
module Demo {
  import opened Wrappers
  import opened Models
  import opened Outcomes
  import opened Verifier
  import Confirmation
  import opened Records
  import Lifecycle
  import opened Contract
  import opened Traces
  import opened Invariants
  import opened Saving
  import opened RoundTrip
  import opened Protocol
  import Codec
  import opened DemoProvider
  import opened Service
  import opened Starting

  const DEMO_INTENT: string :=
    "Cancel StreamBox before next Friday"
    + " and make sure I don't get charged again."
  const DEMO_ISSUER: string := "urn:closeloop:public-demo:ephemeral"
  const DEMO_AUDIENCE: string := "urn:closeloop:public-demo"
  const TOKEN_LIFETIME: int := 30 * SECOND
  /** The demo provider of a mode, as the service meets it in one call. */
  function ProviderOf(mode: string, requestId: string): Provider {
    Provider(target => Answer(mode, target, requestId),
             (cancelled, target, attemptId) => Shown(mode, cancelled, target, attemptId))
  }

  const NO_RECOVERY: Lifecycle.Supply := Lifecycle.Supply("", "", false)

  // ----- what the demo's own steps do to a record

  /** A resolution of the demo: no charges, no recoveries, and a receipt that names the target. */
  predicate IsDemo(r: Record, mode: string) {
    && r.providerMode == mode && IsSupported(mode)
    && r.target == DemoResourceIdentity(r.ownerId)
    && r.violations == [] && r.recoveries == []
    && r.maxChecks == MAX_VERIFICATION_CHECKS
    && (r.claim.Some? ==> IsAcceptedReceipt(r.claim.value) && NamesTarget(r))
  }

  /** The demo resolution has used `k` checks, each under the identifier it was given. */
  predicate HasChecked(r: Record, k: nat, ids: seq<string>) {
    && r.checkCount == k == |r.attempts| <= |ids|
    && forall i :: 0 <= i < k ==> r.attempts[i].attemptId == ids[i]
  }

  predicate AreIdentifiers(ids: seq<string>) {
    && (forall i :: 0 <= i < |ids| ==> !IsBlank(ids[i]))
    && (forall i, j :: 0 <= i < j < |ids| ==> ids[i] != ids[j])
  }

  lemma PaidThroughIsADate()
    ensures IsIsoDate(PAID_THROUGH)
  {
    assert PAID_THROUGH[0] == '2' && PAID_THROUGH[1] == '0' && PAID_THROUGH[2] == '2' && PAID_THROUGH[3] == '6';
    assert PAID_THROUGH[5] == '0' && PAID_THROUGH[6] == '9' && PAID_THROUGH[8] == '3' && PAID_THROUGH[9] == '0';
  }

  /** The verdict on a read-back of the demo account. */
  lemma DemoVerdict(r: Record, mode: string, renews: bool, attemptId: string, eligible: bool, at: int)
    requires IsDemo(r, mode) && r.claim.Some? && !IsBlank(attemptId)
    ensures var e := Reading(mode, renews, r.target, attemptId);
            && IsValidEvidence(e)
            && Lifecycle.Judge(r, r.claim.value, e, attemptId, eligible, at).verdict ==
                 if mode == EVIDENCE_OUTAGE then INCONCLUSIVE
                 else if !renews then PASS
                 else if eligible && r.checkCount >= r.maxChecks then FAIL
                 else INCONCLUSIVE
  {
    PaidThroughIsADate();
  }

  /** The state in which a check leaves the demo resolution. */
  function StateAfterCheck(mode: string, cancelled: bool, isLast: bool): State {
    if mode == EVIDENCE_OUTAGE then AWAITING_PROOF
    else if cancelled && mode == HEALTHY then VERIFIED
    else if isLast then NOT_COMPLETED
    else AWAITING_PROOF
  }

  lemma DemoCheck(v: Confirmation.Verifier, a: Record, mode: string, cancelled: bool, attemptId: string, eligible: bool,
                  at: int, k: nat, ids: seq<string>)
    requires IsValid(a) && IsSound(a) && IsDemo(a, mode) && a.state == VERIFYING && a.claim.Some?
    requires a.checkCount == k + 1 && |a.attempts| == k < |ids| && ids[k] == attemptId && AreIdentifiers(ids)
    requires forall i :: 0 <= i < k ==> a.attempts[i].attemptId == ids[i]
    requires a.history != [] && Last(a.history).at <= at
    ensures IsFreshAttempt(a, attemptId, NO_RECOVERY)
    ensures var op := RecordCheck(Shown(mode, cancelled, a.target, attemptId), attemptId, eligible, at, NO_RECOVERY);
            && !Fails(v, a, op)
            && var b := Stored(Outcome(v, op, a).value);
               && IsDemo(b, mode) && HasChecked(b, k + 1, ids)
               && b.state == StateAfterCheck(mode, cancelled, eligible && k + 1 >= MAX_VERIFICATION_CHECKS)
               && b.history != [] && Last(b.history).at == at
               && b.nextCheckAt == (if b.state == AWAITING_PROOF && k + 1 < MAX_VERIFICATION_CHECKS
                                    then Some(at + CHECK_INTERVAL * (k + 1)) else None)
  {
    hide IsValid, IsSound, VerifyCancellation, IsBlank, IsAcceptedReceipt, AttentionKey;
    var op := RecordCheck(Shown(mode, cancelled, a.target, attemptId), attemptId, eligible, at, NO_RECOVERY);
    DemoVerdict(a, mode, !(cancelled && Cancels(mode)), attemptId, eligible, at);
    RecordCheckFrame(v, a, op);
    NothingIsProposed(v, a, op);
    DistinctIdentifiersSuffice(a.violations, at);
    SavesFailOnlyForClocksAndIdentifiers(v, a, op);
  }

  /** Without a recovery provider no recovery is ever proposed. */
  lemma NothingIsProposed(v: Confirmation.Verifier, a: Record, op: Op)
    requires op.RecordCheck? && !op.supply.recoveryEnabled && a.recoveries == []
    requires Outcome(v, op, a).Ok?
    ensures Outcome(v, op, a).value.recoveries == []
  {
    hide AttentionKey, VerifyCancellation, Lifecycle.EvidenceFor, Lifecycle.Judge;
  }
  // ----- the ephemeral confirmation

  /** The claims of the token that the demo mints for a started resolution. */
  function MintedClaims(r: Record, mintedAt: int, tokenId: string): Confirmation.Claims {
    Confirmation.Claims(
      DEMO_ISSUER, DEMO_AUDIENCE, Confirmation.ConfirmationV1, r.ownerId, r.resolutionId, CancelSubscription,
      CancelActionDigest(r), true, Confirmation.EpochSeconds(mintedAt),
      Confirmation.EpochSeconds(mintedAt + TOKEN_LIFETIME), tokenId)
  }

  /** The token decodes to those claims, and the confirmation comes before it expires. */
  predicate IsMinted(v: Confirmation.Verifier, r: Record, token: string, mintedAt: int, tokenId: string, confirmedAt: int) {
    && v.issuer == DEMO_ISSUER && v.audience == DEMO_AUDIENCE
    && !IsBlank(token) && Confirmation.Utf8Length(token) <= Confirmation.MAX_ATTESTATION_LENGTH
    && v.decode(token) == Some(MintedClaims(r, mintedAt, tokenId))
    && !IsBlank(tokenId) && |tokenId| <= Confirmation.MAX_ATTESTATION_ID_LENGTH
    && 0 <= mintedAt <= confirmedAt < Confirmation.EpochSeconds(mintedAt + TOKEN_LIFETIME) * SECOND
  }

  lemma MintedTokensAreAccepted(v: Confirmation.Verifier, r: Record, token: string, mintedAt: int, tokenId: string,
                                confirmedAt: int)
    requires IsMinted(v, r, token, mintedAt, tokenId, confirmedAt)
    ensures var a := Confirmation.VerifyAttestation(
                       v, token, Confirmation.ExpectedConfirmation(r.ownerId, r.resolutionId, CancelSubscription,
                                                                   CancelActionDigest(r)), confirmedAt);
            a.Some? && IsStorable(a.value, confirmedAt)
  {
    hide CancelActionDigest;
    assert CancelActionDigest(r).CancelDigest? by {
      DigestOfCancellation(r);
    }
    assert !IsBlank(DEMO_ISSUER) by {
      assert DEMO_ISSUER[0] == 'u';
    }
    assert tokenId != "" by {
      assert IsBlank("");
    }
    var issued, expires := Confirmation.EpochSeconds(mintedAt), Confirmation.EpochSeconds(mintedAt + TOKEN_LIFETIME);
    assert expires == issued + 30;
    assert Confirmation.InExactWindow(issued * SECOND, expires * SECOND, confirmedAt);
    Confirmation.WindowsDifferByLessThanASecond(issued, expires, confirmedAt);
  }

  lemma DigestOfCancellation(r: Record)
    ensures CancelActionDigest(r).CancelDigest?
  {
  }

  lemma DemoBegin(v: Confirmation.Verifier, a: Record, mode: string, x: ConfirmInputs, mintedAt: int, tokenId: string)
    requires IsValid(a) && IsSound(a) && IsDemo(a, mode) && a.state == AWAITING_CONFIRMATION
    requires a.history != [] && Last(a.history).at <= x.confirmedAt <= x.executingAt
    requires IsMinted(v, a, x.token, mintedAt, tokenId, x.confirmedAt)
    ensures !Fails(v, a, BeginOp(x))
    ensures var b := Stored(Outcome(v, BeginOp(x), a).value);
            && IsDemo(b, mode) && b.state == EXECUTING && b.checkCount == a.checkCount && b.attempts == a.attempts
            && b.history != [] && Last(b.history).at == x.executingAt
  {
    hide IsValid, IsSound, Confirmation.VerifyAttestation, CancelActionDigest, IsStorable, IsMinted;
    MintedTokensAreAccepted(v, a, x.token, mintedAt, tokenId, x.confirmedAt);
    SavesFailOnlyForClocksAndIdentifiers(v, a, BeginOp(x));
  }

  lemma DemoClaim(v: Confirmation.Verifier, a: Record, mode: string, requestId: string, x: ConfirmInputs)
    requires IsValid(a) && IsSound(a) && IsDemo(a, mode) && a.state == EXECUTING
    requires !IsBlank(requestId) && !IsBlank(x.freshId)
    requires a.history != [] && Last(a.history).at <= x.observedAt <= x.verifyingAt
    ensures var op := ClaimOp(Answer(mode, a.target, requestId), x);
            && !Fails(v, a, op)
            && var b := Stored(Outcome(v, op, a).value);
               && IsDemo(b, mode) && b.state == VERIFYING && b.claim.Some?
               && b.checkCount == a.checkCount + 1 && b.attempts == a.attempts
               && b.history != [] && Last(b.history).at == x.verifyingAt
  {
    hide IsValid, IsSound, IsBlank;
    var op := ClaimOp(Answer(mode, a.target, requestId), x);
    SavesFailOnlyForClocksAndIdentifiers(v, a, op);
  }

  /** A check of the demo that is made exactly when it is due. */
  lemma DemoRecheck(v: Confirmation.Verifier, a: Record, mode: string, due: int)
    requires IsValid(a) && IsSound(a) && IsDemo(a, mode) && a.state == AWAITING_PROOF
    requires a.nextCheckAt == Some(due) && a.checkCount < MAX_VERIFICATION_CHECKS
    requires a.history != [] && Last(a.history).at <= due
    ensures var op := Recheck(due, Some(due), false);
            && !Fails(v, a, op)
            && var b := Stored(Outcome(v, op, a).value);
               && IsDemo(b, mode) && b.state == VERIFYING && b.claim == a.claim
               && b.checkCount == a.checkCount + 1 && b.attempts == a.attempts
               && b.history != [] && Last(b.history).at == due
    ensures Lifecycle.IsTerminalFailureEligible(a, due) <==> a.checkCount + 1 >= MAX_VERIFICATION_CHECKS
  {
    hide IsValid, IsSound, IsBlank;
    var op := Recheck(due, Some(due), false);
    SavesFailOnlyForClocksAndIdentifiers(v, a, op);
  }
  // ----- whole calls

  /** What an orderly environment supplies to one run: distinct identifiers, a forward clock, and the minted token. */
  datatype DemoInputs = DemoInputs(
    owner: string, resolution: string, requestedAt: int, offeredAt: int, mintedAt: int, tokenId: string,
    requestId: string, confirm: ConfirmInputs, attemptIds: seq<string>)

  function Started(mode: string, d: DemoInputs): Result<Record, Lifecycle.Refusal> {
    Lifecycle.StartResolution(d.owner, DEMO_INTENT, mode, Lifecycle.Supported(ByFriday(true), true), d.resolution,
                              d.requestedAt, d.offeredAt)
  }

  predicate HasOrderlyCheck(x: ConfirmInputs, ids: seq<string>) {
    && x.executingAt <= x.observedAt <= x.verifyingAt <= x.checkedAt
    && !IsBlank(x.freshId)
    && |ids| == MAX_VERIFICATION_CHECKS && AreIdentifiers(ids)
    && x.attemptId == ids[0] && x.supply == NO_RECOVERY
  }

  predicate IsOrderly(v: Confirmation.Verifier, mode: string, d: DemoInputs) {
    && !IsBlank(d.owner) && !IsBlank(d.resolution)
    && d.requestedAt <= d.offeredAt <= d.confirm.confirmedAt <= d.confirm.executingAt
    && !IsBlank(d.requestId) && HasOrderlyCheck(d.confirm, d.attemptIds)
    && Started(mode, d).Ok?
    && IsMinted(v, Started(mode, d).value, d.confirm.token, d.mintedAt, d.tokenId, d.confirm.confirmedAt)
  }

  /** For every mode there is an environment that is orderly. */
  lemma OrderlyEnvironmentsExist(mode: string)
    requires IsSupported(mode)
    ensures exists v, d :: IsOrderly(v, mode, d)
  {
    hide IsMinted, HasOrderlyCheck, Started, MintedClaims, IsBlank;
    LettersAreNotBlank();
    var d := SampleInputs();
    DemoIsStarted(mode, d);
    SampleCheckIsOrderly();
    var claims := MintedClaims(Started(mode, d).value, 0, "j");
    var v := Confirmation.Verifier((token: string) => Some(claims), DEMO_ISSUER, DEMO_AUDIENCE);
    SampleTokenIsMinted(v, Started(mode, d).value);
    assert IsOrderly(v, mode, d) by {
      assert d.requestedAt <= d.offeredAt <= d.confirm.confirmedAt <= d.confirm.executingAt;
    }
  }

  function SampleInputs(): DemoInputs {
    DemoInputs("o", "i", 0, 0, 0, "j", "r", ConfirmInputs("t", 0, 0, "f", 0, 0, "a", 0, NO_RECOVERY),
               ["a", "b", "c", "d"])
  }

  lemma LettersAreNotBlank()
    ensures forall s: string :: |s| == 1 && 'a' <= s[0] <= 'z' ==> !IsBlank(s)
  {
    forall s: string | |s| == 1 && 'a' <= s[0] <= 'z' ensures !IsBlank(s) {
      assert !IsSpace(s[0]);
    }
  }

  lemma SampleCheckIsOrderly()
    ensures HasOrderlyCheck(SampleInputs().confirm, SampleInputs().attemptIds)
  {
    hide IsBlank;
    LettersAreNotBlank();
  }

  lemma SampleTokenIsMinted(v: Confirmation.Verifier, r: Record)
    requires v.issuer == DEMO_ISSUER && v.audience == DEMO_AUDIENCE && v.decode("t") == Some(MintedClaims(r, 0, "j"))
    ensures IsMinted(v, r, "t", 0, "j", 0)
  {
    hide CancelActionDigest, IsBlank;
    LettersAreNotBlank();
    assert Confirmation.Utf8Length("t") == 1;
  }

  lemma DemoIsStarted(mode: string, d: DemoInputs)
    requires !IsBlank(d.owner)
    ensures Started(mode, d).Ok?
  {
    assert DEMO_INTENT[0] == 'C' && DEMO_INTENT[75] == '.' && |DEMO_INTENT| == 76;
    assert Strip(DEMO_INTENT) == DEMO_INTENT;
  }

  /** The demo resolution after a check: `k` checks used, and the next one due when it is open. */
  predicate IsChecked(r: Record, mode: string, k: nat, ids: seq<string>) {
    && IsDemo(r, mode) && HasChecked(r, k, ids)
    && r.history != [] && r.claim.Some?
    && (r.state == AWAITING_PROOF && k < MAX_VERIFICATION_CHECKS ==>
          r.nextCheckAt == Some(Last(r.history).at + CHECK_INTERVAL * k))
  }

  /** The first two saves of the demo's confirmation do not fail. */
  lemma DemoExecutionRuns(v: Confirmation.Verifier, mode: string, d: DemoInputs, tr: Trace, n: nat, after: Trace)
    requires IsTrace(v, tr) && IsTrace(v, after) && IsShaped(tr)
    requires IsOrderly(v, mode, d) && IsSupported(mode) && Current(tr) == Started(mode, d).value
    requires HasRun(tr, ConfirmOps(Current(tr), ProviderOf(mode, d.requestId), d.confirm), n, after)
    ensures IsShaped(after) && |after.ops| == |tr.ops| + n
    ensures n < 2 ==> !Fails(v, Current(after), ConfirmOps(Current(tr), ProviderOf(mode, d.requestId), d.confirm)[n])
    ensures n >= 2 ==> var b := after.rows[|tr.ops| + 2];
                       && IsDemo(b, mode) && b.state == VERIFYING && b.claim.Some? && b.checkCount == 1
                       && b.attempts == [] && b.history != [] && Last(b.history).at == d.confirm.verifyingAt
  {
    hide IsTrace, IsValid, IsSound, IsMinted, Outcome, Fails, IsBlank, Strip, DeadlineFor;
    var a, x, ops := Current(tr), d.confirm, ConfirmOps(Current(tr), ProviderOf(mode, d.requestId), d.confirm);
    StartedIsDemo(mode, d);
    RanRow(v, tr, ops, n, after, 0);
    DemoBegin(v, a, mode, x, d.mintedAt, d.tokenId);
    if n >= 1 {
      RanRow(v, tr, ops, n, after, 1);
      DemoClaim(v, after.rows[|tr.ops| + 1], mode, d.requestId, x);
      if n >= 2 {
        RanRow(v, tr, ops, n, after, 2);
      }
    }
  }

  /** No save of the demo's confirmation fails, and the three of them lead to a first judged check. */
  lemma DemoConfirmationRuns(v: Confirmation.Verifier, mode: string, d: DemoInputs, tr: Trace, n: nat, after: Trace)
    requires IsTrace(v, tr) && IsTrace(v, after) && IsShaped(tr)
    requires IsOrderly(v, mode, d) && IsSupported(mode) && Current(tr) == Started(mode, d).value
    requires HasRun(tr, ConfirmOps(Current(tr), ProviderOf(mode, d.requestId), d.confirm), n, after)
    ensures IsShaped(after)
    ensures n < 3 ==> !Fails(v, Current(after), ConfirmOps(Current(tr), ProviderOf(mode, d.requestId), d.confirm)[n])
    ensures n == 3 ==> IsChecked(Current(after), mode, 1, d.attemptIds)
                       && Current(after).state == StateAfterCheck(mode, true, false)
  {
    hide IsTrace, IsValid, IsSound, IsMinted, Outcome, Fails, IsBlank, Strip, DeadlineFor;
    hide AreIdentifiers, IsAcceptedReceipt, Shown, IsFreshAttempt, Lifecycle.StartResolution, IsSupported;
    var x, ops := d.confirm, ConfirmOps(Current(tr), ProviderOf(mode, d.requestId), d.confirm);
    StartedIsDemo(mode, d);
    DemoExecutionRuns(v, mode, d, tr, n, after);
    if n >= 2 {
      RanRow(v, tr, ops, n, after, 2);
      var claimed := after.rows[|tr.ops| + 2];
      DemoCheck(v, claimed, mode, true, x.attemptId, false, x.checkedAt, 0, d.attemptIds);
      if n == 3 {
        RanRow(v, tr, ops, n, after, 3);
        ClaimIsKept(v, claimed, ops[2]);
      }
    }
  }

  lemma ClaimIsKept(v: Confirmation.Verifier, a: Record, op: Op)
    requires op.RecordCheck? && Outcome(v, op, a).Ok?
    ensures Outcome(v, op, a).value.claim == a.claim && a.claim.Some?
  {
    hide Lifecycle.RecordVerification;
    RecordCheckFrame(v, a, op);
  }

  lemma StartedIsDemo(mode: string, d: DemoInputs)
    requires Started(mode, d).Ok? && IsSupported(mode)
    ensures var r := Started(mode, d).value;
            && IsDemo(r, mode) && r.state == AWAITING_CONFIRMATION && r.checkCount == 0 && r.attempts == []
            && r.history != [] && Last(r.history).at == d.offeredAt && r.claim.None?
            && KeyOf(r) == Key(d.owner, d.resolution)
  {
    hide Strip, IsBlank, DeadlineFor;
  }

  /** No save of a recheck at the due time fails; the last of the budget ends in NOT_COMPLETED. */
  lemma DemoRecheckRuns(v: Confirmation.Verifier, mode: string, k: nat, ids: seq<string>, due: int, tr: Trace, n: nat,
                        after: Trace)
    requires IsTrace(v, tr) && IsTrace(v, after) && IsShaped(tr)
    requires IsChecked(Current(tr), mode, k, ids) && Current(tr).state == AWAITING_PROOF && 1 <= k < |ids|
    requires |ids| == MAX_VERIFICATION_CHECKS && AreIdentifiers(ids)
    requires Current(tr).nextCheckAt == Some(due)
    requires HasRun(tr, RecheckOps(Current(tr), ProviderOf(mode, ""), DueInputs(due, ids[k])), n, after)
    ensures n < 2 ==>
              && IsShaped(after)
              && !Fails(v, Current(after), RecheckOps(Current(tr), ProviderOf(mode, ""), DueInputs(due, ids[k]))[n])
    ensures n == 2 ==> IsShaped(after) && IsChecked(Current(after), mode, k + 1, ids)
                       && Current(after).state == StateAfterCheck(mode, false, k + 1 == MAX_VERIFICATION_CHECKS)
  {
    hide IsTrace, IsValid, IsSound, Outcome, Fails, IsBlank, Lifecycle.IsTerminalFailureEligible;
    hide AreIdentifiers, IsAcceptedReceipt, Shown, IsFreshAttempt;
    var a, x := Current(tr), DueInputs(due, ids[k]);
    var ops := RecheckOps(a, ProviderOf(mode, ""), x);
    RanRow(v, tr, ops, n, after, 0);
    DemoRecheck(v, a, mode, due);
    if n >= 1 {
      RanRow(v, tr, ops, n, after, 1);
      var claimed := after.rows[|tr.ops| + 1];
      DemoCheck(v, claimed, mode, false, ids[k], Lifecycle.IsTerminalFailureEligible(a, due), due, k, ids);
      if n == 2 {
        RanRow(v, tr, ops, n, after, 2);
        ClaimIsKept(v, claimed, ops[1]);
      }
    }
  }

  function DueInputs(due: int, attemptId: string): RecheckInputs {
    RecheckInputs(due, Some(due), false, attemptId, NO_RECOVERY)
  }

  lemma DemoIsReadBack(v: Confirmation.Verifier, tr: Trace, mode: string)
    requires IsTrace(v, tr) && IsShaped(tr) && IsDemo(Current(tr), mode)
    ensures Codec.Decode(Codec.Encode(Current(tr))).Ok?
  {
    hide IsTrace, Codec.Decode, Codec.Encode, IsReadableBack, IsAcceptedReceipt;
    StoredRowsAreReadBack(v, tr, |tr.rows| - 1);
  }
  // ----- PublicDemoRunner.run

  /** Starts and confirms the demo resolution. */
  method StartAndConfirm(service: ResolutionService, mode: string, d: DemoInputs)
    returns (status: Record, ghost tr: Trace)
    requires IsSupported(mode) && IsOrderly(service.verifier, mode, d)
    requires d.resolution !in service.repository.rows
    modifies service.repository
    ensures service.Holds(tr) && status == Current(tr) && KeyOf(status) == Key(d.owner, d.resolution)
    ensures tr.ops == ConfirmOps(Started(mode, d).value, ProviderOf(mode, d.requestId), d.confirm)
    ensures IsChecked(status, mode, 1, d.attemptIds) && status.state == StateAfterCheck(mode, true, false)
  {
    hide IsTrace, IsValidNew, IsMinted, IsBlank, Strip, DeadlineFor, Codec.Decode, Codec.Encode, Fails, Outcome;
    hide IsNewRecord, IsChecked, IsDemo, HasChecked, Lifecycle.StartResolution;
    StartedRecordsAreValidExactly(d.owner, DEMO_INTENT, mode, Lifecycle.Supported(ByFriday(true), true), d.resolution,
                                  d.requestedAt, d.offeredAt);
    ModesAreNotBlank(mode);
    StartedIsDemo(mode, d);
    StartedIsFresh(mode, d);
    var started;
    started, tr := service.StartResolution(d.owner, DEMO_INTENT, mode, Lifecycle.Supported(ByFriday(true), true),
                                           d.resolution, d.requestedAt, d.offeredAt);
    ghost var before := tr;
    DemoIsReadBack(service.verifier, tr, mode);
    var confirmed;
    ghost var n;
    confirmed, tr, n := service.ConfirmResolutionAction(d.owner, d.resolution, true, ProviderOf(mode, d.requestId),
                                                               d.confirm, before);
    DemoConfirmationRuns(service.verifier, mode, d, before, n, tr);
    SameKey(service.verifier, before, tr);
    status := confirmed.value;
  }

  lemma ModesAreNotBlank(mode: string)
    requires IsSupported(mode)
    ensures !IsBlank(mode)
  {
    assert !IsSpace(mode[0]);
  }

  lemma StartedIsFresh(mode: string, d: DemoInputs)
    requires Started(mode, d).Ok? && HasOrderlyCheck(d.confirm, d.attemptIds)
    ensures IsFreshAttempt(Started(mode, d).value, d.confirm.attemptId, d.confirm.supply)
    ensures !IsBlank(d.confirm.freshId)
  {
    hide Strip, IsBlank, DeadlineFor;
  }

  lemma SameKey(v: Confirmation.Verifier, before: Trace, after: Trace)
    requires IsTrace(v, before) && IsTrace(v, after) && IsShaped(before) && IsShaped(after) && before.rows <= after.rows
    ensures KeyOf(Current(after)) == KeyOf(Current(before))
  {
    hide IsTrace, IsValid;
    TraceRowsAreValid(v, before, |before.rows| - 1);
    TraceRowsAreValid(v, after, |after.rows| - 1);
  }

  /** One pass of the driver loop: a recheck at the time that the status says is due. */
  method RecheckWhenDue(service: ResolutionService, mode: string, status: Record, k: nat, ids: seq<string>, ghost tr: Trace)
    returns (next: Record, ghost after: Trace)
    requires service.Holds(tr) && status == Current(tr) && status.state == AWAITING_PROOF
    requires IsChecked(status, mode, k, ids) && 1 <= k < |ids|
    requires |ids| == MAX_VERIFICATION_CHECKS && AreIdentifiers(ids)
    modifies service.repository
    ensures service.Holds(after) && next == Current(after) && KeyOf(next) == KeyOf(status)
    ensures |after.ops| == |tr.ops| + 2 && tr.ops <= after.ops
    ensures after.ops[|tr.ops|].Recheck? && after.ops[|tr.ops| + 1].RecordCheck?
    ensures IsChecked(next, mode, k + 1, ids)
    ensures next.state == StateAfterCheck(mode, false, k + 1 == MAX_VERIFICATION_CHECKS)
  {
    hide IsTrace, Codec.Decode, Codec.Encode, Fails, Outcome, IsBlank, Shown, Lifecycle.IsTerminalFailureEligible;
    var due := status.nextCheckAt.value;
    DemoIsReadBack(service.verifier, tr, mode);
    var rechecked;
    ghost var n;
    rechecked, after, n := service.RecheckResolution(status.ownerId, status.resolutionId, ProviderOf(mode, ""),
                                                         DueInputs(due, ids[k]), tr);
    DemoRecheckRuns(service.verifier, mode, k, ids, due, tr, n, after);
    SameKey(service.verifier, tr, after);
    next := rechecked.value;
  }

  /**
    The four plain scenarios. A healthy provider ends VERIFIED; a false success and an outage stay open; a
    terminal failure is rechecked exactly three times and ends NOT_COMPLETED with the budget used up. In
    all of them the provider is asked to cancel once.
   */
  method RunPublicDemo(service: ResolutionService, mode: string, d: DemoInputs)
    returns (status: Record, rechecks: nat, ghost tr: Trace)
    requires IsSupported(mode) && IsOrderly(service.verifier, mode, d)
    requires d.resolution !in service.repository.rows
    modifies service.repository
    ensures service.Holds(tr) && status == Current(tr)
    ensures rechecks == (if mode == TERMINAL_FAILURE then 3 else 0) && status.checkCount == rechecks + 1
    ensures status.state == if mode == HEALTHY then VERIFIED
                            else if mode == TERMINAL_FAILURE then NOT_COMPLETED
                            else AWAITING_PROOF
    ensures |tr.ops| == 3 + 2 * rechecks
    ensures forall i :: 0 <= i < |tr.ops| ==> (tr.ops[i].Confirm? <==> i == 0)
  {
    hide IsTrace, IsOrderly, IsDemo, HasChecked, Codec.Encode, AreIdentifiers;
    IdentifiersAreOrderly(service.verifier, mode, d);
    status, tr := StartAndConfirm(service, mode, d);
    rechecks := 0;
    CountOf(status, mode, 1, d.attemptIds);
    if mode == TERMINAL_FAILURE {
      while status.state == AWAITING_PROOF
        invariant service.Holds(tr) && status == Current(tr)
        invariant rechecks <= 3 && IsChecked(status, mode, rechecks + 1, d.attemptIds)
        invariant status.checkCount == rechecks + 1 && status.maxChecks == MAX_VERIFICATION_CHECKS
        invariant status.state == if rechecks == 3 then NOT_COMPLETED else AWAITING_PROOF
        invariant |tr.ops| == 3 + 2 * rechecks
        invariant forall i :: 0 <= i < |tr.ops| ==> (tr.ops[i].Confirm? <==> i == 0)
        decreases status.maxChecks - status.checkCount
      {
        status, tr := RecheckWhenDue(service, mode, status, rechecks + 1, d.attemptIds, tr);
        rechecks := rechecks + 1;
        CountOf(status, mode, rechecks + 1, d.attemptIds);
      }
    }
  }

  lemma IdentifiersAreOrderly(v: Confirmation.Verifier, mode: string, d: DemoInputs)
    requires IsOrderly(v, mode, d)
    ensures |d.attemptIds| == MAX_VERIFICATION_CHECKS && AreIdentifiers(d.attemptIds)
  {
    hide IsMinted;
  }

  lemma CountOf(r: Record, mode: string, k: nat, ids: seq<string>)
    requires IsChecked(r, mode, k, ids)
    ensures r.checkCount == k && r.maxChecks == MAX_VERIFICATION_CHECKS
  {
  }
}
