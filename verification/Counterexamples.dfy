/**
  Runs in which the service and its store do not do what their descriptions suggest, and one in which
  everything happens that the safety theorems speak of. For each failure the exact condition is proved
  elsewhere: Saving.SavesFailOnlyForClocksAndIdentifiers, RoundTrip.DecodingInvertsEncodingExactly,
  Verdicts.ChecksDecideExactly and Exhaustion.SpentRowsStayExactlyWithoutHolder.
 */
module Counterexamples {
  import opened Wrappers
  import opened Models
  import opened Outcomes
  import opened Verifier
  import Confirmation
  import opened Records
  import opened Lifecycle
  import opened Contract
  import opened Traces
  import opened Invariants
  import opened Saving
  import opened RoundTrip
  import opened Protocol
  import opened Reachability
  import opened Scenarios
  import opened Exhaustion
  import Codec
  import opened DemoProvider
  import opened Demo

  /** A live call whose copy is the current open row builds a record from it that the store refuses. */
  ghost predicate IsRefused(v: Confirmation.Verifier, s: System, pid: nat, op: Op) {
    && pid in s.procs && HasRecord(s.procs[pid]) && MayAttempt(s.procs[pid], op)
    && var p := s.procs[pid];
       && p.key in s.traces && IsShaped(s.traces[p.key]) && p.record == Current(s.traces[p.key])
       && !IsTerminal(p.record.state)
       && Outcome(v, op, p.record).Ok? && HasFreshIds(op, p.record)
       && !Accepts(p.record, Outcome(v, op, p.record).value)
  }

  lemma UntimelyIsRefused(v: Confirmation.Verifier, s: System, r: Record, procs: map<nat, Process>, pid: nat, op: Op)
    requires IsAt(v, s, r, procs) && pid in procs && HasRecord(procs[pid]) && procs[pid].record == r
    requires procs[pid].key == KeyOf(r) && MayAttempt(procs[pid], op)
    requires r.history != [] && !IsTerminal(r.state)
    requires Outcome(v, op, r).Ok? && HasFreshIds(op, r) && !IsTimely(v, r, op)
    ensures IsReachable(v, s) && IsRefused(v, s, pid, op)
  {
    hide IsReachable, IsTrace, IsValid, IsSound, Outcome, IsTimely, HasFreshIds, MayAttempt, Accepts;
    RowIsSound(v, s, r, procs);
    SavesFailOnlyForClocksAndIdentifiers(v, r, op);
  }

  /** A run up to the claim of the first check, with the call that made it still alive as process 0. */
  lemma ClaimedRun(charges: bool, id: string, supply: Supply, answer: Reply<ActionReceipt>)
    returns (s: System, r: Record)
    requires supply == NO_RECOVERY || supply == WITH_RECOVERY
    ensures IsAt(Tokens(), s, r, map[0 := Claimed(KeyOf(r), r, false, None)])
    ensures IsRowOf(r, LATER) && r.state == VERIFYING && r.updatedAt == LATER && r.checkCount == 1 && r.attempts == []
    ensures r.claim == Some(ReceiptFor(answer, "f"))
    ensures r.violations == if charges then [Charge(id, LATER)] else []
    ensures !charges ==> r.attention == []
    ensures r.recoveries == if charges && supply.recoveryEnabled then [RefundDraft()] else []
    ensures |s.effects| == 1 && s.effects[0].CancelCall?
  {
    hide IsAt, IsAdmissible, Outcome, IsNewRecord, IsReadableBack, ReceiptFor, Tokens, HasEvidence, RefundDraft;
    var v := Tokens();
    r := Requested();
    RequestedIsNew();
    s := CreateGoes(v, r);
    if charges {
      UncheckedIsReadable(r);
      ChargeOf(v, r, 0, id, LATER, supply);
      var op := Observe(Charge(id, LATER), LATER, supply);
      s := ObservationGoes(v, s, r, map[], 0, op);
      r := RowAfter(v, r, op);
    }
    UncheckedIsReadable(r);
    ConfirmationOf(r);
    s := ConfirmationGoes(v, s, r, map[], 0, ConfirmedLater());
    var begun := RowAfter(v, r, ConfirmedLater());
    assert map[][0 := Calling(KeyOf(r), begun, "t")] == map[0 := Calling(KeyOf(r), begun, "t")];
    SameKeyOf(r, begun);
    AnswerOf(v, begun, answer);
    s := ExecutionGoes(v, s, begun, map[0 := Calling(KeyOf(begun), begun, "t")], 0, AnsweredLater(answer));
    r := RowAfter(v, begun, AnsweredLater(answer));
    SameKeyOf(begun, r);
    assert map[0 := Calling(KeyOf(begun), begun, "t")][0 := Claimed(KeyOf(begun), r, false, None)]
        == map[0 := Claimed(KeyOf(r), r, false, None)];
  }

  lemma SameKeyOf(a: Record, b: Record)
    requires a.ownerId == b.ownerId && a.resolutionId == b.resolutionId
    ensures KeyOf(a) == KeyOf(b)
  {
  }
  // ----- a confirmation between 120 and 121 seconds old

  /**
    A confirmation that the verifier accepts by whole seconds but that is older than 120 seconds is refused
    by the store, so the provider is not called.
   */
  lemma SlowConfirmationsAreNotStored(v: Confirmation.Verifier, a: Record, op: Op)
    requires IsValid(a) && IsSound(a)
    requires op.Confirm? && Outcome(v, op, a).Ok? && v.decode(op.token).Some?
    requires 0 <= op.confirmedAt
    requires op.confirmedAt - v.decode(op.token).value.issuedAt * SECOND > Confirmation.MAX_CONFIRMATION_AGE_SECONDS * SECOND
    ensures !Accepts(a, Outcome(v, op, a).value)
    ensures op.confirmedAt - v.decode(op.token).value.issuedAt * SECOND < (Confirmation.MAX_CONFIRMATION_AGE_SECONDS + 1) * SECOND
  {
    hide IsValid, IsSound, Accepts, CancelActionDigest;
    var c := v.decode(op.token).value;
    Confirmation.WindowsDifferByLessThanASecond(c.issuedAt, c.expiresAt, op.confirmedAt);
    SavesFailOnlyForClocksAndIdentifiers(v, a, op);
  }

  // ----- a clock that was read too early

  /**
    A recovery or billing call reads its clock before it loads the record. In this run another call has moved
    the record past that time in between, and admissible billing evidence is refused.
   */
  lemma EarlyClocksLoseEvidence()
    ensures exists v, s, pid, op: Op :: IsReachable(v, s) && IsRefused(v, s, pid, op) && op.Observe?
  {
    hide IsAt, IsReachable, IsAdmissible, IsNewRecord, IsReadableBack, Tokens, IsRefused, Outcome, IsTimely;
    var v, r := Tokens(), Requested();
    RequestedIsNew();
    var s := CreateGoes(v, r);
    UncheckedIsReadable(r);
    ConfirmationOf(r);
    s := ConfirmationGoes(v, s, r, map[], 0, ConfirmedLater());
    var begun := RowAfter(v, r, ConfirmedLater());
    UncheckedIsReadable(begun);
    var procs := map[][0 := Calling(KeyOf(r), begun, "t")];
    var p := Observing(KeyOf(begun), begun);
    s := LoadGoes(v, s, begun, procs, 1, p);
    var op := Observe(Charge("w", DAY), DAY, NO_RECOVERY);
    ChargeComesLate(v, begun);
    UntimelyIsRefused(v, s, begun, procs[1 := p], 1, op);
    assert IsReachable(v, s) && IsRefused(v, s, 1, op) && op.Observe?;
  }

  lemma ChargeComesLate(v: Confirmation.Verifier, r: Record)
    requires IsRowOf(r, LATER) && r.violations == [] && r.recoveries == []
    ensures var op := Observe(Charge("w", DAY), DAY, NO_RECOVERY);
            && Outcome(v, op, r).Ok? && HasFreshIds(op, r) && !IsTimely(v, r, op)
            && !HasEvidence(r, op.violation.evidenceId)
  {
    hide RecordViolation;
  }

  // ----- a charge without an identifier

  /** The process of a claimed check after its read-back. */
  function SeenLater(r: Record, seen: Reply<Evidence>): Process {
    Seen(KeyOf(r), r, false, LATER, "x", seen)
  }

  function CheckedLater(seen: Reply<Evidence>): Op {
    RecordCheck(seen, "x", false, LATER, NO_RECOVERY)
  }

  lemma ReadBackLater(s: System, r: Record, seen: Reply<Evidence>) returns (t: System)
    requires IsAt(Tokens(), s, r, map[0 := Claimed(KeyOf(r), r, false, None)])
    ensures IsAt(Tokens(), t, r, map[0 := SeenLater(r, seen)]) && t.effects == s.effects
  {
    hide IsAt, Tokens;
    var procs := map[0 := Claimed(KeyOf(r), r, false, None)];
    t := ReadBackGoes(Tokens(), s, r, procs, 0, LATER, "x", seen);
    assert procs[0 := SeenLater(r, seen)] == map[0 := SeenLater(r, seen)];
  }

  /** In this run a charge with an empty identifier was stored, and the check of a later confirmation is refused. */
  lemma NamelessChargesStopChecks()
    ensures exists v, s, pid, op: Op :: IsReachable(v, s) && IsRefused(v, s, pid, op) && op.RecordCheck?
  {
    hide IsAt, IsReachable, Tokens, IsRefused, ReceiptFor;
    var s, r := ClaimedRun(true, "", NO_RECOVERY, Unavailable);
    s := ReadBackLater(s, r, Unavailable);
    var op := CheckedLater(Unavailable);
    NamelessCheck(Tokens(), r);
    UntimelyIsRefused(Tokens(), s, r, map[0 := SeenLater(r, Unavailable)], 0, op);
    assert IsReachable(Tokens(), s) && IsRefused(Tokens(), s, 0, op) && op.RecordCheck?;
  }

  lemma NamelessCheck(v: Confirmation.Verifier, r: Record)
    requires IsRowOf(r, LATER) && r.state == VERIFYING && r.claim.Some? && r.attempts == [] && r.recoveries == []
    requires r.violations == [Charge("", LATER)]
    ensures var op := CheckedLater(Unavailable);
            Outcome(v, op, r).Ok? && HasFreshIds(op, r) && !IsTimely(v, r, op)
  {
    hide RecordVerification, IsBlank;
    LettersAreNotBlank();
    assert LatestViolation(r.violations, LATER) == Some(Charge("", LATER));
  }

  // ----- a receipt that does not name its target

  /**
    In this run the provider reports success without naming the target, and then shows fresh evidence. The row
    that it leaves can be read by no instance any more: every later call on that resolution fails.
   */
  lemma UnnamedReceiptsCannotBeReadBack()
    ensures exists v, s: System, k :: IsReachable(v, s) && k in s.traces && IsShaped(s.traces[k])
                                      && Codec.Decode(Codec.Encode(Current(s.traces[k]))).Err?
  {
    hide IsReachable, Tokens, Outcome, IsTimely, IsReadableBack, Reading, ReceiptFor, Codec.Decode, Codec.Encode;
    hide IsTrace, IsValid, IsSound, HasFreshIds;
    var v, answer := Tokens(), Returned(ActionReceipt("r", true, "ok", None));
    var s, r := ClaimedRun(false, "", NO_RECOVERY, answer);
    var seen := Returned(Reading(HEALTHY, false, r.target, "x"));
    s := ReadBackLater(s, r, seen);
    var op := CheckedLater(seen);
    ReceiptIsKept();
    UnnamedCheck(v, r, op);
    s := SaveGoes(v, s, r, map[0 := SeenLater(r, seen)], 0, op);
    var row := RowAfter(v, r, op);
    RowIsSound(v, s, row, ProcessesAfter(v, map[0 := SeenLater(r, seen)], 0, op, row));
    var tr := s.traces[KeyOf(row)];
    StoredRowsAreReadBack(v, tr, |tr.rows| - 1);
  }

  lemma ReceiptIsKept()
    ensures var receipt := ActionReceipt("r", true, "ok", None);
            IsAcceptedReceipt(receipt) && ReceiptFor(Returned(receipt), "f") == receipt
  {
    assert !IsSpace("r"[0]);
  }

  lemma UnnamedCheck(v: Confirmation.Verifier, a: Record, op: Op)
    requires op == CheckedLater(Returned(Reading(HEALTHY, false, a.target, "x")))
    requires a.state == VERIFYING && a.history != [] && Last(a.history).at == LATER
    requires a.attempts == [] && a.recoveries == [] && a.violations == []
    requires a.target == DemoResourceIdentity(a.ownerId)
    requires a.claim.Some? && IsAcceptedReceipt(a.claim.value) && a.claim.value.targetDigest.None?
    ensures Outcome(v, op, a).Ok? && HasFreshIds(op, a) && IsWritten(op, a) && IsTimely(v, a, op)
    ensures !IsReadableBack(RowAfter(v, a, op))
  {
    hide VerifyCancellation, AttentionKey, RecordVerification, IsAcceptedReceipt;
    assert !IsSpace("x"[0]);
    PaidThroughIsADate();
    RecordCheckFrame(v, a, op);
    var b := RowAfter(v, a, op);
    assert b.attempts == [AttemptFor(a, op)];
    assert !IsJudgedAlike(b, b.attempts[0]);
  }

  // ----- failure at the first check

  /**
    In this run a charge was stored, the provider never answered, and the first of four checks already ends
    NOT_COMPLETED, without an accepted receipt and without readable evidence.
   */
  lemma ChargesFailTheFirstCheck()
    ensures exists v, s: System, k :: IsReachable(v, s) && k in s.traces && IsShaped(s.traces[k])
                                      && FailsAtOnce(Current(s.traces[k]))
  {
    hide IsReachable, Tokens, Outcome, IsAdmissible, FailsAtOnce, ReceiptFor, IsTrace;
    var v := Tokens();
    var s, r := ClaimedRun(true, "w", NO_RECOVERY, Unavailable);
    s := ReadBackLater(s, r, Unavailable);
    ChargedCheck(v, r);
    s := SaveGoes(v, s, r, map[0 := SeenLater(r, Unavailable)], 0, CheckedLater(Unavailable));
    var row := RowAfter(v, r, CheckedLater(Unavailable));
    assert IsReachable(v, s) && KeyOf(row) in s.traces && FailsAtOnce(Current(s.traces[KeyOf(row)]));
  }

  predicate FailsAtOnce(r: Record) {
    && r.state == NOT_COMPLETED && r.checkCount == 1 < r.maxChecks
    && r.claim.Some? && !IsAcceptedReceipt(r.claim.value)
    && r.evidence.Some? && !r.evidence.value.readable
  }

  lemma ChargedCheck(v: Confirmation.Verifier, r: Record)
    requires IsRowOf(r, LATER) && r.state == VERIFYING && r.checkCount == 1 && r.attempts == [] && r.recoveries == []
    requires r.claim == Some(ReceiptFor(Unavailable, "f")) && r.violations == [Charge("w", LATER)]
    ensures IsAdmissible(v, r, CheckedLater(Unavailable))
    ensures FailsAtOnce(RowAfter(v, r, CheckedLater(Unavailable)))
  {
    hide IsBlank, RecordVerification, VerifyCancellation, IsAcceptedReceipt;
    LettersAreNotBlank();
    ChargedVerdict(r);
    assert ViolationById(r.violations, Some("w")) == Some(Charge("w", LATER));
    RecordCheckFrame(v, r, CheckedLater(Unavailable));
  }

  lemma ChargedVerdict(r: Record)
    requires IsRowOf(r, LATER) && r.violations == [Charge("w", LATER)] && r.claim == Some(ReceiptFor(Unavailable, "f"))
    ensures LatestViolation(r.violations, LATER) == Some(Charge("w", LATER))
    ensures AttemptFor(r, CheckedLater(Unavailable)).result.verdict == FAIL
    ensures !IsAcceptedReceipt(r.claim.value)
  {
    assert LatestViolation(r.violations, LATER) == Some(Charge("w", LATER));
  }

  // ----- a budget that is spent without a result

  /** A run in which `n` claimed checks were abandoned before they were recorded, and one more is claimed. */
  lemma {:induction false} AbandonedRun(n: nat) returns (s: System, r: Record, p: Process)
    requires n < MAX_VERIFICATION_CHECKS
    ensures IsAt(Tokens(), s, r, map[0 := p]) && p.Claimed? && p.key == KeyOf(r) && p.record == r
    ensures var at := LATER + CHECK_INTERVAL * n;
            IsRowOf(r, at) && r.updatedAt == at && (p.checkedAt.Some? ==> p.checkedAt.value == at)
    ensures r.state == VERIFYING && r.checkCount == n + 1 && r.attempts == []
    ensures r.violations == [] && r.recoveries == [] && r.attention == []
  {
    hide IsAt, IsAdmissible, Outcome, IsReadableBack, Tokens, IsTerminalFailureEligible, ReceiptFor;
    if n == 0 {
      s, r := ClaimedRun(false, "", NO_RECOVERY, Unavailable);
      p := Claimed(KeyOf(r), r, false, None);
    } else {
      var before, row, q := AbandonedRun(n - 1);
      var v, at := Tokens(), LATER + CHECK_INTERVAL * (n - 1);
      var stopped := StopGoes(v, before, row, map[0 := q], 0);
      assert map[0 := q] - {0} == map[];
      var op := ResumedAt(at + CHECK_INTERVAL);
      UncheckedIsReadable(row);
      ResumptionOf(v, row, at);
      s := RecheckGoes(v, stopped, row, map[], 0, op);
      r := RowAfter(v, row, op);
      SameKeyOf(row, r);
      p := Claimed(KeyOf(r), r, IsTerminalFailureEligible(row, op.at), Some(op.at));
      assert map[][0 := p] == map[0 := p];
    }
  }

  /** In this run four calls stopped after they had claimed a check: no call is left, and the row stays VERIFYING. */
  lemma StoppedCallsStrandTheRow()
    ensures exists v, s: System, k :: IsReachable(v, s) && IsStranded(s, k) && s.procs == map[]
  {
    hide IsReachable, Tokens;
    var s, r, p := AbandonedRun(3);
    s := StopGoes(Tokens(), s, r, map[0 := p], 0);
    assert map[0 := p] - {0} == map[];
    assert IsReachable(Tokens(), s) && IsStranded(s, KeyOf(r)) && s.procs == map[];
  }

  /**
    In this run the call that claimed the last check is alive and has its read-back, but a charge was recorded
    before it could save. The charge is stored, and yet the row stays VERIFYING.
   */
  lemma OvertakenCallsStrandTheRow()
    ensures exists v, s: System, k, pid :: IsReachable(v, s) && IsStranded(s, k) && Current(s.traces[k]).violations != []
                                   && pid in s.procs && s.procs[pid].Seen? && s.procs[pid].key == k
  {
    hide IsReachable, Tokens, Outcome, IsAdmissible, IsReadableBack, HasEvidence;
    var v, at := Tokens(), LATER + CHECK_INTERVAL * 3;
    var s, r, p := AbandonedRun(3);
    var q := Seen(KeyOf(r), r, p.eligible, at, "x", Unavailable);
    s := ReadBackGoes(v, s, r, map[0 := p], 0, at, "x", Unavailable);
    assert map[0 := p][0 := q] == map[0 := q];
    UncheckedIsReadable(r);
    ChargeOf(v, r, at, "w", at, NO_RECOVERY);
    var op := Observe(Charge("w", at), at, NO_RECOVERY);
    s := ObservationGoes(v, s, r, map[0 := q], 1, op);
    var row := RowAfter(v, r, op);
    SameKeyOf(r, row);
    assert q.record != row;
    assert IsStranded(s, KeyOf(row)) && s.procs[0] == q;
  }

  // ----- a run with both kinds of provider call

  function DecidedLater(): Op {
    Decide("q", true, "u", LATER)
  }

  /** In this run a cancellation is confirmed and executed, and then a refund draft: two calls under two tokens. */
  lemma BothProvidersAreCalled()
    ensures exists v, s: System :: IsReachable(v, s) && |s.effects| == 2
                                   && s.effects[0].CancelCall? && s.effects[1].RecoveryCall?
  {
    hide IsAt, IsReachable, Outcome, IsAdmissible, Tokens, RefundDraft, IsReadableBack, ReceiptFor, Decision;
    hide IsTrace, IsValid, IsSound;
    var v := Tokens();
    var s, r := ClaimedRun(true, "w", WITH_RECOVERY, Unavailable);
    var procs := map[0 := Claimed(KeyOf(r), r, false, None)];
    UncheckedIsReadable(r);
    var p := Recovering(KeyOf(r), r);
    s := LoadGoes(v, s, r, procs, 1, p);
    DraftIsConfirmed(r);
    RowIsSound(v, s, r, procs[1 := p]);
    var op := DecidedLater();
    var row := RowAfter(v, r, op);
    var after := ProcessesAfter(v, procs[1 := p], 1, op, row);
    s := SaveGoes(v, s, r, procs[1 := p], 1, op);
    var q := after[1];
    s := RecoveryGoes(v, s, row, after, 1, Raised);
    ReachableAt(v, s, row, after[1 := RecoveryCalled(q.key, q.asked, q.isRefund, q.at, Raised)]);
  }

  lemma ReachableAt(v: Confirmation.Verifier, s: System, r: Record, procs: map<nat, Process>)
    requires IsAt(v, s, r, procs)
    ensures IsReachable(v, s) && s.procs == procs
  {
    hide IsReachable;
  }

  lemma DraftIsConfirmed(r: Record)
    requires IsRowOf(r, LATER) && r.state == VERIFYING && r.violations != [] && r.recoveries == [RefundDraft()]
    ensures IsAdmissible(Tokens(), r, DecidedLater())
    ensures Decision(Tokens(), r, DecidedLater()).Ok? && Decision(Tokens(), r, DecidedLater()).value.ToExecute?
    ensures RowAfter(Tokens(), r, DecidedLater()).version == r.version + 1
  {
    hide Confirmation.VerifyAttestation, Tokens;
    DraftTokenIsAccepted();
    assert RecoveryIndex(r.recoveries, "q") == 0;
  }

  lemma DraftTokenIsAccepted()
    ensures Confirmation.VerifyAttestation(
              Tokens(), "u", Confirmation.ExpectedConfirmation("owner", "id", PrepareRefundRequest, RefundDraft().digest),
              LATER).Some?
  {
    hide IsBlank;
    LettersAreNotBlank();
    assert Confirmation.Utf8Length("u") == 1;
    assert Confirmation.EpochSeconds(LATER) == 172_800;
    assert Confirmation.EpochSeconds(LATER + TOKEN_LIFETIME) == 172_830;
    assert RefundDraft().digest.RecoveryDigest?;
  }
}
