/** Where the contents of a stored row come from: what the providers really answered, and when. */
module Provenance {
  import opened Wrappers
  import opened Models
  import opened Outcomes
  import opened Verifier
  import Confirmation
  import opened Records
  import opened Lifecycle
  import opened Contract
  import opened Traces
  import opened Recoveries
  import opened Attention
  import opened Invariants
  import opened Growth
  import opened Verdicts

  // ----- receipts

  lemma ClaimAfter(v: Confirmation.Verifier, a: Record, op: Op, b: Record)
    requires Advances(v, a, op, b)
    ensures b.claim == if op.FirstClaim? then Some(ReceiptFor(op.answer, op.freshId)) else a.claim
  {
    hide IsValid, Outcome, HasFreshIds, IsWritten, RecheckRefusal, Confirmation.VerifyAttestation, CancelActionDigest;
    hide ReceiptFor, AttemptFor;
    LifecycleOf(v, a, op, b);
  }

  /**
    The receipt of a stored row was built from the answer to one provider call, and a receipt that reports
    success is that answer, unchanged.
   */
  lemma {:induction false} ReceiptsComeFromTheProvider(v: Confirmation.Verifier, tr: Trace, i: nat) returns (k: nat)
    requires IsTrace(v, tr) && i < |tr.rows| && tr.rows[i].claim.Some?
    ensures k < i && tr.ops[k].FirstClaim?
    ensures tr.rows[i].claim == Some(ReceiptFor(tr.ops[k].answer, tr.ops[k].freshId))
    ensures tr.rows[i].claim.value.success ==> tr.ops[k].answer == Returned(tr.rows[i].claim.value)
    decreases i
  {
    hide Advances, IsNewRecord, FollowsClaim;
    if i == 0 {
      NewRecordIsValid(tr.rows[0]);
      assert false;
    } else {
      assert IsStep(v, tr, i - 1);
      ClaimAfter(v, tr.rows[i - 1], tr.ops[i - 1], tr.rows[i]);
      if tr.ops[i - 1].FirstClaim? {
        k := i - 1;
      } else {
        k := ReceiptsComeFromTheProvider(v, tr, i - 1);
      }
    }
  }

  // ----- evidence

  lemma EvidenceAfter(v: Confirmation.Verifier, a: Record, op: Op, b: Record)
    requires Advances(v, a, op, b) && IsTerminal(b.state)
    ensures op.RecordCheck? && b.evidence == Some(EvidenceFor(op.seen, a.target, op.attemptId))
  {
    hide IsValid, Outcome, HasFreshIds, IsWritten, RecheckRefusal, Confirmation.VerifyAttestation, CancelActionDigest;
    hide ReceiptFor, EvidenceFor, Judge;
    LifecycleOf(v, a, op, b);
  }

  /**
    A terminal row was left by a check, and unless a charge decided it, its evidence is what the provider
    answered to that check's own read-back: no failure to read is ever turned into an outcome.
   */
  lemma OutcomesComeFromReadBacks(v: Confirmation.Verifier, tr: Trace, i: nat)
    requires IsTrace(v, tr) && i < |tr.rows| && IsTerminal(tr.rows[i].state)
    ensures 1 <= i && tr.ops[i - 1].RecordCheck?
    ensures tr.rows[i].state == VERIFIED || RestsOnWindow(tr.rows[i]) ==>
              tr.rows[i].evidence.Some? && tr.ops[i - 1].seen == Returned(tr.rows[i].evidence.value)
  {
    hide Advances, IsNewRecord, FollowsClaim, RestsOnProof, RestsOnWindow;
    if i == 0 {
      NewRecordIsValid(tr.rows[0]);
      assert false;
    } else {
      assert IsStep(v, tr, i - 1);
      EvidenceAfter(v, tr.rows[i - 1], tr.ops[i - 1], tr.rows[i]);
      if tr.rows[i].state == VERIFIED {
        VerifiedRestsOnProof(v, tr, i);
        ProofIsReadable(tr.rows[i]);
      } else if RestsOnWindow(tr.rows[i]) {
        WindowIsReadable(tr.rows[i]);
      }
    }
  }

  lemma ProofIsReadable(r: Record)
    requires RestsOnProof(r)
    ensures r.evidence.Some? && r.evidence.value.readable
  {
  }

  lemma WindowIsReadable(r: Record)
    requires RestsOnWindow(r)
    ensures r.evidence.Some? && r.evidence.value.readable
  {
  }

  // ----- events

  lemma CheckAttends(v: Confirmation.Verifier, a: Record, op: Op)
    requires op.RecordCheck? && Outcome(v, op, a).Ok?
    ensures var b := Outcome(v, op, a).value;
            var key := AttentionAfterCheck(b, op.at);
            b.attention == if key.Some? && !HasEvent(a, key.value)
                           then a.attention + [EventOf(b, key.value, op.supply.eventId, op.at)] else a.attention
  {
    hide VerifyCancellation, EvidenceFor, CreateRecoveryProposal, AttentionKey;
    var x := AttemptFor(a, op);
    var settled := StoreAttempt(a, x).(recoveries := SettleAll(a.recoveries, x.result.verdict, op.at));
    var key := AttentionAfterCheck(settled, op.at);
    var proposes := && key.Some? && (key.value.level == ACTION_NEEDED || key.value.level == URGENT)
                    && !IsTerminal(settled.state);
    AttendFrame(settled, key, op.at, proposes, op.supply);
    if key.Some? {
      var event := EventOf(settled, key.value, op.supply.eventId, op.at);
      CreatingLeavesAttention(settled.(attention := settled.attention + [event]), key.value.reason, op.at, op.supply);
    }
  }

  /**
    A stored check leaves exactly the attention that the row itself calls for: one new event if the row's
    condition was not raised before, and none otherwise.
   */
  lemma ChecksRaiseAttention(v: Confirmation.Verifier, tr: Trace, i: nat)
    requires IsTrace(v, tr) && i < |tr.ops| && tr.ops[i].RecordCheck?
    ensures var a, op, b := tr.rows[i], tr.ops[i], tr.rows[i + 1];
            var key := AttentionAfterCheck(b, op.at);
            && (key.Some? ==> HasEvent(b, key.value))
            && b.attention == if key.Some? && !HasEvent(a, key.value)
                              then a.attention + [EventOf(b, key.value, op.supply.eventId, op.at)] else a.attention
  {
    hide Outcome, IsNewRecord, FollowsClaim, Accepts, HasFreshIds, IsWritten, AttentionKey;
    assert IsStep(v, tr, i);
    var a, op, b := tr.rows[i], tr.ops[i], tr.rows[i + 1];
    CheckAttends(v, a, op);
    var key := AttentionAfterCheck(b, op.at);
    if key.Some? {
      if HasEvent(a, key.value) {
        var n :| 0 <= n < |a.attention| && a.attention[n].key == key.value;
        assert b.attention[n].key == key.value;
      } else {
        assert b.attention[|a.attention|].key == key.value;
      }
    }
  }

  /** Open, uncharged, and not known to renew within six hours of a deadline that has not passed. */
  predicate IsQuiet(r: Record, at: int) {
    && r.violations == [] && !IsTerminal(r.state)
    && (r.contract.Some? && r.contract.value.deadlineAt.Some? ==>
          && at < r.contract.value.deadlineAt.value
          && (at < r.contract.value.deadlineAt.value - ATTENTION_WINDOW || !ShowsRenewal(r.evidence)))
  }

  /** A stored check raises nothing exactly if its row is quiet, or the row's condition was raised before. */
  lemma ChecksStaySilentExactly(v: Confirmation.Verifier, tr: Trace, i: nat)
    requires IsTrace(v, tr) && i < |tr.ops| && tr.ops[i].RecordCheck?
    ensures var a, b := tr.rows[i], tr.rows[i + 1];
            b.attention == a.attention <==>
              || IsQuiet(b, tr.ops[i].at)
              || exists n :: 0 <= n < |a.attention| && Some(a.attention[n].key) == AttentionAfterCheck(b, tr.ops[i].at)
  {
    hide IsTrace, AttentionKey, HasEvent;
    ChecksRaiseAttention(v, tr, i);
    var a, b, at := tr.rows[i], tr.rows[i + 1], tr.ops[i].at;
    KnownEvent(a, AttentionAfterCheck(b, at));
    if b.contract.Some? {
      SilenceIsExact(b.contract.value, b.state == VERIFIED, b.state == NOT_COMPLETED, b.evidence, b.violations != [], at);
    } else {
      TraceHasContract(v, tr, i + 1);
    }
  }

  lemma KnownEvent(r: Record, key: Option<DedupeKey>)
    ensures key.Some? ==>
              (HasEvent(r, key.value) <==> exists n :: 0 <= n < |r.attention| && Some(r.attention[n].key) == key)
  {
  }

  lemma TraceHasContract(v: Confirmation.Verifier, tr: Trace, i: nat)
    requires IsTrace(v, tr) && i < |tr.rows|
    ensures tr.rows[i].contract.Some?
  {
    hide IsTrace;
    TraceRowsAreSound(v, tr, i);
    SoundHasTracked(tr.rows[i]);
  }

  // ----- proposals

  /** What stands in a row when a proposal is added to it. */
  predicate IsJustified(r: Record, p: RecoveryAction) {
    && p.owner == r.ownerId && p.resolution == r.resolutionId && p.targetDigest == r.target.digest
    && p.digest == RecoveryActionDigest(p)
    && p.state == AwaitingConfirmation && p.createdAt == r.updatedAt && p.expiresAt == r.updatedAt + PROPOSAL_LIFETIME
    && p.attestationId.None? && p.receipt.None?
    && (exists i :: 0 <= i < |r.attention| && r.attention[i].key.reason == p.reason && r.attention[i].createdAt == r.updatedAt)
    && (IsFollowup(p) ==>
          && r.state == AWAITING_PROOF
          && ShowsRenewal(r.evidence)
          && r.attempts != [] && p.evidenceAttemptId == Some(Last(r.attempts).attemptId))
    && (!IsFollowup(p) ==> p.kind == PrepareRefundRequest && p.reason == OutcomeViolated && r.violations != [])
  }

  lemma AttendingJustifies(r: Record, key: Option<DedupeKey>, at: int, proposes: bool, supply: Supply)
    requires key.Some? && key.value.reason == OutcomeViolated ==> r.violations != []
    requires proposes && key.Some? && key.value.reason != OutcomeViolated ==> r.state == AWAITING_PROOF
    ensures var b := Attend(r, key, at, proposes, supply).(updatedAt := at);
            forall i :: |r.recoveries| <= i < |b.recoveries| ==> IsJustified(b, b.recoveries[i])
  {
    if key.Some? && !HasEvent(r, key.value) {
      var b := Attend(r, key, at, proposes, supply);
      var event := EventOf(r, key.value, supply.eventId, at);
      CreatingLeavesAttention(r.(attention := r.attention + [event]), key.value.reason, at, supply);
      assert b.attention[|r.attention|] == event;
    }
  }

  lemma CheckJustifies(v: Confirmation.Verifier, a: Record, op: Op)
    requires op.RecordCheck? && Outcome(v, op, a).Ok?
    ensures var b := Outcome(v, op, a).value;
            forall i :: |a.recoveries| <= i < |b.recoveries| ==> IsJustified(b, b.recoveries[i])
  {
    hide Attend, IsJustified, VerifyCancellation, EvidenceFor;
    var x := AttemptFor(a, op);
    var settled := StoreAttempt(a, x).(recoveries := SettleAll(a.recoveries, x.result.verdict, op.at));
    var key := AttentionAfterCheck(settled, op.at);
    var proposes := && key.Some? && (key.value.level == ACTION_NEEDED || key.value.level == URGENT)
                    && !IsTerminal(settled.state);
    AttendingJustifies(settled, key, op.at, proposes, op.supply);
    AttendFrame(settled, key, op.at, proposes, op.supply);
  }

  lemma ObservationJustifies(v: Confirmation.Verifier, a: Record, op: Op)
    requires op.Observe? && Outcome(v, op, a).Ok?
    ensures var b := Outcome(v, op, a).value;
            forall i :: |a.recoveries| <= i < |b.recoveries| ==> IsJustified(b, b.recoveries[i])
  {
    hide Attend, IsJustified;
    var noted := a.(violations := a.violations + [op.violation]);
    var key := AttentionKey(a.contract.value, a.state == VERIFIED, a.state == NOT_COMPLETED, None, true, op.at);
    AttendingJustifies(noted, key, op.at, true, op.supply);
  }

  lemma OthersProposeNothing(v: Confirmation.Verifier, a: Record, op: Op)
    requires !op.RecordCheck? && !op.Observe? && Outcome(v, op, a).Ok?
    ensures |Outcome(v, op, a).value.recoveries| == |a.recoveries|
  {
    hide RecheckRefusal, Confirmation.VerifyAttestation, CancelActionDigest, ReceiptFor, RecoveryActionDigest;
    hide RecoveryStateAfter, RecoveryReceiptFor;
  }

  lemma VersionDoesNotJustify(n: Record, p: RecoveryAction)
    requires IsJustified(n, p)
    ensures IsJustified(Stored(n), p)
  {
    var i :| 0 <= i < |n.attention| && n.attention[i].key.reason == p.reason && n.attention[i].createdAt == n.updatedAt;
    assert Stored(n).attention[i] == n.attention[i];
  }

  /**
    A proposal is stored together with the event that called for it, expires after five minutes, and rests
    on what that same row shows: for a follow-up fresh evidence that the subscription still renews, for a
    refund draft a stored charge.
   */
  lemma ProposalsAreJustified(v: Confirmation.Verifier, tr: Trace, i: nat, n: nat)
    requires IsTrace(v, tr) && i < |tr.ops|
    requires |tr.rows[i].recoveries| <= n < |tr.rows[i + 1].recoveries|
    ensures IsJustified(tr.rows[i + 1], tr.rows[i + 1].recoveries[n])
  {
    hide Outcome, IsNewRecord, FollowsClaim, IsJustified, Accepts, HasFreshIds, IsWritten;
    assert IsStep(v, tr, i);
    var a, op := tr.rows[i], tr.ops[i];
    if op.RecordCheck? {
      CheckJustifies(v, a, op);
    } else if op.Observe? {
      ObservationJustifies(v, a, op);
    } else {
      OthersProposeNothing(v, a, op);
    }
    VersionDoesNotJustify(Outcome(v, op, a).value, Outcome(v, op, a).value.recoveries[n]);
  }

  // ----- how a recovery ends

  /** The provider's receipt for this very action says that it succeeded. */
  predicate ClaimsSuccess(reply: RecoveryReply, asked: RecoveryAction) {
    && reply.Answered? && reply.claimedSuccess
    && reply.actionDigest == asked.digest && reply.targetDigest == asked.targetDigest
  }

  /**
    A recovery leaves EXECUTING as failed unless a receipt for that very action claims success; then a refund
    draft is completed and a follow-up waits for the next read-back. No other recovery changes.
   */
  lemma RecoveriesEndByReceipt(v: Confirmation.Verifier, tr: Trace, i: nat) returns (n: nat)
    requires IsTrace(v, tr) && i < |tr.ops| && tr.ops[i].Finish?
    ensures n < |tr.rows[i].recoveries| == |tr.rows[i + 1].recoveries|
    ensures var before, after, op := tr.rows[i].recoveries[n], tr.rows[i + 1].recoveries[n], tr.ops[i];
            && before == op.asked && before.state == Executing && after.receipt.Some?
            && (after.state == Failed <==> !ClaimsSuccess(op.reply, before))
            && (ClaimsSuccess(op.reply, before) ==> after.state == if IsFollowup(before) then Verifying else Completed)
    ensures forall j :: 0 <= j < |tr.rows[i].recoveries| && j != n ==> tr.rows[i + 1].recoveries[j] == tr.rows[i].recoveries[j]
  {
    hide IsNewRecord, FollowsClaim, HasOrderlyRecoveries, RecoveryIndex, IsValid;
    assert IsStep(v, tr, i);
    RowHasOrder(v, tr, i);
    n := RecoveryIndex(tr.rows[i].recoveries, tr.ops[i].asked.recoveryId);
    PurposeIsKnown(tr.rows[i], n);
  }

  lemma PurposeIsKnown(r: Record, n: nat)
    requires HasOrderlyRecoveries(r) && n < |r.recoveries|
    ensures IsFollowup(r.recoveries[n]) <==> !IsRefundPreparation(r, r.recoveries[n])
  {
    assert HasKnownPurpose(r.recoveries[n]);
  }
}
