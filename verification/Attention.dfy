/** Attention events: never twice for one condition, and never more than three. */
module Attention {
  import opened Wrappers
  import opened Models
  import opened Outcomes
  import Confirmation
  import opened Records
  import opened Lifecycle
  import opened Contract
  import opened Traces
  import opened Counts

  /** The five conditions that raise attention, each with its level. */
  predicate IsKnownKey(k: DedupeKey) {
    || k == DedupeKey(URGENT, OutcomeViolated)
    || k == DedupeKey(URGENT, DeadlinePassed)
    || k == DedupeKey(ACTION_NEEDED, DeadlineApproaching)
    || k == DedupeKey(ACTION_NEEDED, NotCompletedNotice)
    || k == DedupeKey(INFORMATIONAL, VerifiedNotice)
  }

  /** What the presence of an event says about the record. */
  predicate IsWarranted(r: Record, k: DedupeKey) {
    && IsKnownKey(k)
    && (k.reason == OutcomeViolated ==> r.violations != [])
    && (k.reason == VerifiedNotice ==> r.state == VERIFIED && r.violations == [])
    && (k.reason == NotCompletedNotice ==> r.state == NOT_COMPLETED && r.violations == [])
  }

  predicate HasDistinctAttention(r: Record) {
    && (forall i :: 0 <= i < |r.attention| ==> IsWarranted(r, r.attention[i].key))
    && (forall i, j :: 0 <= i < j < |r.attention| ==> r.attention[i].key != r.attention[j].key)
    && (r.violations != [] ==> HasEvent(r, DedupeKey(URGENT, OutcomeViolated)))
  }

  lemma CreatingLeavesAttention(r: Record, reason: AttentionReason, now: int, supply: Supply)
    ensures var s := CreateRecoveryProposal(r, reason, now, supply);
            s.attention == r.attention && s.violations == r.violations && s.state == r.state
  {
    hide ProposalOf;
  }

  lemma AttendingKeepsDistinct(r: Record, key: Option<DedupeKey>, at: int, proposes: bool, supply: Supply)
    requires forall i :: 0 <= i < |r.attention| ==> IsWarranted(r, r.attention[i].key)
    requires forall i, j :: 0 <= i < j < |r.attention| ==> r.attention[i].key != r.attention[j].key
    requires key.Some? ==> IsWarranted(r, key.value)
    requires r.violations != [] ==> key == Some(DedupeKey(URGENT, OutcomeViolated))
    ensures HasDistinctAttention(Attend(r, key, at, proposes, supply))
  {
    hide CreateRecoveryProposal, IsKnownKey;
    if key.Some? && !HasEvent(r, key.value) {
      var noted := r.(attention := r.attention + [EventOf(r, key.value, supply.eventId, at)]);
      assert noted.attention[|r.attention|].key == key.value;
      CreatingLeavesAttention(noted, key.value.reason, at, supply);
    }
  }

  lemma CheckKeepsDistinct(v: Confirmation.Verifier, a: Record, op: Op, b: Record)
    requires HasDistinctAttention(a) && !IsTerminal(a.state) && a.contract.Some?
    requires op.RecordCheck? && Outcome(v, op, a) == Ok(b)
    ensures HasDistinctAttention(b)
  {
    hide EvidenceFor, Judge, Attend, SettleAll, HasEvent;
    var stored := StoreAttempt(a, AttemptFor(a, op));
    var verdict := AttemptFor(a, op).result.verdict;
    var settled := stored.(recoveries := SettleAll(stored.recoveries, verdict, op.at));
    assert forall i :: 0 <= i < |a.attention| ==> settled.attention[i] == a.attention[i] && IsWarranted(a, a.attention[i].key);
    var key := AttentionAfterCheck(settled, op.at);
    var proposes := && key.Some?
                    && (key.value.level == ACTION_NEEDED || key.value.level == URGENT)
                    && !IsTerminal(settled.state);
    AttendingKeepsDistinct(settled, key, op.at, proposes, op.supply);
  }

  lemma ObservingKeepsDistinct(v: Confirmation.Verifier, a: Record, op: Op, b: Record)
    requires HasDistinctAttention(a) && !IsTerminal(a.state)
    requires op.Observe? && Outcome(v, op, a) == Ok(b)
    ensures HasDistinctAttention(b)
  {
    hide Attend, IsAdmissibleViolation, HasEvent;
    var noted := a.(violations := a.violations + [op.violation]);
    var key := AttentionKey(a.contract.value, a.state == VERIFIED, a.state == NOT_COMPLETED, None, true, op.at);
    assert forall i :: 0 <= i < |a.attention| ==> IsWarranted(a, a.attention[i].key);
    AttendingKeepsDistinct(noted, key, op.at, true, op.supply);
    AttentionIgnoresTime(Attend(noted, key, op.at, true, op.supply), b);
  }

  lemma AttentionIgnoresTime(a: Record, b: Record)
    requires HasDistinctAttention(a)
    requires b.attention == a.attention && b.violations == a.violations
    requires b.state == a.state || (!IsTerminal(a.state))
    ensures HasDistinctAttention(b)
  {
    hide IsKnownKey;
    assert forall i :: 0 <= i < |a.attention| ==> IsWarranted(a, a.attention[i].key);
    if a.violations != [] {
      var i :| 0 <= i < |a.attention| && a.attention[i].key == DedupeKey(URGENT, OutcomeViolated);
      assert b.attention[i].key == DedupeKey(URGENT, OutcomeViolated);
    }
  }

  lemma AttentionStaysDistinct(v: Confirmation.Verifier, a: Record, op: Op, b: Record)
    requires HasDistinctAttention(a) && a.contract.Some?
    requires Advances(v, a, op, b)
    ensures HasDistinctAttention(b)
  {
    hide IsValid, HasDistinctAttention, RecheckRefusal, IsWritten, HasFreshIds;
    var n := Outcome(v, op, a).value;
    if op.RecordCheck? {
      hide Outcome;
      CheckKeepsDistinct(v, a, op, n);
      AttentionIgnoresTime(n, b);
    } else if op.Observe? {
      hide Outcome;
      ObservingKeepsDistinct(v, a, op, n);
      AttentionIgnoresTime(n, b);
    } else {
      OtherSavesLeaveAttention(v, a, op, n);
      AttentionIgnoresTime(a, b);
    }
  }

  lemma OtherSavesLeaveAttention(v: Confirmation.Verifier, a: Record, op: Op, b: Record)
    requires !op.RecordCheck? && !op.Observe?
    requires Outcome(v, op, a) == Ok(b)
    ensures b.attention == a.attention && b.violations == a.violations
  {
    hide Confirmation.VerifyAttestation, CancelActionDigest, ReceiptFor, RecheckRefusal;
    if IsMetadata(op) {
      MetadataFrame(v, a, op);
    }
  }

  /** No resolution ever accumulates a fourth event. */
  lemma AtMostThreeEvents(r: Record)
    requires HasDistinctAttention(r)
    ensures |r.attention| <= 3
  {
    hide HasEvent;
    var keys := seq(|r.attention|, i requires 0 <= i < |r.attention| => r.attention[i].key);
    var last := if r.state == VERIFIED then DedupeKey(INFORMATIONAL, VerifiedNotice)
                else if r.state == NOT_COMPLETED then DedupeKey(ACTION_NEEDED, NotCompletedNotice)
                else DedupeKey(URGENT, OutcomeViolated);
    var third := if r.violations != [] then DedupeKey(URGENT, OutcomeViolated) else last;
    assert forall i :: 0 <= i < |keys| ==> IsWarranted(r, keys[i]);
    DistinctElementsFit(keys, {DedupeKey(URGENT, DeadlinePassed), DedupeKey(ACTION_NEEDED, DeadlineApproaching), third});
  }
}
