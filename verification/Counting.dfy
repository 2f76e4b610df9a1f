/** Checks, attempts and history entries keep step with each other; histories only grow. */
module Counting {
  import opened Wrappers
  import Confirmation
  import opened Records
  import opened Lifecycle
  import opened Traces

  predicate HasStarted(r: Record) {
    r.state != REQUESTED && r.state != AWAITING_CONFIRMATION
  }

  predicate IsCounted(r: Record) {
    && r.state != REQUESTED
    && r.maxChecks == MAX_VERIFICATION_CHECKS
    && Entries(r.history, VERIFYING) == r.checkCount
    && Entries(r.history, EXECUTING) == (if HasStarted(r) then 1 else 0)
    && |r.attempts| <= r.checkCount
    && |r.history| == (if HasStarted(r) then 3 + r.checkCount + |r.attempts| else 2)
    && (r.state == AWAITING_CONFIRMATION || r.state == EXECUTING ==> r.checkCount == 0)
    && (r.state == VERIFYING ==> |r.attempts| < r.checkCount)
  }

  lemma NewIsCounted(r: Record)
    requires IsNewRecord(r)
    ensures IsCounted(r)
  {
    var h := r.history;
    HistoryPlusOne([], h[0]);
    HistoryPlusOne([h[0]], h[1]);
    assert h == ([] + [h[0]]) + [h[1]];
  }

  lemma RecheckStarts(a: Record, now: int, scheduledFor: Option<int>, force: bool)
    requires RecheckRefusal(a, now, scheduledFor, force).None?
    ensures a.state == AWAITING_PROOF || a.state == VERIFYING
    ensures !HasRunningRecovery(a) && a.checkCount < a.maxChecks
  {
    hide HasRunningRecovery;
  }

  /** One transition, as the counts see it: the confirmation, the claim of a check, or the end of one. */
  predicate IsCountedEntry(a: Record, b: Record)
    requires b.history != []
  {
    && b.history == a.history + [Last(b.history)] && Last(b.history).state == b.state && b.maxChecks == a.maxChecks
    && match b.state
       case EXECUTING =>
         a.state == AWAITING_CONFIRMATION && b.checkCount == a.checkCount && |b.attempts| == |a.attempts|
       case VERIFYING =>
         && (a.state == EXECUTING || a.state == AWAITING_PROOF || a.state == VERIFYING)
         && b.checkCount == a.checkCount + 1 && |b.attempts| == |a.attempts|
       case _ =>
         && (b.state == AWAITING_PROOF || IsTerminal(b.state))
         && a.state == VERIFYING && b.checkCount == a.checkCount && |b.attempts| == |a.attempts| + 1
  }

  lemma EntriesAreCounted(v: Confirmation.Verifier, a: Record, op: Op, b: Record)
    requires !IsMetadata(op) && StartsFrom(v, a, op) && SameLifecycle(LifecycleAfter(v, a, op), b)
    ensures b.history != [] && IsCountedEntry(a, b)
  {
    hide Confirmation.VerifyAttestation, CancelActionDigest, ReceiptFor, EvidenceFor, AttemptFor, RecheckRefusal;
    if op.Recheck? {
      RecheckStarts(a, op.at, op.scheduledFor, op.force);
    }
  }

  lemma CountedEntriesKeepCounts(a: Record, b: Record)
    requires IsCounted(a) && b.history != [] && IsCountedEntry(a, b)
    requires |b.attempts| <= b.checkCount <= b.maxChecks
    ensures IsCounted(b)
  {
    HistoryPlusOne(a.history, Last(b.history));
  }

  lemma CountingIsKept(v: Confirmation.Verifier, a: Record, op: Op, b: Record)
    requires IsCounted(a)
    requires StartsFrom(v, a, op) && SameLifecycle(LifecycleAfter(v, a, op), b)
    requires |b.attempts| <= b.checkCount <= b.maxChecks
    ensures IsCounted(b)
    ensures b.history == a.history || (|b.history| == |a.history| + 1 && b.history[..|a.history|] == a.history)
  {
    hide StartsFrom;
    if !IsMetadata(op) {
      hide LifecycleAfter, IsCounted;
      EntriesAreCounted(v, a, op, b);
      CountedEntriesKeepCounts(a, b);
    }
  }
}
