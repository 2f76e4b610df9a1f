/** Rows in VERIFYING whose budget is spent: how they leave that state, and when they never do. */
module Exhaustion {
  import opened Models
  import Confirmation
  import opened Records
  import opened Lifecycle
  import opened Contract
  import opened Traces
  import opened Counting
  import opened Invariants
  import opened Saving
  import opened Protocol
  import opened Safety
  import opened SafeSteps
  import opened Theorems
  import opened Reachability
  import opened Service

  predicate IsSpent(r: Record) {
    r.state == VERIFYING && r.checkCount >= r.maxChecks
  }

  // ----- along a trace

  /** The next save of a spent row records a check, or changes nothing of the lifecycle. */
  lemma SpentStep(v: Confirmation.Verifier, a: Record, op: Op, b: Record)
    requires Advances(v, a, op, b) && a.checkCount >= a.maxChecks && (a.state == VERIFYING || a.state == AWAITING_PROOF)
    ensures op.RecordCheck? ==> a.state == VERIFYING && b.state != VERIFYING && b.checkCount == a.checkCount
                                && (b.state == AWAITING_PROOF || IsTerminal(b.state))
    ensures !op.RecordCheck? ==>
              IsMetadata(op) && b.state == a.state && b.history == a.history && b.checkCount == a.checkCount
    ensures b.maxChecks == a.maxChecks
  {
    hide IsValid, Outcome, HasFreshIds, IsWritten, RecheckRefusal, Confirmation.VerifyAttestation, CancelActionDigest;
    hide AttemptFor, ReceiptFor;
    LifecycleOf(v, a, op, b);
    if op.Recheck? {
      RecheckStarts(a, op.at, op.scheduledFor, op.force);
    }
  }

  /** Once the check that was claimed last is not the next save, it is never stored. */
  lemma {:induction false} SpentRowsStay(v: Confirmation.Verifier, tr: Trace, i: nat, j: nat)
    requires IsTrace(v, tr) && i < j < |tr.rows| && IsSpent(tr.rows[i]) && !tr.ops[i].RecordCheck?
    ensures IsSpent(tr.rows[j]) && tr.rows[j].history == tr.rows[i].history
    ensures IsMetadata(tr.ops[j - 1])
    decreases j
  {
    hide Advances, IsNewRecord;
    assert IsStep(v, tr, j - 1);
    if i + 1 < j {
      SpentRowsStay(v, tr, i, j - 1);
    }
    SpentStep(v, tr.rows[j - 1], tr.ops[j - 1], tr.rows[j]);
  }

  lemma {:induction false} CheckedRowsStayOut(v: Confirmation.Verifier, tr: Trace, i: nat, j: nat)
    requires IsTrace(v, tr) && i < j < |tr.rows| && IsSpent(tr.rows[i]) && tr.ops[i].RecordCheck?
    ensures tr.rows[j].checkCount >= tr.rows[j].maxChecks
    ensures tr.rows[j].state == AWAITING_PROOF || IsTerminal(tr.rows[j].state)
    decreases j
  {
    hide Advances, IsNewRecord, FollowsClaim;
    assert IsStep(v, tr, j - 1);
    if i + 1 < j {
      CheckedRowsStayOut(v, tr, i, j - 1);
      AdvanceKeepsIdentity(v, tr.rows[j - 1], tr.ops[j - 1], tr.rows[j]);
    }
    SpentStep(v, tr.rows[j - 1], tr.ops[j - 1], tr.rows[j]);
  }

  /** A spent row leaves VERIFYING, at once and for good, exactly if its very next save records a check. */
  lemma SpentRowsLeaveExactlyByCheck(v: Confirmation.Verifier, tr: Trace, i: nat, j: nat)
    requires IsTrace(v, tr) && i < j < |tr.rows| && IsSpent(tr.rows[i])
    ensures tr.rows[j].state != VERIFYING <==> tr.ops[i].RecordCheck?
  {
    hide IsTrace;
    if tr.ops[i].RecordCheck? {
      CheckedRowsStayOut(v, tr, i, j);
    } else {
      SpentRowsStay(v, tr, i, j);
    }
  }

  // ----- in runs

  /** The check can be recorded at that time: the clock is not behind, and its charge can be identified. */
  predicate IsCheckTime(r: Record, at: int) {
    r.history != [] && Last(r.history).at <= at && IsTraceable(r.violations, at)
  }

  /** A live call holds the current row and the right to record its check. */
  ghost predicate MayStillCheck(r: Record, p: Process) {
    && (p.Claimed? || p.Seen?) && p.key == KeyOf(r) && p.record == r
    && (p.Claimed? ==> exists at :: IsCheckTime(r, at) && (p.checkedAt.Some? ==> at == p.checkedAt.value))
    && (p.Seen? ==>
          && IsCheckTime(r, p.at) && !IsBlank(p.attemptId)
          && forall i :: 0 <= i < |r.attempts| ==> r.attempts[i].attemptId != p.attemptId)
  }

  ghost predicate IsPending(s: System, k: Key)
    requires k in s.traces && IsShaped(s.traces[k])
  {
    exists pid :: pid in s.procs && MayStillCheck(Current(s.traces[k]), s.procs[pid])
  }

  /** The row of `k` is spent, and no live call can record its check. */
  ghost predicate IsStranded(s: System, k: Key) {
    && k in s.traces && IsShaped(s.traces[k]) && KeyOf(Current(s.traces[k])) == k
    && IsSpent(Current(s.traces[k]))
    && !IsPending(s, k)
  }

  /** A spent row that was overtaken by another save has no holder any more. */
  lemma OvertakenIsStranded(v: Confirmation.Verifier, s: System, t: System, pid: nat, op: Op, k: Key)
    requires IsSafe(v, s) && IsStranded(s, k) && Saves(v, s, t, pid, op) && s.procs[pid].key == k
    ensures IsStranded(t, k)
  {
    hide IsTrace, Outcome, Accepts, HasFreshIds, HasGroundedEffects, HasGroundedReads, HasExclusiveProcesses;
    hide IsTimely, IsInformed, HasTraces, IsSafe, Advances, IsTraceable;
    SaveAdvances(v, s, t, pid, op);
    var p, a := s.procs[pid], Current(s.traces[k]);
    var b := Stored(Outcome(v, op, a).value);
    SpentStep(v, a, op, b);
    CheckerMayCheck(v, s, pid, op, k);
    AdvanceKeepsIdentity(v, a, op, b);
    CurrentHasItsVersion(v, s.traces[k]);
    hide Saves, MayStillCheck;
    forall q | q in t.procs
      ensures !MayStillCheck(b, t.procs[q])
    {
      OldCopiesCheckNothing(v, s, t, pid, op, q, b);
    }
  }

  /** No process of the state after a save that claims no check holds the row that the save has left. */
  lemma OldCopiesCheckNothing(v: Confirmation.Verifier, s: System, t: System, pid: nat, op: Op, q: nat, b: Record)
    requires IsSafe(v, s) && Saves(v, s, t, pid, op) && !IsClaim(op) && q in t.procs
    requires s.procs[pid].key == KeyOf(b) && b.version >= |s.traces[KeyOf(b)].rows|
    ensures !MayStillCheck(b, t.procs[q])
  {
    hide IsSafe, Outcome, Accepts, HasFreshIds, IsCheckTime, Decision;
    if q != pid && s.procs[q].key == KeyOf(b) && HasRecord(s.procs[q]) {
      CopiesAreOld(v, s, q, KeyOf(b));
    }
  }

  lemma CopiesAreOld(v: Confirmation.Verifier, s: System, q: nat, k: Key)
    requires IsSafe(v, s) && q in s.procs && k in s.traces && IsShaped(s.traces[k])
    requires s.procs[q].key == k && HasRecord(s.procs[q])
    ensures s.procs[q].record.version < |s.traces[k].rows|
  {
    hide IsSafe, HoldsRecovery, IsConfirmation, FollowsOwnClaim;
    ProcessIsInformed(v, s, q);
    InformedCopy(s.traces[k], s.procs[q]);
  }

  /** A call whose check is accepted could have recorded it. */
  lemma CheckerMayCheck(v: Confirmation.Verifier, s: System, pid: nat, op: Op, k: Key)
    requires IsSafe(v, s) && pid in s.procs && HasRecord(s.procs[pid]) && MayAttempt(s.procs[pid], op)
    requires k in s.traces && IsShaped(s.traces[k]) && s.procs[pid].key == k == KeyOf(Current(s.traces[k]))
    requires s.procs[pid].record == Current(s.traces[k])
    requires Outcome(v, op, s.procs[pid].record).Ok? && HasFreshIds(op, s.procs[pid].record)
    requires Accepts(Current(s.traces[k]), Outcome(v, op, s.procs[pid].record).value)
    ensures op.RecordCheck? ==> IsPending(s, k)
  {
    hide IsSafe, IsTrace, Outcome, Accepts, IsValid, IsSound, IsTraceable, IsBlank;
    if op.RecordCheck? {
      var a := Current(s.traces[k]);
      TraceOf(v, s, k);
      TraceRowsAreValid(v, s.traces[k], |s.traces[k].rows| - 1);
      TraceRowsAreSound(v, s.traces[k], |s.traces[k].rows| - 1);
      SavesFailOnlyForClocksAndIdentifiers(v, a, op);
      assert MayStillCheck(a, s.procs[pid]);
    }
  }
  /** Steps other than saves leave the row, and give nobody the right to a check that nobody had. */
  lemma QuietStepKeepsStranded(v: Confirmation.Verifier, s: System, t: System, step: Step, k: Key)
    requires IsStranded(s, k) && Next(v, s, t, step) && !step.Save?
    ensures IsStranded(t, k)
  {
    hide IsNewRecord, Reads, IsCheckTime, IsBlank, Saves;
    assert t.traces[k] == s.traces[k];
    var r := Current(s.traces[k]);
    forall pid | pid in t.procs
      ensures !MayStillCheck(r, t.procs[pid])
    {
      if pid in s.procs {
        assert !MayStillCheck(r, s.procs[pid]);
      }
    }
  }

  /** A save to another resolution leaves this one's row and its holders. */
  lemma OtherSaveKeepsStranded(v: Confirmation.Verifier, s: System, t: System, pid: nat, op: Op, k: Key)
    requires IsStranded(s, k) && Saves(v, s, t, pid, op) && s.procs[pid].key != k
    ensures IsStranded(t, k)
  {
    hide Outcome, Accepts, HasFreshIds, IsCheckTime, Decision, IsBlank;
    assert t.traces[k] == s.traces[k];
    var r := Current(s.traces[k]);
    forall q | q in t.procs
      ensures !MayStillCheck(r, t.procs[q])
    {
      if q in s.procs {
        assert !MayStillCheck(r, s.procs[q]);
      }
    }
  }

  lemma StepKeepsStranded(v: Confirmation.Verifier, s: System, t: System, step: Step, k: Key)
    requires IsSafe(v, s) && IsStranded(s, k) && Next(v, s, t, step)
    ensures IsStranded(t, k)
  {
    hide IsSafe, IsStranded, Creates, Loads, CallsProvider, ReadsBack, CallsRecovery, Reloads, Stops;
    hide Outcome, Accepts, HasFreshIds, MayAttempt, Continuation;
    if step.Save? {
      if s.procs[step.pid].key == k {
        OvertakenIsStranded(v, s, t, step.pid, step.op, k);
      } else {
        OtherSaveKeepsStranded(v, s, t, step.pid, step.op, k);
      }
    } else {
      QuietStepKeepsStranded(v, s, t, step, k);
    }
  }

  lemma {:induction false} StrandedForGood(v: Confirmation.Verifier, run: Run, i: nat, j: nat, k: Key)
    requires IsRun(v, run) && i <= j < |run.states| && IsStranded(run.states[i], k)
    ensures IsStranded(run.states[j], k)
    decreases j
  {
    hide IsSafe, Next, IsStranded;
    if i < j {
      StrandedForGood(v, run, i, j - 1, k);
      RunsAreSafe(v, run, j - 1);
      StepKeepsStranded(v, run.states[j - 1], run.states[j], run.steps[j - 1], k);
    }
  }

  // ----- the way out

  function LongestOf(texts: seq<string>): (n: nat)
    ensures forall i :: 0 <= i < |texts| ==> |texts[i]| <= n
  {
    if texts == [] then 0
    else
      var n := LongestOf(texts[..|texts| - 1]);
      if |Last(texts)| > n then |Last(texts)| else n
  }

  /** There is always another identifier. */
  lemma UnusedText(texts: seq<string>) returns (id: string)
    ensures id !in texts && !IsBlank(id)
  {
    id := seq(LongestOf(texts) + 1, i => 'a');
    assert !IsSpace(id[0]);
  }

  lemma UnusedIdentifiers(r: Record) returns (attemptId: string, supply: Supply)
    ensures !IsBlank(attemptId) && forall i :: 0 <= i < |r.attempts| ==> r.attempts[i].attemptId != attemptId
    ensures !supply.recoveryEnabled && IsFreshRecoveryId(r, supply.recoveryId)
  {
    var attempts := seq(|r.attempts|, i requires 0 <= i < |r.attempts| => r.attempts[i].attemptId);
    attemptId := UnusedText(attempts);
    var recoveries := seq(|r.recoveries|, i requires 0 <= i < |r.recoveries| => r.recoveries[i].recoveryId);
    var id := UnusedText(recoveries);
    supply := Supply("", id, false);
    forall i | 0 <= i < |r.attempts| ensures r.attempts[i].attemptId != attemptId {
      assert attempts[i] in attempts;
    }
    forall i | 0 <= i < |r.recoveries| ensures r.recoveries[i].recoveryId != id {
      assert recoveries[i] in recoveries;
    }
  }

  /** A call that has seen the account and may still record it makes the row leave VERIFYING. */
  lemma SeenMayLeave(v: Confirmation.Verifier, s: System, r: Record, procs: map<nat, Process>, pid: nat)
    returns (t: System, step: Step)
    requires IsAt(v, s, r, procs) && IsSpent(r) && pid in procs && procs[pid].Seen? && MayStillCheck(r, procs[pid])
    ensures Next(v, s, t, step)
    ensures KeyOf(r) in t.traces && IsShaped(t.traces[KeyOf(r)]) && Current(t.traces[KeyOf(r)]).state != VERIFYING
  {
    hide IsReachable, IsTrace, IsValid, IsSound, IsTraceable, IsBlank, RecordVerification, Next;
    RowIsSound(v, s, r, procs);
    var p := procs[pid];
    var unused, supply := UnusedIdentifiers(r);
    var op := RecordCheck(p.seen, p.attemptId, p.eligible, p.at, supply);
    ClaimIsStored(r);
    RecordCheckFrame(v, r, op);
    t := SaveGoes(v, s, r, procs, pid, op);
    step := Save(pid, op);
  }

  /** From a pending row some run goes on to leave VERIFYING. */
  lemma PendingMayLeave(v: Confirmation.Verifier, s: System, k: Key) returns (t: System)
    requires IsReachable(v, s) && k in s.traces && IsShaped(s.traces[k]) && KeyOf(Current(s.traces[k])) == k
    requires IsSpent(Current(s.traces[k])) && IsPending(s, k)
    ensures Continues(v, s, t) && k in t.traces && IsShaped(t.traces[k]) && Current(t.traces[k]).state != VERIFYING
  {
    hide IsReachable, IsTrace, IsCheckTime, IsBlank, Next, IsSpent, Continues;
    var r := Current(s.traces[k]);
    var pid: nat :| pid in s.procs && MayStillCheck(r, s.procs[pid]);
    var p := s.procs[pid];
    ContinuesItself(v, s);
    var seen, step := s, Stop(pid);
    var procs := s.procs;
    if p.Claimed? {
      var at :| IsCheckTime(r, at) && (p.checkedAt.Some? ==> at == p.checkedAt.value);
      var attemptId, supply := UnusedIdentifiers(r);
      seen := ReadBackGoes(v, s, r, s.procs, pid, at, attemptId, Unavailable);
      ContinuesByStep(v, s, s, seen, ReadBack(pid, at, attemptId, Unavailable));
      procs := s.procs[pid := Seen(p.key, r, p.eligible, at, attemptId, Unavailable)];
    }
    t, step := SeenMayLeave(v, seen, r, procs, pid);
    ContinuesByStep(v, s, seen, t, step);
  }

  /**
    A resolution that is in VERIFYING with a spent budget stays so in every continuation of the run, exactly
    if no live call holds the current row with a check that can still be recorded.
   */
  lemma SpentRowsStayExactlyWithoutHolder(v: Confirmation.Verifier, s: System, k: Key)
    requires IsReachable(v, s) && k in s.traces && IsShaped(s.traces[k])
    requires IsSpent(Current(s.traces[k]))
    ensures !IsPending(s, k) <==>
            forall t :: Continues(v, s, t) ==>
              k in t.traces && IsShaped(t.traces[k]) && Current(t.traces[k]).state == VERIFYING
  {
    hide IsReachable, IsTrace, IsPending, IsSpent, Continues, IsSafe;
    KeyOfReachable(v, s, k);
    if IsPending(s, k) {
      var t := PendingMayLeave(v, s, k);
    } else {
      forall t | Continues(v, s, t)
        ensures IsStranded(t, k) && Current(t.traces[k]).state == VERIFYING
      {
        ContinuationIsStranded(v, s, t, k);
      }
    }
  }

  lemma KeyOfReachable(v: Confirmation.Verifier, s: System, k: Key)
    requires IsReachable(v, s) && k in s.traces
    ensures IsShaped(s.traces[k]) && KeyOf(Current(s.traces[k])) == k
  {
    hide IsReachable, IsTrace, IsSafe, IsValid;
    ReachableIsSafe(v, s);
    TraceOf(v, s, k);
    CurrentHasItsVersion(v, s.traces[k]);
  }

  lemma ContinuationIsStranded(v: Confirmation.Verifier, s: System, t: System, k: Key)
    requires Continues(v, s, t) && IsStranded(s, k)
    ensures IsStranded(t, k) && Current(t.traces[k]).state == VERIFYING
  {
    hide IsPending, Next;
    var run, i: nat :| GoesThrough(v, run, i, s, t);
    StrandedForGood(v, run, i, |run.steps|, k);
  }
}
