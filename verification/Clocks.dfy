/**
  Runs in which all service instances read one clock that never runs back. Confirmations and rechecks read
  it after they have loaded their record; recovery and billing calls may have read it at any time before.
 */
module Clocks {
  import Confirmation
  import opened Records
  import opened Lifecycle
  import opened Contract
  import opened Traces
  import opened Invariants
  import opened Saving
  import opened Protocol
  import opened Safety
  import opened SafeSteps
  import opened Theorems

  /** The time of the last step, and for each call the time of its own last step. */
  datatype Clocked = Clocked(system: System, now: int, since: map<nat, int>)

  /** The clock readings of a save lie between the call's last step and now. */
  predicate HasReadings(op: Op, since: int, now: int) {
    match op
    case Confirm(_, confirmedAt, at) => since <= confirmedAt <= at <= now
    case FirstClaim(_, _, observedAt, at) => since <= observedAt <= at <= now
    case Recheck(at, _, _) => since <= at <= now
    case _ => true
  }

  /** A step at time t.now. */
  predicate TakesTime(s: Clocked, t: Clocked, step: Step) {
    && s.now <= t.now
    && match step
       case Create(record) => t.since == s.since && record.history != [] && Last(record.history).at <= t.now
       case Save(pid, op) =>
         && t.since == s.since[pid := t.now]
         && pid in s.since && HasReadings(op, s.since[pid], t.now)
       case ReadBack(pid, at, _, _) =>
         && t.since == s.since[pid := t.now]
         && pid in s.since && pid in s.system.procs && s.system.procs[pid].Claimed?
         && (s.system.procs[pid].checkedAt.None? ==> s.since[pid] <= at <= t.now)
       case _ => t.since == s.since[step.pid := t.now]
  }

  datatype ClockedRun = ClockedRun(states: seq<Clocked>, steps: seq<Step>)

  predicate ClockedNext(v: Confirmation.Verifier, s: Clocked, t: Clocked, step: Step) {
    Next(v, s.system, t.system, step) && TakesTime(s, t, step)
  }

  ghost predicate IsClockedRun(v: Confirmation.Verifier, run: ClockedRun) {
    && |run.states| == |run.steps| + 1
    && run.states[0].system == INITIAL && run.states[0].since == map[]
    && forall i :: 0 <= i < |run.steps| ==> ClockedNext(v, run.states[i], run.states[i + 1], run.steps[i])
  }

  lemma ClockedStatesAreSafe(v: Confirmation.Verifier, run: ClockedRun, i: nat)
    requires IsClockedRun(v, run) && i < |run.states|
    ensures IsSafe(v, run.states[i].system)
  {
    hide IsSafe, Next, TakesTime;
    var plain := Run(seq(|run.states|, n requires 0 <= n < |run.states| => run.states[n].system), run.steps);
    forall n | 0 <= n < |run.steps|
      ensures Next(v, plain.states[n], plain.states[n + 1], plain.steps[n])
    {
      assert ClockedNext(v, run.states[n], run.states[n + 1], run.steps[n]);
    }
    RunsAreSafe(v, plain, i);
  }

  // ----- what the clock keeps

  /** No transition of the record is later than a given time. */
  predicate IsPast(r: Record, time: int) {
    r.history != [] && Last(r.history).at <= time
  }

  /** A call's copy is no newer than its last step, and its check is not before the claim nor after now. */
  predicate IsInTime(p: Process, since: int, now: int) {
    && since <= now
    && (HasRecord(p) ==> IsPast(p.record, since))
    && (p.Claimed? && p.checkedAt.Some? ==> IsPast(p.record, p.checkedAt.value) && p.checkedAt.value <= now)
    && (p.Seen? ==> IsPast(p.record, p.at) && p.at <= now)
  }

  ghost predicate HasPastRows(c: Clocked) {
    forall k :: k in c.system.traces ==>
      IsShaped(c.system.traces[k]) && IsPast(Current(c.system.traces[k]), c.now)
  }

  ghost predicate HasCallsInTime(c: Clocked) {
    forall pid :: pid in c.system.procs ==> pid in c.since && IsInTime(c.system.procs[pid], c.since[pid], c.now)
  }

  lemma LastEntryAfter(v: Confirmation.Verifier, a: Record, op: Op, b: Record)
    requires Advances(v, a, op, b) && a.history != []
    ensures b.history != [] && Last(b.history).at == if IsMetadata(op) then Last(a.history).at else op.at
  {
    hide IsValid, Outcome, HasFreshIds, IsWritten, RecheckRefusal, Confirmation.VerifyAttestation, CancelActionDigest;
    hide AttemptFor, ReceiptFor;
    LifecycleOf(v, a, op, b);
    if op.RecordCheck? {
      assert AttemptFor(a, op).checkedAt == op.at by {
        CheckedAtOf(a, op);
      }
    }
  }

  lemma CheckedAtOf(a: Record, op: Op)
    requires op.RecordCheck? && a.claim.Some?
    ensures AttemptFor(a, op).checkedAt == op.at
  {
  }

  /** The row that a save leaves has no transition after now. */
  lemma SavedRowIsPast(v: Confirmation.Verifier, s: Clocked, t: Clocked, pid: nat, op: Op, p: Process, row: Record)
    requires pid in s.system.procs && p == s.system.procs[pid] && HasRecord(p)
    requires Outcome(v, op, p.record).Ok? && row == Stored(Outcome(v, op, p.record).value)
    requires Saves(v, s.system, t.system, pid, op) && TakesTime(s, t, Save(pid, op))
    requires HasCallsInTime(s) && HasPastRows(s) && IsSafe(v, s.system)
    ensures IsPast(row, t.now)
    ensures op.Recheck? ==> IsPast(row, op.at) && op.at <= t.now
  {
    hide IsSafe, IsTrace, Outcome, Accepts, HasFreshIds, Advances, IsInformed, Continuation;
    SaveAdvances(v, s.system, t.system, pid, op);
    LastEntryAfter(v, Current(s.system.traces[p.key]), op, row);
  }

  lemma SaveKeepsTime(v: Confirmation.Verifier, s: Clocked, t: Clocked, pid: nat, op: Op)
    requires IsSafe(v, s.system) && HasPastRows(s) && HasCallsInTime(s)
    requires ClockedNext(v, s, t, Save(pid, op))
    ensures HasPastRows(t) && HasCallsInTime(t)
  {
    hide IsSafe, IsTrace, Outcome, Accepts, HasFreshIds, Decision, IsTerminalFailureEligible;
    var p := s.system.procs[pid];
    SavedRowIsPast(v, s, t, pid, op, p, Stored(Outcome(v, op, p.record).value));
  }

  /** A record that is read now has no transition after the last step. */
  lemma ReadingsArePast(v: Confirmation.Verifier, s: Clocked, key: Key, record: Record)
    requires IsSafe(v, s.system) && HasPastRows(s) && Reads(s.system, key, record)
    ensures key in s.system.traces && IsPast(record, s.now)
  {
    hide IsSafe, IsTrace, Reads;
    SafeHasTraces(v, s.system);
    ReadsNeedsTrace(s.system, key, record);
    LoadedCopyIsCurrent(v, s.system, key, record);
  }

  lemma OtherStepsKeepTime(v: Confirmation.Verifier, s: Clocked, t: Clocked, step: Step)
    requires IsSafe(v, s.system) && HasPastRows(s) && HasCallsInTime(s)
    requires ClockedNext(v, s, t, step) && !step.Save?
    ensures HasPastRows(t) && HasCallsInTime(t)
  {
    hide IsSafe, Reads, Saves, IsNewRecord;
    match step {
      case Load(pid, p) => ReadingsArePast(v, s, p.key, p.record);
      case Reload(pid, record) => ReadingsArePast(v, s, s.system.procs[pid].key, record);
      case _ =>
    }
  }

  lemma {:induction false} ClockedStatesAreInTime(v: Confirmation.Verifier, run: ClockedRun, i: nat)
    requires IsClockedRun(v, run) && i < |run.states|
    ensures HasPastRows(run.states[i]) && HasCallsInTime(run.states[i])
  {
    hide IsSafe, HasPastRows, HasCallsInTime, Next, TakesTime;
    if i == 0 {
      NothingIsLate(run.states[0]);
    } else {
      ClockedStatesAreInTime(v, run, i - 1);
      ClockedStatesAreSafe(v, run, i - 1);
      var s, t, step := run.states[i - 1], run.states[i], run.steps[i - 1];
      assert ClockedNext(v, s, t, step);
      if step.Save? {
        SaveKeepsTime(v, s, t, step.pid, step.op);
      } else {
        OtherStepsKeepTime(v, s, t, step);
      }
    }
  }

  lemma NothingIsLate(c: Clocked)
    requires c.system == INITIAL
    ensures HasPastRows(c) && HasCallsInTime(c)
  {
  }

  // ----- why saves are refused under such a clock

  predicate HasIdentifiedCharges(r: Record) {
    && (forall i :: 0 <= i < |r.violations| ==> r.violations[i].violationId != "")
    && (forall i, j :: 0 <= i < j < |r.violations| ==> r.violations[i].violationId != r.violations[j].violationId)
  }

  /** A save of confirm_resolution_action or recheck_resolution that a call is about to make. */
  predicate IsAbout(v: Confirmation.Verifier, c: Clocked, pid: nat, op: Op, now: int) {
    && pid in c.system.procs && pid in c.since && HasRecord(c.system.procs[pid]) && MayAttempt(c.system.procs[pid], op)
    && !IsMetadata(op)
    && Outcome(v, op, c.system.procs[pid].record).Ok? && HasFreshIds(op, c.system.procs[pid].record)
    && c.now <= now && HasReadings(op, c.since[pid], now)
  }

  lemma AboutIsTimely(v: Confirmation.Verifier, c: Clocked, pid: nat, op: Op, now: int)
    requires IsAbout(v, c, pid, op, now) && HasCallsInTime(c)
    requires HasIdentifiedCharges(c.system.procs[pid].record)
    ensures var r := c.system.procs[pid].record;
            && r.history != []
            && (op.Confirm? ==> AttestationFor(v, r, op).Some?)
            && (IsTimely(v, r, op) <==>
                  (op.Confirm? ==> IsStorable(AttestationFor(v, r, op).value, op.confirmedAt)))
  {
    hide IsTraceable, IsStorable, HasFreshIds, Confirmation.VerifyAttestation, CancelActionDigest, RecheckRefusal;
    hide RecordVerification;
    var r := c.system.procs[pid].record;
    DistinctIdentifiersSuffice(r.violations, op.at);
  }

  /**
    When no instance's clock runs back and charges have distinct, nonempty identifiers, a confirmation or recheck
    that has got as far as a save is refused for one reason only: another call has stored a newer version or a
    terminal outcome. The very first save of a confirmation also needs an attestation inside the store's window.
   */
  lemma RefusalsAreConflicts(v: Confirmation.Verifier, run: ClockedRun, i: nat, pid: nat, op: Op, now: int)
    requires IsClockedRun(v, run) && i < |run.states|
    requires IsAbout(v, run.states[i], pid, op, now)
    requires HasIdentifiedCharges(run.states[i].system.procs[pid].record)
    ensures var s, p := run.states[i].system, run.states[i].system.procs[pid];
            && p.key in s.traces && IsShaped(s.traces[p.key])
            && var row := Current(s.traces[p.key]);
               Accepts(row, Outcome(v, op, p.record).value) <==>
                 && p.record.version == row.version && !IsTerminal(row.state)
                 && (op.Confirm? ==>
                       && AttestationFor(v, p.record, op).Some?
                       && IsStorable(AttestationFor(v, p.record, op).value, op.confirmedAt))
  {
    hide IsSafe, IsTrace, IsValid, IsSound, IsTimely, IsStorable, Accepts, Outcome, HasFreshIds, MayAttempt, HasCallsInTime;
    hide HasIdentifiedCharges, ClockedNext, IsInformed, AttestationFor;
    ClockedStatesAreSafe(v, run, i);
    ClockedStatesAreInTime(v, run, i);
    AboutIsTimely(v, run.states[i], pid, op, now);
    var s := run.states[i].system;
    var p := s.procs[pid];
    ProcessIsInformed(v, s, pid);
    InformedCopy(s.traces[p.key], p);
    TraceOf(v, s, p.key);
    CurrentHasItsVersion(v, s.traces[p.key]);
    OutcomeKeepsVersion(v, op, p.record);
    var row := Current(s.traces[p.key]);
    if p.record.version == row.version {
      TraceRowsAreSound(v, s.traces[p.key], |s.traces[p.key].rows| - 1);
      SavesFailOnlyForClocksAndIdentifiers(v, row, op);
    }
    AcceptanceNeeds(row, Outcome(v, op, p.record).value);
  }

  lemma AcceptanceNeeds(row: Record, next: Record)
    ensures Accepts(row, next) ==> row.version == next.version && !IsTerminal(row.state)
  {
    hide IsValid;
  }
}
