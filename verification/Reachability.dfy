/** States that runs of the protocol reach, followed for one resolution step by step. */
module Reachability {
  import opened Wrappers
  import opened Models
  import Confirmation
  import opened Records
  import opened Lifecycle
  import opened Contract
  import opened Traces
  import opened Invariants
  import opened Saving
  import opened RoundTrip
  import opened Protocol
  import opened Safety
  import opened SafeSteps
  import opened Theorems
  import Codec

  /** Some run from the empty store ends in this state. */
  ghost predicate IsReachable(v: Confirmation.Verifier, s: System) {
    exists run: Run :: IsRun(v, run) && run.states[|run.steps|] == s
  }

  lemma NothingIsReachable(v: Confirmation.Verifier)
    ensures IsReachable(v, INITIAL)
  {
    var run := Run([INITIAL], []);
    assert IsRun(v, run) && run.states[|run.steps|] == INITIAL;
  }

  lemma StepIsReachable(v: Confirmation.Verifier, s: System, t: System, step: Step)
    requires IsReachable(v, s) && Next(v, s, t, step)
    ensures IsReachable(v, t)
  {
    hide Next;
    var run: Run :| IsRun(v, run) && run.states[|run.steps|] == s;
    var longer := Run(run.states + [t], run.steps + [step]);
    forall i | 0 <= i < |longer.steps|
      ensures Next(v, longer.states[i], longer.states[i + 1], longer.steps[i])
    {
      if i < |run.steps| {
        assert Next(v, run.states[i], run.states[i + 1], run.steps[i]);
      }
    }
    assert IsRun(v, longer) && longer.states[|longer.steps|] == t;
  }

  ghost predicate GoesThrough(v: Confirmation.Verifier, run: Run, i: nat, s: System, t: System) {
    IsRun(v, run) && i <= |run.steps| && run.states[i] == s && run.states[|run.steps|] == t
  }

  /** Some run goes through the first state and ends in the second. */
  ghost predicate Continues(v: Confirmation.Verifier, s: System, t: System) {
    exists run, i: nat :: GoesThrough(v, run, i, s, t)
  }

  lemma ContinuesItself(v: Confirmation.Verifier, s: System)
    requires IsReachable(v, s)
    ensures Continues(v, s, s)
  {
    hide Next;
    var run: Run :| IsRun(v, run) && run.states[|run.steps|] == s;
    assert GoesThrough(v, run, |run.steps|, s, s);
  }

  lemma ContinuesByStep(v: Confirmation.Verifier, s: System, t: System, u: System, step: Step)
    requires Continues(v, s, t) && Next(v, t, u, step)
    ensures Continues(v, s, u)
  {
    hide Next;
    var run, i: nat :| GoesThrough(v, run, i, s, t);
    var longer := Run(run.states + [u], run.steps + [step]);
    forall j | 0 <= j < |longer.steps|
      ensures Next(v, longer.states[j], longer.states[j + 1], longer.steps[j])
    {
      if j < |run.steps| {
        assert Next(v, run.states[j], run.states[j + 1], run.steps[j]);
      }
    }
    assert GoesThrough(v, longer, i, s, u);
  }

  lemma ReachableIsSafe(v: Confirmation.Verifier, s: System)
    requires IsReachable(v, s)
    ensures IsSafe(v, s)
  {
    hide IsSafe, Next;
    var run: Run :| IsRun(v, run) && run.states[|run.steps|] == s;
    RunsAreSafe(v, run, |run.steps|);
  }

  /** A reachable state whose store holds `r` under its key, with these processes alive. */
  ghost predicate IsAt(v: Confirmation.Verifier, s: System, r: Record, procs: map<nat, Process>) {
    && IsReachable(v, s)
    && KeyOf(r) in s.traces && IsShaped(s.traces[KeyOf(r)]) && Current(s.traces[KeyOf(r)]) == r
    && s.procs == procs
  }

  lemma RowIsSound(v: Confirmation.Verifier, s: System, r: Record, procs: map<nat, Process>)
    requires IsAt(v, s, r, procs)
    ensures IsTrace(v, s.traces[KeyOf(r)])
    ensures IsValid(r) && IsSound(r) && r.version == |s.traces[KeyOf(r)].rows| - 1
  {
    hide IsReachable, IsSafe, IsTrace, IsValid, IsSound;
    ReachableIsSafe(v, s);
    TraceOf(v, s, KeyOf(r));
    var tr := s.traces[KeyOf(r)];
    TraceRowsAreValid(v, tr, |tr.rows| - 1);
    TraceRowsAreSound(v, tr, |tr.rows| - 1);
  }

  // ----- the steps

  lemma CreateGoes(v: Confirmation.Verifier, r: Record) returns (t: System)
    requires IsNewRecord(r)
    ensures IsAt(v, t, r, map[]) && t.effects == []
  {
    hide IsReachable, IsNewRecord;
    NothingIsReachable(v);
    t := INITIAL.(traces := map[KeyOf(r) := Trace([r], [])]);
    assert Next(v, INITIAL, t, Create(r));
    StepIsReachable(v, INITIAL, t, Create(r));
  }

  lemma LoadGoes(v: Confirmation.Verifier, s: System, r: Record, procs: map<nat, Process>, pid: nat, p: Process)
    returns (t: System)
    requires IsAt(v, s, r, procs) && pid !in procs
    requires p.Confirming? || p.Rechecking? || p.Recovering? || p.Observing?
    requires p.key == KeyOf(r) && p.record == r && IsReadableBack(r)
    ensures IsAt(v, t, r, procs[pid := p]) && t.effects == s.effects
  {
    hide IsReachable, IsReadableBack, IsTrace, IsValid, IsSound, Codec.Decode, Codec.Encode;
    RowIsSound(v, s, r, procs);
    StoredRowsAreReadBack(v, s.traces[KeyOf(r)], |s.traces[KeyOf(r)].rows| - 1);
    t := s.(procs := s.procs[pid := p]);
    StepIsReachable(v, s, t, Load(pid, p));
  }

  /** What a save needs to be accepted over the row that it was built from. */
  predicate IsAdmissible(v: Confirmation.Verifier, r: Record, op: Op): (holds: bool)
    ensures holds ==> Outcome(v, op, r).Ok?
  {
    && r.history != [] && !IsTerminal(r.state)
    && Outcome(v, op, r).Ok? && HasFreshIds(op, r) && IsTimely(v, r, op)
  }

  function RowAfter(v: Confirmation.Verifier, r: Record, op: Op): Record
    requires Outcome(v, op, r).Ok?
  {
    Stored(Outcome(v, op, r).value)
  }

  function ProcessesAfter(v: Confirmation.Verifier, procs: map<nat, Process>, pid: nat, op: Op, row: Record)
    : map<nat, Process>
    requires pid in procs && HasRecord(procs[pid]) && MayAttempt(procs[pid], op)
  {
    var next := Continuation(v, procs[pid], op, row);
    if next.Some? then procs[pid := next.value] else procs - {pid}
  }

  lemma SaveGoes(v: Confirmation.Verifier, s: System, r: Record, procs: map<nat, Process>, pid: nat, op: Op)
    returns (t: System)
    requires IsAt(v, s, r, procs) && pid in procs
    requires HasRecord(procs[pid]) && procs[pid].record == r && procs[pid].key == KeyOf(r) && MayAttempt(procs[pid], op)
    requires IsAdmissible(v, r, op)
    ensures IsAt(v, t, RowAfter(v, r, op), ProcessesAfter(v, procs, pid, op, RowAfter(v, r, op)))
    ensures t.effects == s.effects && Next(v, s, t, Save(pid, op))
  {
    hide IsReachable, IsTrace, IsValid, IsSound, Outcome, IsTimely, HasFreshIds, MayAttempt, Continuation, Accepts;
    RowIsSound(v, s, r, procs);
    SavesFailOnlyForClocksAndIdentifiers(v, r, op);
    AcceptedKeepsKey(r, Outcome(v, op, r).value);
    var row := RowAfter(v, r, op);
    t := s.(traces := s.traces[KeyOf(r) := Appended(s.traces[KeyOf(r)], op, row)],
            procs := ProcessesAfter(v, procs, pid, op, row));
    StepIsReachable(v, s, t, Save(pid, op));
  }

  lemma AcceptedKeepsKey(r: Record, next: Record)
    requires Accepts(r, next)
    ensures KeyOf(Stored(next)) == KeyOf(r)
  {
    hide IsValid;
  }

  lemma CallGoes(v: Confirmation.Verifier, s: System, r: Record, procs: map<nat, Process>, pid: nat,
                 answer: Reply<ActionReceipt>) returns (t: System)
    requires IsAt(v, s, r, procs) && pid in procs && procs[pid].Calling? && procs[pid].record == r
    ensures IsAt(v, t, r, procs[pid := Called(procs[pid].key, r, answer)])
    ensures |t.effects| == |s.effects| + 1 && s.effects <= t.effects && t.effects[|s.effects|].CancelCall?
  {
    hide IsReachable, IsTrace, IsValid, IsSound;
    RowIsSound(v, s, r, procs);
    var p := procs[pid];
    t := s.(procs := procs[pid := Called(p.key, r, answer)],
            effects := s.effects + [CancelCall(Permit(p.key, r.version), p.token)]);
    StepIsReachable(v, s, t, CallProvider(pid, answer));
  }

  lemma ReadBackGoes(v: Confirmation.Verifier, s: System, r: Record, procs: map<nat, Process>, pid: nat, at: int,
                     attemptId: string, seen: Reply<Evidence>) returns (t: System)
    requires IsAt(v, s, r, procs) && pid in procs && procs[pid].Claimed? && procs[pid].record == r
    requires procs[pid].checkedAt.Some? ==> at == procs[pid].checkedAt.value
    ensures IsAt(v, t, r, procs[pid := Seen(procs[pid].key, r, procs[pid].eligible, at, attemptId, seen)])
    ensures t.effects == s.effects && Next(v, s, t, ReadBack(pid, at, attemptId, seen))
  {
    hide IsReachable, IsTrace, IsValid, IsSound;
    RowIsSound(v, s, r, procs);
    var p := procs[pid];
    t := s.(procs := procs[pid := Seen(p.key, r, p.eligible, at, attemptId, seen)],
            readBacks := s.readBacks + [Permit(p.key, r.version)]);
    StepIsReachable(v, s, t, ReadBack(pid, at, attemptId, seen));
  }

  lemma RecoveryGoes(v: Confirmation.Verifier, s: System, r: Record, procs: map<nat, Process>, pid: nat,
                     reply: RecoveryReply) returns (t: System)
    requires IsAt(v, s, r, procs) && pid in procs && procs[pid].RecoveryCalling?
    ensures var p := procs[pid];
            IsAt(v, t, r, procs[pid := RecoveryCalled(p.key, p.asked, p.isRefund, p.at, reply)])
    ensures |t.effects| == |s.effects| + 1 && s.effects <= t.effects && t.effects[|s.effects|].RecoveryCall?
  {
    hide IsReachable;
    var p := procs[pid];
    t := s.(procs := procs[pid := RecoveryCalled(p.key, p.asked, p.isRefund, p.at, reply)],
            effects := s.effects + [RecoveryCall(Permit(p.key, p.version), p.token, p.asked.recoveryId)]);
    StepIsReachable(v, s, t, CallRecovery(pid, reply));
  }

  lemma StopGoes(v: Confirmation.Verifier, s: System, r: Record, procs: map<nat, Process>, pid: nat) returns (t: System)
    requires IsAt(v, s, r, procs) && pid in procs
    ensures IsAt(v, t, r, procs - {pid}) && t.effects == s.effects
  {
    hide IsReachable;
    t := s.(procs := procs - {pid});
    StepIsReachable(v, s, t, Stop(pid));
  }
  // ----- calls, as far as they get without being disturbed

  lemma ObservationGoes(v: Confirmation.Verifier, s: System, r: Record, procs: map<nat, Process>, pid: nat, op: Op)
    returns (t: System)
    requires IsAt(v, s, r, procs) && pid !in procs && IsReadableBack(r)
    requires op.Observe? && !HasEvidence(r, op.violation.evidenceId) && IsAdmissible(v, r, op)
    ensures IsAt(v, t, RowAfter(v, r, op), procs) && t.effects == s.effects
  {
    hide IsAt, IsReadableBack, IsAdmissible, HasEvidence, Outcome;
    var p := Observing(KeyOf(r), r);
    var loaded := LoadGoes(v, s, r, procs, pid, p);
    t := SaveGoes(v, loaded, r, procs[pid := p], pid, op);
    assert procs[pid := p] - {pid} == procs;
  }

  lemma ConfirmationGoes(v: Confirmation.Verifier, s: System, r: Record, procs: map<nat, Process>, pid: nat, op: Op)
    returns (t: System)
    requires IsAt(v, s, r, procs) && pid !in procs && IsReadableBack(r)
    requires op.Confirm? && IsAdmissible(v, r, op)
    ensures IsAt(v, t, RowAfter(v, r, op), procs[pid := Calling(KeyOf(r), RowAfter(v, r, op), op.token)])
    ensures t.effects == s.effects
  {
    hide IsAt, IsReadableBack, IsAdmissible, Outcome;
    var p := Confirming(KeyOf(r), r);
    var loaded := LoadGoes(v, s, r, procs, pid, p);
    t := SaveGoes(v, loaded, r, procs[pid := p], pid, op);
    var q := Calling(KeyOf(r), RowAfter(v, r, op), op.token);
    assert procs[pid := p][pid := q] == procs[pid := q];
  }

  /** The provider is called, and its answer stored with the claim on the first check. */
  lemma ExecutionGoes(v: Confirmation.Verifier, s: System, r: Record, procs: map<nat, Process>, pid: nat, op: Op)
    returns (t: System)
    requires IsAt(v, s, r, procs) && pid in procs && procs[pid].Calling?
    requires procs[pid].record == r && procs[pid].key == KeyOf(r)
    requires op.FirstClaim? && IsAdmissible(v, r, op)
    ensures IsAt(v, t, RowAfter(v, r, op), procs[pid := Claimed(KeyOf(r), RowAfter(v, r, op), false, None)])
    ensures |t.effects| == |s.effects| + 1 && s.effects <= t.effects && t.effects[|s.effects|].CancelCall?
  {
    hide IsAt, IsAdmissible, Outcome;
    var p := Called(KeyOf(r), r, op.answer);
    var called := CallGoes(v, s, r, procs, pid, op.answer);
    t := SaveGoes(v, called, r, procs[pid := p], pid, op);
    var q := Claimed(KeyOf(r), RowAfter(v, r, op), false, None);
    assert procs[pid := p][pid := q] == procs[pid := q];
  }

  lemma RecheckGoes(v: Confirmation.Verifier, s: System, r: Record, procs: map<nat, Process>, pid: nat, op: Op)
    returns (t: System)
    requires IsAt(v, s, r, procs) && pid !in procs && IsReadableBack(r)
    requires op.Recheck? && IsAdmissible(v, r, op)
    ensures var p := Claimed(KeyOf(r), RowAfter(v, r, op), IsTerminalFailureEligible(r, op.at), Some(op.at));
            IsAt(v, t, RowAfter(v, r, op), procs[pid := p])
    ensures t.effects == s.effects
  {
    hide IsAt, IsReadableBack, IsAdmissible, Outcome, IsTerminalFailureEligible;
    var p := Rechecking(KeyOf(r), r);
    var loaded := LoadGoes(v, s, r, procs, pid, p);
    t := SaveGoes(v, loaded, r, procs[pid := p], pid, op);
    var q := Claimed(KeyOf(r), RowAfter(v, r, op), IsTerminalFailureEligible(r, op.at), Some(op.at));
    assert procs[pid := p][pid := q] == procs[pid := q];
  }
}
