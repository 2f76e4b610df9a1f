/** Every step of every process keeps the invariant. */
module SafeSteps {
  import opened Wrappers
  import opened Models
  import opened Outcomes
  import Confirmation
  import opened Records
  import opened Lifecycle
  import opened Contract
  import opened Traces
  import opened Recoveries
  import opened Growth
  import opened RoundTrip
  import opened Protocol
  import opened Safety
  import Codec

  // ----- a save

  lemma InformedCopy(tr: Trace, p: Process)
    requires IsShaped(tr) && IsInformed(tr, p) && HasRecord(p)
    ensures IsCopy(tr, p.record)
  {
    hide HoldsRecovery, IsConfirmation, FollowsOwnClaim;
  }

  /** The recovery that a call finishes is the one it claimed. */
  lemma HeldRecoveryIsFinished(v: Confirmation.Verifier, tr: Trace, op: Op)
    requires IsTrace(v, tr) && op.Finish? && HoldsRecovery(tr, op.asked, op.isRefund)
    ensures FinishesOwnClaim(op, Current(tr))
  {
    hide IsStep, IsNewRecord;
    RowHasOrder(v, tr, |tr.rows| - 1);
  }

  lemma ClaimIsFollowed(tr: Trace, r: Record, op: Op)
    requires IsShaped(tr) && IsCopy(tr, r) && r == Current(tr) && r.version == |tr.rows| - 1
    requires op.RecordCheck? && FollowsOwnClaim(tr, r, op.eligible, Some(op.at))
    ensures |tr.ops| >= 1 && FollowsClaim(tr.rows[|tr.ops| - 1], tr.ops[|tr.ops| - 1], op)
  {
    hide IsTerminalFailureEligible;
  }

  /** An accepted save extends the trace of its resolution. */
  lemma SaveExtendsTrace(v: Confirmation.Verifier, tr: Trace, p: Process, op: Op)
    requires IsTrace(v, tr) && IsInformed(tr, p) && HasRecord(p) && MayAttempt(p, op)
    requires Outcome(v, op, p.record).Ok? && HasFreshIds(op, p.record)
    requires Accepts(Current(tr), Outcome(v, op, p.record).value)
    ensures p.record == Current(tr) && p.record.version == |tr.rows| - 1
    ensures Advances(v, Current(tr), op, Stored(Outcome(v, op, p.record).value))
    ensures IsTrace(v, Appended(tr, op, Stored(Outcome(v, op, p.record).value)))
  {
    hide IsStep, IsNewRecord, Accepts, Outcome, HasFreshIds, HasEvidence, HoldsRecovery, FollowsOwnClaim, FollowsClaim;
    hide FinishesOwnClaim, ClaimsRecovery;
    InformedCopy(tr, p);
    OutcomeKeepsVersion(v, op, p.record);
    AcceptedCopyIsCurrent(v, tr, p.record, Outcome(v, op, p.record).value);
    CurrentHasItsVersion(v, tr);
    if op.Finish? {
      HeldRecoveryIsFinished(v, tr, op);
    } else if op.RecordCheck? {
      ClaimIsFollowed(tr, p.record, op);
    }
    AppendingKeepsTrace(v, tr, op, Stored(Outcome(v, op, p.record).value));
  }

  /** A recovery that is handed to the provider was awaiting confirmation, and is stored as executing. */
  lemma ExecutionIsClaimed(v: Confirmation.Verifier, tr: Trace, op: Op, row: Record)
    requires IsTrace(v, tr) && op.Decide? && Advances(v, Current(tr), op, row)
    requires Decision(v, Current(tr), op).Ok? && Decision(v, Current(tr), op).value.ToExecute?
    ensures var d := Decision(v, Current(tr), op).value;
            && d.action.recoveryId == op.recoveryId
            && ClaimsRecovery(Current(tr), op, row, op.recoveryId)
            && HoldsRecovery(Appended(tr, op, row), d.action, d.isRefund)
    ensures RecoveryIndex(Current(tr).recoveries, op.recoveryId) < |Current(tr).recoveries|
    ensures Current(tr).recoveries[RecoveryIndex(Current(tr).recoveries, op.recoveryId)].state == AwaitingConfirmation
  {
    hide IsStep, IsNewRecord, IsValid, Confirmation.VerifyAttestation, RecoveryActionDigest, HasOrderlyRecoveries;
    hide RecoveryIndex, HasFreshIds, IsWritten;
    var a := Current(tr);
    var i := RecoveryIndex(a.recoveries, op.recoveryId);
    RowHasOrder(v, tr, |tr.rows| - 1);
    RefundsHaveCharges(a, i);
    RecoveriesKeepOrder(v, a, op, row);
    IndexOfDistinct(row, i, op.recoveryId);
    assert row.recoveries == Decision(v, a, op).value.record.recoveries;
  }

  lemma RefundsHaveCharges(a: Record, i: nat)
    requires HasOrderlyRecoveries(a)
    ensures i < |a.recoveries| && a.recoveries[i].kind == PrepareRefundRequest ==> a.violations != []
  {
  }

  lemma NextIsInformed(v: Confirmation.Verifier, tr: Trace, p: Process, op: Op)
    requires IsTrace(v, tr) && IsInformed(tr, p) && HasRecord(p) && MayAttempt(p, op)
    requires p.record == Current(tr) && p.record.version == |tr.rows| - 1
    requires Outcome(v, op, p.record).Ok?
    requires Advances(v, Current(tr), op, Stored(Outcome(v, op, p.record).value))
    ensures var row := Stored(Outcome(v, op, p.record).value);
            var next := Continuation(v, p, op, row);
            && row.version == |tr.rows|
            && (next.Some? ==>
                  && IsInformed(Appended(tr, op, row), next.value)
                  && next.value.key == p.key
                  && (PermitOf(next.value).Some? ==> PermitOf(next.value).value.version == |tr.rows|)
                  && (RecoveryOf(next.value).Some? ==>
                        && var i := RecoveryIndex(Current(tr).recoveries, RecoveryOf(next.value).value);
                           i < |Current(tr).recoveries| && Current(tr).recoveries[i].state == AwaitingConfirmation))
  {
    hide IsStep, IsNewRecord, Advances, Outcome, HasEvidence, HoldsRecovery, ClaimsRecovery, Decision, RecoveryIndex;
    hide IsTerminalFailureEligible, IsValid;
    var row := Stored(Outcome(v, op, p.record).value);
    AdvanceKeepsIdentity(v, Current(tr), op, row);
    if op.Decide? && Decision(v, p.record, op).Ok? && Decision(v, p.record, op).value.ToExecute? {
      ExecutionIsClaimed(v, tr, op, row);
    }
  }

  /** No process holds a permit of a version that is not stored yet, nor a recovery that awaits confirmation. */
  lemma HoldersAreEstablished(tr: Trace, p: Process)
    requires IsShaped(tr) && IsInformed(tr, p)
    ensures PermitOf(p).Some? ==> PermitOf(p).value.key == p.key && PermitOf(p).value.version < |tr.rows|
    ensures RecoveryOf(p).Some? ==>
              var i := RecoveryIndex(Current(tr).recoveries, RecoveryOf(p).value);
              i < |Current(tr).recoveries| && Current(tr).recoveries[i].state == Executing
  {
    hide ClaimsRecovery, FollowsOwnClaim, RecoveryIndex;
  }

  lemma OthersStayInformed(v: Confirmation.Verifier, s: System, t: System, pid: nat, op: Op, q: nat)
    requires IsSafe(v, s) && Saves(v, s, t, pid, op) && q in s.procs && q != pid
    requires var tr := s.traces[s.procs[pid].key];
             IsTrace(v, tr) && Advances(v, Current(tr), op, Stored(Outcome(v, op, s.procs[pid].record).value))
    ensures var c := s.procs[q];
            && c.key in t.traces && IsShaped(t.traces[c.key]) && IsInformed(t.traces[c.key], c)
  {
    hide IsTrace, Advances, Outcome, HasGroundedEffects, HasGroundedReads, Accepts, HasFreshIds, IsInformed, Continuation;
    hide PermitOf;
    var p := s.procs[pid];
    var c := s.procs[q];
    assert IsInformed(s.traces[c.key], c);
    if c.key == p.key {
      assert RecoveryOf(p).Some? ==> RecoveryOf(p) != RecoveryOf(c);
      KnowledgeIsKept(v, s.traces[p.key], op, Stored(Outcome(v, op, p.record).value), c);
    }
  }

  /** The state of the trace that a save goes to, before and after. */
  lemma SaveAdvances(v: Confirmation.Verifier, s: System, t: System, pid: nat, op: Op)
    requires IsSafe(v, s) && Saves(v, s, t, pid, op)
    ensures var p := s.procs[pid];
            var tr := s.traces[p.key];
            var row := Stored(Outcome(v, op, p.record).value);
            && IsTrace(v, tr) && IsInformed(tr, p)
            && p.record == Current(tr) && p.record.version == |tr.rows| - 1
            && Advances(v, Current(tr), op, row)
            && IsTrace(v, Appended(tr, op, row))
  {
    hide IsTrace, Advances, Outcome, HasGroundedEffects, HasGroundedReads, HasExclusiveProcesses, Accepts, HasFreshIds;
    hide IsInformed, Continuation, MayAttempt;
    SaveExtendsTrace(v, s.traces[s.procs[pid].key], s.procs[pid], op);
  }

  lemma SaveKeepsTraces(v: Confirmation.Verifier, s: System, t: System, pid: nat, op: Op)
    requires IsSafe(v, s) && Saves(v, s, t, pid, op)
    ensures HasTraces(v, t) && HasInformedProcesses(t)
  {
    hide IsTrace, Advances, Outcome, HasGroundedEffects, HasGroundedReads, HasExclusiveProcesses, Accepts, HasFreshIds;
    hide IsInformed, Continuation, PermitOf, RecoveryOf, MayAttempt;
    SaveAdvances(v, s, t, pid, op);
    var p := s.procs[pid];
    NextIsInformed(v, s.traces[p.key], p, op);
    forall k | k in t.traces ensures IsTrace(v, t.traces[k]) && IsShaped(t.traces[k]) && KeyOf(t.traces[k].rows[0]) == k {
      assert k in s.traces;
    }
    forall q | q in t.procs
      ensures t.procs[q].key in t.traces && IsShaped(t.traces[t.procs[q].key])
              && IsInformed(t.traces[t.procs[q].key], t.procs[q])
    {
      if q != pid {
        OthersStayInformed(v, s, t, pid, op, q);
      }
    }
  }

  lemma SaveKeepsExclusion(v: Confirmation.Verifier, s: System, t: System, pid: nat, op: Op)
    requires IsSafe(v, s) && Saves(v, s, t, pid, op)
    ensures HasExclusiveProcesses(t)
  {
    hide IsTrace, Advances, Outcome, HasGroundedEffects, HasGroundedReads, Accepts, HasFreshIds;
    hide IsInformed, Continuation, PermitOf, RecoveryOf, MayAttempt, RecoveryIndex;
    SaveAdvances(v, s, t, pid, op);
    var p := s.procs[pid];
    NextIsInformed(v, s.traces[p.key], p, op);
    forall q | q in s.procs && q != pid
      ensures pid in t.procs && PermitOf(t.procs[pid]).Some? ==> PermitOf(t.procs[pid]) != PermitOf(s.procs[q])
      ensures pid in t.procs && RecoveryOf(t.procs[pid]).Some? && s.procs[q].key == p.key ==>
                RecoveryOf(t.procs[pid]) != RecoveryOf(s.procs[q])
    {
      HoldersAreEstablished(s.traces[s.procs[q].key], s.procs[q]);
      if pid in t.procs && PermitOf(t.procs[pid]).Some? {
        ContinuationPermit(v, p, op, Stored(Outcome(v, op, p.record).value));
      }
    }
  }

  lemma ContinuationPermit(v: Confirmation.Verifier, p: Process, op: Op, stored: Record)
    requires MayAttempt(p, op)
    ensures var next := Continuation(v, p, op, stored);
            next.Some? && PermitOf(next.value).Some? ==>
              PermitOf(next.value).value.key == p.key && PermitOf(next.value).value.version == stored.version
  {
    hide HasEvidence, Decision, IsTerminalFailureEligible;
  }

  lemma SaveKeepsEffects(v: Confirmation.Verifier, s: System, t: System, pid: nat, op: Op)
    requires IsSafe(v, s) && Saves(v, s, t, pid, op)
    ensures HasGroundedEffects(t) && HasGroundedReads(t)
  {
    hide IsTrace, Advances, Outcome, HasExclusiveProcesses, Accepts, HasFreshIds;
    hide IsInformed, Continuation, PermitOf, RecoveryOf, MayAttempt, RecoveryIndex, IsGrounded, IsClaimed;
    SaveAdvances(v, s, t, pid, op);
    var p := s.procs[pid];
    var row := Stored(Outcome(v, op, p.record).value);
    NextIsInformed(v, s.traces[p.key], p, op);
    ContinuationPermit(v, p, op, row);
    forall i | 0 <= i < |s.effects|
      ensures IsGrounded(t.traces, s.effects[i])
      ensures pid in t.procs ==> PermitOf(t.procs[pid]) != Some(s.effects[i].permit)
    {
      GroundsAreKept(s.traces, p.key, op, row, s.effects[i]);
      GroundedPermitIsOld(s.traces, s.effects[i]);
    }
    forall i | 0 <= i < |s.readBacks|
      ensures IsClaimed(t.traces, s.readBacks[i])
      ensures pid in t.procs ==> PermitOf(t.procs[pid]) != Some(s.readBacks[i])
    {
      ClaimsAreKept(s.traces, p.key, op, row, s.readBacks[i]);
      ClaimedPermitIsOld(s.traces, s.readBacks[i]);
    }
  }

  lemma GroundedPermitIsOld(traces: map<Key, Trace>, e: Effect)
    requires IsGrounded(traces, e)
    ensures e.permit.key in traces && e.permit.version < |traces[e.permit.key].rows|
  {
    hide ClaimsRecovery;
  }

  lemma ClaimedPermitIsOld(traces: map<Key, Trace>, permit: Permit)
    requires IsClaimed(traces, permit)
    ensures permit.key in traces && permit.version < |traces[permit.key].rows|
  {
  }

  // ----- the other steps

  lemma CreateKeepsSafe(v: Confirmation.Verifier, s: System, t: System, record: Record)
    requires IsSafe(v, s) && Creates(s, t, record)
    ensures IsSafe(v, t)
  {
    hide IsStep, IsNewRecord, IsInformed, PermitOf, RecoveryOf, ClaimsRecovery;
    var tr := Trace([record], []);
    assert IsTrace(v, tr);
  }

  lemma LoadedCopyIsCurrent(v: Confirmation.Verifier, s: System, key: Key, record: Record)
    requires HasTraces(v, s) && Reads(s, key, record)
    ensures record == Current(s.traces[key]) && IsCopy(s.traces[key], record)
  {
    hide IsStep, IsNewRecord, Codec.Decode, Codec.Encode, IsReadableBack;
    var tr := s.traces[key];
    StoredRowsAreReadBack(v, tr, |tr.rows| - 1);
    CurrentHasItsVersion(v, tr);
  }

  lemma ReadsNeedsTrace(s: System, key: Key, record: Record)
    requires Reads(s, key, record)
    ensures key in s.traces && IsShaped(s.traces[key])
  {
  }

  // One process goes on; it holds no permit afterwards, and no recovery that it did not hold before.

  predicate GoesOn(s: System, t: System, pid: nat, p: Process) {
    && t.traces == s.traces && t.procs == s.procs[pid := p]
    && PermitOf(p).None?
    && (RecoveryOf(p).Some? ==>
          pid in s.procs && RecoveryOf(p) == RecoveryOf(s.procs[pid]) && p.key == s.procs[pid].key)
  }

  lemma GoingOnKeepsProcesses(v: Confirmation.Verifier, s: System, t: System, pid: nat, p: Process)
    requires IsSafe(v, s) && GoesOn(s, t, pid, p)
    requires p.key in s.traces && IsShaped(s.traces[p.key]) && IsInformed(s.traces[p.key], p)
    ensures HasTraces(v, t) && HasInformedProcesses(t) && HasExclusiveProcesses(t)
  {
    hide IsTrace, IsInformed, PermitOf, RecoveryOf, HasGroundedEffects, HasGroundedReads, KeyOf;
  }

  lemma GoingOnKeepsEffects(s: System, t: System, pid: nat, p: Process)
    requires HasGroundedEffects(s) && GoesOn(s, t, pid, p)
    requires || t.effects == s.effects
             || (exists e :: t.effects == s.effects + [e] && IsGrounded(s.traces, e)
                             && pid in s.procs && PermitOf(s.procs[pid]) == Some(e.permit))
    requires HasExclusiveProcesses(s)
    ensures HasGroundedEffects(t)
  {
    hide IsGrounded, PermitOf, RecoveryOf;
  }

  lemma GoingOnKeepsReads(s: System, t: System, pid: nat, p: Process)
    requires HasGroundedReads(s) && GoesOn(s, t, pid, p)
    requires || t.readBacks == s.readBacks
             || (exists permit :: t.readBacks == s.readBacks + [permit] && IsClaimed(s.traces, permit)
                                  && pid in s.procs && PermitOf(s.procs[pid]) == Some(permit))
    requires HasExclusiveProcesses(s)
    ensures HasGroundedReads(t)
  {
    hide IsClaimed, PermitOf, RecoveryOf;
  }

  lemma GoingOnKeepsSafe(v: Confirmation.Verifier, s: System, t: System, pid: nat, p: Process)
    requires IsSafe(v, s) && GoesOn(s, t, pid, p)
    requires t.effects == s.effects && t.readBacks == s.readBacks
    requires p.key in s.traces && IsShaped(s.traces[p.key]) && IsInformed(s.traces[p.key], p)
    ensures IsSafe(v, t)
  {
    hide GoesOn, HasTraces, HasInformedProcesses, HasExclusiveProcesses, HasGroundedEffects, HasGroundedReads, IsInformed;
    GoingOnKeepsProcesses(v, s, t, pid, p);
    GoingOnKeepsEffects(s, t, pid, p);
    GoingOnKeepsReads(s, t, pid, p);
  }

  lemma LoadKeepsSafe(v: Confirmation.Verifier, s: System, t: System, pid: nat, p: Process)
    requires IsSafe(v, s) && Loads(s, t, pid, p)
    ensures IsSafe(v, t)
  {
    hide IsSafe, Reads, IsCopy, HoldsRecovery, FollowsOwnClaim, IsConfirmation, IsClaimOfRecovery, HasTraces, Current;
    SafeHasTraces(v, s);
    LoadedCopyIsCurrent(v, s, p.key, p.record);
    ReadsNeedsTrace(s, p.key, p.record);
    GoingOnKeepsSafe(v, s, t, pid, p);
  }

  lemma SafeHasTraces(v: Confirmation.Verifier, s: System)
    requires IsSafe(v, s)
    ensures HasTraces(v, s)
  {
    hide HasTraces;
  }

  lemma ProcessIsInformed(v: Confirmation.Verifier, s: System, pid: nat)
    requires IsSafe(v, s) && pid in s.procs
    ensures var p := s.procs[pid];
            p.key in s.traces && IsShaped(s.traces[p.key]) && IsInformed(s.traces[p.key], p)
  {
    hide HasTraces, HasExclusiveProcesses, HasGroundedEffects, HasGroundedReads, IsInformed;
  }

  lemma ReloadKeepsSafe(v: Confirmation.Verifier, s: System, t: System, pid: nat, record: Record)
    requires IsSafe(v, s) && Reloads(s, t, pid, record)
    ensures IsSafe(v, t)
  {
    hide IsSafe, Reads, IsCopy, HoldsRecovery, FollowsOwnClaim, IsConfirmation, IsClaimOfRecovery, HasTraces, Current;
    var p := s.procs[pid];
    SafeHasTraces(v, s);
    LoadedCopyIsCurrent(v, s, p.key, record);
    ProcessIsInformed(v, s, pid);
    GoingOnKeepsSafe(v, s, t, pid, t.procs[pid]);
  }

  lemma StopKeepsSafe(v: Confirmation.Verifier, s: System, t: System, pid: nat)
    requires IsSafe(v, s) && Stops(s, t, pid)
    ensures IsSafe(v, t)
  {
    hide IsTrace, IsInformed, PermitOf, RecoveryOf, IsGrounded, IsClaimed;
  }

  lemma CallKeepsSafe(v: Confirmation.Verifier, s: System, t: System, pid: nat, p: Process, e: Effect)
    requires IsSafe(v, s) && GoesOn(s, t, pid, p)
    requires t.effects == s.effects + [e] && t.readBacks == s.readBacks
    requires pid in s.procs && PermitOf(s.procs[pid]) == Some(e.permit) && IsGrounded(s.traces, e)
    requires p.key in s.traces && IsShaped(s.traces[p.key]) && IsInformed(s.traces[p.key], p)
    ensures IsSafe(v, t)
  {
    hide GoesOn, HasTraces, HasInformedProcesses, HasExclusiveProcesses, HasGroundedEffects, HasGroundedReads, IsInformed;
    hide IsGrounded, PermitOf;
    GoingOnKeepsProcesses(v, s, t, pid, p);
    GoingOnKeepsEffects(s, t, pid, p);
    GoingOnKeepsReads(s, t, pid, p);
  }

  lemma CancelKeepsSafe(v: Confirmation.Verifier, s: System, t: System, pid: nat, answer: Reply<ActionReceipt>)
    requires IsSafe(v, s) && CallsProvider(s, t, pid, answer)
    ensures IsSafe(v, t)
  {
    hide IsSafe, IsCopy;
    var p := s.procs[pid];
    ProcessIsInformed(v, s, pid);
    CallKeepsSafe(v, s, t, pid, t.procs[pid], CancelCall(Permit(p.key, p.record.version), p.token));
  }

  lemma RecoveryKeepsSafe(v: Confirmation.Verifier, s: System, t: System, pid: nat, reply: RecoveryReply)
    requires IsSafe(v, s) && CallsRecovery(s, t, pid, reply)
    ensures IsSafe(v, t)
  {
    hide IsSafe, IsClaimOfRecovery, HoldsRecovery;
    var p := s.procs[pid];
    ProcessIsInformed(v, s, pid);
    CallKeepsSafe(v, s, t, pid, t.procs[pid], RecoveryCall(Permit(p.key, p.version), p.token, p.asked.recoveryId));
  }

  lemma LookKeepsSafe(v: Confirmation.Verifier, s: System, t: System, pid: nat, p: Process, permit: Permit)
    requires IsSafe(v, s) && GoesOn(s, t, pid, p)
    requires t.effects == s.effects && t.readBacks == s.readBacks + [permit]
    requires pid in s.procs && PermitOf(s.procs[pid]) == Some(permit) && IsClaimed(s.traces, permit)
    requires p.key in s.traces && IsShaped(s.traces[p.key]) && IsInformed(s.traces[p.key], p)
    ensures IsSafe(v, t)
  {
    hide GoesOn, HasTraces, HasInformedProcesses, HasExclusiveProcesses, HasGroundedEffects, HasGroundedReads, IsInformed;
    hide IsClaimed, PermitOf;
    GoingOnKeepsProcesses(v, s, t, pid, p);
    GoingOnKeepsEffects(s, t, pid, p);
    GoingOnKeepsReads(s, t, pid, p);
  }

  lemma ReadBackKeepsSafe(v: Confirmation.Verifier, s: System, t: System, pid: nat, at: int, attemptId: string,
                          seen: Reply<Evidence>)
    requires IsSafe(v, s) && ReadsBack(s, t, pid, at, attemptId, seen)
    ensures IsSafe(v, t)
  {
    hide IsSafe, IsTerminalFailureEligible;
    var p := s.procs[pid];
    ProcessIsInformed(v, s, pid);
    LookKeepsSafe(v, s, t, pid, t.procs[pid], Permit(p.key, p.record.version));
  }

  lemma SaveKeepsSafe(v: Confirmation.Verifier, s: System, t: System, pid: nat, op: Op)
    requires IsSafe(v, s) && Saves(v, s, t, pid, op)
    ensures IsSafe(v, t)
  {
    hide IsSafe, Saves, HasTraces, HasInformedProcesses, HasExclusiveProcesses, HasGroundedEffects, HasGroundedReads;
    SaveKeepsTraces(v, s, t, pid, op);
    SaveKeepsExclusion(v, s, t, pid, op);
    SaveKeepsEffects(v, s, t, pid, op);
    SafeFromParts(v, t);
  }

  lemma SafeFromParts(v: Confirmation.Verifier, t: System)
    requires HasTraces(v, t) && HasInformedProcesses(t) && HasExclusiveProcesses(t)
    requires HasGroundedEffects(t) && HasGroundedReads(t)
    ensures IsSafe(v, t)
  {
    hide HasTraces, HasInformedProcesses, HasExclusiveProcesses, HasGroundedEffects, HasGroundedReads;
  }

  lemma StepKeepsSafe(v: Confirmation.Verifier, s: System, t: System, step: Step)
    requires IsSafe(v, s) && Next(v, s, t, step)
    ensures IsSafe(v, t)
  {
    hide IsSafe, Creates, Loads, Saves, CallsProvider, ReadsBack, CallsRecovery, Reloads, Stops;
    match step {
      case Create(record) => CreateKeepsSafe(v, s, t, record);
      case Load(pid, started) => LoadKeepsSafe(v, s, t, pid, started);
      case Save(pid, op) => SaveKeepsSafe(v, s, t, pid, op);
      case CallProvider(pid, answer) => CancelKeepsSafe(v, s, t, pid, answer);
      case ReadBack(pid, at, attemptId, seen) => ReadBackKeepsSafe(v, s, t, pid, at, attemptId, seen);
      case CallRecovery(pid, reply) => RecoveryKeepsSafe(v, s, t, pid, reply);
      case Reload(pid, record) => ReloadKeepsSafe(v, s, t, pid, record);
      case Stop(pid) => StopKeepsSafe(v, s, t, pid);
    }
  }

  /** The invariant holds in every state of every run. */
  lemma {:induction false} RunsAreSafe(v: Confirmation.Verifier, run: Run, i: nat)
    requires IsRun(v, run) && i < |run.states|
    ensures IsSafe(v, run.states[i])
  {
    hide IsSafe, Next;
    if i == 0 {
      InitialIsSafe(v);
    } else {
      RunsAreSafe(v, run, i - 1);
      StepKeepsSafe(v, run.states[i - 1], run.states[i], run.steps[i - 1]);
    }
  }

  lemma InitialIsSafe(v: Confirmation.Verifier)
    ensures IsSafe(v, INITIAL)
  {
  }
}
