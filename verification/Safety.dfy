/** The invariant of all runs: every provider call spends a permit, and no two calls share one. */
module Safety {
  import opened Wrappers
  import opened Models
  import opened Outcomes
  import Confirmation
  import opened Records
  import opened Lifecycle
  import opened Contract
  import opened Traces
  import opened Recoveries
  import opened Growth
  import opened Protocol

  // ----- what a process knows about the trace of its resolution

  /** The record is the row that was stored at its version. */
  predicate IsCopy(tr: Trace, r: Record) {
    0 <= r.version < |tr.rows| && tr.rows[r.version] == r
  }

  predicate IsClaim(op: Op) {
    op.FirstClaim? || op.Recheck?
  }

  predicate FollowsOwnClaim(tr: Trace, r: Record, eligible: bool, at: Option<int>)
    requires IsShaped(tr) && IsCopy(tr, r)
  {
    && 1 <= r.version
    && var claim := tr.ops[r.version - 1];
       || (claim.FirstClaim? && !eligible)
       || (claim.Recheck? && at == Some(claim.at)
           && eligible == IsTerminalFailureEligible(tr.rows[r.version - 1], claim.at))
  }

  /** The stored action is still exactly the one that was handed to the provider. */
  predicate HoldsRecovery(tr: Trace, asked: RecoveryAction, isRefund: bool)
    requires IsShaped(tr)
  {
    && asked.state == Executing
    && isRefund == (asked.kind == PrepareRefundRequest)
    && var i := RecoveryIndex(Current(tr).recoveries, asked.recoveryId);
       i < |Current(tr).recoveries| && Current(tr).recoveries[i] == asked
  }

  predicate IsClaimOfRecovery(tr: Trace, version: nat, token: string, recoveryId: string)
    requires IsShaped(tr)
  {
    && 1 <= version < |tr.rows|
    && tr.ops[version - 1].Decide? && tr.ops[version - 1].token == token
    && ClaimsRecovery(tr.rows[version - 1], tr.ops[version - 1], tr.rows[version], recoveryId)
  }

  predicate IsConfirmation(tr: Trace, version: nat, token: string)
    requires IsShaped(tr)
  {
    && 1 <= version < |tr.rows|
    && tr.ops[version - 1].Confirm? && tr.ops[version - 1].token == token
  }

  predicate IsInformed(tr: Trace, p: Process)
    requires IsShaped(tr)
  {
    match p
    case Confirming(_, r) => IsCopy(tr, r)
    case Calling(_, r, token) => IsCopy(tr, r) && 0 <= r.version && IsConfirmation(tr, r.version, token)
    case Called(_, r, _) => IsCopy(tr, r) && 1 <= r.version && tr.ops[r.version - 1].Confirm?
    case Rechecking(_, r) => IsCopy(tr, r)
    case Claimed(_, r, eligible, at) => IsCopy(tr, r) && FollowsOwnClaim(tr, r, eligible, at)
    case Seen(_, r, eligible, at, _, _) => IsCopy(tr, r) && FollowsOwnClaim(tr, r, eligible, Some(at))
    case Recovering(_, r) => IsCopy(tr, r)
    case RecoveryCalling(_, version, asked, isRefund, token, _) =>
      IsClaimOfRecovery(tr, version, token, asked.recoveryId) && HoldsRecovery(tr, asked, isRefund)
    case RecoveryCalled(_, asked, isRefund, _, _) => HoldsRecovery(tr, asked, isRefund)
    case RecoveryReloaded(_, r, asked, isRefund, _, _) => IsCopy(tr, r) && HoldsRecovery(tr, asked, isRefund)
    case Observing(_, r) => IsCopy(tr, r)
  }

  /** The permit that a process holds and has not spent. */
  function PermitOf(p: Process): Option<Permit> {
    match p
    case Calling(key, r, _) => if r.version >= 0 then Some(Permit(key, r.version)) else None
    case Claimed(key, r, _, _) => if r.version >= 0 then Some(Permit(key, r.version)) else None
    case RecoveryCalling(key, version, _, _, _, _) => Some(Permit(key, version))
    case _ => None
  }

  /** The recovery that a process has claimed and not finished. */
  function RecoveryOf(p: Process): Option<string> {
    match p
    case RecoveryCalling(_, _, asked, _, _, _) => Some(asked.recoveryId)
    case RecoveryCalled(_, asked, _, _, _) => Some(asked.recoveryId)
    case RecoveryReloaded(_, _, asked, _, _, _) => Some(asked.recoveryId)
    case _ => None
  }

  predicate IsGrounded(traces: map<Key, Trace>, e: Effect) {
    && e.permit.key in traces && IsShaped(traces[e.permit.key])
    && match e
       case CancelCall(permit, token) => IsConfirmation(traces[permit.key], permit.version, token)
       case RecoveryCall(permit, token, id) => IsClaimOfRecovery(traces[permit.key], permit.version, token, id)
  }

  predicate IsClaimed(traces: map<Key, Trace>, permit: Permit) {
    && permit.key in traces && IsShaped(traces[permit.key])
    && 1 <= permit.version < |traces[permit.key].rows|
    && IsClaim(traces[permit.key].ops[permit.version - 1])
  }

  // ----- the invariant

  ghost predicate HasTraces(v: Confirmation.Verifier, s: System) {
    forall k :: k in s.traces ==> IsTrace(v, s.traces[k]) && KeyOf(s.traces[k].rows[0]) == k
  }

  ghost predicate HasInformedProcesses(s: System) {
    forall pid :: pid in s.procs ==>
      && s.procs[pid].key in s.traces && IsShaped(s.traces[s.procs[pid].key])
      && IsInformed(s.traces[s.procs[pid].key], s.procs[pid])
  }

  ghost predicate HasExclusiveProcesses(s: System) {
    forall p, q :: p in s.procs && q in s.procs && p != q ==>
      && (PermitOf(s.procs[p]).Some? ==> PermitOf(s.procs[p]) != PermitOf(s.procs[q]))
      && (RecoveryOf(s.procs[p]).Some? && s.procs[p].key == s.procs[q].key ==>
            RecoveryOf(s.procs[p]) != RecoveryOf(s.procs[q]))
  }

  ghost predicate HasGroundedEffects(s: System) {
    && (forall i :: 0 <= i < |s.effects| ==> IsGrounded(s.traces, s.effects[i]))
    && (forall i, j :: 0 <= i < j < |s.effects| ==> s.effects[i].permit != s.effects[j].permit)
    && (forall i, pid :: 0 <= i < |s.effects| && pid in s.procs ==>
          PermitOf(s.procs[pid]) != Some(s.effects[i].permit))
  }

  ghost predicate HasGroundedReads(s: System) {
    && (forall i :: 0 <= i < |s.readBacks| ==> IsClaimed(s.traces, s.readBacks[i]))
    && (forall i, j :: 0 <= i < j < |s.readBacks| ==> s.readBacks[i] != s.readBacks[j])
    && (forall i, pid :: 0 <= i < |s.readBacks| && pid in s.procs ==>
          PermitOf(s.procs[pid]) != Some(s.readBacks[i]))
  }

  ghost predicate IsSafe(v: Confirmation.Verifier, s: System) {
    && HasTraces(v, s)
    && HasInformedProcesses(s)
    && HasExclusiveProcesses(s)
    && HasGroundedEffects(s)
    && HasGroundedReads(s)
  }

  // ----- traces only grow

  predicate IsPrefixOf(a: Trace, b: Trace) {
    IsShaped(a) && IsShaped(b) && a.rows <= b.rows && a.ops <= b.ops
  }

  lemma CurrentHasItsVersion(v: Confirmation.Verifier, tr: Trace)
    requires IsTrace(v, tr)
    ensures Current(tr).version == |tr.rows| - 1 && IsCopy(tr, Current(tr))
    ensures IsValid(Current(tr)) && KeyOf(Current(tr)) == KeyOf(tr.rows[0])
  {
    hide IsStep, IsNewRecord, IsValid;
    TraceRowsAreValid(v, tr, |tr.rows| - 1);
  }

  /** A copy that the store accepts a save from is the current row. */
  lemma AcceptedCopyIsCurrent(v: Confirmation.Verifier, tr: Trace, r: Record, next: Record)
    requires IsTrace(v, tr) && IsCopy(tr, r)
    requires next.version == r.version && Accepts(Current(tr), next)
    ensures r == Current(tr)
  {
    hide IsStep, IsNewRecord, IsValid;
    CurrentHasItsVersion(v, tr);
  }

  lemma OutcomeKeepsVersion(v: Confirmation.Verifier, op: Op, a: Record)
    requires Outcome(v, op, a).Ok?
    ensures Outcome(v, op, a).value.version == a.version
  {
    hide RecordVerification, RecheckRefusal, Confirmation.VerifyAttestation, ReceiptFor, EvidenceFor;
    if IsMetadata(op) {
      hide Outcome;
      MetadataFrame(v, a, op);
    } else if op.RecordCheck? {
      hide Outcome;
      RecordCheckFrame(v, a, op);
    }
  }

  lemma AppendingKeepsTrace(v: Confirmation.Verifier, tr: Trace, op: Op, row: Record)
    requires IsTrace(v, tr)
    requires Advances(v, Current(tr), op, row)
    requires CanFollow(tr, |tr.ops|, op)
    ensures IsTrace(v, Appended(tr, op, row))
    ensures IsPrefixOf(tr, Appended(tr, op, row))
  {
    hide Advances, IsNewRecord, FollowsClaim;
    var next := Appended(tr, op, row);
    forall i | 0 <= i < |next.ops|
      ensures IsStep(v, next, i)
    {
      if i < |tr.ops| {
        assert IsStep(v, tr, i);
        assert next.rows[i] == tr.rows[i] && next.rows[i + 1] == tr.rows[i + 1];
      } else {
        assert next.rows[i] == Current(tr) && next.rows[i + 1] == row;
      }
    }
  }

  lemma RecoveryIsHeld(v: Confirmation.Verifier, tr: Trace, op: Op, row: Record, asked: RecoveryAction, isRefund: bool)
    requires IsTrace(v, tr) && Advances(v, Current(tr), op, row)
    requires HoldsRecovery(tr, asked, isRefund)
    requires !(op.Finish? && op.asked.recoveryId == asked.recoveryId)
    ensures HoldsRecovery(Appended(tr, op, row), asked, isRefund)
  {
    hide IsTrace, Advances, HasOrderlyRecoveries, CanMoveRecovery, IsSuccessor;
    RowHasOrder(v, tr, |tr.rows| - 1);
    RecoveriesKeepOrder(v, Current(tr), op, row);
    var i := RecoveryIndex(Current(tr).recoveries, asked.recoveryId);
    IndexOfDistinct(row, i, asked.recoveryId);
  }

  lemma IndexOfDistinct(r: Record, i: nat, id: string)
    requires HasOrderlyRecoveries(r) && i < |r.recoveries| && r.recoveries[i].recoveryId == id
    ensures RecoveryIndex(r.recoveries, id) == i
  {
    IdentifiersAreDistinct(r);
  }

  lemma KnowledgeIsKept(v: Confirmation.Verifier, tr: Trace, op: Op, row: Record, p: Process)
    requires IsTrace(v, tr) && Advances(v, Current(tr), op, row)
    requires IsInformed(tr, p)
    requires !(op.Finish? && RecoveryOf(p) == Some(op.asked.recoveryId))
    ensures IsInformed(Appended(tr, op, row), p)
  {
    hide IsTrace, Advances, HoldsRecovery, ClaimsRecovery, IsTerminalFailureEligible;
    match p {
      case RecoveryCalling(_, _, asked, isRefund, _, _) => RecoveryIsHeld(v, tr, op, row, asked, isRefund);
      case RecoveryCalled(_, asked, isRefund, _, _) => RecoveryIsHeld(v, tr, op, row, asked, isRefund);
      case RecoveryReloaded(_, _, asked, isRefund, _, _) => RecoveryIsHeld(v, tr, op, row, asked, isRefund);
      case _ =>
    }
  }

  lemma GroundsAreKept(traces: map<Key, Trace>, k: Key, op: Op, row: Record, e: Effect)
    requires k in traces && IsShaped(traces[k]) && IsGrounded(traces, e)
    ensures IsGrounded(traces[k := Appended(traces[k], op, row)], e)
  {
    hide ClaimsRecovery;
  }

  lemma ClaimsAreKept(traces: map<Key, Trace>, k: Key, op: Op, row: Record, permit: Permit)
    requires k in traces && IsShaped(traces[k]) && IsClaimed(traces, permit)
    ensures IsClaimed(traces[k := Appended(traces[k], op, row)], permit)
  {
  }
}
