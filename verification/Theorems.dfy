/** What every run guarantees, whatever the interleaving, the crashes, the clocks and the providers. */
module Theorems {
  import opened Wrappers
  import opened Models
  import opened Outcomes
  import Confirmation
  import opened Records
  import opened Lifecycle
  import opened Contract
  import opened Traces
  import opened Counts
  import opened Counting
  import opened Scheduling
  import opened Recoveries
  import opened Attention
  import opened Invariants
  import opened Growth
  import opened Verdicts
  import opened Timing
  import opened Protocol
  import opened Safety
  import opened SafeSteps
  import opened Rules

  lemma TraceOf(v: Confirmation.Verifier, s: System, k: Key)
    requires IsSafe(v, s) && k in s.traces
    ensures IsTrace(v, s.traces[k]) && KeyOf(s.traces[k].rows[0]) == k
  {
    hide IsTrace, KeyOf, HasInformedProcesses, HasExclusiveProcesses, HasGroundedEffects, HasGroundedReads;
  }

  lemma EffectIsGrounded(v: Confirmation.Verifier, s: System, n: nat)
    requires IsSafe(v, s) && n < |s.effects|
    ensures IsGrounded(s.traces, s.effects[n])
  {
    hide IsGrounded, HasTraces, HasInformedProcesses, HasExclusiveProcesses, HasGroundedReads;
  }

  lemma PermitsDiffer(v: Confirmation.Verifier, s: System, m: nat, n: nat)
    requires IsSafe(v, s) && m < n < |s.effects|
    ensures s.effects[m].permit != s.effects[n].permit
  {
    hide IsGrounded, HasTraces, HasInformedProcesses, HasExclusiveProcesses, HasGroundedReads;
  }

  // ----- side effects

  /** No resolution ever sees a second call of cancel_subscription. */
  lemma CancelledAtMostOnce(v: Confirmation.Verifier, run: Run, i: nat, m: nat, n: nat)
    requires IsRun(v, run) && i < |run.states|
    requires m < n < |run.states[i].effects|
    requires run.states[i].effects[m].CancelCall? && run.states[i].effects[n].CancelCall?
    ensures run.states[i].effects[m].permit.key != run.states[i].effects[n].permit.key
  {
    hide IsSafe, Next, IsStep, IsNewRecord;
    RunsAreSafe(v, run, i);
    var s := run.states[i];
    EffectIsGrounded(v, s, m);
    EffectIsGrounded(v, s, n);
    PermitsDiffer(v, s, m, n);
    var k := s.effects[m].permit.key;
    if s.effects[n].permit.key == k {
      TraceOf(v, s, k);
      var a, b := s.effects[m].permit.version - 1, s.effects[n].permit.version - 1;
      if a < b {
        ConfirmedOnce(v, s.traces[k], a, b);
      } else {
        ConfirmedOnce(v, s.traces[k], b, a);
      }
    }
  }

  /**
    The row that a cancellation rests on: EXECUTING, confirmed at that time by the claims of this very token
    for this very action, and keeping those claims as its one attestation.
   */
  predicate AuthorisesCancellation(v: Confirmation.Verifier, r: Record, token: string) {
    && r.state == EXECUTING
    && IsConfirmed(r)
    && Confirms(v, token, r.ownerId, r.resolutionId, CancelSubscription,
                CancelDigest(r.ownerId, r.resolutionId, r.intent, r.providerMode, r.target.digest), r.confirmedAt.value)
    && Attested(r.history)[0].attestation == Some(KeptOf(token, v.decode(token).value))
  }

  /**
    Every call of cancel_subscription was made after a row in EXECUTING had been stored, under a token whose
    own claims confirm this cancellation of this owner's resolution, to this verifier and at that time.
   */
  lemma CancelledOnlyWhenAuthorised(v: Confirmation.Verifier, run: Run, i: nat, n: nat)
    requires IsRun(v, run) && i < |run.states|
    requires n < |run.states[i].effects| && run.states[i].effects[n].CancelCall?
    ensures var e := run.states[i].effects[n];
            && e.permit.key in run.states[i].traces
            && e.permit.version < |run.states[i].traces[e.permit.key].rows|
            && var row := run.states[i].traces[e.permit.key].rows[e.permit.version];
               KeyOf(row) == e.permit.key && AuthorisesCancellation(v, row, e.token)
  {
    hide IsSafe, Next, IsStep, IsNewRecord, AuthorisesCancellation, IsValid;
    RunsAreSafe(v, run, i);
    var s := run.states[i];
    var e := s.effects[n];
    EffectIsGrounded(v, s, n);
    TraceOf(v, s, e.permit.key);
    var tr := s.traces[e.permit.key];
    TraceRowsAreValid(v, tr, e.permit.version);
    assert IsStep(v, tr, e.permit.version - 1);
    ConfirmedRowAuthorises(v, tr, e.permit.version - 1);
  }

  lemma ConfirmedRowAuthorises(v: Confirmation.Verifier, tr: Trace, i: nat)
    requires IsShaped(tr) && i < |tr.ops| && IsStep(v, tr, i) && tr.ops[i].Confirm?
    ensures AuthorisesCancellation(v, tr.rows[i + 1], tr.ops[i].token)
  {
    hide Outcome, IsBound, HasValidHistory, HasValidAttempts, IsConfirmed, Confirmation.VerifyAttestation, Confirms, KeptOf;
    var a, op, b := tr.rows[i], tr.ops[i], tr.rows[i + 1];
    LifecycleOf(v, a, op, b);
    AdvanceKeepsIdentity(v, a, op, b);
    TokensAreAcceptedExactly(
      v, op.token,
      Confirmation.ExpectedConfirmation(a.ownerId, a.resolutionId, CancelSubscription, CancelActionDigest(a)),
      op.confirmedAt);
    HistoryPlusOne(a.history, Last(b.history));
    LonelyAttestation(b, AttestationFor(v, a, op).value);
  }

  lemma LonelyAttestation(r: Record, x: Confirmation.Attestation)
    requires IsConfirmed(r) && r.history != [] && Last(r.history).attestation == Some(x)
    ensures Attested(r.history)[0].attestation == Some(x)
  {
    hide IsValidAttestation;
  }

  /** No recovery of any resolution is handed to the recovery provider a second time. */
  lemma RecoveredAtMostOnce(v: Confirmation.Verifier, run: Run, i: nat, m: nat, n: nat)
    requires IsRun(v, run) && i < |run.states|
    requires m < n < |run.states[i].effects|
    requires run.states[i].effects[m].RecoveryCall? && run.states[i].effects[n].RecoveryCall?
    ensures run.states[i].effects[m].permit.key != run.states[i].effects[n].permit.key
            || run.states[i].effects[m].recoveryId != run.states[i].effects[n].recoveryId
  {
    hide IsSafe, Next, IsStep, IsNewRecord, ClaimsRecovery;
    RunsAreSafe(v, run, i);
    var s := run.states[i];
    EffectIsGrounded(v, s, m);
    EffectIsGrounded(v, s, n);
    PermitsDiffer(v, s, m, n);
    var k := s.effects[m].permit.key;
    if s.effects[n].permit.key == k && s.effects[m].recoveryId == s.effects[n].recoveryId {
      TraceOf(v, s, k);
      var a, b := s.effects[m].permit.version - 1, s.effects[n].permit.version - 1;
      if a < b {
        RecoveryClaimedOnce(v, s.traces[k], a, b, s.effects[m].recoveryId);
      } else {
        RecoveryClaimedOnce(v, s.traces[k], b, a, s.effects[m].recoveryId);
      }
    }
  }

  /** The row that the execution of a recovery rests on: claimed before it expired, for this very action. */
  predicate AuthorisesRecovery(v: Confirmation.Verifier, r: Record, a: RecoveryAction, token: string) {
    && a in r.recoveries && a.state == Executing
    && a.owner == r.ownerId && a.resolution == r.resolutionId && a.targetDigest == r.target.digest
    && a.digest == RecoveryDigest(a.recoveryId, r.ownerId, r.resolutionId, r.target.digest, a.kind, a.reason, a.expiresAt)
    && r.updatedAt < a.expiresAt && !IsTerminal(r.state) && MayBeCarriedOut(r, a)
    && Confirms(v, token, r.ownerId, r.resolutionId, a.kind, a.digest, r.updatedAt)
    && a.attestationId == Some(v.decode(token).value.tokenId)
  }

  /**
    Every call of execute_recovery was made after a row had been stored in which that recovery is executing,
    under a token whose own claims confirm this very recovery of this owner's resolution, to this verifier,
    at that time and before the proposal expired.
   */
  lemma RecoveredOnlyWhenAuthorised(v: Confirmation.Verifier, run: Run, i: nat, n: nat)
    requires IsRun(v, run) && i < |run.states|
    requires n < |run.states[i].effects| && run.states[i].effects[n].RecoveryCall?
    ensures var e := run.states[i].effects[n];
            && e.permit.key in run.states[i].traces
            && e.permit.version < |run.states[i].traces[e.permit.key].rows|
            && var row := run.states[i].traces[e.permit.key].rows[e.permit.version];
               KeyOf(row) == e.permit.key
               && exists a: RecoveryAction :: a.recoveryId == e.recoveryId && AuthorisesRecovery(v, row, a, e.token)
  {
    hide IsSafe, Next, IsStep, IsNewRecord, AuthorisesRecovery, IsValid, ClaimsRecovery, HasOrderlyRecoveries;
    RunsAreSafe(v, run, i);
    var s := run.states[i];
    var e := s.effects[n];
    EffectIsGrounded(v, s, n);
    TraceOf(v, s, e.permit.key);
    var tr := s.traces[e.permit.key];
    TraceRowsAreValid(v, tr, e.permit.version);
    RowHasOrder(v, tr, e.permit.version - 1);
    assert IsStep(v, tr, e.permit.version - 1);
    var a := DecidedRowAuthorises(v, tr, e.permit.version - 1, e.recoveryId);
  }

  lemma DecidedRowAuthorises(v: Confirmation.Verifier, tr: Trace, i: nat, id: string) returns (x: RecoveryAction)
    requires IsShaped(tr) && i < |tr.ops| && IsStep(v, tr, i) && HasOrderlyRecoveries(tr.rows[i])
    requires tr.ops[i].Decide? && ClaimsRecovery(tr.rows[i], tr.ops[i], tr.rows[i + 1], id)
    ensures x.recoveryId == id && AuthorisesRecovery(v, tr.rows[i + 1], x, tr.ops[i].token)
  {
    hide IsValid, Confirmation.VerifyAttestation, HasOrderlyRecoveries, RecoveryIndex, HasFreshIds, IsWritten, Confirms;
    hide DecideRecovery, RecoveryActionDigest;
    var a, op, b := tr.rows[i], tr.ops[i], tr.rows[i + 1];
    var n :| 0 <= n < |a.recoveries| && n < |b.recoveries| && a.recoveries[n].recoveryId == id
             && a.recoveries[n].state == AwaitingConfirmation && b.recoveries[n].state == Executing;
    IndexOfDistinct(a, n, id);
    DecisionsAreMadeExactly(v, a, a.ownerId, a.resolutionId, id, op.confirmed, op.token, op.at);
    AdvanceKeepsIdentity(v, a, op, b);
    x := b.recoveries[n];
  }

  // ----- one attestation, one side effect

  /** What the token of an effect was accepted for, and when. */
  lemma EffectWasExpected(v: Confirmation.Verifier, s: System, n: nat) returns (x: Confirmation.ExpectedConfirmation, at: int)
    requires IsSafe(v, s) && n < |s.effects|
    ensures Confirmation.VerifyAttestation(v, s.effects[n].token, x, at).Some?
    ensures Key(x.principal, x.resolution) == s.effects[n].permit.key
    ensures s.effects[n].CancelCall? ==> x.actionDigest.CancelDigest?
    ensures s.effects[n].RecoveryCall? ==>
              x.actionDigest.RecoveryDigest? && x.actionDigest.recoveryId == s.effects[n].recoveryId
  {
    hide IsSafe, IsStep, IsNewRecord, Confirmation.VerifyAttestation, IsValid;
    var e := s.effects[n];
    EffectIsGrounded(v, s, n);
    TraceOf(v, s, e.permit.key);
    var tr := s.traces[e.permit.key];
    var i := e.permit.version - 1;
    TraceRowsAreValid(v, tr, i);
    assert IsStep(v, tr, i);
    if e.CancelCall? {
      x, at := ConfirmationWasExpected(v, tr, i);
    } else {
      x, at := RecoveryWasExpected(v, tr, i, e.recoveryId);
    }
  }

  lemma ConfirmationWasExpected(v: Confirmation.Verifier, tr: Trace, i: nat)
    returns (x: Confirmation.ExpectedConfirmation, at: int)
    requires IsShaped(tr) && i < |tr.ops| && IsStep(v, tr, i) && tr.ops[i].Confirm?
    ensures Confirmation.VerifyAttestation(v, tr.ops[i].token, x, at).Some?
    ensures Key(x.principal, x.resolution) == KeyOf(tr.rows[i]) && x.actionDigest.CancelDigest?
  {
    hide Outcome, IsValid, Confirmation.VerifyAttestation;
    var a := tr.rows[i];
    LifecycleOf(v, a, tr.ops[i], tr.rows[i + 1]);
    x := Confirmation.ExpectedConfirmation(a.ownerId, a.resolutionId, CancelSubscription, CancelActionDigest(a));
    at := tr.ops[i].confirmedAt;
  }

  lemma RecoveryWasExpected(v: Confirmation.Verifier, tr: Trace, i: nat, id: string)
    returns (x: Confirmation.ExpectedConfirmation, at: int)
    requires IsTrace(v, tr) && i < |tr.ops|
    requires tr.ops[i].Decide? && ClaimsRecovery(tr.rows[i], tr.ops[i], tr.rows[i + 1], id)
    ensures Confirmation.VerifyAttestation(v, tr.ops[i].token, x, at).Some?
    ensures Key(x.principal, x.resolution) == KeyOf(tr.rows[i])
    ensures x.actionDigest.RecoveryDigest? && x.actionDigest.recoveryId == id
  {
    hide Advances, IsNewRecord, FollowsClaim, HasOrderlyRecoveries, ClaimsRecovery;
    assert IsStep(v, tr, i);
    RowHasOrder(v, tr, i);
    x, at := DecisionWasExpected(v, tr.rows[i], tr.ops[i], tr.rows[i + 1], id);
  }

  lemma DecisionWasExpected(v: Confirmation.Verifier, a: Record, op: Op, b: Record, id: string)
    returns (x: Confirmation.ExpectedConfirmation, at: int)
    requires Advances(v, a, op, b) && HasOrderlyRecoveries(a)
    requires op.Decide? && ClaimsRecovery(a, op, b, id)
    ensures Confirmation.VerifyAttestation(v, op.token, x, at).Some?
    ensures Key(x.principal, x.resolution) == KeyOf(a)
    ensures x.actionDigest.RecoveryDigest? && x.actionDigest.recoveryId == id
  {
    hide IsValid, Confirmation.VerifyAttestation, HasOrderlyRecoveries, RecoveryIndex;
    var n :| 0 <= n < |a.recoveries| && n < |b.recoveries| && a.recoveries[n].recoveryId == id
             && a.recoveries[n].state == AwaitingConfirmation && b.recoveries[n].state == Executing;
    IndexOfDistinct(a, n, id);
    var action := a.recoveries[n];
    x := Confirmation.ExpectedConfirmation(a.ownerId, a.resolutionId, action.kind, action.digest);
    at := op.at;
  }

  /** One attestation authorises at most one side effect, across all owners and resolutions. */
  lemma AttestationsAreUsedOnce(v: Confirmation.Verifier, run: Run, i: nat, m: nat, n: nat)
    requires IsRun(v, run) && i < |run.states|
    requires m < n < |run.states[i].effects|
    ensures run.states[i].effects[m].token != run.states[i].effects[n].token
  {
    hide IsSafe, Next, Confirmation.VerifyAttestation;
    RunsAreSafe(v, run, i);
    var s := run.states[i];
    if s.effects[m].token == s.effects[n].token {
      var x, at := EffectWasExpected(v, s, m);
      var y, later := EffectWasExpected(v, s, n);
      Confirmation.TokenSpeaksForOneAction(v, s.effects[m].token, x, at, y, later);
      if s.effects[m].CancelCall? {
        CancelledAtMostOnce(v, run, i, m, n);
      } else {
        RecoveredAtMostOnce(v, run, i, m, n);
      }
    }
  }

  // ----- read-backs

  /** The versions of one resolution among a list of permits. */
  function VersionsOf(permits: seq<Permit>, k: Key): seq<nat> {
    if permits == [] then []
    else
      VersionsOf(permits[..|permits| - 1], k)
      + (if Last(permits).key == k then [Last(permits).version] else [])
  }

  lemma {:induction false} VersionsAreOfKey(permits: seq<Permit>, k: Key)
    requires forall i, j :: 0 <= i < j < |permits| ==> permits[i] != permits[j]
    ensures IsInjective(VersionsOf(permits, k))
    ensures forall i :: 0 <= i < |VersionsOf(permits, k)| ==> Permit(k, VersionsOf(permits, k)[i]) in permits
  {
    if permits != [] {
      var shorter := permits[..|permits| - 1];
      VersionsAreOfKey(shorter, k);
      forall i | 0 <= i < |VersionsOf(shorter, k)|
        ensures VersionsOf(shorter, k)[i] != Last(permits).version || Last(permits).key != k
      {
        assert Permit(k, VersionsOf(shorter, k)[i]) in shorter;
      }
    }
  }

  /** The versions at which a trace claims a check, up to a given one. */
  function ClaimVersions(tr: Trace, n: nat): set<nat>
    requires n <= |tr.ops|
  {
    set i | 0 <= i < n && IsClaim(tr.ops[i]) :: i + 1
  }

  lemma {:induction false} ClaimsAreCounted(v: Confirmation.Verifier, tr: Trace, n: nat)
    requires IsTrace(v, tr) && n <= |tr.ops|
    ensures |ClaimVersions(tr, n)| == tr.rows[n].checkCount
  {
    hide Advances, IsNewRecord, FollowsClaim;
    if n == 0 {
      NewRecordIsValid(tr.rows[0]);
      assert ClaimVersions(tr, 0) == {};
    } else {
      ClaimsAreCounted(v, tr, n - 1);
      assert IsStep(v, tr, n - 1);
      ClaimCounts(v, tr.rows[n - 1], tr.ops[n - 1], tr.rows[n]);
      if IsClaim(tr.ops[n - 1]) {
        assert ClaimVersions(tr, n) == ClaimVersions(tr, n - 1) + {n};
      } else {
        assert ClaimVersions(tr, n) == ClaimVersions(tr, n - 1);
      }
    }
  }

  lemma ClaimCounts(v: Confirmation.Verifier, a: Record, op: Op, b: Record)
    requires Advances(v, a, op, b)
    ensures b.checkCount == a.checkCount + if IsClaim(op) then 1 else 0
  {
    hide IsValid, Outcome, HasFreshIds, IsWritten, RecheckRefusal;
    hide Confirmation.VerifyAttestation, CancelActionDigest, ReceiptFor, AttemptFor;
    LifecycleOf(v, a, op, b);
  }

  /** The read-backs made for a resolution never outnumber the checks it has claimed, and so never the budget. */
  lemma ReadBacksStayWithinBudget(v: Confirmation.Verifier, run: Run, i: nat, k: Key)
    requires IsRun(v, run) && i < |run.states| && k in run.states[i].traces
    ensures IsShaped(run.states[i].traces[k])
    ensures |VersionsOf(run.states[i].readBacks, k)| <= Current(run.states[i].traces[k]).checkCount <= MAX_VERIFICATION_CHECKS
  {
    hide IsSafe, Next, IsStep, IsNewRecord;
    RunsAreSafe(v, run, i);
    var s := run.states[i];
    var tr := s.traces[k];
    TraceOf(v, s, k);
    ReadBacksAreClaimed(v, s);
    VersionsAreOfKey(s.readBacks, k);
    var versions := VersionsOf(s.readBacks, k);
    forall n | 0 <= n < |versions| ensures versions[n] in ClaimVersions(tr, |tr.ops|) {
      var permit := Permit(k, versions[n]);
      assert permit in s.readBacks;
      assert IsClaimed(s.traces, permit);
    }
    DistinctElementsFit(versions, ClaimVersions(tr, |tr.ops|));
    ClaimsAreCounted(v, tr, |tr.ops|);
    HistoriesAreBounded(v, tr, |tr.rows| - 1);
  }

  lemma ReadBacksAreClaimed(v: Confirmation.Verifier, s: System)
    requires IsSafe(v, s)
    ensures forall permit :: permit in s.readBacks ==> IsClaimed(s.traces, permit)
    ensures forall m, n :: 0 <= m < n < |s.readBacks| ==> s.readBacks[m] != s.readBacks[n]
  {
    hide IsClaimed, HasTraces, HasInformedProcesses, HasExclusiveProcesses, HasGroundedEffects;
  }

  // ----- the store over time

  /** From one state of a run to a later one, every trace is kept and only ever extended. */
  lemma {:induction false} StoredRowsAreKept(v: Confirmation.Verifier, run: Run, i: nat, j: nat, k: Key)
    requires IsRun(v, run) && i <= j < |run.states| && k in run.states[i].traces
    ensures k in run.states[j].traces
    ensures run.states[i].traces[k].rows <= run.states[j].traces[k].rows
    ensures run.states[i].traces[k].ops <= run.states[j].traces[k].ops
    decreases j
  {
    hide Next;
    if i < j {
      StoredRowsAreKept(v, run, i, j - 1, k);
      StepKeepsRows(v, run.states[j - 1], run.states[j], run.steps[j - 1], k);
    }
  }

  lemma StepKeepsRows(v: Confirmation.Verifier, s: System, t: System, step: Step, k: Key)
    requires Next(v, s, t, step) && k in s.traces
    ensures k in t.traces && s.traces[k].rows <= t.traces[k].rows && s.traces[k].ops <= t.traces[k].ops
  {
    hide Outcome, Accepts, IsNewRecord, Reads, HasFreshIds, MayAttempt, Continuation;
  }

  /** A resolution that is VERIFIED or NOT_COMPLETED stays exactly as it is for the rest of the run. */
  lemma TerminalOutcomesAreImmutable(v: Confirmation.Verifier, run: Run, i: nat, j: nat, k: Key)
    requires IsRun(v, run) && i <= j < |run.states| && k in run.states[i].traces
    requires IsShaped(run.states[i].traces[k]) && IsTerminal(Current(run.states[i].traces[k]).state)
    ensures k in run.states[j].traces && run.states[j].traces[k] == run.states[i].traces[k]
  {
    hide IsSafe, Next, IsStep, IsNewRecord;
    StoredRowsAreKept(v, run, i, j, k);
    RunsAreSafe(v, run, j);
    TraceOf(v, run.states[j], k);
    var before, after := run.states[i].traces[k], run.states[j].traces[k];
    assert after.rows[|before.rows| - 1] == Current(before);
    TerminalRowsAreFinal(v, after, |before.rows| - 1);
  }

  /**
    In every reachable store: VERIFIED rests on proof, NOT_COMPLETED on a charge or on the whole window,
    attention and proposals are at most three each, and every row is valid.
   */
  lemma StoredRowsAreAccountable(v: Confirmation.Verifier, run: Run, i: nat, k: Key, n: nat)
    requires IsRun(v, run) && i < |run.states|
    requires k in run.states[i].traces && n < |run.states[i].traces[k].rows|
    ensures var r := run.states[i].traces[k].rows[n];
            && IsValid(r) && KeyOf(r) == k && r.version == n
            && (r.state == VERIFIED ==> RestsOnProof(r))
            && (r.state == NOT_COMPLETED ==> RestsOnWindow(r) || exists w :: RestsOnCharge(r, w))
            && |r.attention| <= 3 && |r.recoveries| <= 3
  {
    hide IsSafe, Next, IsStep, IsNewRecord, IsValid, RestsOnProof, RestsOnWindow, RestsOnCharge;
    RunsAreSafe(v, run, i);
    TraceOf(v, run.states[i], k);
    var tr := run.states[i].traces[k];
    TraceRowsAreValid(v, tr, n);
    if tr.rows[n].state == VERIFIED {
      VerifiedRestsOnProof(v, tr, n);
    } else if tr.rows[n].state == NOT_COMPLETED {
      NotCompletedRestsOnRefutation(v, tr, n);
    }
    FewEventsAndProposals(v, tr, n);
  }

  lemma FewEventsAndProposals(v: Confirmation.Verifier, tr: Trace, n: nat)
    requires IsTrace(v, tr) && n < |tr.rows|
    ensures |tr.rows[n].attention| <= 3 && |tr.rows[n].recoveries| <= 3
  {
    hide IsStep, IsNewRecord, IsCounted, IsScheduled, HasOrderlyRecoveries, HasDistinctAttention, HasTrackedViolations;
    TraceRowsAreSound(v, tr, n);
    AtMostThreeEvents(tr.rows[n]);
    AtMostThreeProposals(tr.rows[n]);
  }
}
