/**
  The service calls from load to last save, as they run when nobody interferes: an object over a
  repository (lifecycle.py). Whatever a call leaves in the store is a trace one or more saves longer.
 */
module Service {
  import opened Wrappers
  import opened Models
  import Confirmation
  import opened Records
  import Lifecycle
  import opened Contract
  import opened Traces
  import opened Protocol
  import opened Safety
  import opened Invariants
  import opened Saving
  import opened Rules
  import opened Effects
  import Codec
  import Stores
  import opened RecordObject
  import opened Repositories
  import opened RoundTrip

  datatype Failure =
    | NotConfirmed
    | NotLoaded(error: LoadError)
    | NotCreated(problem: CreateError)
    | Refused(refusal: Lifecycle.Refusal)
    | NotSaved(reason: Stores.SaveError)

  /**
    What a provider does in the course of one call: its answer to a cancellation, and what a read-back shows,
    given whether this provider object was asked to cancel before. A factory that fails is one whose provider
    never answers.
   */
  datatype Provider = Provider(
    cancel: ResourceIdentity -> Reply<ActionReceipt>,
    read: (bool, ResourceIdentity, string) -> Reply<Evidence>)

  /** The clock readings and identifiers that a confirmation uses, in their order. */
  datatype ConfirmInputs = ConfirmInputs(
    token: string, confirmedAt: int, executingAt: int, freshId: string, observedAt: int,
    verifyingAt: int, attemptId: string, checkedAt: int, supply: Lifecycle.Supply)

  function ConfirmOps(r: Record, provider: Provider, x: ConfirmInputs): (ops: seq<Op>)
    ensures |ops| == 3
  {
    [BeginOp(x)] + ExecuteOps(r, provider, x)
  }

  function ExecuteOps(r: Record, provider: Provider, x: ConfirmInputs): (ops: seq<Op>)
    ensures |ops| == 2
  {
    [ClaimOp(provider.cancel(r.target), x),
     RecordCheck(provider.read(true, r.target, x.attemptId), x.attemptId, false, x.checkedAt, x.supply)]
  }

  datatype RecheckInputs = RecheckInputs(
    now: int, scheduledFor: Option<int>, force: bool, attemptId: string, supply: Lifecycle.Supply)

  function RecheckOps(r: Record, provider: Provider, x: RecheckInputs): (ops: seq<Op>)
    ensures |ops| == 2
  {
    [Recheck(x.now, x.scheduledFor, x.force),
     RecordCheck(provider.read(false, r.target, x.attemptId), x.attemptId,
                 Lifecycle.IsTerminalFailureEligible(r, x.now), x.now, x.supply)]
  }

  /** A save that cannot be built from the row, or that the store does not accept over it. */
  predicate Fails(v: Confirmation.Verifier, a: Record, op: Op) {
    Outcome(v, op, a).Err? || !Accepts(a, Outcome(v, op, a).value)
  }

  /** The trace that `n` of the saves have made out of an earlier one. */
  ghost predicate HasRun(before: Trace, ops: seq<Op>, n: nat, after: Trace) {
    n <= |ops| && after.ops == before.ops + ops[..n] && before.rows <= after.rows
  }

  function IdOf(tr: Trace): string
    requires IsShaped(tr)
  {
    Current(tr).resolutionId
  }

  /** What start_resolution builds has the shape of a new record and the identifier it was given. */
  lemma StartedRecord(owner: string, intent: string, mode: string, interpretation: Lifecycle.Interpretation,
                      resolutionId: string, requestedAt: int, offeredAt: int)
    requires Lifecycle.StartResolution(owner, intent, mode, interpretation, resolutionId, requestedAt, offeredAt).Ok?
    ensures var r := Lifecycle.StartResolution(owner, intent, mode, interpretation, resolutionId, requestedAt, offeredAt).value;
            r.resolutionId == resolutionId && (IsValidNew(r) ==> IsNewRecord(r))
  {
    hide IsValidNew, Strip, IsBlank;
  }

  lemma OneRowIsTrace(v: Confirmation.Verifier, r: Record)
    requires IsNewRecord(r)
    ensures IsTrace(v, Trace([r], []))
  {
    hide IsNewRecord;
  }

  lemma SavingExtends(v: Confirmation.Verifier, tr: Trace, op: Op)
    requires IsTrace(v, tr)
    requires Outcome(v, op, Current(tr)).Ok? && HasFreshIds(op, Current(tr)) && IsWritten(op, Current(tr))
    requires Accepts(Current(tr), Outcome(v, op, Current(tr)).value)
    requires CanFollow(tr, |tr.ops|, op)
    ensures IsTrace(v, Appended(tr, op, Stored(Outcome(v, op, Current(tr)).value)))
  {
    hide IsTrace, FollowsClaim, Outcome, Accepts, HasFreshIds, IsWritten, Advances;
    AcceptedAdvances(v, Current(tr), op);
    AppendingKeepsTrace(v, tr, op, Stored(Outcome(v, op, Current(tr)).value));
  }

  lemma AcceptedAdvances(v: Confirmation.Verifier, a: Record, op: Op)
    requires Outcome(v, op, a).Ok? && HasFreshIds(op, a) && IsWritten(op, a)
    requires Accepts(a, Outcome(v, op, a).value)
    ensures Advances(v, a, op, Stored(Outcome(v, op, a).value))
  {
    hide Outcome, Accepts, HasFreshIds, IsWritten;
  }

  class ResolutionService {
    const repository: SqlResolutionRepository
    const verifier: Confirmation.Verifier

    constructor (repository: SqlResolutionRepository, verifier: Confirmation.Verifier)
      ensures this.repository == repository && this.verifier == verifier
    {
      this.repository := repository;
      this.verifier := verifier;
    }

    /** The store holds the last row of a trace. */
    ghost predicate Holds(tr: Trace)
      reads repository
    {
      && IsShaped(tr)
      && IsTrace(verifier, tr)
      && IdOf(tr) in repository.rows
      && repository.rows[IdOf(tr)] == Codec.Encode(Current(tr))
    }

    /** start_resolution: a new row, under an identifier that no row has. */
    method StartResolution(owner: string, intent: string, mode: string, interpretation: Lifecycle.Interpretation,
                           resolutionId: string, requestedAt: int, offeredAt: int)
      returns (r: Result<Record, Failure>, ghost tr: Trace)
      modifies repository
      ensures var asked := Lifecycle.StartResolution(owner, intent, mode, interpretation, resolutionId, requestedAt, offeredAt);
              && (r.Ok? <==> asked.Ok? && IsValidNew(asked.value) && resolutionId !in old(repository.rows))
              && (r.Ok? ==> asked == Ok(r.value) && tr == Trace([r.value], []) && Holds(tr))
      ensures r.Err? ==> repository.rows == old(repository.rows)
    {
      hide IsValidNew, Codec.Encode, IsTrace, Lifecycle.StartResolution;
      tr := Trace([], []);
      var refusal, record := RecordObject.StartResolution(owner, intent, mode, interpretation, resolutionId,
                                                          requestedAt, offeredAt);
      if refusal.Some? {
        return Err(Refused(refusal.value)), tr;
      }
      StartedRecord(owner, intent, mode, interpretation, resolutionId, requestedAt, offeredAt);
      var error := repository.Create(record.value);
      if error.Some? {
        return Err(NotCreated(error.value)), tr;
      }
      tr := Trace([record.value.Snapshot()], []);
      OneRowIsTrace(verifier, record.value.Snapshot());
      return Ok(record.value.Snapshot()), tr;
    }

    /** One save of what was built from the current row. */
    method Save(record: ResolutionRecord, ghost tr: Trace, ghost op: Op)
      returns (error: Option<Stores.SaveError>, ghost after: Trace)
      requires Holds(tr)
      requires Outcome(verifier, op, Current(tr)) == Ok(record.Snapshot())
      requires HasFreshIds(op, Current(tr)) && IsWritten(op, Current(tr))
      requires CanFollow(tr, |tr.ops|, op)
      modifies repository, record
      ensures error.None? <==> Accepts(Current(tr), old(record.Snapshot()))
      ensures Holds(after)
      ensures after == if error.None? then Appended(tr, op, Stored(old(record.Snapshot()))) else tr
      ensures error.None? ==> record.Snapshot() == Current(after)
    {
      hide Outcome, Accepts, HasFreshIds, IsWritten, IsTrace, Stores.SqlCheck, Codec.Encode, FollowsClaim;
      ghost var next := record.Snapshot();
      BuiltFromRow(verifier, tr, op);
      EncodedOwner(Current(tr));
      Stores.SqlDecidesAtomically(Current(tr), next);
      error := repository.SaveOwned(record, record.version);
      if error.None? {
        SavingExtends(verifier, tr, op);
        after := Appended(tr, op, Stored(next));
      } else {
        after := tr;
      }
    }

    /** Reads the current row; it comes back unchanged or not at all. */
    method Load(owner: string, resolution: string, ghost tr: Trace)
      returns (error: Option<LoadError>, record: Option<ResolutionRecord>)
      requires Holds(tr) && KeyOf(Current(tr)) == Key(owner, resolution)
      ensures error.None? <==> Codec.Decode(Codec.Encode(Current(tr))).Ok?
      ensures error.None? ==> record.Some? && fresh(record.value) && record.value.Snapshot() == Current(tr)
    {
      hide IsTrace, Codec.Decode, Codec.Encode, IsReadableBack;
      EncodedOwner(Current(tr));
      StoredRowsAreReadBack(verifier, tr, |tr.rows| - 1);
      error, record := repository.GetOwned(resolution, owner);
    }

    /** The saved step of a confirmation: from the loaded record to a stored EXECUTING. */
    method Begin(record: ResolutionRecord, x: ConfirmInputs, ghost tr: Trace)
      returns (failure: Option<Failure>, ghost after: Trace)
      requires Holds(tr) && record.Snapshot() == Current(tr)
      modifies repository, record
      ensures Holds(after) && Ends(verifier, tr, BeginOp(x), failure.None?, after)
      ensures failure.None? ==> record.Snapshot() == Current(after)
    {
      hide Accepts, IsTrace, Codec.Encode, Lifecycle.BeginExecution;
      after := tr;
      var refusal := record.BeginExecution(verifier, x.token, x.confirmedAt, x.executingAt);
      if refusal.Some? {
        return Some(Refused(refusal.value)), after;
      }
      var unsaved;
      unsaved, after := Save(record, tr, BeginOp(x));
      return if unsaved.Some? then Some(NotSaved(unsaved.value)) else None, after;
    }

    /** Stores what the provider answered, with the claim on the first check. */
    method Claim(record: ResolutionRecord, answer: Reply<ActionReceipt>, x: ConfirmInputs, ghost tr: Trace)
      returns (failure: Option<Failure>, ghost after: Trace)
      requires Holds(tr) && record.Snapshot() == Current(tr) && record.state == EXECUTING
      requires |tr.ops| > 0 && tr.ops[|tr.ops| - 1].Confirm?
      requires !IsBlank(x.freshId)
      modifies repository, record
      ensures Holds(after) && Ends(verifier, tr, ClaimOp(answer, x), failure.None?, after)
      ensures failure.None? ==> record.Snapshot() == Current(after)
    {
      hide Accepts, IsTrace, Codec.Encode, Lifecycle.ClaimFirstCheck, Lifecycle.ReceiptFor, IsBlank;
      var receipt := Lifecycle.ReceiptFor(answer, x.freshId);
      var claimed := record.ClaimFirstCheck(receipt, x.observedAt, x.verifyingAt);
      var unsaved;
      unsaved, after := Save(record, tr, ClaimOp(answer, x));
      return if unsaved.Some? then Some(NotSaved(unsaved.value)) else None, after;
    }

    /** Judges a read-back and stores the attempt. */
    method Check(record: ResolutionRecord, seen: Reply<Evidence>, attemptId: string, eligible: bool, at: int,
                 supply: Lifecycle.Supply, ghost tr: Trace)
      returns (failure: Option<Failure>, ghost after: Trace)
      requires Holds(tr) && record.Snapshot() == Current(tr)
      requires record.state == VERIFYING && record.claim.Some?
      requires IsFreshAttempt(Current(tr), attemptId, supply)
      requires |tr.ops| > 0
               && FollowsClaim(tr.rows[|tr.ops| - 1], tr.ops[|tr.ops| - 1], RecordCheck(seen, attemptId, eligible, at, supply))
      modifies repository, record
      ensures Holds(after)
      ensures Ends(verifier, tr, RecordCheck(seen, attemptId, eligible, at, supply), failure.None?, after)
      ensures failure.None? ==> record.Snapshot() == Current(after)
    {
      hide Accepts, IsTrace, Codec.Encode, Lifecycle.RecordVerification, Lifecycle.EvidenceFor, IsBlank;
      ghost var op := RecordCheck(seen, attemptId, eligible, at, supply);
      var evidence := Lifecycle.EvidenceFor(seen, record.target, attemptId);
      record.RecordVerification(record.claim.value, evidence, attemptId, eligible, at, supply);
      var unsaved;
      unsaved, after := Save(record, tr, op);
      return if unsaved.Some? then Some(NotSaved(unsaved.value)) else None, after;
    }

    /**
      confirm_resolution_action. A call that succeeds has made all three saves; one that fails has made
      the saves before the one that could not be made.
     */
    method ConfirmResolutionAction(owner: string, resolution: string, confirmed: bool, provider: Provider,
                                   x: ConfirmInputs, ghost tr: Trace)
      returns (r: Result<Record, Failure>, ghost after: Trace, ghost n: nat)
      requires Holds(tr) && KeyOf(Current(tr)) == Key(owner, resolution)
      requires !IsBlank(x.freshId) && IsFreshAttempt(Current(tr), x.attemptId, x.supply)
      modifies repository
      ensures Holds(after) && HasRun(tr, ConfirmOps(Current(tr), provider, x), n, after)
      ensures r.Ok? ==> n == 3 && r.value == Current(after)
      ensures r.Err? ==>
                || (n == 0 && (!confirmed || Codec.Decode(Codec.Encode(Current(tr))).Err?))
                || (n < 3 && Fails(verifier, Current(after), ConfirmOps(Current(tr), provider, x)[n]))
      ensures r.Ok? <==>
                confirmed && Codec.Decode(Codec.Encode(Current(tr))).Ok? && MayConfirm(verifier, Current(tr), x)
    {
      hide IsTrace, Codec.Decode, Codec.Encode, Outcome, Fails, Accepts, IsBlank, MayConfirm;
      after, n := tr, 0;
      if !confirmed {
        return Err(NotConfirmed), after, n;
      }
      var error, loaded := Load(owner, resolution, tr);
      if error.Some? {
        return Err(NotLoaded(error.value)), after, n;
      }
      var record, failure := loaded.value, None;
      failure, after := Begin(record, x, tr);
      if failure.None? {
        ghost var begun := after;
        BeginningKeeps(verifier, Current(tr), BeginOp(x));
        failure, after, n := ExecuteAndCheck(record, provider, x, begun);
        n := n + 1;
      }
      ConfirmationsSucceedExactly(verifier, tr, provider, x, n, after);
      return if failure.Some? then Err(failure.value) else Ok(record.Snapshot()), after, n;
    }

    /** The provider call and the two saves that follow it. */
    method ExecuteAndCheck(record: ResolutionRecord, provider: Provider, x: ConfirmInputs, ghost tr: Trace)
      returns (failure: Option<Failure>, ghost after: Trace, ghost n: nat)
      requires Holds(tr) && record.Snapshot() == Current(tr) && record.state == EXECUTING
      requires |tr.ops| > 0 && tr.ops[|tr.ops| - 1].Confirm?
      requires !IsBlank(x.freshId) && IsFreshAttempt(Current(tr), x.attemptId, x.supply)
      modifies repository, record
      ensures Holds(after) && HasRun(tr, ExecuteOps(Current(tr), provider, x), n, after)
      ensures failure.None? ==> n == 2 && record.Snapshot() == Current(after)
      ensures failure.Some? ==> n < 2 && Fails(verifier, Current(after), ExecuteOps(Current(tr), provider, x)[n])
    {
      hide IsTrace, Codec.Encode, Outcome, Fails, Accepts, IsBlank;
      n := 0;
      var answer := provider.cancel(record.target);
      failure, after := Claim(record, answer, x, tr);
      if failure.Some? {
        return failure, after, n;
      }
      n := 1;
      ghost var claimed := after;
      ClaimingKeeps(verifier, Current(tr), ClaimOp(answer, x));
      var seen := provider.read(true, record.target, x.attemptId);
      failure, after := Check(record, seen, x.attemptId, false, x.checkedAt, x.supply, claimed);
      n := if failure.Some? then 1 else 2;
    }

    /** Claims a check from the loaded record, or says why not. */
    method ClaimAgain(record: ResolutionRecord, x: RecheckInputs, ghost tr: Trace)
      returns (failure: Option<Failure>, eligible: bool, ghost after: Trace)
      requires Holds(tr) && record.Snapshot() == Current(tr)
      modifies repository, record
      ensures Holds(after) && Ends(verifier, tr, Recheck(x.now, x.scheduledFor, x.force), failure.None?, after)
      ensures failure.None? ==> record.Snapshot() == Current(after)
      ensures failure.None? ==> eligible == Lifecycle.IsTerminalFailureEligible(Current(tr), x.now)
    {
      hide Accepts, IsTrace, Codec.Encode, Lifecycle.RecheckRefusal, Lifecycle.ClaimRecheck;
      hide Lifecycle.IsTerminalFailureEligible;
      after := tr;
      var refusal;
      refusal, eligible := record.ClaimRecheck(x.now, x.scheduledFor, x.force);
      if refusal.Some? {
        return Some(Refused(refusal.value)), eligible, after;
      }
      var unsaved;
      unsaved, after := Save(record, tr, Recheck(x.now, x.scheduledFor, x.force));
      return if unsaved.Some? then Some(NotSaved(unsaved.value)) else None, eligible, after;
    }

    /** recheck_resolution, with a provider object of its own that was never asked to cancel. */
    method RecheckResolution(owner: string, resolution: string, provider: Provider, x: RecheckInputs, ghost tr: Trace)
      returns (r: Result<Record, Failure>, ghost after: Trace, ghost n: nat)
      requires Holds(tr) && KeyOf(Current(tr)) == Key(owner, resolution)
      requires IsFreshAttempt(Current(tr), x.attemptId, x.supply)
      modifies repository
      ensures Holds(after) && HasRun(tr, RecheckOps(Current(tr), provider, x), n, after)
      ensures r.Ok? ==> n == 2 && r.value == Current(after)
      ensures r.Err? ==>
                || (n == 0 && Codec.Decode(Codec.Encode(Current(tr))).Err?)
                || (n < 2 && Fails(verifier, Current(after), RecheckOps(Current(tr), provider, x)[n]))
      ensures r.Ok? <==> Codec.Decode(Codec.Encode(Current(tr))).Ok? && MayRecheck(Current(tr), x)
    {
      hide IsTrace, Codec.Decode, Codec.Encode, Outcome, Fails, Accepts, IsBlank, Lifecycle.IsTerminalFailureEligible;
      hide MayRecheck;
      after, n := tr, 0;
      var error, loaded := Load(owner, resolution, tr);
      if error.Some? {
        return Err(NotLoaded(error.value)), after, n;
      }
      var record, failure, eligible := loaded.value, None, false;
      failure, eligible, after := ClaimAgain(record, x, tr);
      if failure.None? {
        n := 1;
        ghost var claimed := after;
        ClaimingAgainKeeps(verifier, tr, Recheck(x.now, x.scheduledFor, x.force));
        var seen := provider.read(false, record.target, x.attemptId);
        failure, after := Check(record, seen, x.attemptId, eligible, x.now, x.supply, claimed);
        n := if failure.None? then 2 else 1;
      }
      RechecksSucceedExactly(verifier, tr, provider, x, n, after);
      return if failure.Some? then Err(failure.value) else Ok(record.Snapshot()), after, n;
    }
  }

  /** A row that may be rechecked has a claim, since it is past EXECUTING. */
  lemma ClaimingAgainKeeps(v: Confirmation.Verifier, tr: Trace, op: Op)
    requires IsTrace(v, tr) && IsShaped(tr)
    requires op.Recheck? && Outcome(v, op, Current(tr)).Ok?
    ensures var b := Outcome(v, op, Current(tr)).value;
            && KeepsParts(Current(tr), Stored(b))
            && b.state == VERIFYING && b.claim.Some?
  {
    hide IsTrace, Outcome, IsValid;
    TraceRowsAreValid(v, tr, |tr.rows| - 1);
    RecheckKeeps(v, Current(tr), op);
    ClaimIsStored(Current(tr));
  }

  lemma RecheckKeeps(v: Confirmation.Verifier, a: Record, op: Op)
    requires op.Recheck? && Outcome(v, op, a).Ok?
    ensures a.state == AWAITING_PROOF || a.state == VERIFYING
    ensures var b := Outcome(v, op, a).value;
            && KeepsParts(a, Stored(b)) && b.state == VERIFYING && b.claim == a.claim
  {
  }

  lemma ClaimIsStored(a: Record)
    requires IsValid(a) && (a.state == AWAITING_PROOF || a.state == VERIFYING)
    ensures a.claim.Some?
  {
    hide IsBound, HasValidAttempts, HasValidHistory, HasValidNames, HasValidSchedule, HasValidBudget, IsConfirmed;
  }

  function BeginOp(x: ConfirmInputs): Op {
    Confirm(x.token, x.confirmedAt, x.executingAt)
  }

  function ClaimOp(answer: Reply<ActionReceipt>, x: ConfirmInputs): Op {
    FirstClaim(answer, x.freshId, x.observedAt, x.verifyingAt)
  }

  /** The trace after one attempted save. */
  ghost predicate Ends(v: Confirmation.Verifier, tr: Trace, op: Op, saved: bool, after: Trace)
    requires IsShaped(tr)
  {
    if saved
    then Outcome(v, op, Current(tr)).Ok? && after == Appended(tr, op, Stored(Outcome(v, op, Current(tr)).value))
    else after == tr && Fails(v, Current(tr), op)
  }

  /** The parts of a record that the next steps of a call depend on. */
  predicate KeepsParts(a: Record, b: Record) {
    && b.target == a.target && b.providerMode == a.providerMode
    && b.attempts == a.attempts && b.recoveries == a.recoveries
  }

  lemma BeginningKeeps(v: Confirmation.Verifier, a: Record, op: Op)
    requires op.Confirm? && Outcome(v, op, a).Ok?
    ensures KeepsParts(a, Stored(Outcome(v, op, a).value)) && Outcome(v, op, a).value.state == EXECUTING
  {
    hide Confirmation.VerifyAttestation, CancelActionDigest;
  }

  lemma ClaimingKeeps(v: Confirmation.Verifier, a: Record, op: Op)
    requires op.FirstClaim? && Outcome(v, op, a).Ok?
    ensures KeepsParts(a, Stored(Outcome(v, op, a).value))
    ensures Outcome(v, op, a).value.state == VERIFYING && Outcome(v, op, a).value.claim.Some?
  {
    hide Lifecycle.ReceiptFor;
  }

  predicate IsFreshAttempt(r: Record, attemptId: string, supply: Lifecycle.Supply) {
    && !IsBlank(attemptId)
    && (forall i :: 0 <= i < |r.attempts| ==> r.attempts[i].attemptId != attemptId)
    && IsFreshRecoveryId(r, supply.recoveryId)
  }

  lemma BuiltFromRow(v: Confirmation.Verifier, tr: Trace, op: Op)
    requires IsTrace(v, tr) && Outcome(v, op, Current(tr)).Ok?
    ensures Current(tr).ownerId == Outcome(v, op, Current(tr)).value.ownerId
    ensures Current(tr).resolutionId == Outcome(v, op, Current(tr)).value.resolutionId
    ensures IsShaped(tr)
  {
    hide IsTrace, IsValid, Lifecycle.RecordVerification, Lifecycle.RecheckRefusal, Confirmation.VerifyAttestation;
    hide Lifecycle.ReceiptFor, Lifecycle.EvidenceFor;
    if IsMetadata(op) {
      hide Outcome;
      MetadataFrame(v, Current(tr), op);
    } else if op.RecordCheck? {
      hide Outcome;
      RecordCheckFrame(v, Current(tr), op);
    }
  }

  lemma EncodedOwner(r: Record)
    ensures Codec.Encode(r).ownerId == r.ownerId
  {
  }
  /** Row by row, what the saves of a call have left. */
  lemma RanRow(v: Confirmation.Verifier, tr: Trace, ops: seq<Op>, n: nat, after: Trace, i: nat)
    requires IsTrace(v, tr) && IsTrace(v, after) && HasRun(tr, ops, n, after) && i <= n
    ensures IsShaped(tr) && IsShaped(after) && |after.rows| == |tr.rows| + n
    ensures i == 0 ==> after.rows[|tr.ops|] == Current(tr)
    ensures i > 0 ==> Outcome(v, ops[i - 1], after.rows[|tr.ops| + i - 1]).Ok?
    ensures i > 0 ==>
              after.rows[|tr.ops| + i] == Stored(Outcome(v, ops[i - 1], after.rows[|tr.ops| + i - 1]).value)
    ensures IsValid(after.rows[|tr.ops| + i]) && IsSound(after.rows[|tr.ops| + i])
    ensures after.rows[|tr.ops| + i].ownerId == Current(tr).ownerId
  {
    hide IsValid, IsSound, Outcome, IsNewRecord, FollowsClaim, HasFreshIds, IsWritten, Accepts;
    TraceRowsAreValid(v, after, |tr.ops|);
    assert after.rows[|tr.rows| - 1] == Current(tr);
    if i > 0 {
      assert IsStep(v, after, |tr.ops| + i - 1);
      assert after.ops[|tr.ops| + i - 1] == ops[i - 1];
    }
    TraceRowsAreValid(v, after, |tr.ops| + i);
    TraceRowsAreSound(v, after, |tr.ops| + i);
  }

  // ----- when whole calls succeed

  lemma FailsUnlessStored(v: Confirmation.Verifier, tr: Trace, op: Op)
    requires IsTrace(v, tr) && HasFreshIds(op, Current(tr)) && IsWritten(op, Current(tr))
    ensures IsValid(Current(tr)) && IsSound(Current(tr))
    ensures Fails(v, Current(tr), op) <==> !IsStoredOver(v, Current(tr), op)
  {
    hide IsTrace, IsValid, IsSound, Outcome, HasFreshIds, IsWritten, IsTimely, Accepts;
    var a := Current(tr);
    TraceRowsAreValid(v, tr, |tr.rows| - 1);
    TraceRowsAreSound(v, tr, |tr.rows| - 1);
    StoredIfAccepted(v, a, op);
    if Outcome(v, op, a).Ok? {
      SavesFailOnlyForClocksAndIdentifiers(v, a, op);
    }
  }

  /** A recheck succeeds exactly if the check may be made, in time, and its charge can be identified. */
  predicate MayRecheck(r: Record, x: RecheckInputs) {
    && MayBeRechecked(r, x.now, x.scheduledFor, x.force)
    && r.history != [] && Last(r.history).at <= x.now
    && IsTraceable(r.violations, x.now)
  }

  lemma RechecksSucceedExactly(v: Confirmation.Verifier, tr: Trace, provider: Provider, x: RecheckInputs, n: nat,
                               after: Trace)
    requires IsTrace(v, tr) && IsTrace(v, after) && HasRun(tr, RecheckOps(Current(tr), provider, x), n, after)
    requires IsFreshAttempt(Current(tr), x.attemptId, x.supply)
    requires n < 2 ==> Fails(v, Current(after), RecheckOps(Current(tr), provider, x)[n])
    ensures n == 2 <==> MayRecheck(Current(tr), x)
  {
    hide IsTrace, IsValid, IsSound, Outcome, Fails, IsBlank, MayBeRechecked, IsTraceable, IsStoredOver;
    var a, ops := Current(tr), RecheckOps(Current(tr), provider, x);
    RanRow(v, tr, ops, n, after, 0);
    FailsUnlessStored(v, tr, ops[0]);
    RechecksAreStoredExactly(v, a, ops[0]);
    if n == 0 {
      assert Current(after) == a;
    } else {
      RanRow(v, tr, ops, n, after, 1);
      var b := after.rows[|tr.ops| + 1];
      RanStep(v, tr, ops, n, after, 0);
      RechecksLeaveExactly(v, a, ops[0], b);
      ChecksAreStoredExactly(v, b, ops[1]);
      if n == 1 {
        FailsUnlessStored(v, after, ops[1]);
      } else {
        RanStep(v, tr, ops, n, after, 1);
      }
    }
  }

  lemma RanStep(v: Confirmation.Verifier, tr: Trace, ops: seq<Op>, n: nat, after: Trace, i: nat)
    requires IsTrace(v, tr) && IsTrace(v, after) && HasRun(tr, ops, n, after) && i < n
    ensures |after.rows| == |tr.rows| + n
    ensures Advances(v, after.rows[|tr.ops| + i], ops[i], after.rows[|tr.ops| + i + 1])
    ensures IsStoredOver(v, after.rows[|tr.ops| + i], ops[i])
  {
    hide Advances, IsNewRecord, FollowsClaim;
    assert IsStep(v, after, |tr.ops| + i);
    assert after.ops[|tr.ops| + i] == ops[i];
  }

  /** A confirmation succeeds exactly for a token that confirms it, on a clock that goes forward, with an identified charge. */
  predicate MayConfirm(v: Confirmation.Verifier, r: Record, x: ConfirmInputs) {
    && r.state == AWAITING_CONFIRMATION
    && r.history != []
    && Last(r.history).at <= x.confirmedAt <= x.executingAt <= x.observedAt <= x.verifyingAt <= x.checkedAt
    && Confirms(v, x.token, r.ownerId, r.resolutionId, CancelSubscription,
                CancelDigest(r.ownerId, r.resolutionId, r.intent, r.providerMode, r.target.digest), x.confirmedAt)
    && IsKept(v.decode(x.token).value, x.confirmedAt)
    && IsTraceable(r.violations, x.checkedAt)
  }

  lemma ConfirmationsSucceedExactly(v: Confirmation.Verifier, tr: Trace, provider: Provider, x: ConfirmInputs, n: nat,
                                    after: Trace)
    requires IsTrace(v, tr) && IsTrace(v, after) && HasRun(tr, ConfirmOps(Current(tr), provider, x), n, after)
    requires !IsBlank(x.freshId) && IsFreshAttempt(Current(tr), x.attemptId, x.supply)
    requires n < 3 ==> Fails(v, Current(after), ConfirmOps(Current(tr), provider, x)[n])
    ensures n == 3 <==> MayConfirm(v, Current(tr), x)
  {
    hide IsTrace, IsValid, IsSound, Outcome, Fails, IsBlank, Confirms, IsKept, IsTraceable, IsStoredOver, KeptOf;
    var a, ops := Current(tr), ConfirmOps(Current(tr), provider, x);
    RanRow(v, tr, ops, n, after, 0);
    FailsUnlessStored(v, tr, ops[0]);
    ConfirmationsAreStoredExactly(v, a, ops[0]);
    if n == 0 {
      assert Current(after) == a;
    } else {
      RanRow(v, tr, ops, n, after, 1);
      var b := after.rows[|tr.ops| + 1];
      RanStep(v, tr, ops, n, after, 0);
      ConfirmationsLeaveExactly(v, a, ops[0], b);
      ExecutionsSucceedExactly(v, a, b, ops, n, after, |tr.ops| + 1, x);
    }
  }

  lemma ExecutionsSucceedExactly(v: Confirmation.Verifier, a: Record, b: Record, ops: seq<Op>, n: nat, after: Trace, i: nat,
                                 x: ConfirmInputs)
    requires IsTrace(v, after) && 1 <= n <= 3 == |ops|
    requires |after.rows| == i + n && after.rows[i] == b && after.ops[i..] == ops[1..n]
    requires ops[1].FirstClaim? && ops[1].freshId == x.freshId && !IsBlank(x.freshId)
    requires ops[1].observedAt == x.observedAt && ops[1].at == x.verifyingAt
    requires ops[2].RecordCheck? && ops[2].attemptId == x.attemptId && ops[2].at == x.checkedAt && ops[2].supply == x.supply
    requires b.state == EXECUTING && b.history != [] && Last(b.history).at == x.executingAt
    requires b.violations == a.violations && b.attempts == a.attempts && b.recoveries == a.recoveries
    requires IsFreshAttempt(a, x.attemptId, x.supply)
    requires n < 3 ==> Fails(v, Current(after), ops[n])
    ensures n == 3 <==>
              && x.executingAt <= x.observedAt <= x.verifyingAt <= x.checkedAt
              && IsTraceable(a.violations, x.checkedAt)
  {
    hide IsTrace, IsValid, IsSound, Outcome, Fails, IsBlank, IsTraceable, IsStoredOver, FollowsClaim, Advances;
    TraceRowsAreValid(v, after, i);
    TraceRowsAreSound(v, after, i);
    AnswersAreStoredExactly(v, b, ops[1]);
    if n == 1 {
      FailsUnlessStored(v, after, ops[1]);
    } else {
      StepIsStored(v, after, i);
      assert after.ops[i] == ops[1];
      AnswersLeaveExactly(v, b, ops[1], after.rows[i + 1]);
      TraceRowsAreValid(v, after, i + 1);
      TraceRowsAreSound(v, after, i + 1);
      ChecksAreStoredExactly(v, after.rows[i + 1], ops[2]);
      if n == 2 {
        FailsUnlessStored(v, after, ops[2]);
      } else {
        StepIsStored(v, after, i + 1);
        assert after.ops[i + 1] == ops[2];
      }
    }
  }

  lemma StepIsStored(v: Confirmation.Verifier, tr: Trace, i: nat)
    requires IsTrace(v, tr) && i < |tr.ops|
    ensures Advances(v, tr.rows[i], tr.ops[i], tr.rows[i + 1]) && IsStoredOver(v, tr.rows[i], tr.ops[i])
  {
    hide Advances, IsNewRecord, FollowsClaim;
    assert IsStep(v, tr, i);
  }
}
