/** The validator as it runs: loops that remember what came before (repository_contract.py). */
module Validator {
  import opened Wrappers
  import opened Models
  import opened Confirmation
  import opened Records
  import opened Lifecycle
  import opened Contract

  method ValidateBinding(r: Record) returns (ok: bool)
    ensures ok == IsBound(r)
  {
    if r.target != DemoResourceIdentity(r.ownerId) {
      return false;
    }
    if r.contract.Some? && (r.contract.value.targetDigest != r.target.digest
                            || r.contract.value.resolutionType != r.resolutionType) {
      return false;
    }
    for i := 0 to |r.attention|
      invariant forall j :: 0 <= j < i ==> IsBoundEvent(r, r.attention[j])
    {
      if !IsBoundEvent(r, r.attention[i]) {
        return false;
      }
    }
    for i := 0 to |r.recoveries|
      invariant forall j :: 0 <= j < i ==> IsBoundRecovery(r, r.recoveries[j])
    {
      if !IsBoundRecovery(r, r.recoveries[i]) {
        return false;
      }
    }
    for i := 0 to |r.violations|
      invariant forall j :: 0 <= j < i ==> IsBoundViolation(r, r.violations[j])
    {
      if !IsBoundViolation(r, r.violations[i]) {
        return false;
      }
    }
    return true;
  }

  /** Compares each attempt with its predecessor and with the identifiers seen so far. */
  method ValidateAttempts(attempts: seq<Attempt>, checkCount: int) returns (ok: bool)
    ensures ok == HasValidAttempts(attempts, checkCount)
  {
    var priorCount := 0;
    var priorCheckedAt: Option<int> := None;
    var seen: set<string> := {};
    for i := 0 to |attempts|
      invariant HasValidAttempts(attempts[..i], checkCount)
      invariant priorCount == if i == 0 then 0 else attempts[i - 1].checkCount
      invariant priorCheckedAt == if i == 0 then None else Some(attempts[i - 1].checkedAt)
      invariant seen == set j | 0 <= j < i :: attempts[j].attemptId
    {
      var a := attempts[i];
      if
        || a.attemptId == ""
        || a.attemptId in seen
        || !(priorCount < a.checkCount <= checkCount)
        || (priorCheckedAt.Some? && a.checkedAt < priorCheckedAt.value)
      {
        assert !HasValidAttempts(attempts, checkCount) by {
          if a.attemptId in seen {
            var j :| 0 <= j < i && attempts[j].attemptId == a.attemptId;
          }
        }
        return false;
      }
      assert attempts[..i + 1] == attempts[..i] + [a];
      assert i > 0 ==> attempts[..i][i - 1] == attempts[i - 1];
      seen := seen + {a.attemptId};
      priorCount := a.checkCount;
      priorCheckedAt := Some(a.checkedAt);
    }
    assert attempts[..|attempts|] == attempts;
    return true;
  }

  method ValidateHistory(r: Record) returns (ok: bool)
    ensures ok == HasValidHistory(r)
  {
    var h := r.history;
    if h == [] || Last(h).state != r.state || h[0].state != REQUESTED
       || h[0].contractVersion != Some(ConfirmationV1) {
      return false;
    }
    for i := 1 to |h|
      invariant forall j :: 1 <= j < i ==> h[j].contractVersion.None?
    {
      if h[i].contractVersion.Some? {
        return false;
      }
    }
    for i := 1 to |h|
      invariant forall j :: 1 <= j < i ==> CanMove(h[j - 1].state, h[j].state) && h[j - 1].at <= h[j].at
    {
      if h[i - 1].state !in AllowedPreviousStates(h[i].state) || h[i - 1].at > h[i].at {
        return false;
      }
    }
    return r.createdAt <= h[0].at <= Last(h).at <= r.updatedAt;
  }

  /** The dictionary of entry times: a later entry into a state replaces an earlier one. */
  method TransitionTimes(h: seq<Transition>) returns (times: map<State, int>)
    ensures forall s :: s in times <==> LastEntry(h, s).Some?
    ensures forall s :: s in times ==> LastEntry(h, s) == Some(times[s])
  {
    times := map[];
    for i := 0 to |h|
      invariant forall s :: s in times <==> LastEntry(h[..i], s).Some?
      invariant forall s :: s in times ==> LastEntry(h[..i], s) == Some(times[s])
    {
      assert h[..i + 1] == h[..i] + [h[i]];
      HistoryPlusOne(h[..i], h[i]);
      times := times[h[i].state := h[i].at];
    }
    assert h[..|h|] == h;
  }

  method AttestedTransitions(h: seq<Transition>) returns (found: seq<Transition>)
    ensures found == Attested(h)
  {
    found := [];
    for i := 0 to |h|
      invariant found == Attested(h[..i])
    {
      assert h[..i + 1] == h[..i] + [h[i]];
      HistoryPlusOne(h[..i], h[i]);
      if h[i].attestation.Some? {
        found := found + [h[i]];
      }
    }
    assert h[..|h|] == h;
  }

  method ValidatePhase(r: Record) returns (ok: bool)
    requires r.history != []
    ensures ok == HasValidPhase(r)
  {
    var attested := AttestedTransitions(r.history);
    if r.state == AWAITING_CONFIRMATION {
      return attested == [] && r.confirmedAt.None? && HasNoClaim(r) && HasNoEvidence(r);
    }
    var times := TransitionTimes(r.history);
    if r.confirmedAt.None? || AWAITING_CONFIRMATION !in times || EXECUTING !in times
       || !(times[AWAITING_CONFIRMATION] <= r.confirmedAt.value <= times[EXECUTING]) {
      return false;
    }
    if |attested| != 1 || attested[0].state != EXECUTING || attested[0].attestation.None?
       || !IsValidAttestation(r, attested[0].attestation.value, r.confirmedAt.value) {
      return false;
    }
    if r.state == EXECUTING {
      return HasNoClaim(r) && HasNoEvidence(r);
    }
    if r.claim.None? || r.claimObservedAt.None? || VERIFYING !in times
       || !(times[EXECUTING] <= r.claimObservedAt.value <= times[VERIFYING]) {
      return false;
    }
    if r.state == VERIFYING {
      return HasNoEvidence(r);
    }
    if r.state == REQUESTED || r.evidence.None? || r.evidenceObservedAt.None? || r.verification.None?
       || r.verifiedAt.None? {
      return false;
    }
    if !(times[VERIFYING] <= r.evidenceObservedAt.value <= r.verifiedAt.value <= Last(r.history).at) {
      return false;
    }
    return
      && r.state == TerminalStateFor(r.verification.value.verdict)
      && r.verification.value.consumer == ConsumerStateFor(r.verification.value.verdict)
      && r.claim.value == r.verification.value.receipt
      && r.evidence.value == r.verification.value.evidence
      && r.verification.value == Recomputed(r);
  }

  /** validate_target_record: true exactly for the valid records. */
  method ValidateTargetRecord(r: Record) returns (ok: bool)
    ensures ok == IsValid(r)
  {
    var bound := ValidateBinding(r);
    if !bound || !HasValidBudget(r) || !HasValidSchedule(r) {
      return false;
    }
    var attempts := ValidateAttempts(r.attempts, r.checkCount);
    if !attempts || !HasValidNames(r) {
      return false;
    }
    var history := ValidateHistory(r);
    if !history {
      return false;
    }
    ok := ValidatePhase(r);
  }
}
