/** Exactly which stored records the decoder reads back, and that it never reads back anything else. */
module RoundTrip {
  import opened Wrappers
  import opened Models
  import opened Outcomes
  import opened Verifier
  import Confirmation
  import opened Records
  import opened Lifecycle
  import opened Contract
  import opened Traces
  import opened Counting
  import opened Scheduling
  import opened Attempts
  import opened Recoveries
  import opened Attention
  import opened Invariants
  import opened Saving
  import opened Rederivation
  import opened Codec

  // ----- where the decoder's expectation leads to another verdict

  /** The receipt names the record's own target. */
  predicate NamesTarget(r: Record) {
    r.claim.Some? && r.claim.value.targetDigest == Some(r.target.digest)
  }

  /** The read-back is about the very resource that the receipt names, and about this attempt. */
  predicate MatchesReceipt(claim: ActionReceipt, a: Attempt) {
    claim.targetDigest.Some? ==>
      a.evidence.targetDigest == claim.targetDigest && a.evidence.attemptId == Some(a.attemptId)
  }

  /**
    The attempt is judged alike whether the record's target or the receipt's is expected. That fails for a
    recent charge, and for fresh evidence under an accepted receipt, when receipt and evidence agree with
    each other but not with the record.
   */
  predicate IsJudgedAlike(r: Record, a: Attempt) {
    r.claim.Some? ==>
      || NamesTarget(r)
      || match ViolationById(r.violations, a.violationId)
         case Some(w) => !IsRecentCharge(w, a.checkedAt)
         case None => !(IsFreshEvidence(a.evidence) && IsAcceptedReceipt(r.claim.value)
                        && MatchesReceipt(r.claim.value, a))
  }

  /** Something a caller can check before saving: the receipt names the target, or no attempt depends on it. */
  predicate IsReadableBack(r: Record) {
    forall i :: 0 <= i < |r.attempts| ==> IsJudgedAlike(r, r.attempts[i])
  }

  lemma RedecodingAgrees(r: Record, a: Attempt)
    requires IsBound(r) && HasTrackedViolations(r) && IsRederivable(r, a)
    requires a.result.receipt == r.claim.value && a.result.evidence == a.evidence
    ensures Redecoded(ContextOf(r), EncodeAttempt(a), a.checkCount, a.eligible) == a.result <==> IsJudgedAlike(r, a)
    ensures var s := Redecoded(ContextOf(r), EncodeAttempt(a), a.checkCount, a.eligible);
            s != a.result ==> s.reason != a.result.reason
  {
    hide IsValidEvidence, RecoveryActionDigest, DemoResourceIdentity, IsBoundRecovery, VerdictName, ConsumerName;
    hide IsValidReceipt;
    var w := ViolationById(r.violations, a.violationId);
    if w.Some? {
      ViolationIsCorrelated(r, w.value, a.attemptId, a.checkedAt);
    }
  }

  // ----- one attempt

  lemma {:induction false} CountsOutgrowIndices(attempts: seq<Attempt>, checkCount: int, i: nat)
    requires HasValidAttempts(attempts, checkCount) && i < |attempts|
    ensures i + 1 <= attempts[i].checkCount
  {
    if i > 0 {
      CountsOutgrowIndices(attempts, checkCount, i - 1);
    }
  }

  predicate IsDecodable(r: Record) {
    && IsBound(r) && HasTrackedViolations(r) && HasRederivableAttempts(r)
    && HasValidAttempts(r.attempts, r.checkCount) && r.checkCount <= r.maxChecks
    && (forall i :: 0 <= i < |r.attempts| ==> EndsWindow(r, i))
    && (r.attempts != [] ==> r.claim.Some? && !IsBlank(r.claim.value.requestId))
    && (forall i :: 0 <= i < |r.attempts| ==>
          && r.attempts[i].result.receipt == r.claim.value && r.attempts[i].result.evidence == r.attempts[i].evidence)
  }

  lemma OneAttemptDecodes(r: Record, i: nat)
    requires IsDecodable(r) && i < |r.attempts|
    ensures var d := DecodeAttempt(r.attempts[..i], EncodeAttempt(r.attempts[i]), ContextOf(r));
            if IsJudgedAlike(r, r.attempts[i]) then d == Ok(r.attempts[i]) else d.Err?
  {
    hide IsBound, HasTrackedViolations, Redecoded, IsBlank, IsJudgedAlike, VerdictName, ConsumerName;
    var a := r.attempts[i];
    assert IsRederivable(r, a) && EndsWindow(r, i);
    CountsOutgrowIndices(r.attempts, r.checkCount, i);
    RedecodingAgrees(r, a);
  }

  lemma {:induction false} AttemptsDecodeUpTo(r: Record, n: nat)
    requires IsDecodable(r) && n <= |r.attempts|
    ensures var d := DecodeAttempts(EncodeAttempts(r.attempts)[..n], ContextOf(r));
            if forall i :: 0 <= i < n ==> IsJudgedAlike(r, r.attempts[i]) then d == Ok(r.attempts[..n]) else d.Err?
  {
    hide IsDecodable, DecodeAttempt, IsJudgedAlike;
    var rows := EncodeAttempts(r.attempts);
    if n > 0 {
      AttemptsDecodeUpTo(r, n - 1);
      OneAttemptDecodes(r, n - 1);
      assert rows[..n][..n - 1] == rows[..n - 1];
      assert r.attempts[..n] == r.attempts[..n - 1] + [r.attempts[n - 1]];
    }
  }

  lemma AttemptsDecode(r: Record)
    requires IsDecodable(r)
    ensures var d := DecodeAttempts(EncodeAttempts(r.attempts), ContextOf(r));
            if IsReadableBack(r) then d == Ok(r.attempts) else d.Err?
  {
    hide IsDecodable, DecodeAttempts, IsJudgedAlike;
    var n := |r.attempts|;
    AttemptsDecodeUpTo(r, n);
    assert EncodeAttempts(r.attempts)[..n] == EncodeAttempts(r.attempts);
    assert r.attempts[..n] == r.attempts;
  }

  // ----- the history and the verification

  lemma {:induction false} HistoryDecodesUpTo(h: seq<Transition>, n: nat)
    requires n <= |h|
    requires forall i :: 0 <= i < |h| ==> HasReadableAttestation(EncodeTransition(h[i]))
    ensures DecodeHistory(EncodeHistory(h)[..n]) == Ok(h[..n])
  {
    hide HasReadableAttestation, StateName, StateNamed;
    var rows := EncodeHistory(h);
    if n > 0 {
      HistoryDecodesUpTo(h, n - 1);
      StateNamesAreRead(h[n - 1].state);
      assert rows[..n][..n - 1] == rows[..n - 1];
      assert rows[n - 1] == EncodeTransition(h[n - 1]);
      assert h[..n] == h[..n - 1] + [h[n - 1]];
    }
  }

  lemma HistoryDecodes(h: seq<Transition>)
    requires forall i :: 0 <= i < |h| ==> HasReadableAttestation(EncodeTransition(h[i]))
    ensures DecodeHistory(EncodeHistory(h)) == Ok(h)
  {
    hide HasReadableAttestation, DecodeHistory;
    HistoryDecodesUpTo(h, |h|);
    assert EncodeHistory(h)[..|h|] == EncodeHistory(h);
    assert h[..|h|] == h;
  }

  lemma VerificationDecodes(r: Record)
    requires r.verification.Some? ==>
               && r.claim == Some(r.verification.value.receipt)
               && r.evidence == Some(r.verification.value.evidence)
    ensures DecodeVerification(Encode(r).verification, Encode(r).claim, Encode(r).evidence) == Ok(r.verification)
  {
    hide EncodeHistory, EncodeAttempts, StateName, VerdictName, VerdictNamed, ConsumerName, ConsumerNamed;
    if r.verification.Some? {
      VerdictNamesAreRead(r.verification.value.verdict);
      ConsumerNamesAreRead(r.verification.value.consumer);
    }
  }

  /** The attested transitions are all in the list of attested ones. */
  lemma {:induction false} AttestedHoldsThemAll(h: seq<Transition>, i: nat)
    requires i < |h| && h[i].attestation.Some?
    ensures h[i] in Attested(h)
    decreases |h|
  {
    if i < |h| - 1 {
      AttestedHoldsThemAll(h[..|h| - 1], i);
    }
  }

  lemma AttestationsAreReadable(r: Record)
    requires HasValidPhase(r)
    ensures forall i :: 0 <= i < |r.history| ==> HasReadableAttestation(EncodeTransition(r.history[i]))
  {
    hide Attested, LastEntry, IsVerified, HasExecuted, Confirmation.InExactWindow, IsBlank, StateName, CancelActionDigest;
    forall i | 0 <= i < |r.history|
      ensures HasReadableAttestation(EncodeTransition(r.history[i]))
    {
      if r.history[i].attestation.Some? {
        AttestedHoldsThemAll(r.history, i);
      }
    }
  }

  lemma VerificationIsComplete(r: Record)
    requires HasValidPhase(r)
    ensures r.verification.Some? ==>
              && r.claim == Some(r.verification.value.receipt)
              && r.evidence == Some(r.verification.value.evidence)
  {
    hide Attested, LastEntry, IsConfirmed, HasExecuted, Recomputed;
  }

  // ----- the record

  lemma SoundRecordsAreDecodable(r: Record)
    requires IsValid(r) && IsSound(r) && HasRederivableAttempts(r)
    ensures IsDecodable(r)
  {
    hide IsBound, HasTrackedViolations, HasRederivableAttempts, HasValidAttempts, HasValidPhase, HasValidHistory;
    hide IsCounted, IsScheduled, HasOrderlyRecoveries, HasDistinctAttention, IsBlank, VerifyCancellation, IsValidEvidence;
    if r.attempts != [] {
      assert IsJudgedSoundly(r, r.attempts[0]);
    }
    forall i | 0 <= i < |r.attempts|
      ensures r.attempts[i].result.receipt == r.claim.value && r.attempts[i].result.evidence == r.attempts[i].evidence
    {
      assert IsJudgedSoundly(r, r.attempts[i]);
      JudgedResultsKeepTheirInputs(r, r.attempts[i]);
    }
  }

  lemma JudgedResultsKeepTheirInputs(r: Record, a: Attempt)
    requires IsJudgedSoundly(r, a)
    ensures a.result.receipt == r.claim.value && a.result.evidence == a.evidence
  {
    hide VerifyCancellation, IsValidEvidence;
    var deadline := ExpectationOf(r, a.attemptId, a.checkedAt);
    if a.violationId.Some? {
      var w :| w in r.violations && IsJudgedBy(r, a, w);
      VerdictShape(r.claim.value, a.evidence, a.eligible && a.checkCount >= r.maxChecks, Some(w), deadline);
    } else {
      VerdictShape(r.claim.value, a.evidence, a.eligible && a.checkCount >= r.maxChecks, None, deadline);
    }
  }

  lemma FieldsAreReadable(r: Record)
    requires HasValidNames(r) && HasSoundAttempts(r) && HasTrackedViolations(r)
    ensures HasReadableFields(Encode(r))
    ensures forall i :: 0 <= i < |r.violations| ==> IsReadableViolation(r.violations[i])
  {
    hide IsBlank, IsJudgedSoundly, EndsWindow, StateName, EncodeHistory, EncodeAttempts, EncodeVerification;
    assert forall i :: 0 <= i < |r.violations| ==> IsTrackedViolation(r.contract.value, r.violations[i]);
  }

  /**
    Decoding an encoded record returns that same record if every attempt is judged alike by the decoder
    and by the service, and fails otherwise.
   */
  lemma DecodingInvertsEncodingExactly(r: Record)
    requires IsValid(r) && IsSound(r) && HasRederivableAttempts(r)
    ensures if IsReadableBack(r) then Decode(Encode(r)) == Ok(r) else Decode(Encode(r)).Err?
  {
    hide IsValid, IsSound, HasRederivableAttempts, IsDecodable, IsReadableBack, StateName, StateNamed;
    hide DecodeHistory, DecodeAttempts, DecodeVerification, HasReadableFields, IsReadableViolation;
    hide EncodeHistory, EncodeAttempts, EncodeVerification;
    SoundRecordsAreDecodable(r);
    ClausesOf(r);
    FieldsAreReadable(r);
    AttestationsAreReadable(r);
    VerificationIsComplete(r);
    VerificationDecodes(r);
    HistoryDecodes(r.history);
    StateNamesAreRead(r.state);
    AttemptsDecode(r);
  }

  lemma ClausesOf(r: Record)
    requires IsValid(r) && IsSound(r)
    ensures HasValidPhase(r) && HasValidNames(r) && HasSoundAttempts(r) && HasTrackedViolations(r)
  {
    hide HasValidPhase, HasValidNames, HasSoundAttempts, HasTrackedViolations;
  }

  /** Every row of a trace is read back unchanged, or not at all; it is read back if its receipt names the target. */
  lemma StoredRowsAreReadBack(v: Confirmation.Verifier, tr: Trace, i: nat)
    requires IsTrace(v, tr) && i < |tr.rows|
    ensures if IsReadableBack(tr.rows[i]) then Decode(Encode(tr.rows[i])) == Ok(tr.rows[i])
            else Decode(Encode(tr.rows[i])).Err?
    ensures NamesTarget(tr.rows[i]) || tr.rows[i].claim.None? ==> IsReadableBack(tr.rows[i])
  {
    hide IsTrace, IsValid, IsSound, HasRederivableAttempts, Decode, Encode;
    TraceRowsAreValid(v, tr, i);
    TraceRowsAreSound(v, tr, i);
    TraceRowsAreRederivable(v, tr, i);
    DecodingInvertsEncodingExactly(tr.rows[i]);
  }
}
