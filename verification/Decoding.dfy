/** What the decoder lets through: for every stored row, whoever wrote it (repository_contract.py). */
module Decoding {
  import opened Wrappers
  import opened Models
  import opened Outcomes
  import opened Verifier
  import opened Records
  import opened Contract
  import opened Codec
  import opened Stores

  /** An attempt's row with the defaults of its optional fields filled in. */
  function FilledAttempt(row: AttemptRow): AttemptRow {
    row.(attemptId := Some(if row.attemptId.Some? then row.attemptId.value else ""),
         eligible := Some(row.eligible == Some(true)))
  }

  /**
    What every decoded attempt is: its number at least its position and within the budget, its verdict the one
    that the verifier gives on what the row holds, its charge among the stored ones, and, if it may end the
    window, the last check and a full interval after the attempt before it.
   */
  predicate IsGenuine(row: AttemptRow, i: nat, attempts: seq<Attempt>, c: AttemptContext)
    requires i < |attempts|
  {
    var a := attempts[i];
    && EncodeAttempt(a) == FilledAttempt(row)
    && i + 1 <= a.checkCount <= c.maxChecks
    && !IsBlank(a.result.receipt.requestId)
    && (a.violationId.Some? ==> exists w :: w in c.violations && Some(w.violationId) == a.violationId)
    && a.result == VerifyCancellation(
                     a.result.receipt, a.evidence, a.eligible && a.checkCount == c.maxChecks,
                     ViolationById(c.violations, a.violationId),
                     Expectation(a.result.receipt.targetDigest, row.attemptId, Some(c.owner), Some(c.resolution),
                                 if c.contract.Some? then c.contract.value.deadlineAt else None, Some(a.checkedAt)))
    && (a.eligible ==>
          && i >= 1 && a.checkCount == c.maxChecks
          && attempts[i - 1].checkedAt + 5 * MINUTE * attempts[i - 1].checkCount <= a.checkedAt)
  }

  lemma DecodedAttemptIsGenuine(before: seq<Attempt>, row: AttemptRow, c: AttemptContext)
    requires DecodeAttempt(before, row, c).Ok?
    ensures IsGenuine(row, |before|, before + [DecodeAttempt(before, row, c).value], c)
  {
    hide VerifyCancellation, IsBlank;
    var checkCount := row.checkCount.value;
    var eligible := row.eligible == Some(true);
    var result := Redecoded(c, row, checkCount, eligible);
    ResultRepeatsInputs(row.receipt, row.evidence, eligible && checkCount >= c.maxChecks,
                        ViolationById(c.violations, row.violationId), DecoderExpectation(c, row));
  }

  lemma ResultRepeatsInputs(r: ActionReceipt, e: Evidence, tf: bool, w: Option<OutcomeViolation>, x: Expectation)
    ensures VerifyCancellation(r, e, tf, w, x).receipt == r && VerifyCancellation(r, e, tf, w, x).evidence == e
  {
    ReasonsAreExact(r, e, tf, w, x);
  }

  lemma {:induction false} DecodedAttemptsAreGenuine(rows: seq<AttemptRow>, c: AttemptContext)
    requires DecodeAttempts(rows, c).Ok?
    ensures |DecodeAttempts(rows, c).value| == |rows|
    ensures forall i :: 0 <= i < |rows| ==> IsGenuine(rows[i], i, DecodeAttempts(rows, c).value, c)
  {
    hide DecodeAttempt, IsGenuine;
    if rows != [] {
      var front := rows[..|rows| - 1];
      var before := DecodeAttempts(front, c).value;
      DecodedAttemptsAreGenuine(front, c);
      var all := DecodeAttempts(rows, c).value;
      DecodedAttemptIsGenuine(before, rows[|rows| - 1], c);
      forall i | 0 <= i < |rows| ensures IsGenuine(rows[i], i, all, c) {
        if i < |front| {
          LongerIsGenuine(rows[i], i, before, all, c);
        }
      }
    }
  }

  lemma LongerIsGenuine(row: AttemptRow, i: nat, before: seq<Attempt>, all: seq<Attempt>, c: AttemptContext)
    requires i < |before| && before <= all && IsGenuine(row, i, before, c)
    ensures IsGenuine(row, i, all, c)
  {
    hide VerifyCancellation;
    assert all[i] == before[i] && (i >= 1 ==> all[i - 1] == before[i - 1]);
  }

  lemma {:induction false} DecodedHistoryIsTheRow(rows: seq<TransitionRow>)
    requires DecodeHistory(rows).Ok?
    ensures EncodeHistory(DecodeHistory(rows).value) == rows
  {
    hide StateName, StateNamed, HasReadableAttestation;
    if rows != [] {
      var front, last := rows[..|rows| - 1], rows[|rows| - 1];
      DecodedHistoryIsTheRow(front);
      StateNamesAreExact(last.state, StateNamed(last.state).value);
      assert rows == front + [last];
    }
  }

  /** A row with the defaults of its optional fields filled in. */
  function Filled(row: Row): Row {
    row.(checkCount := Some(if row.checkCount.Some? then row.checkCount.value else 0),
         maxChecks := Some(if row.maxChecks.Some? then row.maxChecks.value else 4),
         attempts := seq(|row.attempts|, i requires 0 <= i < |row.attempts| => FilledAttempt(row.attempts[i])))
  }

  /**
    Whatever the store holds, a record that comes out of it is valid, is exactly what the row says, and every
    attempt in it is genuine: a row with a verdict that its evidence does not give is never read.
   */
  lemma DecodedRecordsAreGenuine(row: Row)
    requires Decode(row).Ok?
    ensures var r := Decode(row).value;
            && IsValid(r)
            && Encode(r) == Filled(row)
            && |r.attempts| == |row.attempts|
            && forall i :: 0 <= i < |r.attempts| ==>
                 IsGenuine(row.attempts[i], i, r.attempts,
                           AttemptContext(r.maxChecks, r.violations, r.contract, r.ownerId, r.resolutionId))
  {
    hide IsValid, DecodeAttempts, DecodeHistory, IsGenuine, StateName, StateNamed, HasReadableFields, IsReadableViolation;
    var r := Decode(row).value;
    var c := AttemptContext(r.maxChecks, r.violations, r.contract, r.ownerId, r.resolutionId);
    DecodedAttemptsAreGenuine(row.attempts, c);
    DecodedHistoryIsTheRow(row.history);
    StateNamesAreExact(row.state, r.state);
    DecodedVerificationIsTheRow(row);
    EncodedAttemptsAreFilled(row.attempts, r.attempts, c);
  }

  lemma EncodedAttemptsAreFilled(rows: seq<AttemptRow>, attempts: seq<Attempt>, c: AttemptContext)
    requires |attempts| == |rows| && forall i :: 0 <= i < |rows| ==> IsGenuine(rows[i], i, attempts, c)
    ensures EncodeAttempts(attempts) == seq(|rows|, i requires 0 <= i < |rows| => FilledAttempt(rows[i]))
  {
    hide VerifyCancellation;
    forall i | 0 <= i < |rows| ensures EncodeAttempts(attempts)[i] == FilledAttempt(rows[i]) {
      assert IsGenuine(rows[i], i, attempts, c);
    }
  }

  lemma DecodedVerificationIsTheRow(row: Row)
    requires DecodeVerification(row.verification, row.claim, row.evidence).Ok?
    ensures var v := DecodeVerification(row.verification, row.claim, row.evidence).value;
            (if v.Some? then Some(EncodeVerification(v.value)) else None) == row.verification
  {
  }
}
