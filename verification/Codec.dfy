/** The persisted form of a record, and reading it back (repository_contract.py). */
module Codec {
  import opened Wrappers
  import opened Models
  import opened Outcomes
  import opened Verifier
  import opened Confirmation
  import opened Records
  import opened Contract

  // ----- names of enumeration members

  function StateName(s: State): string {
    match s
    case REQUESTED => "REQUESTED"
    case AWAITING_CONFIRMATION => "AWAITING_CONFIRMATION"
    case EXECUTING => "EXECUTING"
    case VERIFYING => "VERIFYING"
    case VERIFIED => "VERIFIED"
    case NOT_COMPLETED => "NOT_COMPLETED"
    case AWAITING_PROOF => "AWAITING_PROOF"
  }

  function StateNamed(name: string): Option<State> {
    if name == "REQUESTED" then Some(REQUESTED)
    else if name == "AWAITING_CONFIRMATION" then Some(AWAITING_CONFIRMATION)
    else if name == "EXECUTING" then Some(EXECUTING)
    else if name == "VERIFYING" then Some(VERIFYING)
    else if name == "VERIFIED" then Some(VERIFIED)
    else if name == "NOT_COMPLETED" then Some(NOT_COMPLETED)
    else if name == "AWAITING_PROOF" then Some(AWAITING_PROOF)
    else None
  }

  lemma StateNamesAreRead(s: State)
    ensures StateNamed(StateName(s)) == Some(s)
  {
  }

  function VerdictName(v: Verdict): string {
    match v
    case PASS => "PASS"
    case FAIL => "FAIL"
    case INCONCLUSIVE => "INCONCLUSIVE"
  }

  function VerdictNamed(name: string): Option<Verdict> {
    if name == "PASS" then Some(PASS)
    else if name == "FAIL" then Some(FAIL)
    else if name == "INCONCLUSIVE" then Some(INCONCLUSIVE)
    else None
  }

  lemma VerdictNamesAreRead(v: Verdict)
    ensures VerdictNamed(VerdictName(v)) == Some(v)
  {
  }

  function ConsumerName(c: ConsumerState): string {
    match c
    case ShownVerified => "Verified"
    case ShownNotCompleted => "Not completed"
    case ShownAwaitingProof => "Awaiting proof"
  }

  function ConsumerNamed(name: string): Option<ConsumerState> {
    if name == "Verified" then Some(ShownVerified)
    else if name == "Not completed" then Some(ShownNotCompleted)
    else if name == "Awaiting proof" then Some(ShownAwaitingProof)
    else None
  }

  lemma ConsumerNamesAreRead(c: ConsumerState)
    ensures ConsumerNamed(ConsumerName(c)) == Some(c)
  {
  }

  // ----- the stored form

  datatype TransitionRow = TransitionRow(
    state: string, at: int, contractVersion: Option<ContractVersion>, attestation: Option<Attestation>)

  /** The receipt and the evidence of the current verification are stored beside it, not in it. */
  datatype VerificationRow = VerificationRow(verdict: string, consumer: string, reason: Reason)

  datatype AttemptRow = AttemptRow(
    checkedAt: int, attemptId: Option<string>, checkCount: Option<int>, eligible: Option<bool>,
    violationId: Option<string>, evidence: Evidence, verdict: string, consumer: string, reason: Reason,
    receipt: ActionReceipt)

  datatype Row = Row(
    resolutionId: string, ownerId: string, intent: string, providerMode: string, target: ResourceIdentity,
    state: string, createdAt: int, updatedAt: int, confirmedAt: Option<int>,
    claim: Option<ActionReceipt>, claimObservedAt: Option<int>,
    evidence: Option<Evidence>, evidenceObservedAt: Option<int>,
    verification: Option<VerificationRow>, verifiedAt: Option<int>,
    history: seq<TransitionRow>, version: int, resolutionType: ResolutionType,
    lastCheckedAt: Option<int>, nextCheckAt: Option<int>, checkCount: Option<int>, maxChecks: Option<int>,
    attempts: seq<AttemptRow>, resolvedAt: Option<int>, resolutionReason: Option<Reason>,
    contract: Option<OutcomeContract>, attention: seq<AttentionEvent>, recoveries: seq<RecoveryAction>,
    violations: seq<OutcomeViolation>)

  function EncodeTransition(t: Transition): TransitionRow {
    TransitionRow(StateName(t.state), t.at, t.contractVersion, t.attestation)
  }

  function EncodeHistory(h: seq<Transition>): (rows: seq<TransitionRow>)
    ensures |rows| == |h| && forall i :: 0 <= i < |h| ==> rows[i] == EncodeTransition(h[i])
  {
    seq(|h|, i requires 0 <= i < |h| => EncodeTransition(h[i]))
  }

  function EncodeVerification(v: VerificationResult): VerificationRow {
    VerificationRow(VerdictName(v.verdict), ConsumerName(v.consumer), v.reason)
  }

  function EncodeAttempt(a: Attempt): AttemptRow {
    AttemptRow(a.checkedAt, Some(a.attemptId), Some(a.checkCount), Some(a.eligible), a.violationId, a.evidence,
               VerdictName(a.result.verdict), ConsumerName(a.result.consumer), a.result.reason, a.result.receipt)
  }

  function EncodeAttempts(s: seq<Attempt>): (rows: seq<AttemptRow>)
    ensures |rows| == |s| && forall i :: 0 <= i < |s| ==> rows[i] == EncodeAttempt(s[i])
  {
    seq(|s|, i requires 0 <= i < |s| => EncodeAttempt(s[i]))
  }

  function Encode(r: Record): Row {
    Row(r.resolutionId, r.ownerId, r.intent, r.providerMode, r.target, StateName(r.state), r.createdAt, r.updatedAt,
        r.confirmedAt, r.claim, r.claimObservedAt, r.evidence, r.evidenceObservedAt,
        if r.verification.Some? then Some(EncodeVerification(r.verification.value)) else None, r.verifiedAt,
        EncodeHistory(r.history), r.version, r.resolutionType, r.lastCheckedAt, r.nextCheckAt,
        Some(r.checkCount), Some(r.maxChecks), EncodeAttempts(r.attempts), r.resolvedAt, r.resolutionReason,
        r.contract, r.attention, r.recoveries, r.violations)
  }

  // ----- reading

  datatype Unreadable =
    | BadHistory
    | BadAttestation
    | BadReceipt
    | BadVerification
    | BadAttemptCount
    | EarlyTerminalFailure
    | UnknownViolation
    | VerdictMismatch
    | BadViolation
    | BadState
    | BlankField
    | InvalidRecord

  predicate HasReadableAttestation(t: TransitionRow) {
    t.attestation.Some? ==>
      && (t.attestation.value.version.OtherVersion? ==> !IsBlank(t.attestation.value.version.text))
      && !IsBlank(t.attestation.value.issuer)
      && !IsBlank(t.attestation.value.attestationId)
  }

  function DecodeHistory(rows: seq<TransitionRow>): Result<seq<Transition>, Unreadable> {
    if rows == [] then Ok([])
    else
      match DecodeHistory(rows[..|rows| - 1])
      case Err(e) => Err(e)
      case Ok(before) =>
        var row := rows[|rows| - 1];
        if !HasReadableAttestation(row) then Err(BadAttestation)
        else
          match StateNamed(row.state)
          case None => Err(BadHistory)
          case Some(state) => Ok(before + [Transition(state, row.at, row.contractVersion, row.attestation)])
  }

  /** What a decoder knows about the row that an attempt belongs to. */
  datatype AttemptContext = AttemptContext(
    maxChecks: int, violations: seq<OutcomeViolation>, contract: Option<OutcomeContract>, owner: string,
    resolution: string)

  function ContextOf(r: Record): AttemptContext {
    AttemptContext(r.maxChecks, r.violations, r.contract, r.ownerId, r.resolutionId)
  }

  /** The decoder expects the target that the receipt names. */
  function DecoderExpectation(c: AttemptContext, row: AttemptRow): Expectation {
    Expectation(row.receipt.targetDigest, row.attemptId, Some(c.owner), Some(c.resolution),
                if c.contract.Some? then c.contract.value.deadlineAt else None, Some(row.checkedAt))
  }

  /** The verdict that the decoder re-derives; `checkCount` and `eligible` have their defaults filled in. */
  function Redecoded(c: AttemptContext, row: AttemptRow, checkCount: int, eligible: bool): VerificationResult {
    VerifyCancellation(row.receipt, row.evidence, eligible && checkCount >= c.maxChecks,
                       ViolationById(c.violations, row.violationId), DecoderExpectation(c, row))
  }

  predicate IsTooEarly(before: seq<Attempt>, c: AttemptContext, checkCount: int, checkedAt: int) {
    || checkCount < c.maxChecks
    || before == []
    || Last(before).checkedAt + CHECK_INTERVAL * Last(before).checkCount > checkedAt
  }

  function DecodeAttempt(before: seq<Attempt>, row: AttemptRow, c: AttemptContext): Result<Attempt, Unreadable> {
    var index := |before| + 1;
    var checkCount := if row.checkCount.Some? then row.checkCount.value else 0;
    var eligible := row.eligible == Some(true);
    if IsBlank(row.receipt.requestId) then Err(BadReceipt)
    else if row.checkCount.None? || checkCount < index || checkCount > c.maxChecks then Err(BadAttemptCount)
    else if eligible && IsTooEarly(before, c, checkCount, row.checkedAt) then Err(EarlyTerminalFailure)
    else if row.violationId.Some? && ViolationById(c.violations, row.violationId).None? then Err(UnknownViolation)
    else
      var result := Redecoded(c, row, checkCount, eligible);
      if VerdictName(result.verdict) != row.verdict || ConsumerName(result.consumer) != row.consumer
         || result.reason != row.reason
      then Err(VerdictMismatch)
      else
        Ok(Attempt(row.checkedAt, row.evidence, result, if row.attemptId.Some? then row.attemptId.value else "",
                   checkCount, eligible, row.violationId))
  }

  function DecodeAttempts(rows: seq<AttemptRow>, c: AttemptContext): Result<seq<Attempt>, Unreadable> {
    if rows == [] then Ok([])
    else
      match DecodeAttempts(rows[..|rows| - 1], c)
      case Err(e) => Err(e)
      case Ok(before) =>
        match DecodeAttempt(before, rows[|rows| - 1], c)
        case Err(e) => Err(e)
        case Ok(a) => Ok(before + [a])
  }

  function DecodeVerification(row: Option<VerificationRow>, claim: Option<ActionReceipt>, evidence: Option<Evidence>)
    : Result<Option<VerificationResult>, Unreadable>
  {
    if row.None? then Ok(None)
    else if claim.None? || evidence.None? then Err(BadVerification)
    else
      match (VerdictNamed(row.value.verdict), ConsumerNamed(row.value.consumer))
      case (Some(verdict), Some(consumer)) =>
        Ok(Some(VerificationResult(verdict, consumer, row.value.reason, claim.value, evidence.value)))
      case _ => Err(BadVerification)
  }

  predicate IsReadableViolation(w: OutcomeViolation) {
    && w.eventType == RenewalCharge && w.amountCents > 0
    && (w.currency.OtherCurrency? ==> |w.currency.code| == 3)
  }

  predicate HasReadableFields(row: Row) {
    && (row.claim.Some? ==> !IsBlank(row.claim.value.requestId))
    && !IsBlank(row.resolutionId) && !IsBlank(row.ownerId) && !IsBlank(row.intent) && !IsBlank(row.providerMode)
  }

  function Assemble(row: Row, state: State, history: seq<Transition>, verification: Option<VerificationResult>,
                    maxChecks: int, attempts: seq<Attempt>): Record
  {
    Record(row.resolutionId, row.ownerId, row.intent, row.providerMode, row.target, state, row.createdAt, row.updatedAt,
           row.confirmedAt, row.claim, row.claimObservedAt, row.evidence, row.evidenceObservedAt, verification,
           row.verifiedAt, history, row.version, row.resolutionType, row.lastCheckedAt, row.nextCheckAt,
           if row.checkCount.Some? then row.checkCount.value else 0, maxChecks, attempts, row.resolvedAt,
           row.resolutionReason, row.contract, row.attention, row.recoveries, row.violations)
  }

  /** record_from_mapping: the record, or the first reason why the row cannot be read. */
  function Decode(row: Row): Result<Record, Unreadable> {
    if !HasReadableFields(row) then Err(BlankField)
    else
      match DecodeVerification(row.verification, row.claim, row.evidence)
      case Err(e) => Err(e)
      case Ok(verification) =>
        match DecodeHistory(row.history)
        case Err(e) => Err(e)
        case Ok(history) =>
          if exists i :: 0 <= i < |row.violations| && !IsReadableViolation(row.violations[i]) then Err(BadViolation)
          else
            match StateNamed(row.state)
            case None => Err(BadState)
            case Some(state) =>
              var maxChecks := if row.maxChecks.Some? then row.maxChecks.value else MAX_VERIFICATION_CHECKS;
              match DecodeAttempts(row.attempts, AttemptContext(maxChecks, row.violations, row.contract, row.ownerId,
                                                                row.resolutionId))
              case Err(e) => Err(e)
              case Ok(attempts) =>
                var r := Assemble(row, state, history, verification, maxChecks, attempts);
                if IsValid(r) then Ok(r) else Err(InvalidRecord)
  }

  // ----- the decoding loops

  /** The history-building loop. */
  method HistoryFromMapping(rows: seq<TransitionRow>) returns (r: Result<seq<Transition>, Unreadable>)
    ensures r == DecodeHistory(rows)
  {
    var history: seq<Transition> := [];
    for i := 0 to |rows|
      invariant DecodeHistory(rows[..i]) == Ok(history)
    {
      assert rows[..i + 1][..i] == rows[..i];
      var state := StateNamed(rows[i].state);
      if !HasReadableAttestation(rows[i]) || state.None? {
        ErrorsAreFinalInHistory(rows, i + 1);
        return if !HasReadableAttestation(rows[i]) then Err(BadAttestation) else Err(BadHistory);
      }
      history := history + [Transition(state.value, rows[i].at, rows[i].contractVersion, rows[i].attestation)];
    }
    assert rows[..|rows|] == rows;
    return Ok(history);
  }

  lemma {:induction false} ErrorsAreFinalInHistory(rows: seq<TransitionRow>, n: nat)
    requires n <= |rows| && DecodeHistory(rows[..n]).Err?
    ensures DecodeHistory(rows) == DecodeHistory(rows[..n])
    decreases |rows|
  {
    if n == |rows| {
      assert rows[..n] == rows;
    } else {
      assert rows[..|rows| - 1][..n] == rows[..n];
      ErrorsAreFinalInHistory(rows[..|rows| - 1], n);
    }
  }

  /** The loop that appends each re-verified attempt to those before it. */
  method AttemptsFromMapping(rows: seq<AttemptRow>, c: AttemptContext) returns (r: Result<seq<Attempt>, Unreadable>)
    ensures r == DecodeAttempts(rows, c)
  {
    var attempts: seq<Attempt> := [];
    for i := 0 to |rows|
      invariant DecodeAttempts(rows[..i], c) == Ok(attempts)
    {
      assert rows[..i + 1][..i] == rows[..i];
      var decoded := DecodeAttempt(attempts, rows[i], c);
      if decoded.Err? {
        ErrorsAreFinalInAttempts(rows, i + 1, c);
        return Err(decoded.error);
      }
      attempts := attempts + [decoded.value];
    }
    assert rows[..|rows|] == rows;
    return Ok(attempts);
  }

  lemma {:induction false} ErrorsAreFinalInAttempts(rows: seq<AttemptRow>, n: nat, c: AttemptContext)
    requires n <= |rows| && DecodeAttempts(rows[..n], c).Err?
    ensures DecodeAttempts(rows, c) == DecodeAttempts(rows[..n], c)
    decreases |rows|
  {
    if n == |rows| {
      assert rows[..n] == rows;
    } else {
      assert rows[..|rows| - 1][..n] == rows[..n];
      ErrorsAreFinalInAttempts(rows[..|rows| - 1], n, c);
    }
  }
}
