/** The conditional save as the two backends decide it (repository.py, dynamodb_repository.py). */
module Stores {
  import opened Wrappers
  import opened Records
  import opened Contract
  import opened Codec

  datatype SaveError =
    | ConcurrentUpdate
    | NoPredecessor
    | NotFound
    | UnreadableRow
    | TerminalImmutable
    | InvalidTransition
    | HistoryChanged
    | InvalidNext

  /** The persisted history that must precede this record's last transition. */
  function ExpectedPreviousHistory(r: Record): (rows: seq<TransitionRow>)
    requires |r.history| >= 2
  {
    EncodeHistory(r.history[..|r.history| - 1])
  }

  // ----- SQL: a read with its checks, then a guarded UPDATE

  /** The stored history precedes the new one, or equals it when the state does not change. */
  predicate HasExpectedHistory(row: Row, state: State, next: Record)
    requires |next.history| >= 2
  {
    || row.history == ExpectedPreviousHistory(next)
    || (state == next.state && row.history == EncodeHistory(next.history))
  }

  /** The checks made on the row that was read; None lets the UPDATE proceed. */
  function SqlCheck(row: Option<Row>, next: Record, expected: int): Option<SaveError> {
    if next.version != expected then Some(ConcurrentUpdate)
    else if |next.history| < 2 then Some(NoPredecessor)
    else if row.None? then Some(NotFound)
    else
      match StateNamed(row.value.state)
      case None => Some(UnreadableRow)
      case Some(state) =>
        if IsTerminal(state) then Some(TerminalImmutable)
        else if row.value.version != expected then Some(ConcurrentUpdate)
        else if state != next.state && state !in AllowedPreviousStates(next.state) then Some(InvalidTransition)
        else if !HasExpectedHistory(row.value, state, next) then Some(HistoryChanged)
        else if !IsValid(next) then Some(InvalidNext)
        else None
  }

  /** The WHERE clause of the UPDATE: version and state, but not the history. */
  predicate SqlGuard(row: Row, next: Record, expected: int) {
    && row.version == expected
    && StateNamed(row.state).Some?
    && !IsTerminal(StateNamed(row.state).value)
    && (|| StateNamed(row.state).value in AllowedPreviousStates(next.state)
        || (!IsTerminal(next.state) && StateNamed(row.state).value == next.state))
  }

  // ----- DynamoDB: one conditional put

  /** The condition expression, with the predecessor list it enumerates. */
  predicate DynamoCondition(row: Option<Row>, next: Record, expected: int)
    requires |next.history| >= 2
  {
    && row.Some?
    && row.value.version == expected
    && (|| ((|| (exists s :: s in AllowedPreviousStates(next.state) && StateName(s) == row.value.state)
             || (!IsTerminal(next.state) && StateName(next.state) == row.value.state))
            && row.value.history == ExpectedPreviousHistory(next))
        || (!IsTerminal(next.state) && StateName(next.state) == row.value.state
            && row.value.history == EncodeHistory(next.history)))
  }

  /** Why a failed put failed, from a second read of the row. */
  function ClassifyFailedSave(row: Option<Row>, expected: int): SaveError {
    if row.None? then NotFound
    else
      match Decode(row.value)
      case Err(_) => UnreadableRow
      case Ok(stored) =>
        if IsTerminal(stored.state) then TerminalImmutable
        else if stored.version != expected then ConcurrentUpdate
        else InvalidTransition
  }

  function DynamoCheck(row: Option<Row>, next: Record, expected: int): Option<SaveError> {
    if next.version != expected then Some(ConcurrentUpdate)
    else if !IsValid(next) then Some(InvalidNext)
    else if IsTerminal(next.state) && AllowedPreviousStates(next.state) == {} then Some(InvalidTransition)
    else if |next.history| < 2 then Some(NoPredecessor)
    else if DynamoCondition(row, next, expected) then None
    else Some(ClassifyFailedSave(row, expected))
  }

  // ----- the two decide alike

  lemma StateNamesAreExact(name: string, s: State)
    ensures StateNamed(name) == Some(s) <==> name == StateName(s)
  {
  }

  lemma PredecessorsAreMoves(next: State)
    ensures forall s :: s in AllowedPreviousStates(next) <==> CanMove(s, next)
  {
  }

  lemma ConditionsAgree(row: Row, state: State, next: Record, expected: int)
    requires |next.history| >= 2 && StateNamed(row.state) == Some(state)
    requires IsValid(next)
    ensures DynamoCondition(Some(row), next, expected) <==>
            && !IsTerminal(state) && row.version == expected
            && (state == next.state || state in AllowedPreviousStates(next.state))
            && HasExpectedHistory(row, state, next)
  {
    hide StateName, StateNamed, EncodeHistory, IsValid, AllowedPreviousStates;
    PredecessorsAreMoves(next.state);
    forall s ensures StateName(s) == row.state <==> s == state {
      StateNamesAreExact(row.state, s);
    }
  }

  lemma MissingRowsAreRefused(next: Record, expected: int)
    requires |next.history| >= 2
    ensures !DynamoCondition(None, next, expected)
  {
  }

  lemma UnknownStatesAreRefused(row: Row, next: Record, expected: int)
    requires |next.history| >= 2 && StateNamed(row.state).None?
    ensures !DynamoCondition(Some(row), next, expected)
  {
    hide StateName, StateNamed, EncodeHistory, AllowedPreviousStates;
    forall s ensures StateName(s) != row.state {
      StateNamesAreExact(row.state, s);
    }
  }

  /**
    Item size aside, the guarded UPDATE after its checks and the single conditional put accept exactly the
    same stored rows and new records.
   */
  lemma BackendsAcceptAlike(row: Option<Row>, next: Record, expected: int)
    ensures SqlCheck(row, next, expected).None? && SqlGuard(row.value, next, expected)
            <==> DynamoCheck(row, next, expected).None?
  {
    hide StateName, StateNamed, EncodeHistory, IsValid, AllowedPreviousStates, ClassifyFailedSave, DynamoCondition;
    hide HasExpectedHistory;
    PredecessorsAreMoves(next.state);
    if |next.history| >= 2 {
      MissingRowsAreRefused(next, expected);
    }
    if row.Some? && |next.history| >= 2 && IsValid(next) {
      match StateNamed(row.value.state)
      case None => UnknownStatesAreRefused(row.value, next, expected);
      case Some(state) => ConditionsAgree(row.value, state, next, expected);
    }
    if IsTerminal(next.state) {
      assert VERIFYING in AllowedPreviousStates(next.state);
    }
  }

  lemma DecodedStateAndVersion(row: Row)
    requires Decode(row).Ok?
    ensures StateNamed(row.state) == Some(Decode(row).value.state) && row.version == Decode(row).value.version
  {
    hide StateNamed, IsValid, DecodeHistory, DecodeAttempts, DecodeVerification, HasReadableFields;
  }

  /**
    On a readable row both backends also refuse a valid record for the same reason, except that a history
    changed under an unchanged version is a concurrent update to one and an invalid transition to the other.
   */
  lemma BackendsRefuseAlike(row: Option<Row>, next: Record, expected: int)
    requires row.Some? ==> Decode(row.value).Ok?
    requires IsValid(next)
    ensures || SqlCheck(row, next, expected) == DynamoCheck(row, next, expected)
            || (SqlCheck(row, next, expected) == Some(HistoryChanged)
                && DynamoCheck(row, next, expected) == Some(InvalidTransition))
  {
    hide StateNamed, StateName, EncodeHistory, IsValid, DynamoCondition, HasExpectedHistory, Decode;
    hide AllowedPreviousStates;
    if |next.history| >= 2 {
      MissingRowsAreRefused(next, expected);
      if row.Some? {
        DecodedStateAndVersion(row.value);
        ConditionsAgree(row.value, Decode(row.value).value.state, next, expected);
      }
    }
    if IsTerminal(next.state) {
      PredecessorsAreMoves(next.state);
      assert VERIFYING in AllowedPreviousStates(next.state);
    }
  }

  // ----- on rows that hold encoded records

  lemma EncodedHistoriesDiffer(a: seq<Transition>, b: seq<Transition>)
    ensures EncodeHistory(a) == EncodeHistory(b) <==> a == b
  {
    hide StateName, StateNamed;
    if EncodeHistory(a) == EncodeHistory(b) {
      forall i | 0 <= i < |a| ensures a[i] == b[i] {
        assert EncodeHistory(a)[i] == EncodeTransition(a[i]) && EncodeHistory(b)[i] == EncodeTransition(b[i]);
        StateNamesAreRead(a[i].state);
        StateNamesAreRead(b[i].state);
      }
    }
  }

  /** For the row of a record of the same resolution, passing both SQL phases is one atomic decision. */
  lemma SqlDecidesAtomically(row: Record, next: Record)
    requires row.ownerId == next.ownerId && row.resolutionId == next.resolutionId
    ensures SqlCheck(Some(Encode(row)), next, next.version).None? <==> Accepts(row, next)
    ensures Accepts(row, next) ==> SqlGuard(Encode(row), next, next.version)
  {
    hide StateName, StateNamed, EncodeHistory, IsValid, AllowedPreviousStates, EncodeAttempts, EncodeVerification;
    StateNamesAreRead(row.state);
    PredecessorsAreMoves(next.state);
    EncodedHistoriesDiffer(row.history, next.history);
    if |next.history| >= 2 {
      EncodedHistoriesDiffer(row.history, next.history[..|next.history| - 1]);
    }
  }
}
