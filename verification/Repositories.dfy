/**
  The two repositories as objects that hold rows and overwrite them (repository.py,
  dynamodb_repository.py). Each save is proved against the decision that Stores describes.
 */
module Repositories {
  import opened Wrappers
  import opened Records
  import opened Contract
  import opened Codec
  import opened Stores
  import opened RecordObject
  import opened Listing

  datatype CreateError = InvalidNew | AlreadyExists

  datatype LoadError = Missing | Corrupt(reason: Unreadable)

  /** What get_owned returns for the row it found. */
  function Loaded(row: Option<Row>): Result<Record, LoadError> {
    if row.None? then Err(Missing)
    else
      match Decode(row.value)
      case Ok(r) => Ok(r)
      case Err(e) => Err(Corrupt(e))
  }

  /** Passing the checks on a row that nobody changes since passes the guard of the UPDATE. */
  lemma CheckedRowsPassTheGuard(row: Option<Row>, next: Record, expected: int)
    requires SqlCheck(row, next, expected).None?
    ensures row.Some? && SqlGuard(row.value, next, expected)
  {
    hide IsValid, StateNamed, AllowedPreviousStates, HasExpectedHistory;
    PredecessorsAreMoves(next.state);
  }

  lemma VersionIsPartOfRow(next: Record)
    ensures Encode(next).(version := next.version + 1) == Encode(Stored(next))
  {
  }

  /** Rows under the resolution identifier, which is the whole primary key. */
  class SqlResolutionRepository {
    var rows: map<string, Row>

    constructor ()
      ensures rows == map[]
    {
      rows := map[];
    }

    /** SELECT ... WHERE resolution_id = ... AND owner_id = ... */
    function Select(resolution: string, owner: string): Option<Row>
      reads this
    {
      if resolution in rows && rows[resolution].ownerId == owner then Some(rows[resolution]) else None
    }

    method Create(record: ResolutionRecord) returns (error: Option<CreateError>)
      modifies this
      ensures error == if !IsValidNew(record.Snapshot()) then Some(InvalidNew)
                       else if record.resolutionId in old(rows) then Some(AlreadyExists)
                       else None
      ensures rows == if error.None? then old(rows)[record.resolutionId := Encode(record.Snapshot())] else old(rows)
    {
      if !IsValidNew(record.Snapshot()) {
        return Some(InvalidNew);
      }
      if record.resolutionId in rows {
        return Some(AlreadyExists);
      }
      rows := rows[record.resolutionId := Encode(record.Snapshot())];
      return None;
    }

    method GetOwned(resolution: string, owner: string) returns (error: Option<LoadError>, record: Option<ResolutionRecord>)
      ensures match Loaded(Select(resolution, owner))
              case Ok(r) => error == None && record.Some? && fresh(record.value) && record.value.Snapshot() == r
              case Err(e) => error == Some(e) && record == None
    {
      var row := Select(resolution, owner);
      if row.None? {
        return Some(Missing), None;
      }
      var decoded := Decode(row.value);
      if decoded.Err? {
        return Some(Corrupt(decoded.error)), None;
      }
      var loaded := new ResolutionRecord(decoded.value);
      return None, Some(loaded);
    }

    /** A read with all its checks, then the UPDATE; the number of rows that it matched decides. */
    method SaveOwned(record: ResolutionRecord, expected: int) returns (error: Option<SaveError>)
      modifies this, record`version
      ensures error == SqlCheck(old(Select(record.resolutionId, record.ownerId)), old(record.Snapshot()), expected)
      ensures error.None? ==>
                && rows == old(rows)[record.resolutionId := Encode(Stored(old(record.Snapshot())))]
                && record.Snapshot() == Stored(old(record.Snapshot()))
      ensures error.Some? ==> rows == old(rows) && record.Snapshot() == old(record.Snapshot())
    {
      hide SqlCheck, SqlGuard, Encode, IsValid;
      ghost var next := record.Snapshot();
      var values := Encode(record.Snapshot()).(version := expected + 1);
      var row := Select(record.resolutionId, record.ownerId);
      error := CheckBeforeUpdate(row, record, expected);
      if error.None? {
        CheckedRowsPassTheGuard(row, next, expected);
        CheckedVersion(row, next, expected);
        VersionIsPartOfRow(next);
        var matched := UpdateWhere(record.resolutionId, record.ownerId, record.Snapshot(), expected, values);
        if matched == 1 {
          record.version := expected + 1;
        } else {
          error := Some(ConcurrentUpdate);
        }
      }
    }

    /** The guarded UPDATE: the number of rows that it changed. */
    method UpdateWhere(resolution: string, owner: string, next: Record, expected: int, values: Row) returns (matched: nat)
      modifies this
      ensures var row := old(Select(resolution, owner));
              && matched == (if row.Some? && SqlGuard(row.value, next, expected) then 1 else 0)
              && rows == if matched == 1 then old(rows)[resolution := values] else old(rows)
    {
      hide SqlGuard;
      var row := Select(resolution, owner);
      if row.None? || !SqlGuard(row.value, next, expected) {
        return 0;
      }
      rows := rows[resolution := values];
      return 1;
    }
  }

  lemma CheckedVersion(row: Option<Row>, next: Record, expected: int)
    requires SqlCheck(row, next, expected).None?
    ensures next.version == expected
  {
  }

  /** The checks on the row that was read, in their order. */
  method CheckBeforeUpdate(row: Option<Row>, record: ResolutionRecord, expected: int) returns (error: Option<SaveError>)
    ensures error == SqlCheck(row, record.Snapshot(), expected)
  {
    hide IsValid, StateNamed, EncodeHistory;
    if record.version != expected {
      return Some(ConcurrentUpdate);
    }
    if |record.history| < 2 {
      return Some(NoPredecessor);
    }
    var before := ExpectedPreviousHistory(record.Snapshot());
    if row.None? {
      return Some(NotFound);
    }
    var state := StateNamed(row.value.state);
    if state.None? {
      return Some(UnreadableRow);
    }
    if IsTerminal(state.value) {
      return Some(TerminalImmutable);
    }
    if row.value.version != expected {
      return Some(ConcurrentUpdate);
    }
    var sameState := state.value == record.state;
    if !sameState && state.value !in AllowedPreviousStates(record.state) {
      return Some(InvalidTransition);
    }
    var target := EncodeHistory(record.history);
    var validHistory := row.value.history == before;
    if sameState {
      validHistory := validHistory || row.value.history == target;
    }
    if !validHistory {
      return Some(HistoryChanged);
    }
    if !IsValid(record.Snapshot()) {
      return Some(InvalidNext);
    }
    return None;
  }

  /** Every item is stored under the owner and the identifier that it names. */
  predicate IsKeyed(items: map<Key, Row>) {
    forall k :: k in items ==> items[k].ownerId == k.owner && items[k].resolutionId == k.resolution
  }

  /** The pages answer a query for an owner: each of that owner's items once, in some order. */
  predicate Answers(items: map<Key, Row>, owner: string, keys: seq<Key>, pages: seq<seq<Row>>) {
    && (forall i, j :: 0 <= i < j < |keys| ==> keys[i] != keys[j])
    && (forall i :: 0 <= i < |keys| ==> keys[i] in items && keys[i].owner == owner)
    && (forall k :: k in items && k.owner == owner ==> k in keys)
    && pages != []
    && |Flatten(pages)| == |keys|
    && (forall i :: 0 <= i < |keys| ==> Flatten(pages)[i] == items[keys[i]])
  }

  lemma DecodedNames(row: Row)
    requires Decode(row).Ok?
    ensures Decode(row).value.resolutionId == row.resolutionId && Decode(row).value.ownerId == row.ownerId
  {
    hide StateNamed, IsValid, DecodeHistory, DecodeAttempts, DecodeVerification, HasReadableFields;
  }

  lemma {:induction false} DecodedInOrder(rows: seq<Row>, i: nat)
    requires DecodedAll(rows).Ok? && i < |rows|
    ensures i < |DecodedAll(rows).value| && Decode(rows[i]) == Ok(DecodedAll(rows).value[i])
  {
    hide Decode;
    DecodedLength(rows);
    DecodedLength(rows[..|rows| - 1]);
    if i < |rows| - 1 {
      DecodedInOrder(rows[..|rows| - 1], i);
    }
  }

  /** An answered query holds each of the owner's resolutions once. */
  lemma AnsweredRecordsAreDistinct(items: map<Key, Row>, owner: string, keys: seq<Key>, pages: seq<seq<Row>>)
    requires IsKeyed(items) && Answers(items, owner, keys, pages)
    requires DecodedAll(Flatten(pages)).Ok?
    ensures HasDistinctIds(DecodedAll(Flatten(pages)).value)
    ensures forall r :: r in DecodedAll(Flatten(pages)).value ==> r.ownerId == owner
  {
    hide Decode, DecodedAll, Flatten;
    var rows := Flatten(pages);
    var all := DecodedAll(rows).value;
    forall i | 0 <= i < |rows|
      ensures i < |all| && all[i].resolutionId == keys[i].resolution && all[i].ownerId == owner
    {
      DecodedInOrder(rows, i);
      DecodedNames(rows[i]);
    }
    DecodedLength(rows);
  }

  lemma {:induction false} DecodedLength(rows: seq<Row>)
    requires DecodedAll(rows).Ok?
    ensures |DecodedAll(rows).value| == |rows|
  {
    hide Decode;
    if rows != [] {
      DecodedLength(rows[..|rows| - 1]);
    }
  }

  /** Two answers to the same query give the same listing, however they are paged. */
  lemma AnswersListAlike(items: map<Key, Row>, owner: string, keys: seq<Key>, pages: seq<seq<Row>>,
                         otherKeys: seq<Key>, others: seq<seq<Row>>, l: Kind, limit: nat)
    requires IsKeyed(items) && Answers(items, owner, keys, pages) && Answers(items, owner, otherKeys, others)
    requires DecodedAll(Flatten(pages)).Ok?
    ensures Listed(l, Flatten(pages), limit) == Listed(l, Flatten(others), limit)
  {
    hide Decode, DecodedAll, Flatten, Listed, HasDistinctIds, IsKeyed, Answers;
    AnsweredRecordsAreDistinct(items, owner, keys, pages);
    if DecodedAll(Flatten(others)).Ok? {
      AnsweredRecordsAreDistinct(items, owner, otherKeys, others);
    }
    SameAnswerSameRows(items, owner, keys, pages, otherKeys, others);
    SameAnswerSameRows(items, owner, otherKeys, others, keys, pages);
    PagesDoNotMatter(l, Flatten(pages), Flatten(others), limit);
  }

  lemma SameAnswerSameRows(items: map<Key, Row>, owner: string, keys: seq<Key>, pages: seq<seq<Row>>,
                           otherKeys: seq<Key>, others: seq<seq<Row>>)
    requires Answers(items, owner, keys, pages) && Answers(items, owner, otherKeys, others)
    ensures forall row :: row in Flatten(pages) ==> row in Flatten(others)
  {
    hide Flatten;
    forall i | 0 <= i < |keys| ensures Flatten(pages)[i] in Flatten(others) {
      assert keys[i] in otherKeys;
      var j :| 0 <= j < |otherKeys| && otherKeys[j] == keys[i];
      assert Flatten(others)[j] == items[keys[i]];
    }
  }

  /** Items under owner and resolution identifier together. */
  class DynamoDbResolutionRepository {
    var items: map<Key, Row>

    constructor ()
      ensures items == map[]
    {
      items := map[];
    }

    function GetItem(resolution: string, owner: string): Option<Row>
      reads this
    {
      var k := Key(owner, resolution);
      if k in items then Some(items[k]) else None
    }

    /** Puts an item only if there is none under its key. */
    method Create(record: ResolutionRecord) returns (error: Option<CreateError>)
      modifies this
      ensures error == if !IsValidNew(record.Snapshot()) then Some(InvalidNew)
                       else if KeyOf(record.Snapshot()) in old(items) then Some(AlreadyExists)
                       else None
      ensures items == if error.None?
                       then old(items)[KeyOf(record.Snapshot()) := Encode(record.Snapshot())]
                       else old(items)
      ensures IsKeyed(old(items)) ==> IsKeyed(items)
    {
      if !IsValidNew(record.Snapshot()) {
        return Some(InvalidNew);
      }
      var k := KeyOf(record.Snapshot());
      if k in items {
        return Some(AlreadyExists);
      }
      items := items[k := Encode(record.Snapshot())];
      return None;
    }

    method GetOwned(resolution: string, owner: string) returns (error: Option<LoadError>, record: Option<ResolutionRecord>)
      ensures match Loaded(GetItem(resolution, owner))
              case Ok(r) => error == None && record.Some? && fresh(record.value) && record.value.Snapshot() == r
              case Err(e) => error == Some(e) && record == None
    {
      var item := GetItem(resolution, owner);
      if item.None? {
        return Some(Missing), None;
      }
      var decoded := Decode(item.value);
      if decoded.Err? {
        return Some(Corrupt(decoded.error)), None;
      }
      var loaded := new ResolutionRecord(decoded.value);
      return None, Some(loaded);
    }

    /** One conditional put; only when it fails is the item read, to say why. */
    method SaveOwned(record: ResolutionRecord, expected: int) returns (error: Option<SaveError>)
      modifies this, record`version
      ensures error == DynamoCheck(old(GetItem(record.resolutionId, record.ownerId)), old(record.Snapshot()), expected)
      ensures error.None? ==>
                && items == old(items)[KeyOf(record.Snapshot()) :=
                                         Encode(Stored(old(record.Snapshot())))]
                && record.Snapshot() == Stored(old(record.Snapshot()))
      ensures error.Some? ==> items == old(items) && record.Snapshot() == old(record.Snapshot())
      ensures IsKeyed(old(items)) ==> IsKeyed(items)
    {
      hide DynamoCondition, ClassifyFailedSave, IsValid, EncodeHistory, EncodeAttempts, StateName;
      if record.version != expected {
        return Some(ConcurrentUpdate);
      }
      if !IsValid(record.Snapshot()) {
        return Some(InvalidNext);
      }
      if IsTerminal(record.state) && AllowedPreviousStates(record.state) == {} {
        return Some(InvalidTransition);
      }
      if |record.history| < 2 {
        return Some(NoPredecessor);
      }
      VersionIsPartOfRow(record.Snapshot());
      var item := Encode(record.Snapshot()).(version := expected + 1);
      var put := PutItemIf(record.Snapshot(), expected, item);
      if !put {
        return Some(ClassifyFailedSave(GetItem(record.resolutionId, record.ownerId), expected));
      }
      record.version := expected + 1;
      return None;
    }

    method PutItemIf(next: Record, expected: int, item: Row) returns (put: bool)
      requires |next.history| >= 2
      modifies this
      ensures put == DynamoCondition(old(GetItem(next.resolutionId, next.ownerId)), next, expected)
      ensures items == if put then old(items)[Key(next.ownerId, next.resolutionId) := item] else old(items)
    {
      hide DynamoCondition;
      if !DynamoCondition(GetItem(next.resolutionId, next.ownerId), next, expected) {
        return false;
      }
      items := items[KeyOf(next) := item];
      return true;
    }

    /** list_open_owned and list_recent_owned over the pages that the query answers with. */
    method ListOwned(l: Kind, owner: string, ghost keys: seq<Key>, pages: seq<seq<Row>>, limit: nat)
      returns (r: Result<seq<Record>, Unreadable>)
      requires IsKeyed(items) && Answers(items, owner, keys, pages)
      ensures r == Listed(l, Flatten(pages), limit)
      ensures r.Ok? ==> DecodedAll(Flatten(pages)).Ok? && HoldsTheFirst(l, DecodedAll(Flatten(pages)).value, limit, r.value)
      ensures r.Ok? ==> forall x :: x in r.value ==> x.ownerId == owner
    {
      hide DecodedAll, Flatten, Answers, IsKeyed, HasDistinctIds, IsListedAs, ComesFirst;
      AnswerHasPages(items, owner, keys, pages);
      r := Listing.ListOwned(l, pages, limit);
      if r.Ok? {
        AnsweredRecordsAreDistinct(items, owner, keys, pages);
        ListingHoldsTheFirst(l, Flatten(pages), limit);
      }
    }
  }

  lemma AnswerHasPages(items: map<Key, Row>, owner: string, keys: seq<Key>, pages: seq<seq<Row>>)
    requires Answers(items, owner, keys, pages)
    ensures pages != []
  {
  }
}
