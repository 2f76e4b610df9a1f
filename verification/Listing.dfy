/** Listing an owner's records: the page loop of DynamoDB and the query of SQL. */
module Listing {
  import opened Wrappers
  import opened Records
  import opened Codec

  // ----- the order of the results

  /** Python's order of strings, by code points. */
  predicate Before(a: string, b: string) {
    if b == "" then false
    else if a == "" then true
    else a[0] < b[0] || (a[0] == b[0] && Before(a[1..], b[1..]))
  }

  lemma {:induction false} BeforeIsStrict(a: string, b: string)
    ensures !(Before(a, b) && Before(b, a))
    ensures a != b ==> Before(a, b) || Before(b, a)
  {
    if a != "" && b != "" {
      BeforeIsStrict(a[1..], b[1..]);
      assert a == [a[0]] + a[1..] && b == [b[0]] + b[1..];
    }
  }

  lemma {:induction false} BeforeIsTransitive(a: string, b: string, c: string)
    requires Before(a, b) && Before(b, c)
    ensures Before(a, c)
  {
    if a != "" && b != "" && c != "" && a[0] == b[0] == c[0] {
      BeforeIsTransitive(a[1..], b[1..], c[1..]);
    }
  }

  /** Open records come oldest first; recently ended ones come last updated first. */
  datatype Kind = Open | Recent

  predicate Belongs(l: Kind, r: Record) {
    l.Open? <==> !IsTerminal(r.state)
  }

  function TimeOf(l: Kind, r: Record): int {
    if l.Open? then r.createdAt else -r.updatedAt
  }

  /** Strictly earlier in the listing. */
  predicate Precedes(l: Kind, a: Record, b: Record) {
    || TimeOf(l, a) < TimeOf(l, b)
    || (TimeOf(l, a) == TimeOf(l, b)
        && if l.Open? then Before(a.resolutionId, b.resolutionId) else Before(b.resolutionId, a.resolutionId))
  }

  lemma PrecedesIsStrict(l: Kind, a: Record, b: Record)
    ensures !(Precedes(l, a, b) && Precedes(l, b, a))
    ensures a.resolutionId != b.resolutionId ==> Precedes(l, a, b) || Precedes(l, b, a)
  {
    BeforeIsStrict(a.resolutionId, b.resolutionId);
  }

  lemma PrecedesIsTransitive(l: Kind, a: Record, b: Record, c: Record)
    requires Precedes(l, a, b) && Precedes(l, b, c)
    ensures Precedes(l, a, c)
  {
    if TimeOf(l, a) == TimeOf(l, b) == TimeOf(l, c) {
      if l.Open? {
        BeforeIsTransitive(a.resolutionId, b.resolutionId, c.resolutionId);
      } else {
        BeforeIsTransitive(c.resolutionId, b.resolutionId, a.resolutionId);
      }
    }
  }

  predicate IsOrdered(l: Kind, s: seq<Record>) {
    forall i, j :: 0 <= i < j < |s| ==> Precedes(l, s[i], s[j])
  }

  predicate HasDistinctIds(s: seq<Record>) {
    forall i, j :: 0 <= i < j < |s| ==> s[i].resolutionId != s[j].resolutionId
  }

  // ----- sorting

  function Insert(l: Kind, r: Record, s: seq<Record>): (t: seq<Record>)
    ensures multiset(t) == multiset(s) + multiset{r}
  {
    if s == [] || Precedes(l, r, s[0]) then [r] + s
    else
      assert s == [s[0]] + s[1..];
      [s[0]] + Insert(l, r, s[1..])
  }

  function Sorted(l: Kind, s: seq<Record>): (t: seq<Record>)
    ensures multiset(t) == multiset(s)
  {
    if s == [] then []
    else
      assert s == s[..|s| - 1] + [Last(s)];
      Insert(l, Last(s), Sorted(l, s[..|s| - 1]))
  }

  predicate IsNew(r: Record, s: seq<Record>) {
    forall i :: 0 <= i < |s| ==> s[i].resolutionId != r.resolutionId
  }

  lemma {:induction false} InsertKeepsOrder(l: Kind, r: Record, s: seq<Record>)
    requires IsOrdered(l, s) && IsNew(r, s)
    ensures IsOrdered(l, Insert(l, r, s))
  {
    hide Precedes;
    if s != [] {
      PrecedesIsStrict(l, r, s[0]);
      if Precedes(l, r, s[0]) {
        forall j | 1 <= j < |s| ensures Precedes(l, r, s[j]) {
          PrecedesIsTransitive(l, r, s[0], s[j]);
        }
      } else {
        var rest := Insert(l, r, s[1..]);
        InsertKeepsOrder(l, r, s[1..]);
        forall j | 0 <= j < |rest| ensures Precedes(l, s[0], rest[j]) {
          assert rest[j] in multiset(rest);
          assert rest[j] == r || rest[j] in s[1..];
        }
      }
    }
  }

  lemma {:induction false} SortedIsOrdered(l: Kind, s: seq<Record>)
    requires HasDistinctIds(s)
    ensures IsOrdered(l, Sorted(l, s))
  {
    hide IsOrdered;
    if s == [] {
      NothingIsOrdered(l);
    } else {
      var front := s[..|s| - 1];
      SortedIsOrdered(l, front);
      forall i | 0 <= i < |Sorted(l, front)| ensures Sorted(l, front)[i].resolutionId != Last(s).resolutionId {
        assert Sorted(l, front)[i] in multiset(Sorted(l, front));
        assert Sorted(l, front)[i] in front;
      }
      InsertKeepsOrder(l, Last(s), Sorted(l, front));
    }
  }

  lemma NothingIsOrdered(l: Kind)
    ensures IsOrdered(l, [])
  {
  }

  /** There is only one way to put the same records in order. */
  lemma {:induction false} OrderIsUnique(l: Kind, s: seq<Record>, t: seq<Record>)
    requires IsOrdered(l, s) && IsOrdered(l, t)
    requires forall r :: r in s <==> r in t
    ensures s == t
  {
    hide Precedes, IsOrdered;
    if s != [] {
      SomeMember(s, t);
    }
    if t != [] {
      SomeMember(t, s);
      FirstIsLeast(l, s, t);
      RestComesAfter(l, s);
      RestComesAfter(l, t);
      OrderIsUnique(l, s[1..], t[1..]);
      assert s == [s[0]] + s[1..] && t == [t[0]] + t[1..];
    }
  }

  lemma SomeMember(s: seq<Record>, t: seq<Record>)
    requires s != [] && forall r :: r in s ==> r in t
    ensures t != []
  {
    assert s[0] in t;
  }

  lemma RestComesAfter(l: Kind, s: seq<Record>)
    requires IsOrdered(l, s) && s != []
    ensures IsOrdered(l, s[1..])
    ensures forall r :: r in s[1..] <==> r in s && r != s[0]
  {
    hide Precedes;
    forall j | 1 <= j < |s| ensures s[j] != s[0] {
      PrecedesIsStrict(l, s[0], s[j]);
    }
    forall r ensures r in s[1..] <==> r in s && r != s[0] {
      if r in s && r != s[0] {
        var j :| 0 <= j < |s| && s[j] == r;
        assert s[1..][j - 1] == r;
      }
    }
  }

  lemma FirstIsLeast(l: Kind, s: seq<Record>, t: seq<Record>)
    requires IsOrdered(l, s) && IsOrdered(l, t) && s != [] && t != []
    requires forall r :: r in s <==> r in t
    ensures s[0] == t[0]
  {
    hide Precedes;
    assert s[0] in t && t[0] in s;
    if s[0] != t[0] {
      PrecedesIsStrict(l, s[0], t[0]);
    }
  }

  // ----- what the rows hold

  /** Every row is decoded, and the first that cannot be is reported. */
  function DecodedAll(rows: seq<Row>): Result<seq<Record>, Unreadable> {
    if rows == [] then Ok([])
    else
      match DecodedAll(rows[..|rows| - 1])
      case Err(e) => Err(e)
      case Ok(before) =>
        match Decode(Last(rows))
        case Err(e) => Err(e)
        case Ok(r) => Ok(before + [r])
  }

  function Only(l: Kind, s: seq<Record>): seq<Record> {
    if s == [] then []
    else Only(l, s[..|s| - 1]) + (if Belongs(l, Last(s)) then [Last(s)] else [])
  }

  function Take<T>(s: seq<T>, limit: nat): seq<T> {
    if |s| <= limit then s else s[..limit]
  }

  /** The listing that the rows call for, whatever their order. */
  function Listed(l: Kind, rows: seq<Row>, limit: nat): Result<seq<Record>, Unreadable> {
    match DecodedAll(rows)
    case Err(e) => Err(e)
    case Ok(all) => Ok(Take(Sorted(l, Only(l, all)), limit))
  }

  lemma {:induction false} DecodedPrefix(rows: seq<Row>, n: nat)
    requires n <= |rows| && DecodedAll(rows[..n]).Err?
    ensures DecodedAll(rows) == DecodedAll(rows[..n])
    decreases |rows|
  {
    hide Decode;
    if n == |rows| {
      assert rows[..n] == rows;
    } else {
      assert rows[..|rows| - 1][..n] == rows[..n];
      DecodedPrefix(rows[..|rows| - 1], n);
    }
  }

  lemma OnlyOneMore(l: Kind, s: seq<Record>, r: Record)
    ensures Only(l, s + [r]) == Only(l, s) + (if Belongs(l, r) then [r] else [])
  {
    assert (s + [r])[..|s|] == s;
  }

  // ----- DynamoDB: page after page

  function Flatten(pages: seq<seq<Row>>): seq<Row> {
    if pages == [] then [] else Flatten(pages[..|pages| - 1]) + Last(pages)
  }

  predicate IsCollected(l: Kind, rows: seq<Row>, records: seq<Record>) {
    DecodedAll(rows).Ok? && records == Only(l, DecodedAll(rows).value)
  }

  lemma CollectOne(l: Kind, rows: seq<Row>, row: Row, records: seq<Record>)
    requires IsCollected(l, rows, records)
    ensures match Decode(row)
            case Err(e) => DecodedAll(rows + [row]) == Err(e)
            case Ok(r) => IsCollected(l, rows + [row], records + if Belongs(l, r) then [r] else [])
  {
    hide Decode, Belongs;
    assert (rows + [row])[..|rows|] == rows;
    if Decode(row).Ok? {
      OnlyOneMore(l, DecodedAll(rows).value, Decode(row).value);
    }
  }

  lemma PagePrefix(before: seq<Row>, page: seq<Row>, i: nat)
    requires i < |page|
    ensures before + page[..i + 1] == (before + page[..i]) + [page[i]]
    ensures (before + page)[..|before| + i + 1] == before + page[..i + 1]
  {
  }

  /** One page: decodes each item and keeps those that belong to the listing. */
  method CollectPage(l: Kind, ghost before: seq<Row>, page: seq<Row>, found: seq<Record>)
    returns (error: Option<Unreadable>, records: seq<Record>)
    requires IsCollected(l, before, found)
    ensures error.None? ==> IsCollected(l, before + page, records)
    ensures error.Some? ==> DecodedAll(before + page) == Err(error.value)
  {
    hide Decode, Belongs, DecodedAll, IsCollected;
    records := found;
    assert before + page[..0] == before;
    for i := 0 to |page|
      invariant IsCollected(l, before + page[..i], records)
    {
      PagePrefix(before, page, i);
      CollectOne(l, before + page[..i], page[i], records);
      var decoded := Decode(page[i]);
      if decoded.Err? {
        DecodedPrefix(before + page, |before| + i + 1);
        return Some(decoded.error), [];
      }
      if Belongs(l, decoded.value) {
        records := records + [decoded.value];
      } else {
        assert records + [] == records;
      }
    }
    assert page[..|page|] == page;
    return None, records;
  }

  lemma {:induction false} FlattenIsPrefix(pages: seq<seq<Row>>, n: nat)
    requires n <= |pages|
    ensures |Flatten(pages[..n])| <= |Flatten(pages)|
    ensures Flatten(pages)[..|Flatten(pages[..n])|] == Flatten(pages[..n])
    decreases |pages|
  {
    if n == |pages| {
      assert pages[..n] == pages;
    } else {
      assert pages[..|pages| - 1][..n] == pages[..n];
      FlattenIsPrefix(pages[..|pages| - 1], n);
    }
  }

  /** The loop over the query's pages, the sort and the cut; pages[i] is the response to request i. */
  method ListOwned(l: Kind, pages: seq<seq<Row>>, limit: nat) returns (r: Result<seq<Record>, Unreadable>)
    requires pages != []
    ensures r == Listed(l, Flatten(pages), limit)
  {
    hide Decode, Belongs, DecodedAll;
    var records: seq<Record> := [];
    var key := 0;
    NothingIsCollected(l);
    while true
      invariant key < |pages|
      invariant IsCollected(l, Flatten(pages[..key]), records)
      decreases |pages| - key
    {
      assert pages[..key + 1][..key] == pages[..key];
      var error, collected := CollectPage(l, Flatten(pages[..key]), pages[key], records);
      if error.Some? {
        FlattenIsPrefix(pages, key + 1);
        DecodedPrefix(Flatten(pages), |Flatten(pages[..key + 1])|);
        return Err(error.value);
      }
      records := collected;
      if key + 1 == |pages| {
        break;
      }
      key := key + 1;
    }
    assert pages[..|pages|] == pages;
    return Ok(Take(Sorted(l, records), limit));
  }

  lemma NothingIsCollected(l: Kind)
    ensures IsCollected(l, Flatten([]), [])
  {
  }

  // ----- what the listing means

  lemma {:induction false} OnlyKeepsBelonging(l: Kind, s: seq<Record>)
    ensures forall r :: multiset(Only(l, s))[r] == if Belongs(l, r) then multiset(s)[r] else 0
  {
    hide Belongs;
    if s != [] {
      OnlyKeepsBelonging(l, s[..|s| - 1]);
      assert s == s[..|s| - 1] + [Last(s)];
    }
  }

  lemma {:induction false} OnlyKeepsDistinct(l: Kind, s: seq<Record>)
    requires HasDistinctIds(s)
    ensures HasDistinctIds(Only(l, s))
    ensures forall r :: r in Only(l, s) ==> r in s
  {
    hide Belongs;
    if s != [] {
      var front := s[..|s| - 1];
      OnlyKeepsDistinct(l, front);
      forall i | 0 <= i < |Only(l, front)| ensures Only(l, front)[i].resolutionId != Last(s).resolutionId {
        assert Only(l, front)[i] in front;
      }
    }
  }

  lemma SortedHoldsTheKind(l: Kind, all: seq<Record>)
    requires HasDistinctIds(all)
    ensures IsOrdered(l, Sorted(l, Only(l, all)))
    ensures forall r :: r in Sorted(l, Only(l, all)) <==> r in all && Belongs(l, r)
  {
    hide Belongs, Precedes, IsOrdered;
    var kept := Only(l, all);
    OnlyKeepsDistinct(l, all);
    OnlyKeepsBelonging(l, all);
    SortedIsOrdered(l, kept);
    forall r ensures r in Sorted(l, kept) <==> r in all && Belongs(l, r) {
      assert r in all <==> multiset(all)[r] > 0;
      assert r in Sorted(l, kept) <==> multiset(kept)[r] > 0;
    }
  }

  lemma TakingTheFirst(l: Kind, s: seq<Record>, limit: nat)
    requires IsOrdered(l, s)
    ensures IsOrdered(l, Take(s, limit)) && |Take(s, limit)| <= limit
    ensures forall r :: r in Take(s, limit) ==> r in s
    ensures forall r :: r in s && r !in Take(s, limit) ==>
              |Take(s, limit)| == limit && forall i :: 0 <= i < limit ==> Precedes(l, Take(s, limit)[i], r)
  {
    hide Precedes;
  }

  /** The texts agree up to some point, where the first ends or has the smaller character. */
  ghost predicate IsLexicographicallyBefore(a: string, b: string) {
    exists n :: DiffersAt(a, b, n)
  }

  predicate DiffersAt(a: string, b: string, n: int) {
    && 0 <= n <= |a| && n < |b| && a[..n] == b[..n]
    && (n < |a| ==> a[n] < b[n])
  }

  lemma {:induction false} BeforeIsLexicographic(a: string, b: string)
    ensures Before(a, b) <==> IsLexicographicallyBefore(a, b)
  {
    if a == "" || b == "" || a[0] != b[0] {
      assert DiffersAt(a, b, 0) <==> Before(a, b);
    } else {
      BeforeIsLexicographic(a[1..], b[1..]);
      if n :| DiffersAt(a[1..], b[1..], n) {
        assert a[..n + 1] == [a[0]] + a[1..][..n] && b[..n + 1] == [b[0]] + b[1..][..n];
        assert DiffersAt(a, b, n + 1);
      }
      if n :| DiffersAt(a, b, n) {
        assert n > 0 ==> a[1..][..n - 1] == a[..n][1..] && b[1..][..n - 1] == b[..n][1..];
        assert DiffersAt(a[1..], b[1..], n - 1);
      }
    }
  }

  /** Open: created earlier, or at the same time under the smaller identifier. Recent: updated later, or the larger one. */
  ghost predicate ComesFirst(l: Kind, a: Record, b: Record) {
    match l
    case Open =>
      || a.createdAt < b.createdAt
      || (a.createdAt == b.createdAt && IsLexicographicallyBefore(a.resolutionId, b.resolutionId))
    case Recent =>
      || a.updatedAt > b.updatedAt
      || (a.updatedAt == b.updatedAt && IsLexicographicallyBefore(b.resolutionId, a.resolutionId))
  }

  predicate IsListedAs(l: Kind, r: Record) {
    match l
    case Open => r.state != VERIFIED && r.state != NOT_COMPLETED
    case Recent => r.state == VERIFIED || r.state == NOT_COMPLETED
  }

  lemma OrderAndKindAreMeant(l: Kind, a: Record, b: Record)
    ensures Precedes(l, a, b) <==> ComesFirst(l, a, b)
    ensures Belongs(l, a) <==> IsListedAs(l, a)
  {
    hide Before, IsLexicographicallyBefore;
    BeforeIsLexicographic(a.resolutionId, b.resolutionId);
    BeforeIsLexicographic(b.resolutionId, a.resolutionId);
  }

  /** The first `limit` of the records of a kind: in order, nothing else, and what is missing comes later and only because it is full. */
  ghost predicate HoldsTheFirst(l: Kind, all: seq<Record>, limit: nat, shown: seq<Record>) {
    && |shown| <= limit
    && (forall i, j :: 0 <= i < j < |shown| ==> ComesFirst(l, shown[i], shown[j]))
    && (forall r :: r in shown ==> r in all && IsListedAs(l, r))
    && (forall r :: r in all && IsListedAs(l, r) && r !in shown ==>
          |shown| == limit && forall i :: 0 <= i < |shown| ==> ComesFirst(l, shown[i], r))
  }

  /** The listing is the first `limit` of the owner's records of its kind. */
  lemma ListingHoldsTheFirst(l: Kind, rows: seq<Row>, limit: nat)
    requires DecodedAll(rows).Ok? && HasDistinctIds(DecodedAll(rows).value)
    ensures Listed(l, rows, limit).Ok?
    ensures IsOrdered(l, Listed(l, rows, limit).value)
    ensures HoldsTheFirst(l, DecodedAll(rows).value, limit, Listed(l, rows, limit).value)
  {
    hide Belongs, Precedes, DecodedAll, HasDistinctIds, Sorted, Only, Take, ComesFirst, IsListedAs;
    var all := DecodedAll(rows).value;
    SortedHoldsTheKind(l, all);
    TakingTheFirst(l, Sorted(l, Only(l, all)), limit);
    var shown := Listed(l, rows, limit).value;
    forall a, b ensures Precedes(l, a, b) <==> ComesFirst(l, a, b) {
      OrderAndKindAreMeant(l, a, b);
    }
    forall a ensures Belongs(l, a) <==> IsListedAs(l, a) {
      OrderAndKindAreMeant(l, a, a);
    }
  }

  /** What was decoded is what the rows decode to. */
  lemma {:induction false} DecodedFrom(rows: seq<Row>)
    ensures DecodedAll(rows).Ok? <==> forall row :: row in rows ==> Decode(row).Ok?
    ensures DecodedAll(rows).Ok? ==>
              forall r :: r in DecodedAll(rows).value <==> exists row :: row in rows && Decode(row) == Ok(r)
  {
    hide Decode;
    if rows != [] {
      DecodedFrom(rows[..|rows| - 1]);
      assert rows == rows[..|rows| - 1] + [Last(rows)];
      assert Last(rows) in rows;
    }
  }

  /** However the same rows are spread over pages, and in whatever order, the listing is the same. */
  lemma PagesDoNotMatter(l: Kind, rows: seq<Row>, others: seq<Row>, limit: nat)
    requires forall row :: row in rows <==> row in others
    requires DecodedAll(rows).Ok? && HasDistinctIds(DecodedAll(rows).value)
    requires DecodedAll(others).Ok? ==> HasDistinctIds(DecodedAll(others).value)
    ensures Listed(l, rows, limit) == Listed(l, others, limit)
  {
    hide Decode, Belongs, IsOrdered, Sorted, Only, HasDistinctIds;
    DecodedFrom(rows);
    DecodedFrom(others);
    var a, b := DecodedAll(rows).value, DecodedAll(others).value;
    SortedHoldsTheKind(l, a);
    SortedHoldsTheKind(l, b);
    OrderIsUnique(l, Sorted(l, Only(l, a)), Sorted(l, Only(l, b)));
  }

  /** Open and recent records together are all of the owner's records, and no record is both. */
  lemma ListingsPartition(rows: seq<Row>)
    requires DecodedAll(rows).Ok?
    ensures var all := DecodedAll(rows).value;
            && multiset(Only(Open, all)) + multiset(Only(Recent, all)) == multiset(all)
            && multiset(Only(Open, all)) !! multiset(Only(Recent, all))
  {
    hide Decode, DecodedAll;
    var all := DecodedAll(rows).value;
    OnlyKeepsBelonging(Open, all);
    OnlyKeepsBelonging(Recent, all);
  }

  // ----- SQL: filter, order and limit before decoding

  predicate IsByTime(l: Kind, s: seq<Record>) {
    forall i, j :: 0 <= i < j < |s| ==> TimeOf(l, s[i]) <= TimeOf(l, s[j])
  }

  /**
    What a query with ORDER BY one time column and LIMIT may return: the first rows of some arrangement
    of the matching rows in which that time never decreases (for recent ones: never increases).
   */
  predicate IsSqlAnswer(l: Kind, all: seq<Record>, arranged: seq<Record>, limit: nat, answer: seq<Record>) {
    && multiset(arranged) == multiset(Only(l, all))
    && IsByTime(l, arranged)
    && answer == Take(arranged, limit)
  }

  // ----- exactly when ties do not show

  /** No record among the first `limit` shares its time with the next one. */
  predicate ShowsNoTie(l: Kind, s: seq<Record>, limit: nat) {
    forall i :: 0 <= i < limit && i + 1 < |s| ==> TimeOf(l, s[i]) != TimeOf(l, s[i + 1])
  }

  lemma TwiceInBag(b: seq<Record>, i: nat, j: nat)
    requires i < j < |b| && b[i] == b[j]
    ensures multiset(b)[b[i]] >= 2
  {
    assert b == b[..i] + [b[i]] + b[i + 1..j] + [b[j]] + b[j + 1..];
  }

  lemma {:induction false} OnceInBag(a: seq<Record>, r: Record)
    requires HasDistinctIds(a)
    ensures multiset(a)[r] <= 1
  {
    if a != [] {
      var front := a[..|a| - 1];
      OnceInBag(front, r);
      assert a == front + [Last(a)];
      if multiset(front)[r] > 0 {
        var i :| 0 <= i < |front| && front[i] == r;
        assert a[i] == r && r != Last(a);
      }
    }
  }

  lemma SameBagIsDistinct(a: seq<Record>, b: seq<Record>)
    requires HasDistinctIds(a) && multiset(a) == multiset(b)
    ensures HasDistinctIds(b)
    ensures forall r :: r in a <==> r in b
  {
    forall r ensures r in a <==> r in b {
      assert r in a <==> multiset(a)[r] > 0;
      assert r in b <==> multiset(b)[r] > 0;
    }
    forall i, j | 0 <= i < j < |b| ensures b[i].resolutionId != b[j].resolutionId {
      if b[i] == b[j] {
        TwiceInBag(b, i, j);
        OnceInBag(a, b[i]);
      } else {
        assert b[i] in b && b[j] in b;
        assert b[i] in a && b[j] in a;
      }
    }
  }

  lemma WithoutFirst(s: seq<Record>)
    requires HasDistinctIds(s) && s != []
    ensures HasDistinctIds(s[1..])
    ensures forall r :: r in s[1..] <==> r in s && r != s[0]
  {
    forall r ensures r in s[1..] <==> r in s && r != s[0] {
      if r in s && r != s[0] {
        var j :| 0 <= j < |s| && s[j] == r;
        assert s[1..][j - 1] == r;
      }
    }
  }

  lemma EarliestIsFirst(l: Kind, s: seq<Record>, t: seq<Record>)
    requires s != [] && t != [] && IsByTime(l, s) && IsByTime(l, t) && (|s| > 1 ==> TimeOf(l, s[0]) != TimeOf(l, s[1]))
    requires forall r :: r in s <==> r in t
    ensures s[0] == t[0]
  {
    assert s[0] in t && t[0] in s;
    var j :| 0 <= j < |s| && s[j] == t[0];
    if j > 0 {
      assert TimeOf(l, s[1]) <= TimeOf(l, s[j]);
    }
  }

  lemma TailIsByTime(l: Kind, s: seq<Record>)
    requires s != [] && IsByTime(l, s)
    ensures IsByTime(l, s[1..])
  {
    hide TimeOf;
  }

  lemma TailShowsNoTie(l: Kind, s: seq<Record>, limit: nat)
    requires s != [] && limit > 0 && ShowsNoTie(l, s, limit)
    ensures ShowsNoTie(l, s[1..], limit - 1) && (|s| > 1 ==> TimeOf(l, s[0]) != TimeOf(l, s[1]))
  {
    hide TimeOf;
    forall i | 0 <= i < limit - 1 && i + 1 < |s[1..]| ensures TimeOf(l, s[1..][i]) != TimeOf(l, s[1..][i + 1]) {
      assert TimeOf(l, s[i + 1]) != TimeOf(l, s[i + 1 + 1]);
    }
  }

  lemma TakeFirst<T>(s: seq<T>, limit: nat)
    requires s != [] && limit > 0
    ensures Take(s, limit) == [s[0]] + Take(s[1..], limit - 1)
  {
  }

  lemma {:induction false} SameFirstOnes(l: Kind, s: seq<Record>, t: seq<Record>, limit: nat)
    requires HasDistinctIds(s) && HasDistinctIds(t) && IsByTime(l, s) && IsByTime(l, t) && ShowsNoTie(l, s, limit)
    requires forall r :: r in s <==> r in t
    ensures Take(s, limit) == Take(t, limit)
  {
    hide HasDistinctIds, TimeOf, IsByTime, ShowsNoTie;
    if s != [] {
      SomeMember(s, t);
    }
    if t != [] {
      SomeMember(t, s);
      if limit > 0 {
        TailShowsNoTie(l, s, limit);
        EarliestIsFirst(l, s, t);
        WithoutFirst(s);
        WithoutFirst(t);
        TailIsByTime(l, s);
        TailIsByTime(l, t);
        SameFirstOnes(l, s[1..], t[1..], limit - 1);
        TakeFirst(s, limit);
        TakeFirst(t, limit);
      }
    }
  }

  lemma SwappedBag<T>(p: seq<T>, a: T, b: T, q: seq<T>)
    ensures multiset(p + [a, b] + q) == multiset(p + [b, a] + q)
  {
  }

  lemma Swapped(l: Kind, s: seq<Record>, i: nat, limit: nat) returns (t: seq<Record>)
    requires i + 1 < |s| && i < limit && IsByTime(l, s) && TimeOf(l, s[i]) == TimeOf(l, s[i + 1]) && s[i] != s[i + 1]
    ensures multiset(t) == multiset(s) && IsByTime(l, t) && Take(t, limit) != Take(s, limit)
  {
    hide TimeOf;
    t := s[i := s[i + 1]][i + 1 := s[i]];
    SwappedBag(s[..i], s[i], s[i + 1], s[i + 2..]);
    assert s[..i] + [s[i], s[i + 1]] + s[i + 2..] == s;
    assert s[..i] + [s[i + 1], s[i]] + s[i + 2..] == t;
    SwappedByTime(l, s, i, t);
    assert Take(t, limit)[i] == t[i] && Take(s, limit)[i] == s[i];
  }

  lemma SwappedByTime(l: Kind, s: seq<Record>, i: nat, t: seq<Record>)
    requires i + 1 < |s| && IsByTime(l, s) && TimeOf(l, s[i]) == TimeOf(l, s[i + 1])
    requires t == s[i := s[i + 1]][i + 1 := s[i]]
    ensures IsByTime(l, t)
  {
    hide TimeOf;
    forall j | 0 <= j < |s| ensures TimeOf(l, t[j]) == TimeOf(l, s[j]) {
    }
  }

  lemma OrderedIsByTime(l: Kind, s: seq<Record>)
    requires IsOrdered(l, s)
    ensures IsByTime(l, s)
  {
    hide Before;
  }

  lemma SortedIsByTime(l: Kind, all: seq<Record>)
    requires HasDistinctIds(all)
    ensures IsByTime(l, Sorted(l, Only(l, all))) && HasDistinctIds(Sorted(l, Only(l, all)))
    ensures multiset(Sorted(l, Only(l, all))) == multiset(Only(l, all))
  {
    hide Only, Sorted, IsByTime, IsOrdered, HasDistinctIds;
    var kept := Only(l, all);
    OnlyKeepsDistinct(l, all);
    SortedIsOrdered(l, kept);
    OrderedIsByTime(l, Sorted(l, kept));
    SameBagIsDistinct(kept, Sorted(l, kept));
  }

  lemma TielessAnswersAgree(l: Kind, all: seq<Record>, arranged: seq<Record>, limit: nat, answer: seq<Record>)
    requires HasDistinctIds(all) && IsSqlAnswer(l, all, arranged, limit, answer)
    requires ShowsNoTie(l, Sorted(l, Only(l, all)), limit)
    ensures answer == Take(Sorted(l, Only(l, all)), limit)
  {
    hide Only, Sorted, IsByTime, HasDistinctIds, ShowsNoTie, Take;
    SortedIsByTime(l, all);
    SameBagIsDistinct(Sorted(l, Only(l, all)), arranged);
    SameFirstOnes(l, Sorted(l, Only(l, all)), arranged, limit);
  }

  lemma TiesAllowAnotherAnswer(l: Kind, all: seq<Record>, limit: nat) returns (arranged: seq<Record>)
    requires HasDistinctIds(all) && !ShowsNoTie(l, Sorted(l, Only(l, all)), limit)
    ensures IsSqlAnswer(l, all, arranged, limit, Take(arranged, limit))
    ensures Take(arranged, limit) != Take(Sorted(l, Only(l, all)), limit)
  {
    hide Only, Sorted, IsByTime, HasDistinctIds, TimeOf, Take;
    var sorted := Sorted(l, Only(l, all));
    SortedIsByTime(l, all);
    var i :| 0 <= i < limit && i + 1 < |sorted| && TimeOf(l, sorted[i]) == TimeOf(l, sorted[i + 1]);
    NeighboursDiffer(sorted, i);
    arranged := Swapped(l, sorted, i, limit);
  }

  /**
    Whatever the SQL query may answer is what DynamoDB lists, exactly if no record that is shown shares its
    time with the one after it.
   */
  lemma BackendsListAlikeExactly(l: Kind, rows: seq<Row>, limit: nat)
    requires DecodedAll(rows).Ok? && HasDistinctIds(DecodedAll(rows).value)
    ensures var all := DecodedAll(rows).value;
            (forall arranged, answer :: IsSqlAnswer(l, all, arranged, limit, answer) ==> Listed(l, rows, limit) == Ok(answer))
            <==> ShowsNoTie(l, Sorted(l, Only(l, all)), limit)
  {
    hide DecodedAll, Sorted, Only, Take, HasDistinctIds, ShowsNoTie, IsSqlAnswer;
    var all := DecodedAll(rows).value;
    if ShowsNoTie(l, Sorted(l, Only(l, all)), limit) {
      forall arranged, answer | IsSqlAnswer(l, all, arranged, limit, answer)
        ensures answer == Take(Sorted(l, Only(l, all)), limit)
      {
        TielessAnswersAgree(l, all, arranged, limit, answer);
      }
    } else {
      var arranged := TiesAllowAnotherAnswer(l, all, limit);
    }
  }

  lemma NeighboursDiffer(s: seq<Record>, i: nat)
    requires HasDistinctIds(s) && i + 1 < |s|
    ensures s[i] != s[i + 1]
  {
    assert s[i].resolutionId != s[i + 1].resolutionId;
  }
}
