/**
  Writers whose save is a read followed, later, by a guarded UPDATE refine writers whose save is one
  atomic compare-and-swap that also compares the exact history.
 */
module SqlRefinement {
  import opened Wrappers
  import opened Records
  import opened Contract
  import opened Stores
  import Codec

  /** A save between its read and its UPDATE: what it wants to write, and the row it checked. */
  datatype Writer = Writer(next: Record, observed: Record)

  /** All rows ever stored, oldest first, and the saves that are half done. */
  datatype SqlSystem = SqlSystem(rows: map<Key, seq<Record>>, writers: map<nat, Writer>)

  predicate Inserts(s: SqlSystem, t: SqlSystem, r: Record) {
    && KeyOf(r) !in s.rows && IsValidNew(r)
    && t == s.(rows := s.rows[KeyOf(r) := [r]])
  }

  /** The first phase: read the row and make every check on it. */
  predicate BeginsSave(s: SqlSystem, t: SqlSystem, wid: nat, next: Record) {
    && wid !in s.writers && KeyOf(next) in s.rows && s.rows[KeyOf(next)] != []
    && var row := Last(s.rows[KeyOf(next)]);
       && SqlCheck(Some(Codec.Encode(row)), next, next.version).None?
       && t == s.(writers := s.writers[wid := Writer(next, row)])
  }

  /** The second phase: the UPDATE, guarded by version and state only. */
  predicate Commits(s: SqlSystem, t: SqlSystem, wid: nat) {
    && wid in s.writers
    && var next := s.writers[wid].next;
       var k := KeyOf(next);
       && k in s.rows && s.rows[k] != []
       && SqlGuard(Codec.Encode(Last(s.rows[k])), next, next.version)
       && t == SqlSystem(s.rows[k := s.rows[k] + [Stored(next)]], s.writers - {wid})
  }

  /** The UPDATE matched no row, or the writer disappeared. */
  predicate Abandons(s: SqlSystem, t: SqlSystem, wid: nat) {
    wid in s.writers && t == s.(writers := s.writers - {wid})
  }

  datatype SqlStep = Insert(r: Record) | Begin(wid: nat, next: Record) | Commit(wid: nat) | Abandon(wid: nat)

  predicate SqlNext(s: SqlSystem, t: SqlSystem, step: SqlStep) {
    match step
    case Insert(r) => Inserts(s, t, r)
    case Begin(wid, next) => BeginsSave(s, t, wid, next)
    case Commit(wid) => Commits(s, t, wid)
    case Abandon(wid) => Abandons(s, t, wid)
  }

  datatype SqlRun = SqlRun(states: seq<SqlSystem>, steps: seq<SqlStep>)

  ghost predicate IsSqlRun(run: SqlRun) {
    && |run.states| == |run.steps| + 1
    && run.states[0] == SqlSystem(map[], map[])
    && forall i :: 0 <= i < |run.steps| ==> SqlNext(run.states[i], run.states[i + 1], run.steps[i])
  }

  // ----- the store that decides each save at once

  /** A step of the atomic store: nothing, an insert, or one compare-and-swap over the current row. */
  ghost predicate AtomicNext(a: map<Key, seq<Record>>, b: map<Key, seq<Record>>) {
    || b == a
    || (exists r :: KeyOf(r) !in a && IsValidNew(r) && b == a[KeyOf(r) := [r]])
    || (exists next :: AtomicSave(a, b, next))
  }

  predicate AtomicSave(a: map<Key, seq<Record>>, b: map<Key, seq<Record>>, next: Record) {
    var k := KeyOf(next);
    && k in a && a[k] != []
    && Accepts(Last(a[k]), next)
    && b == a[k := a[k] + [Stored(next)]]
  }

  // ----- equal versions mean equal rows

  predicate IsVersioned(rows: map<Key, seq<Record>>) {
    forall k :: k in rows ==>
      && rows[k] != []
      && forall i :: 0 <= i < |rows[k]| ==> rows[k][i].version == i && KeyOf(rows[k][i]) == k
  }

  /** The row a writer checked is the one that was stored at its version. */
  predicate HasObserved(rows: map<Key, seq<Record>>, w: Writer) {
    var k := KeyOf(w.next);
    && k in rows
    && 0 <= w.observed.version < |rows[k]|
    && rows[k][w.observed.version] == w.observed
    && w.next.version == w.observed.version
    && Accepts(w.observed, w.next)
  }

  predicate IsConsistent(s: SqlSystem) {
    && IsVersioned(s.rows)
    && forall wid :: wid in s.writers ==> HasObserved(s.rows, s.writers[wid])
  }

  lemma BeginIsConsistent(s: SqlSystem, t: SqlSystem, wid: nat, next: Record)
    requires IsConsistent(s) && BeginsSave(s, t, wid, next)
    ensures IsConsistent(t)
  {
    hide Accepts, SqlCheck, SqlGuard, Codec.Encode;
    var row := Last(s.rows[KeyOf(next)]);
    SqlDecidesAtomically(row, next);
    AcceptsSameVersion(row, next);
    assert HasObserved(t.rows, Writer(next, row));
  }

  lemma AcceptsSameVersion(row: Record, next: Record)
    requires Accepts(row, next)
    ensures row.version == next.version
  {
    hide IsValid;
  }

  /**
    The guard of the UPDATE compares only version and state. Yet it admits a writer exactly when an atomic
    compare-and-swap on the current row would, exact history included.
   */
  lemma GuardedUpdateIsAtomic(s: SqlSystem, wid: nat)
    requires IsConsistent(s) && wid in s.writers
    ensures var next := s.writers[wid].next;
            && KeyOf(next) in s.rows && s.rows[KeyOf(next)] != []
            && (SqlGuard(Codec.Encode(Last(s.rows[KeyOf(next)])), next, next.version)
                <==> Accepts(Last(s.rows[KeyOf(next)]), next))
  {
    hide IsValid, SqlCheck, AllowedPreviousStates, Codec.StateName, Codec.StateNamed;
    var w := s.writers[wid];
    var rows := s.rows[KeyOf(w.next)];
    assert HasObserved(s.rows, w);
    assert Last(rows).version == |rows| - 1;
    SqlDecidesAtomically(Last(rows), w.next);
  }

  lemma CommitIsConsistent(s: SqlSystem, t: SqlSystem, wid: nat)
    requires IsConsistent(s) && Commits(s, t, wid)
    ensures IsConsistent(t)
    ensures AtomicSave(s.rows, t.rows, s.writers[wid].next)
  {
    hide Accepts, SqlCheck, SqlGuard, Codec.Encode;
    GuardedUpdateIsAtomic(s, wid);
    var next := s.writers[wid].next;
    var k := KeyOf(next);
    AcceptsSameVersion(Last(s.rows[k]), next);
    forall x | x in t.writers ensures HasObserved(t.rows, t.writers[x]) {
      assert HasObserved(s.rows, s.writers[x]);
    }
  }

  lemma SqlStepIsConsistent(s: SqlSystem, t: SqlSystem, step: SqlStep)
    requires IsConsistent(s) && SqlNext(s, t, step)
    ensures IsConsistent(t) && AtomicNext(s.rows, t.rows)
  {
    hide Accepts, SqlCheck, SqlGuard, Codec.Encode, IsValid;
    match step {
      case Insert(r) =>
      case Begin(wid, next) => BeginIsConsistent(s, t, wid, next);
      case Commit(wid) => CommitIsConsistent(s, t, wid);
      case Abandon(wid) =>
    }
  }

  lemma {:induction false} SqlRunsAreConsistent(run: SqlRun, i: nat)
    requires IsSqlRun(run) && i < |run.states|
    ensures IsConsistent(run.states[i])
  {
    hide SqlNext, IsConsistent;
    if i == 0 {
      NothingIsConsistent();
    } else {
      SqlRunsAreConsistent(run, i - 1);
      SqlStepIsConsistent(run.states[i - 1], run.states[i], run.steps[i - 1]);
    }
  }

  lemma NothingIsConsistent()
    ensures IsConsistent(SqlSystem(map[], map[]))
  {
  }

  /** Every run of two-phase saves is, row for row, a run of the atomic store. */
  lemma SqlRefinesAtomicStore(run: SqlRun, i: nat)
    requires IsSqlRun(run) && i < |run.steps|
    ensures AtomicNext(run.states[i].rows, run.states[i + 1].rows)
  {
    hide SqlNext, IsConsistent, AtomicNext;
    SqlRunsAreConsistent(run, i);
    SqlStepIsConsistent(run.states[i], run.states[i + 1], run.steps[i]);
  }

  /** No save is lost: a half-done save whose row is still current is one that the atomic store accepts. */
  lemma UnchangedRowsAdmitTheirWriter(run: SqlRun, i: nat, wid: nat)
    requires IsSqlRun(run) && i < |run.states| && wid in run.states[i].writers
    ensures var s := run.states[i];
            var w := s.writers[wid];
            && KeyOf(w.next) in s.rows && s.rows[KeyOf(w.next)] != []
            && (Last(s.rows[KeyOf(w.next)]).version == w.observed.version <==>
                SqlGuard(Codec.Encode(Last(s.rows[KeyOf(w.next)])), w.next, w.next.version))
  {
    hide SqlNext, IsValid, SqlCheck, SqlGuard, Codec.Encode;
    SqlRunsAreConsistent(run, i);
    var s := run.states[i];
    GuardedUpdateIsAtomic(s, wid);
    assert HasObserved(s.rows, s.writers[wid]);
  }
}
