/**
 The ownership tables as the database changes them in place: the PostgreSQL and
 SQLite row triggers, and the bulk delete that switches the row triggers off.
 */
module OwnershipDatabase {
  import opened Common
  import opened OwnershipLog

  const OWNER_TABLES: seq<Table> := [Instances, Episodes, Movies, Sports]

  // ---- Specification of the bulk delete

  function Deletes(order: seq<RowId>): seq<Event> {
    seq(|order|, i requires 0 <= i < |order| => Delete(order[i].table, order[i].id))
  }

  function RowSet(order: seq<RowId>): set<RowId> {
    set rid | rid in order
  }

  ghost predicate Distinct(order: seq<RowId>) {
    forall i, j | 0 <= i < j < |order| :: order[i] != order[j]
  }

  function TablesOf(order: seq<RowId>): set<Table> {
    set rid | rid in order :: rid.table
  }

  /** The same tables and the same change entries, up to the value of the
      full-resync marker. */
  ghost predicate SameButMarker(a: Store, b: Store) {
    && a.rows == b.rows
    && a.log.changes - {STAR} == b.log.changes - {STAR}
    && (STAR in a.log.changes <==> STAR in b.log.changes)
  }

  lemma DeletesSplit(order: seq<RowId>)
    requires order != []
    ensures Deletes(order)[0] == Delete(order[0].table, order[0].id)
    ensures Deletes(order)[1..] == Deletes(order[1..])
    ensures RowSet(order) == {order[0]} + RowSet(order[1..])
    ensures Distinct(order) ==> Distinct(order[1..]) && order[0] !in RowSet(order[1..])
  {
    assert order == [order[0]] + order[1..];
  }

  lemma DeletesRun(db: Store, order: seq<RowId>)
    requires order != []
    ensures TrackedRun(db, Deletes(order))
      == TrackedRun(TrackedWrite(db, Delete(order[0].table, order[0].id)), Deletes(order[1..]))
  {
    DeletesSplit(order);
  }

  lemma OneMoreKey(first: RowId, rest: set<RowId>)
    ensures RowKeys({first} + rest) == {RowKey(first)} + RowKeys(rest)
    ensures STAR !in RowKeys(rest)
  {
  }

  lemma RemovedInTwo(changes: map<Key, int>, one: Key, others: set<Key>, r: int, s: int)
    requires STAR !in others && one != STAR
    ensures ((changes - {one})[STAR := r] - others)[STAR := s] == (changes - ({one} + others))[STAR := s]
  {
  }

  /** The rows of `order` deleted one by one, with the row triggers of `tracking` on. */
  ghost function DeletedRows(db: Store, order: seq<RowId>, tracking: set<Table>): Store
    decreases |order|
  {
    if order == [] then db else DeletedRows(OneDeleted(db, order[0], tracking), order[1..], tracking)
  }

  function OneDeleted(db: Store, rid: RowId, tracking: set<Table>): Store {
    if rid.table in tracking then TrackedWrite(db, Delete(rid.table, rid.id))
    else db.(rows := db.rows - {rid})
  }

  lemma {:induction false} DeletedTracked(db: Store, order: seq<RowId>, tracking: set<Table>)
    requires forall rid | rid in order :: rid.table in tracking
    ensures DeletedRows(db, order, tracking) == TrackedRun(db, Deletes(order))
    decreases |order|
  {
    if order != [] {
      DeletesRun(db, order);
      DeletedTracked(TrackedWrite(db, Delete(order[0].table, order[0].id)), order[1..], tracking);
    }
  }

  lemma {:induction false} DeletedUntracked(db: Store, order: seq<RowId>, tracking: set<Table>)
    requires forall rid | rid in order :: rid.table !in tracking
    ensures DeletedRows(db, order, tracking) == db.(rows := db.rows - RowSet(order))
    decreases |order|
  {
    if order != [] {
      DeletesSplit(order);
      DeletedUntracked(db.(rows := db.rows - {order[0]}), order[1..], tracking);
      assert db.rows - {order[0]} - RowSet(order[1..]) == db.rows - ({order[0]} + RowSet(order[1..]));
    }
  }

  /** The rows of `order` whose trigger is on. */
  function Fired(order: seq<RowId>, tracking: set<Table>): seq<RowId>
    decreases |order|
  {
    if order == [] then []
    else (if order[0].table in tracking then [order[0]] else []) + Fired(order[1..], tracking)
  }

  lemma {:induction false} FiredIsIn(order: seq<RowId>, tracking: set<Table>, rid: RowId)
    ensures rid in Fired(order, tracking) <==> rid in order && rid.table in tracking
    decreases |order|
  {
    if order != [] {
      FiredIsIn(order[1..], tracking, rid);
      assert order == [order[0]] + order[1..];
    }
  }

  lemma FiredRows(order: seq<RowId>, tracking: set<Table>)
    ensures RowSet(Fired(order, tracking)) == set rid | rid in RowSet(order) && rid.table in tracking
    ensures Fired(order, tracking) == [] <==> TablesOf(order) !! tracking
  {
    var fired := Fired(order, tracking);
    forall rid ensures rid in fired <==> rid in order && rid.table in tracking {
      FiredIsIn(order, tracking, rid);
    }
    if fired != [] {
      assert fired[0] in order && fired[0].table in TablesOf(order);
    } else {
      forall t | t in TablesOf(order) ensures t !in tracking {
        var rid :| rid in order && rid.table == t;
        assert rid !in fired;
      }
    }
  }

  ghost predicate Deletable(rows: Rows, order: seq<RowId>) {
    Distinct(order) && forall i | 0 <= i < |order| :: order[i] in rows
  }

  lemma RestDeletable(rows: Rows, order: seq<RowId>)
    requires order != [] && Deletable(rows, order)
    ensures order[0] in rows && Deletable(rows - {order[0]}, order[1..])
  {
  }

  /** What deleting media rows one by one leaves in a log with counter value `r`. */
  function RaisedChanges(changes: map<Key, int>, fired: seq<RowId>, r: int): map<Key, int> {
    if fired == [] then changes else (changes - RowKeys(RowSet(fired)))[STAR := r + |fired|]
  }

  lemma OneDeleteOfMedia(db: Store, rid: RowId)
    requires db.log.revision.Some? && rid in db.rows && rid.table != Instances
    ensures
      var r := db.log.revision.value + 1;
      TrackedWrite(db, Delete(rid.table, rid.id))
      == Store(db.rows - {rid}, Log(Some(r), (db.log.changes - {RowKey(rid)})[STAR := r]))
  {
  }

  lemma RaisedOnceMore(changes: map<Key, int>, first: RowId, rest: seq<RowId>, r: int)
    ensures
      RaisedChanges((changes - {RowKey(first)})[STAR := r + 1], rest, r + 1)
      == RaisedChanges(changes, [first] + rest, r)
  {
    assert RowSet([first] + rest) == {first} + RowSet(rest);
    OneMoreKey(first, RowSet(rest));
    RemovedInTwo(changes, RowKey(first), RowKeys(RowSet(rest)), r + 1, r + 1 + |rest|);
    if rest == [] {
      assert RowKeys(RowSet([first] + rest)) == {RowKey(first)};
    }
  }

  lemma OneMediaRowLess(db: Store, rid: RowId, tracking: set<Table>)
    requires db.log.revision.Some? && rid in db.rows && (rid.table == Instances ==> rid.table !in tracking)
    ensures
      var next, fired := OneDeleted(db, rid, tracking), Fired([rid], tracking);
      && next.rows == db.rows - {rid}
      && next.log.revision == Some(db.log.revision.value + |fired|)
      && next.log.changes
         == if rid.table in tracking then (db.log.changes - {RowKey(rid)})[STAR := db.log.revision.value + 1]
            else db.log.changes
  {
    if rid.table in tracking {
      OneDeleteOfMedia(db, rid);
    }
  }

  function MediaDeleted(db: Store, order: seq<RowId>, tracking: set<Table>): Store
    requires db.log.revision.Some?
  {
    var r, fired := db.log.revision.value, Fired(order, tracking);
    Store(db.rows - RowSet(order), Log(Some(r + |fired|), RaisedChanges(db.log.changes, fired, r)))
  }

  lemma MediaDeletedOnceMore(db: Store, order: seq<RowId>, tracking: set<Table>)
    requires db.log.revision.Some? && order != [] && order[0] in db.rows
    requires order[0].table == Instances ==> order[0].table !in tracking
    ensures OneDeleted(db, order[0], tracking).log.revision.Some?
    ensures MediaDeleted(OneDeleted(db, order[0], tracking), order[1..], tracking) == MediaDeleted(db, order, tracking)
  {
    OneMediaRowLess(db, order[0], tracking);
    RowsDeletedOnceMore(db.rows, order);
    if order[0].table in tracking {
      RaisedOnceMore(db.log.changes, order[0], Fired(order[1..], tracking), db.log.revision.value);
    }
  }

  lemma RowsDeletedOnceMore(rows: Rows, order: seq<RowId>)
    requires order != []
    ensures rows - {order[0]} - RowSet(order[1..]) == rows - RowSet(order)
  {
    DeletesSplit(order);
    assert rows - {order[0]} - RowSet(order[1..]) == rows - ({order[0]} + RowSet(order[1..]));
  }

  /** What deleting the rows of `order` one by one leaves, when no deleted instance is
      tracked. */
  lemma {:induction false} RowByRowOfMedia(db: Store, order: seq<RowId>, tracking: set<Table>)
    requires db.log.revision.Some? && Deletable(db.rows, order)
    requires Instances !in TablesOf(order) * tracking
    ensures DeletedRows(db, order, tracking) == MediaDeleted(db, order, tracking)
    decreases |order|
  {
    if order == [] {
      assert db.rows - RowSet(order) == db.rows;
    } else {
      RestDeletable(db.rows, order);
      TablesSplit(order);
      OneMediaRowLess(db, order[0], tracking);
      RowByRowOfMedia(OneDeleted(db, order[0], tracking), order[1..], tracking);
      MediaDeletedOnceMore(db, order, tracking);
    }
  }

  lemma TablesSplit(order: seq<RowId>)
    requires order != []
    ensures TablesOf(order) == {order[0].table} + TablesOf(order[1..])
  {
    assert order == [order[0]] + order[1..];
  }

  /** Deleting an instance row by row raises the one instances entry. */
  lemma {:induction false} RowByRowRaisesInstances(db: Store, order: seq<RowId>, tracking: set<Table>)
    requires Coherent(db.log) && Deletable(db.rows, order)
    ensures
      var end, before := DeletedRows(db, order, tracking).log, db.log;
      && Coherent(end)
      && end.revision.value >= before.revision.value
      && (INSTANCES in before.changes ==>
            INSTANCES in end.changes && end.changes[INSTANCES] >= before.changes[INSTANCES])
      && (Instances in TablesOf(order) * tracking ==> Above(end, INSTANCES, before.revision.value))
    decreases |order|
  {
    if order != [] {
      var first, rest := order[0], order[1..];
      RestDeletable(db.rows, order);
      TablesSplit(order);
      InstancesRaisedOnce(db, first, tracking);
      RowByRowRaisesInstances(OneDeleted(db, first, tracking), rest, tracking);
    }
  }

  lemma InstancesRaisedOnce(db: Store, rid: RowId, tracking: set<Table>)
    requires Coherent(db.log) && rid in db.rows
    ensures
      var next := OneDeleted(db, rid, tracking);
      && Coherent(next.log) && next.rows == db.rows - {rid}
      && next.log.revision.value >= db.log.revision.value
      && (INSTANCES in db.log.changes ==>
            INSTANCES in next.log.changes && next.log.changes[INSTANCES] >= db.log.changes[INSTANCES])
      && (rid.table == Instances && rid.table in tracking ==> Above(next.log, INSTANCES, db.log.revision.value))
  {
    WriteKeepsCoherent(db.log, Delete(rid.table, rid.id));
  }

  /** Exactly when the bulk path leaves what the row triggers of `tables` would have
      left: no doomed row of those tables is an instance, and there is such a row,
      unless no trigger was on or the log already demands a full resync. */
  lemma BulkRefinesRowByRow(db: Store, order: seq<RowId>, tables: set<Table>)
    requires Coherent(db.log) && Deletable(db.rows, order)
    ensures SameButMarker(DeletedRows(db, order, tables), BulkDeleted(db, RowSet(order), tables))
      <==> tables == {}
           || (Instances !in TablesOf(order) * tables
               && (TablesOf(order) !! tables ==> STAR in db.log.changes))
  {
    if tables == {} {
      DeletedUntracked(db, order, tables);
    } else if Instances in TablesOf(order) * tables {
      BulkForgetsInstances(db, order, tables);
    } else {
      BulkOfMedia(db, order, tables);
    }
  }

  lemma BulkOfMedia(db: Store, order: seq<RowId>, tables: set<Table>)
    requires Coherent(db.log) && Deletable(db.rows, order)
    requires tables != {} && Instances !in TablesOf(order) * tables
    ensures SameButMarker(DeletedRows(db, order, tables), BulkDeleted(db, RowSet(order), tables))
      <==> (TablesOf(order) !! tables ==> STAR in db.log.changes)
  {
    var fired := Fired(order, tables);
    var r := db.log.revision.value;
    FiredRows(order, tables);
    RowByRowOfMedia(db, order, tables);
    var rowByRow, bulk := DeletedRows(db, order, tables), BulkDeleted(db, RowSet(order), tables);
    assert bulk.log.changes == (db.log.changes - RowKeys(RowSet(fired)))[STAR := r + 1];
    if fired == [] {
      assert RowKeys(RowSet(fired)) == {};
    }
  }

  lemma BulkForgetsInstances(db: Store, order: seq<RowId>, tables: set<Table>)
    requires Coherent(db.log) && Deletable(db.rows, order)
    requires Instances in TablesOf(order) * tables
    ensures !SameButMarker(DeletedRows(db, order, tables), BulkDeleted(db, RowSet(order), tables))
  {
    RowByRowRaisesInstances(db, order, tables);
    var byRow := DeletedRows(db, order, tables).log.changes - {STAR};
    var inBulk := BulkDeleted(db, RowSet(order), tables).log.changes - {STAR};
    assert INSTANCES in byRow && byRow[INSTANCES] > db.log.revision.value;
    assert INSTANCES in inBulk ==> inBulk[INSTANCES] <= db.log.revision.value;
  }

  /** The two paths differ only in the counter and the marker standing at it,
      and both tell every earlier snapshot to resync fully. */
  lemma BulkTellsEverySnapshot(db: Store, order: seq<RowId>, tables: set<Table>, s: Snapshot)
    requires Coherent(db.log) && Deletable(db.rows, order)
    requires Instances !in TablesOf(order) * tables && TablesOf(order) * tables != {}
    requires s.revision <= db.log.revision.value
    ensures
      var rows, bulk := DeletedRows(db, order, tables).log, BulkDeleted(db, RowSet(order), tables).log;
      && rows.revision == Some(db.log.revision.value + |Fired(order, tables)|)
      && STAR in rows.changes && rows.changes[STAR] == db.log.revision.value + |Fired(order, tables)|
      && bulk.revision == Some(db.log.revision.value + 1)
      && STAR in bulk.changes && bulk.changes[STAR] == db.log.revision.value + 1
      && Above(rows, STAR, s.revision) && Above(bulk, STAR, s.revision)
  {
    FiredRows(order, tables);
    RowByRowTells(db, order, tables);
    BulkMarks(db, RowSet(order), tables);
  }

  lemma RowByRowTells(db: Store, order: seq<RowId>, tables: set<Table>)
    requires db.log.revision.Some? && Deletable(db.rows, order)
    requires Instances !in TablesOf(order) * tables && Fired(order, tables) != []
    ensures
      var log, r := DeletedRows(db, order, tables).log, db.log.revision.value + |Fired(order, tables)|;
      log.revision == Some(r) && STAR in log.changes && log.changes[STAR] == r
  {
    RowByRowOfMedia(db, order, tables);
    RaisedMarks(db.log.changes, Fired(order, tables), db.log.revision.value);
  }

  lemma RaisedMarks(changes: map<Key, int>, fired: seq<RowId>, r: int)
    requires fired != []
    ensures
      var raised := RaisedChanges(changes, fired, r);
      STAR in raised && raised[STAR] == r + |fired|
  {
  }

  lemma BulkMarks(db: Store, doomed: set<RowId>, tables: set<Table>)
    requires db.log.revision.Some? && tables != {}
    ensures
      var log := BulkDeleted(db, doomed, tables).log;
      && log.revision == Some(db.log.revision.value + 1)
      && STAR in log.changes && log.changes[STAR] == db.log.revision.value + 1
  {
  }

  // ---- The database

  class Database {
    var rows: Rows
    var revision: Option<int>
    var changes: map<Key, int>
    /** The owner tables whose row trigger is on. */
    var tracking: set<Table>

    function State(): Store
      reads this
    {
      Store(rows, Log(revision, changes))
    }

    constructor (rows: Rows, revision: Option<int>, changes: map<Key, int>, tracking: set<Table>)
      ensures State() == Store(rows, Log(revision, changes)) && this.tracking == tracking
    {
      this.rows, this.revision, this.changes, this.tracking := rows, revision, changes, tracking;
    }

    /** The body of the PostgreSQL row function. False when it raises. */
    method PostgresRowTrigger(e: Event) returns (ok: bool)
      requires !e.Truncate?
      modifies this`revision, this`changes
      ensures ok == old(revision).Some?
      ensures ok ==> State().log == Logged(old(State().log), e)
      ensures !ok ==> State() == old(State())
    {
      if revision == None {
        return false;
      }
      revision := Some(revision.value + 1);
      if e.table == Instances {
        changes := changes[INSTANCES := revision.value];
      } else if e.Delete? {
        changes := changes - {Key(Of(e.table), e.id)};
        changes := changes[STAR := revision.value];
      } else {
        var newId := if e.Insert? then e.id else e.newId;
        changes := changes[Key(Of(e.table), newId) := revision.value];
        if e.Update? && e.id != e.newId {
          changes := changes - {Key(Of(e.table), e.id)};
          changes := changes[STAR := revision.value];
        }
      }
      ok := true;
    }

    /** The body of the PostgreSQL truncate function. False when it raises. */
    method PostgresTruncateTrigger(t: Table) returns (ok: bool)
      modifies this`revision, this`changes
      ensures ok == old(revision).Some?
      ensures ok ==> State().log == Logged(old(State().log), Truncate(t))
      ensures !ok ==> State() == old(State())
    {
      if revision == None {
        return false;
      }
      revision := Some(revision.value + 1);
      changes := map k | k in changes && k.name != Of(t) :: changes[k];
      changes := changes[STAR := revision.value];
      ok := true;
    }

    /** The SQLite trigger generated for the table and action of `e`. */
    method SqliteTrigger(e: Event) returns (ok: bool)
      requires !e.Truncate?
      modifies this`revision, this`changes
      ensures ok == old(revision).Some?
      ensures ok ==> State().log == Logged(old(State().log), e)
      ensures !ok ==> State() == old(State())
    {
      if revision == None {
        return false;
      }
      revision := Some(revision.value + 1);
      if e.table == Instances {
        changes := changes[INSTANCES := revision.value];
        return true;
      }
      match e {
        case Delete(t, id) =>
          changes := changes - {Key(Of(t), id)};
          changes := changes[STAR := revision.value];
        case Insert(t, id, _) =>
          changes := changes[Key(Of(t), id) := revision.value];
        case Update(t, id, newId, _) =>
          changes := changes[Key(Of(t), newId) := revision.value];
          changes := if id != newId then changes - {Key(Of(t), id)} else changes;
          changes := if id != newId then changes[STAR := revision.value] else changes;
      }
      ok := true;
    }

    /** One write. With the trigger of its table on, a write is logged or, when
        the trigger raises, does not happen. */
    method Write(e: Event, postgres: bool) returns (ok: bool)
      requires e.Truncate? ==> postgres
      modifies this`rows, this`revision, this`changes
      ensures e.table in tracking ==> State() == TrackedWrite(old(State()), e)
      ensures e.table !in tracking && Possible(old(rows), e) ==>
        State() == old(State()).(rows := Applied(old(rows), e))
      ensures ok <==> Possible(old(rows), e) && (e.table in tracking ==> old(revision).Some?)
      ensures !ok ==> State() == old(State())
    {
      if !Possible(rows, e) {
        return false;
      }
      if e.table in tracking {
        if e.Truncate? {
          ok := PostgresTruncateTrigger(e.table);
        } else if postgres {
          ok := PostgresRowTrigger(e);
        } else {
          ok := SqliteTrigger(e);
        }
        if !ok {
          return;
        }
      }
      rows := Applied(rows, e);
      ok := true;
    }

    /** Delete the rows of `order` one by one, each firing its row trigger if that is
        on. The caller's transaction takes a failure back. */
    method DeleteRows(order: seq<RowId>, postgres: bool) returns (ok: bool)
      requires Deletable(rows, order)
      modifies this`rows, this`revision, this`changes
      ensures ok <==> old(revision).Some? || TablesOf(order) !! tracking
      ensures State() == if ok then DeletedRows(old(State()), order, tracking) else old(State())
    {
      var savedRows, savedRevision, savedChanges := rows, revision, changes;
      ghost var before := State();
      var i := 0;
      FiredRows(order, tracking);
      assert order[0..] == order;
      while i < |order|
        invariant 0 <= i <= |order|
        invariant Deletable(rows, order[i..])
        invariant revision.Some? == old(revision).Some?
        invariant revision.None? ==> Fired(order, tracking) == Fired(order[i..], tracking)
        invariant DeletedRows(before, order, tracking) == DeletedRows(State(), order[i..], tracking)
      {
        RestDeletable(rows, order[i..]);
        assert order[i..][0] == order[i] && order[i..][1..] == order[i + 1..];
        ok := DeleteRow(order[i], postgres);
        if !ok {
          rows, revision, changes := savedRows, savedRevision, savedChanges;
          return;
        }
        i := i + 1;
      }
      ok := true;
      assert order[i..] == [];
    }

    method DeleteRow(rid: RowId, postgres: bool) returns (ok: bool)
      requires rid in rows
      modifies this`rows, this`revision, this`changes
      ensures ok <==> rid.table in tracking ==> old(revision).Some?
      ensures ok ==> State() == OneDeleted(old(State()), rid, tracking)
      ensures ok ==> rows == old(rows) - {rid} && revision.Some? == old(revision).Some?
    {
      ok := Write(Delete(rid.table, rid.id), postgres);
    }

    /** The bulk delete of the rows in `order`, whose tables are among those the caller
        `listed`. The caller's transaction takes a failure back, the switch included. */
    method DeleteInBulk(order: seq<RowId>, listed: set<Table>, postgres: bool) returns (ok: bool)
      requires Deletable(rows, order) && TablesOf(order) <= listed
      modifies this
      ensures tracking == old(tracking)
      ensures ok <==> old(revision).Some? || (if postgres then listed else TablesOf(order)) !! tracking
      ensures !ok ==> State() == old(State())
      ensures ok && postgres ==> State() == BulkDeleted(old(State()), RowSet(order), listed * tracking)
      ensures ok && !postgres ==> State() == DeletedRows(old(State()), order, tracking)
    {
      assert forall t | t in listed && t in tracking :: t in listed * tracking;
      if !postgres || listed * tracking == {} {
        if listed !! tracking {
          forall rid | rid in order ensures rid.table in TablesOf(order) {
          }
          DeletedUntracked(State(), order, tracking);
          assert listed * tracking == {};
        }
        ok := DeleteRows(order, postgres);
        return;
      }
      var savedRows, savedChanges, savedTracking := rows, changes, tracking;
      assert listed * tracking != {};
      SwitchOff(order, listed);
      DeletedUntracked(State(), order, tracking);
      ok := DeleteRows(order, postgres);
      assert State() == Store(savedRows - RowSet(order), Log(revision, changes));
      if revision == None {
        rows, changes, tracking := savedRows, savedChanges, savedTracking;
        return false;
      }
      revision := Some(revision.value + 1);
      changes := changes[STAR := revision.value];
      tracking := savedTracking;
    }

    /** Switch the row triggers of the listed tables off and forget their doomed rows. */
    method SwitchOff(order: seq<RowId>, listed: set<Table>)
      requires TablesOf(order) <= listed
      modifies this`changes, this`tracking
      ensures tracking == old(tracking) - listed
      ensures changes == old(changes) - RowKeys(set rid | rid in RowSet(order) && rid.table in listed * old(tracking))
      ensures forall rid | rid in order :: rid.table !in tracking
    {
      var off: set<Table> := {};
      var i := 0;
      forall rid | rid in order ensures rid.table in TablesOf(order) {
      }
      while i < |OWNER_TABLES|
        invariant 0 <= i <= |OWNER_TABLES|
        invariant forall t :: t in off <==> t in OWNER_TABLES[..i] && t in listed * old(tracking)
        invariant tracking == old(tracking) - off
        invariant changes == old(changes) - RowKeys(set rid | rid in RowSet(order) && rid.table in off)
      {
        var t := OWNER_TABLES[i];
        assert OWNER_TABLES[..i + 1] == OWNER_TABLES[..i] + [t];
        if t in listed && t in tracking {
          tracking := tracking - {t};
          changes := changes - RowKeys(set rid | rid in RowSet(order) && rid.table == t);
          off := off + {t};
        }
        i := i + 1;
      }
      assert OWNER_TABLES[..i] == [Instances, Episodes, Movies, Sports];
      forall t: Table ensures t in OWNER_TABLES[..i] {
        assert t.Instances? || t.Episodes? || t.Movies? || t.Sports?;
      }
      assert off == listed * old(tracking);
    }
  }
}
