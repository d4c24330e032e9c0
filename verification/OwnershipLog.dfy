/**
 The ownership change log: four owner tables, one revision counter and one
 change table, which triggers keep in step so that a cached ownership snapshot
 can be brought up to date from the rows the log names.

 The reader is the snapshot cache of bazarr/sportarr/output.py. What it keeps
 for a media row is computed from the row and from the path mappings of the
 instance owning it, so `Derived` holds exactly those two inputs.
 */
module OwnershipLog {
  import opened Common

  datatype Table = Instances | Episodes | Movies | Sports

  datatype Row =
    | InstanceRow(kind: string, mappings: Option<string>)
    | MediaRow(owner: Option<int>, path: string, subtitles: string)

  datatype RowId = RowId(table: Table, id: int)

  type Rows = map<RowId, Row>

  /** The table_name column of the change table: '*', 'generation' or an owner table. */
  datatype Name = Star | Generation | Of(table: Table)

  datatype Key = Key(name: Name, row: int)

  const STAR: Key := Key(Star, 0)
  const GENERATION: Key := Key(Generation, 0)
  const INSTANCES: Key := Key(Of(Instances), 0)

  function RowKey(rid: RowId): Key {
    Key(Of(rid.table), rid.id)
  }

  /** `revision` is None when the one counter row is missing. */
  datatype Log = Log(revision: Option<int>, changes: map<Key, int>)

  datatype Store = Store(rows: Rows, log: Log)

  // ---- Writes to the owner tables

  datatype Event =
    | Insert(table: Table, id: int, row: Row)
    | Update(table: Table, id: int, newId: int, row: Row)
    | Delete(table: Table, id: int)
    | Truncate(table: Table)

  /** The primary key admits the write. */
  predicate Possible(rows: Rows, e: Event) {
    match e
    case Insert(t, id, _) => RowId(t, id) !in rows
    case Update(t, id, newId, _) => RowId(t, id) in rows && (newId == id || RowId(t, newId) !in rows)
    case Delete(t, id) => RowId(t, id) in rows
    case Truncate(_) => true
  }

  function Applied(rows: Rows, e: Event): Rows {
    match e
    case Insert(t, id, row) => rows[RowId(t, id) := row]
    case Update(t, id, newId, row) => (rows - {RowId(t, id)})[RowId(t, newId) := row]
    case Delete(t, id) => rows - {RowId(t, id)}
    case Truncate(t) => map rid | rid in rows && rid.table != t :: rows[rid]
  }

  /** What the trigger of a write leaves in the change table, at counter value `r`. */
  function LoggedChanges(changes: map<Key, int>, e: Event, r: int): map<Key, int> {
    if e.Truncate? then
      (map k | k in changes && k.name != Of(e.table) :: changes[k])[STAR := r]
    else if e.table == Instances then
      changes[INSTANCES := r]
    else match e
      case Insert(t, id, _) => changes[Key(Of(t), id) := r]
      case Update(t, id, newId, _) =>
        var upserted := changes[Key(Of(t), newId) := r];
        if id == newId then upserted else (upserted - {Key(Of(t), id)})[STAR := r]
      case Delete(t, id) => (changes - {Key(Of(t), id)})[STAR := r]
  }

  function Logged(log: Log, e: Event): Log
    requires log.revision.Some?
  {
    var r := log.revision.value + 1;
    Log(Some(r), LoggedChanges(log.changes, e, r))
  }

  /** A write whose trigger is on. Without the counter row the trigger raises
      and takes the write with it. */
  function TrackedWrite(db: Store, e: Event): Store {
    if !Possible(db.rows, e) || db.log.revision.None? then db
    else Store(Applied(db.rows, e), Logged(db.log, e))
  }

  function TrackedRun(db: Store, es: seq<Event>): Store
    decreases |es|
  {
    if es == [] then db else TrackedRun(TrackedWrite(db, es[0]), es[1..])
  }

  // ---- The bulk delete

  function RowKeys(rids: set<RowId>): set<Key> {
    set rid | rid in rids :: RowKey(rid)
  }

  /** The rows `doomed` deleted with the row triggers of `tables` off: one bump, one
      full-resync marker and no entry left for a doomed row of those tables. With no
      trigger to switch off the rows just go; without the counter row it all fails. */
  function BulkDeleted(db: Store, doomed: set<RowId>, tables: set<Table>): Store {
    if tables == {} then db.(rows := db.rows - doomed)
    else if db.log.revision.None? then db
    else
      var r := db.log.revision.value + 1;
      var removed := RowKeys(set rid | rid in doomed && rid.table in tables);
      Store(db.rows - doomed, Log(Some(r), (db.log.changes - removed)[STAR := r]))
  }

  // ---- The reader

  /** Everything the reader's index entries of one media row depend on. */
  datatype Derived = Derived(mappings: Option<string>, row: Row)

  datatype Snapshot = Snapshot(configuration: string, generation: int, revision: int,
                               instances: Rows, entries: map<RowId, Derived>)

  function InstancesOf(rows: Rows): Rows {
    map rid | rid in rows && rid.table == Instances :: rows[rid]
  }

  function Derive(instances: Rows, row: Row): Derived {
    var owner := if row.MediaRow? then row.owner else None;
    var mappings :=
      if owner.Some? && RowId(Instances, owner.value) in instances
         && instances[RowId(Instances, owner.value)].InstanceRow?
      then instances[RowId(Instances, owner.value)].mappings
      else None;
    Derived(mappings, row)
  }

  /** A full re-read of the tables. */
  function Fresh(rows: Rows, configuration: string, generation: int, revision: int): Snapshot {
    Snapshot(configuration, generation, revision, InstancesOf(rows),
             map rid | rid in rows && rid.table != Instances :: Derive(InstancesOf(rows), rows[rid]))
  }

  predicate Above(log: Log, key: Key, revision: int) {
    key in log.changes && log.changes[key] > revision
  }

  /** The cached snapshot may be brought up to date instead of being rebuilt. */
  predicate Incremental(cached: Snapshot, log: Log, configuration: string, revision: int) {
    && cached.configuration == configuration
    && GENERATION in log.changes && cached.generation == log.changes[GENERATION]
    && cached.revision <= revision
    && (forall k | k in log.changes && log.changes[k] > cached.revision :: k.name != Star && k.name != Of(Instances))
  }

  /** Re-read exactly the media rows the log names above the snapshot. */
  function Replaced(cached: Snapshot, db: Store): map<RowId, Derived> {
    var listed := map rid | rid in db.rows && rid.table != Instances && Above(db.log, RowKey(rid), cached.revision)
      :: Derive(cached.instances, db.rows[rid]);
    cached.entries + listed
  }

  /** The snapshot the cache makes of the tables, from the cached one where it may. */
  function Rebuilt(cached: Option<Snapshot>, db: Store, configuration: string, revision: int): Snapshot
    requires GENERATION in db.log.changes
  {
    if cached.Some? && Incremental(cached.value, db.log, configuration, revision) then
      cached.value.(revision := revision, entries := Replaced(cached.value, db))
    else Fresh(db.rows, configuration, db.log.changes[GENERATION], revision)
  }

  /** The snapshot cache, given the cached snapshot if there is one. */
  function Refresh(cached: Option<Snapshot>, db: Store, configuration: string, revision: int): Result<Snapshot> {
    if GENERATION !in db.log.changes then Err("generation unavailable")
    else if db.log.revision != Some(revision) then Err("ownership changed")
    else Ok(Rebuilt(cached, db, configuration, revision))
  }

  // ---- What every write keeps

  /** No entry but the generation is above the counter, and the three names
      that are not media tables use row 0 only. */
  ghost predicate Coherent(log: Log) {
    && log.revision.Some?
    && GENERATION in log.changes
    && (forall k | k in log.changes && k != GENERATION :: log.changes[k] <= log.revision.value)
    && (forall k | k in log.changes && (k.name in {Star, Generation} || k.name == Of(Instances)) :: k.row == 0)
  }

  /** Every row-level entry names a row that exists. */
  ghost predicate NamesLiveRows(db: Store) {
    forall rid: RowId | rid.table != Instances && RowKey(rid) in db.log.changes :: rid in db.rows
  }

  /** The log says enough about `s`: it demands a full resync, or every media
      row that differs from the snapshot has an entry above it, no row of the
      snapshot is gone and the instances are the ones it read. */
  ghost predicate Tracks(s: Snapshot, db: Store) {
    && db.log.revision.Some? && s.revision <= db.log.revision.value
    && GENERATION in db.log.changes && db.log.changes[GENERATION] == s.generation
    && (Above(db.log, STAR, s.revision) || Above(db.log, INSTANCES, s.revision) || RowsTracked(s, db))
  }

  ghost predicate RowsTracked(s: Snapshot, db: Store) {
    && s.instances == InstancesOf(db.rows)
    && (forall rid | rid in s.entries :: rid in db.rows && rid.table != Instances)
    && (forall rid | rid in db.rows && rid.table != Instances ::
          || (rid in s.entries && s.entries[rid] == Derive(s.instances, db.rows[rid]))
          || Above(db.log, RowKey(rid), s.revision))
  }

  lemma FreshIsTracked(db: Store, configuration: string)
    requires Coherent(db.log)
    ensures Tracks(Fresh(db.rows, configuration, db.log.changes[GENERATION], db.log.revision.value), db)
  {
  }

  lemma WriteKeepsCoherent(log: Log, e: Event)
    requires Coherent(log)
    ensures Coherent(Logged(log, e))
    ensures Logged(log, e).changes[GENERATION] == log.changes[GENERATION]
    ensures Logged(log, e).revision.value == log.revision.value + 1
  {
  }

  lemma WriteKeepsLiveRows(db: Store, e: Event)
    requires Coherent(db.log) && NamesLiveRows(db) && Possible(db.rows, e)
    ensures NamesLiveRows(Store(Applied(db.rows, e), Logged(db.log, e)))
  {
  }

  /** A tracked write says enough about every snapshot the log already covered. */
  lemma WriteKeepsTracks(s: Snapshot, db: Store, e: Event)
    requires Coherent(db.log) && Possible(db.rows, e) && Tracks(s, db)
    ensures Tracks(s, Store(Applied(db.rows, e), Logged(db.log, e)))
  {
    var after := Logged(db.log, e);
    if Above(db.log, STAR, s.revision) || e.Truncate? || Removes(e) {
      assert Above(after, STAR, s.revision);
    } else if Above(db.log, INSTANCES, s.revision) || e.table == Instances {
      assert Above(after, INSTANCES, s.revision);
    } else {
      MediaWriteKeepsTracked(s, db, e);
    }
  }

  /** The write takes a media row away from its id. */
  predicate Removes(e: Event) {
    e.table != Instances && (e.Delete? || (e.Update? && e.id != e.newId))
  }

  lemma MediaWriteKeepsTracked(s: Snapshot, db: Store, e: Event)
    requires Coherent(db.log) && Possible(db.rows, e) && RowsTracked(s, db) && s.revision <= db.log.revision.value
    requires e.table != Instances && !e.Truncate? && !Removes(e)
    ensures RowsTracked(s, Store(Applied(db.rows, e), Logged(db.log, e)))
  {
    assert InstancesOf(Applied(db.rows, e)) == InstancesOf(db.rows);
  }

  /** The reader rebuilds the tables exactly from a tracked snapshot. */
  lemma RefreshIsReread(s: Snapshot, db: Store, configuration: string)
    requires Coherent(db.log) && Tracks(s, db)
    requires s.configuration == configuration
    ensures Refresh(Some(s), db, configuration, db.log.revision.value)
         == Ok(Fresh(db.rows, configuration, db.log.changes[GENERATION], db.log.revision.value))
  {
    if Incremental(s, db.log, configuration, db.log.revision.value) {
      assert !Above(db.log, STAR, s.revision) && !Above(db.log, INSTANCES, s.revision);
      var reread := Fresh(db.rows, configuration, db.log.changes[GENERATION], db.log.revision.value);
      assert Replaced(s, db) == reread.entries;
    }
  }

  /** And only from a tracked one: a snapshot of this generation the log does not tell
      enough about is refreshed to something the tables do not hold. */
  lemma RefreshMissesTheRest(s: Snapshot, db: Store)
    requires Coherent(db.log) && s.revision <= db.log.revision.value
    requires s.generation == db.log.changes[GENERATION]
    ensures
      Tracks(s, db) <==>
      Refresh(Some(s), db, s.configuration, db.log.revision.value)
      == Ok(Fresh(db.rows, s.configuration, s.generation, db.log.revision.value))
  {
    var reread := Fresh(db.rows, s.configuration, s.generation, db.log.revision.value);
    if Tracks(s, db) {
      RefreshIsReread(s, db, s.configuration);
    } else {
      assert Incremental(s, db.log, s.configuration, db.log.revision.value);
      if Replaced(s, db) == reread.entries && s.instances == reread.instances {
        ReplacedIsTracked(s, db);
        assert false;
      }
    }
  }

  lemma ReplacedIsTracked(s: Snapshot, db: Store)
    requires Replaced(s, db) == Fresh(db.rows, "", 0, 0).entries && s.instances == InstancesOf(db.rows)
    ensures RowsTracked(s, db)
  {
    var replaced := Replaced(s, db);
    forall rid | rid in s.entries ensures rid in db.rows && rid.table != Instances {
      assert rid in replaced;
    }
    forall rid | rid in db.rows && rid.table != Instances && !Above(db.log, RowKey(rid), s.revision)
      ensures rid in s.entries && s.entries[rid] == Derive(s.instances, db.rows[rid])
    {
      assert rid in replaced;
    }
  }

  /** Main theorem: after any run of tracked writes, a snapshot of the tables
      as they were before the run is refreshed to the tables as they are now. */
  lemma {:induction false} IncrementalRefreshIsReread(db: Store, es: seq<Event>, configuration: string, s: Snapshot)
    requires Coherent(db.log) && Tracks(s, db) && s.configuration == configuration
    ensures
      var end := TrackedRun(db, es);
      && Coherent(end.log) && Tracks(s, end)
      && end.log.changes[GENERATION] == db.log.changes[GENERATION]
      && end.log.revision.value >= db.log.revision.value
      && Refresh(Some(s), end, configuration, end.log.revision.value)
         == Ok(Fresh(end.rows, configuration, s.generation, end.log.revision.value))
    decreases |es|
  {
    if es == [] {
      RefreshIsReread(s, db, configuration);
    } else {
      if Possible(db.rows, es[0]) {
        WriteKeepsCoherent(db.log, es[0]);
        WriteKeepsTracks(s, db, es[0]);
      }
      IncrementalRefreshIsReread(TrackedWrite(db, es[0]), es[1..], configuration, s);
    }
  }
}
