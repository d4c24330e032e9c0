/**
 The log tells no more than it must: which entries a write raises, and exactly when a
 snapshot can still be brought up to date row by row.
 */
module OwnershipPrecision {
  import opened Common
  import opened OwnershipLog

  // ---- One write

  /** The write leaves this row behind it. */
  predicate Leaves(e: Event, rid: RowId) {
    match e
    case Insert(t, id, _) => rid == RowId(t, id)
    case Update(t, _, newId, _) => rid == RowId(t, newId)
    case _ => false
  }

  /** The write empties a table or takes a media row away from its id. */
  predicate Unsettles(e: Event) {
    e.Truncate? || Removes(e)
  }

  /** The entry at `k` is what it was. */
  ghost predicate SameEntry(before: Log, after: Log, k: Key) {
    (k in after.changes <==> k in before.changes) && (k in before.changes ==> after.changes[k] == before.changes[k])
  }

  /** The entry at `k` stands at the counter. */
  ghost predicate Raised(before: Log, after: Log, k: Key) {
    before.revision.Some? && Above(after, k, before.revision.value) && after.revision == Some(after.changes[k])
  }

  /** Which of the three names a logged write raises: the marker exactly when it unsettles
      rows, the instances entry exactly when it writes an instance, the generation never.
      What it does not raise is as it was; emptying the instances removes their entry. */
  lemma WriteRaisesExactly(log: Log, e: Event)
    requires Coherent(log)
    ensures
      var after := Logged(log, e);
      && after.revision == Some(log.revision.value + 1)
      && (if Unsettles(e) then Raised(log, after, STAR) else SameEntry(log, after, STAR))
      && (if e.Truncate? && e.table == Instances then INSTANCES !in after.changes
          else if !e.Truncate? && e.table == Instances then Raised(log, after, INSTANCES)
          else SameEntry(log, after, INSTANCES))
      && SameEntry(log, after, GENERATION)
  {
  }

  /** And which row entries: exactly that of the media row the write leaves. That of a row
      it takes away goes, every other stays. */
  lemma WriteNamesExactly(rows: Rows, log: Log, e: Event, rid: RowId)
    requires Coherent(log) && Possible(rows, e) && rid.table != Instances
    ensures
      var after := Logged(log, e);
      if Leaves(e, rid) then Raised(log, after, RowKey(rid))
      else if (e.Truncate? && e.table == rid.table) || (rid in rows && rid !in Applied(rows, e)) then
        RowKey(rid) !in after.changes
      else SameEntry(log, after, RowKey(rid))
  {
  }

  // ---- One snapshot

  /** A snapshot of the tables keeps, of each media row, the row and the path mappings of
      the instance that owns it, and of the instances every row. */
  lemma FreshTellsAll(rows: Rows, configuration: string, generation: int, revision: int, rid: RowId)
    ensures
      var s := Fresh(rows, configuration, generation, revision);
      && (rid in s.entries <==> rid in rows && rid.table != Instances)
      && (rid in s.instances <==> rid in rows && rid.table == Instances)
      && (rid in s.instances ==> s.instances[rid] == rows[rid])
      && (rid in s.entries ==>
            && s.entries[rid].row == rows[rid]
            && forall owner, kind, mappings
                 | rows[rid].MediaRow? && rows[rid].owner == Some(owner) && RowId(Instances, owner) in rows
                   && rows[RowId(Instances, owner)] == InstanceRow(kind, mappings) ::
                 s.entries[rid].mappings == mappings)
  {
  }

  // ---- Runs

  /** Some write of the run that takes place unsettles rows or writes an instance. */
  predicate UnsettlesOnce(db: Store, es: seq<Event>)
    decreases |es|
  {
    es != [] &&
    ((Possible(db.rows, es[0]) && (Unsettles(es[0]) || es[0].table == Instances))
     || UnsettlesOnce(TrackedWrite(db, es[0]), es[1..]))
  }

  /** Some write of the run that takes place leaves the row. */
  predicate LeavesOnce(db: Store, es: seq<Event>, rid: RowId)
    decreases |es|
  {
    es != [] &&
    ((Possible(db.rows, es[0]) && Leaves(es[0], rid)) || LeavesOnce(TrackedWrite(db, es[0]), es[1..], rid))
  }

  /** The log demands a full read of everyone who read at `revision`. */
  predicate DemandsAll(log: Log, revision: int) {
    Above(log, STAR, revision) || Above(log, INSTANCES, revision)
  }

  lemma WriteDemands(db: Store, e: Event, revision: int)
    requires Coherent(db.log) && Possible(db.rows, e) && revision <= db.log.revision.value
    ensures
      DemandsAll(TrackedWrite(db, e).log, revision)
      <==> DemandsAll(db.log, revision) || Unsettles(e) || e.table == Instances
  {
    WriteRaisesExactly(db.log, e);
  }

  lemma {:induction false} RunDemands(db: Store, es: seq<Event>, revision: int)
    requires Coherent(db.log) && revision <= db.log.revision.value
    ensures DemandsAll(TrackedRun(db, es).log, revision) <==> DemandsAll(db.log, revision) || UnsettlesOnce(db, es)
    decreases |es|
  {
    if es != [] {
      if Possible(db.rows, es[0]) {
        WriteKeepsCoherent(db.log, es[0]);
        WriteDemands(db, es[0], revision);
      }
      RunDemands(TrackedWrite(db, es[0]), es[1..], revision);
    }
  }

  /** A run that unsettles nothing names exactly the rows it left, in addition. */
  lemma {:induction false} RunNames(db: Store, es: seq<Event>, revision: int, rid: RowId)
    requires Coherent(db.log) && revision <= db.log.revision.value && !UnsettlesOnce(db, es) && rid.table != Instances
    ensures
      Above(TrackedRun(db, es).log, RowKey(rid), revision)
      <==> Above(db.log, RowKey(rid), revision) || LeavesOnce(db, es, rid)
    decreases |es|
  {
    if es != [] {
      if Possible(db.rows, es[0]) {
        WriteKeepsCoherent(db.log, es[0]);
        WriteNamesExactly(db.rows, db.log, es[0], rid);
      }
      RunNames(TrackedWrite(db, es[0]), es[1..], revision, rid);
    }
  }

  /** The other entries stay as they were, and the counter goes up by the writes that took
      place. */
  lemma {:induction false} RunLeavesTheRest(db: Store, es: seq<Event>, rid: RowId)
    requires Coherent(db.log) && !UnsettlesOnce(db, es) && rid.table != Instances
    ensures
      var end := TrackedRun(db, es);
      && end.log.revision == Some(db.log.revision.value + Writes(db, es))
      && SameEntry(db.log, end.log, STAR) && SameEntry(db.log, end.log, INSTANCES)
      && SameEntry(db.log, end.log, GENERATION)
      && (!LeavesOnce(db, es, rid) ==> SameEntry(db.log, end.log, RowKey(rid)))
    decreases |es|
  {
    if es != [] {
      if Possible(db.rows, es[0]) {
        WriteKeepsCoherent(db.log, es[0]);
        WriteRaisesExactly(db.log, es[0]);
        WriteNamesExactly(db.rows, db.log, es[0], rid);
      }
      RunLeavesTheRest(TrackedWrite(db, es[0]), es[1..], rid);
    }
  }

  /** How many writes of the run take place. */
  function Writes(db: Store, es: seq<Event>): nat
    decreases |es|
  {
    if es == [] then 0
    else (if Possible(db.rows, es[0]) then 1 else 0) + Writes(TrackedWrite(db, es[0]), es[1..])
  }

  lemma NotBelow(s: Snapshot, db: Store, revision: int)
    requires Coherent(db.log) && s.generation == db.log.changes[GENERATION] && s.revision <= revision
    ensures Incremental(s, db.log, s.configuration, revision) <==> !DemandsAll(db.log, s.revision)
  {
  }

  /** Main theorem: after any run of logged writes a snapshot taken before it is brought up
      to date row by row if and only if no write of the run truncated a table, took a media
      row away or wrote an instance. What is read again then is exactly the rows written. */
  lemma StaysIncremental(db: Store, es: seq<Event>, configuration: string)
    requires Coherent(db.log)
    ensures
      var s := Fresh(db.rows, configuration, db.log.changes[GENERATION], db.log.revision.value);
      var end := TrackedRun(db, es);
      && end.log.revision.Some?
      && (Incremental(s, end.log, configuration, end.log.revision.value) <==> !UnsettlesOnce(db, es))
      && (!UnsettlesOnce(db, es) ==>
            forall rid: RowId | rid.table != Instances ::
              Above(end.log, RowKey(rid), s.revision) <==> LeavesOnce(db, es, rid))
  {
    var s := Fresh(db.rows, configuration, db.log.changes[GENERATION], db.log.revision.value);
    var end := TrackedRun(db, es);
    FreshIsTracked(db, configuration);
    IncrementalRefreshIsReread(db, es, configuration, s);
    RunDemands(db, es, s.revision);
    NotBelow(s, end, end.log.revision.value);
    if !UnsettlesOnce(db, es) {
      forall rid: RowId | rid.table != Instances
        ensures Above(end.log, RowKey(rid), s.revision) <==> LeavesOnce(db, es, rid)
      {
        RunNames(db, es, s.revision, rid);
      }
    }
  }
}
