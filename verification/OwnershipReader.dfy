/**
 The snapshot cache. It reads the counter, the log and the tables one select after the
 other, each finding the database as others have left it by then, and serves what it
 read only if the counter is at the end what it was at the start. When that is enough.
 */
module OwnershipReader {
  import opened Common
  import opened OwnershipLog
  import opened OwnershipInstall
  import opened OwnershipSafety
  import opened OwnershipGuarantees
  import opened OwnershipReinstall

  const MEDIA_TABLES: seq<Table> := [Episodes, Movies, Sports]

  // ---- One read

  /** What each select of a read finds: the generation, the entries of the log, a whole
      table, a row that is read again, and the counter at the end. */
  datatype Selects = Selects(
    generation: Store, entries: Store, tables: Table -> Store, rows: RowId -> Store, closing: Store)

  function DeriveTable(instances: Rows, rows: Rows, t: Table): map<RowId, Derived> {
    map rid | rid in rows && rid.table == t :: Derive(instances, rows[rid])
  }

  /** The media tables one after the other, the first `n` of them. */
  function TablesRead(instances: Rows, tables: Table -> Store, n: nat): map<RowId, Derived>
    requires n <= |MEDIA_TABLES|
  {
    if n == 0 then map[]
    else
      TablesRead(instances, tables, n - 1)
      + DeriveTable(instances, tables(MEDIA_TABLES[n - 1]).rows, MEDIA_TABLES[n - 1])
  }

  function AllRead(v: Selects, configuration: string, revision: int): Snapshot
    requires GENERATION in v.generation.log.changes
  {
    var instances := InstancesOf(v.tables(Instances).rows);
    Snapshot(configuration, v.generation.log.changes[GENERATION], revision, instances,
             TablesRead(instances, v.tables, |MEDIA_TABLES|))
  }

  /** The media rows the log names above the snapshot. */
  function NamedRows(log: Log, revision: int): (rids: set<RowId>)
    ensures forall rid :: rid in rids <==> rid.table != Instances && Above(log, RowKey(rid), revision)
  {
    var rids := set k | k in log.changes && log.changes[k] > revision && k.name.Of? && k.name.table != Instances
      :: RowId(k.name.table, k.row);
    assert forall rid: RowId | rid.table != Instances && Above(log, RowKey(rid), revision) ::
      RowId(RowKey(rid).name.table, RowKey(rid).row) == rid;
    rids
  }

  /** Of the rows `rids`, those found are read again. */
  function RowsRead(from: Snapshot, rows: RowId -> Store, rids: set<RowId>): map<RowId, Derived> {
    from.entries + map rid | rid in rids && rid in rows(rid).rows :: Derive(from.instances, rows(rid).rows[rid])
  }

  /** The cached snapshot may be brought up to date, as far as the selects tell. */
  predicate MayUpdate(cached: Snapshot, v: Selects, configuration: string, revision: int) {
    && cached.configuration == configuration
    && GENERATION in v.generation.log.changes && cached.generation == v.generation.log.changes[GENERATION]
    && cached.revision <= revision
    && (forall k | k in v.entries.log.changes && v.entries.log.changes[k] > cached.revision ::
          k.name != Star && k.name != Of(Instances))
  }

  function Read(cached: Option<Snapshot>, v: Selects, configuration: string, revision: int): Snapshot
    requires GENERATION in v.generation.log.changes
  {
    if cached.Some? && MayUpdate(cached.value, v, configuration, revision) then
      var rids := NamedRows(v.entries.log, cached.value.revision);
      cached.value.(revision := revision, entries := RowsRead(cached.value, v.rows, rids))
    else AllRead(v, configuration, revision)
  }

  /** What a caller gets that read the counter as `revision` before; `later` is the
      configuration at the end. */
  function Served(
      cached: Option<Snapshot>, v: Selects, configuration: string, revision: int, later: string): Result<Snapshot>
  {
    if GENERATION !in v.generation.log.changes then Err("generation unavailable")
    else if v.closing.log.revision != Some(revision) || later != configuration then Err("ownership changed")
    else Ok(Read(cached, v, configuration, revision))
  }

  // ---- Selects that find the same

  ghost predicate AllFind(v: Selects, store: Store) {
    && v.generation == store && v.entries == store && v.closing == store
    && (forall t :: v.tables(t) == store) && (forall rid :: v.rows(rid) == store)
  }

  lemma MediaTables(t: Table)
    ensures t in MEDIA_TABLES <==> t != Instances
  {
    assert MEDIA_TABLES[0].Episodes? && MEDIA_TABLES[1].Movies? && MEDIA_TABLES[2].Sports?;
  }

  /** The tables read so far, all from one store. */
  lemma {:induction false} TablesOfOneStore(instances: Rows, tables: Table -> Store, store: Store, n: nat)
    requires n <= |MEDIA_TABLES| && forall t :: tables(t) == store
    ensures forall rid ::
      rid in TablesRead(instances, tables, n) <==> rid in store.rows && rid.table in MEDIA_TABLES[..n]
    ensures forall rid | rid in TablesRead(instances, tables, n) ::
      TablesRead(instances, tables, n)[rid] == Derive(instances, store.rows[rid])
    decreases n
  {
    if n > 0 {
      TablesOfOneStore(instances, tables, store, n - 1);
      assert MEDIA_TABLES[..n] == MEDIA_TABLES[..n - 1] + [MEDIA_TABLES[n - 1]];
    }
  }

  /** All of them, from one store. */
  lemma EntriesOfOneStore(tables: Table -> Store, store: Store)
    requires forall t :: tables(t) == store
    ensures
      TablesRead(InstancesOf(store.rows), tables, |MEDIA_TABLES|)
      == map rid | rid in store.rows && rid.table != Instances :: Derive(InstancesOf(store.rows), store.rows[rid])
  {
    TablesOfOneStore(InstancesOf(store.rows), tables, store, |MEDIA_TABLES|);
    assert MEDIA_TABLES[..|MEDIA_TABLES|] == MEDIA_TABLES;
    forall rid: RowId ensures rid.table in MEDIA_TABLES <==> rid.table != Instances {
      MediaTables(rid.table);
    }
  }

  lemma AllOfOneStore(v: Selects, store: Store, configuration: string, revision: int)
    requires AllFind(v, store) && GENERATION in store.log.changes
    ensures
      AllRead(v, configuration, revision) == Fresh(store.rows, configuration, store.log.changes[GENERATION], revision)
  {
    EntriesOfOneStore(v.tables, store);
  }

  lemma RowsOfOneStore(from: Snapshot, rows: RowId -> Store, store: Store)
    requires forall rid :: rows(rid) == store
    ensures RowsRead(from, rows, NamedRows(store.log, from.revision)) == Replaced(from, store)
  {
    var rids := NamedRows(store.log, from.revision);
    assert (map rid | rid in rids && rid in rows(rid).rows :: Derive(from.instances, rows(rid).rows[rid]))
        == map rid | rid in store.rows && rid.table != Instances && Above(store.log, RowKey(rid), from.revision)
             :: Derive(from.instances, store.rows[rid]);
  }

  /** Selects that all find one store read what a single look at it would. */
  lemma ReadOfOneStore(cached: Option<Snapshot>, v: Selects, store: Store, configuration: string, revision: int)
    requires AllFind(v, store)
    ensures
      Served(cached, v, configuration, revision, configuration) == Refresh(cached, store, configuration, revision)
  {
    if GENERATION in store.log.changes {
      AllOfOneStore(v, store, configuration, revision);
      if cached.Some? {
        RowsOfOneStore(cached.value, v.rows, store);
      }
    }
  }

  // ---- A read among the steps of others

  /** The store is one the run passes through. */
  ghost predicate Passes(d: Dialect, w: World, steps: seq<Step>, store: Store)
    decreases |steps|
  {
    store == w.db.store || (steps != [] && Passes(d, Next(d, w, steps[0]), steps[1..], store))
  }

  /** Each select finds the database at some moment of the run, the closing one at its end. */
  ghost predicate ReadsDuring(d: Dialect, w: World, steps: seq<Step>, v: Selects) {
    && Passes(d, w, steps, v.generation) && Passes(d, w, steps, v.entries)
    && (forall t :: Passes(d, w, steps, v.tables(t))) && (forall rid :: Passes(d, w, steps, v.rows(rid)))
    && v.closing == Run(d, w, steps).db.store
  }

  /** No thread is at a statement that changes the log or adds to the triggers without the
      counter having to move first. */
  predicate Quiet(d: Dialect, w: World) {
    w.holder.Some? && w.holder.value < |w.threads| && w.threads[w.holder.value].Installing? ==>
      var pc, log := w.threads[w.holder.value], w.db.store.log;
      pc.next <= 2 || MarkerThere(log, pc.next) || pc.next >= ProgramLength(d, pc.wanted)
      || OnlyDrops(d, pc.wanted, pc.next)
  }

  /** Under Inv a full set means that. */
  lemma VerifiedIsQuiet(d: Dialect, w: World)
    requires Inv(d, w) && Verified(d, w.db.triggers)
    ensures Quiet(d, w)
  {
    VerifiedOwnsLast(d, w.db.triggers);
  }

  /** What a step does to a quiet world whose counter does not move: nothing to the store
      while the protection verifies, and it does not verify again once it has not. */
  ghost predicate Stands(d: Dialect, w: World, after: World) {
    && Quiet(d, after)
    && (Verified(d, after.db.triggers) ==> Verified(d, w.db.triggers) && after.db.store == w.db.store)
  }

  ghost predicate Moves(d: Dialect, w: World, after: World) {
    && w.db.store.log.revision.Some?
    && after.db.store.log.revision.Some?
    && after.db.store.log.revision.value >= w.db.store.log.revision.value
    && (after.db.store.log.revision == w.db.store.log.revision ==> Stands(d, w, after))
  }

  /** Only triggers were lost. */
  lemma LosingStands(d: Dialect, w: World, triggers: Triggers)
    requires Quiet(d, w) && w.db.store.log.revision.Some?
    requires forall s | IsExpected(triggers, s) :: IsExpected(w.db.triggers, s)
    ensures Moves(d, w, w.(db := w.db.(triggers := triggers)))
  {
    if Verified(d, triggers) {
      forall j | 0 <= j < SlotCount(d) ensures IsExpected(w.db.triggers, SlotAt(d, j)) {
        assert IsExpected(triggers, SlotAt(d, j));
      }
    }
  }

  lemma WriteMoves(d: Dialect, w: World, e: Event)
    requires Quiet(d, w) && Sane(w.db.store.log) && w.db.store.log.revision.Some?
    ensures Moves(d, w, Next(d, w, Write(e)))
  {
    if Verified(d, w.db.triggers) && (e.Truncate? ==> d.Postgres?) {
      var j := FiredSlotIsRequired(d, e);
      assert IsExpected(w.db.triggers, SlotAt(d, j));
    }
  }

  lemma BulkMoves(d: Dialect, w: World, doomed: set<RowId>, listed: set<Table>)
    requires Quiet(d, w) && w.db.store.log.revision.Some?
    ensures Moves(d, w, Next(d, w, BulkDelete(doomed, listed)))
  {
    var after := Next(d, w, BulkDelete(doomed, listed));
    if d.Postgres? && Tracked(w.db, listed) == {} && after.db.store.rows != w.db.store.rows {
      UntrackedIsUnverified(d, w, doomed, listed);
    }
  }

  lemma ReinstallMoves(d: Dialect, w: World, generation: int)
    requires Sane(w.db.store.log) && w.db.store.log.revision.Some?
    ensures Moves(d, w, Next(d, w, Reinstall(generation)))
  {
    var wanted := SportarrInUse(w.db.store.rows);
    LogAfterInstall(d, w.db, wanted, generation, ProgramLength(d, wanted));
    FiveStatementsMark(w.db.store.log, generation);
  }

  lemma ThreadMoves(d: Dialect, w: World, i: nat, generation: int)
    requires Inv(d, w) && Quiet(d, w) && w.db.store.log.revision.Some?
    ensures Moves(d, w, ThreadStep(d, w, i, generation))
  {
    if Enabled(w, i) && w.threads[i].Installing? {
      InstallerMoves(d, w, i);
    }
  }

  /** The one statement that may change the log before the counter moves seeds the
      generation, and then the set is not there. */
  lemma InstallerMoves(d: Dialect, w: World, i: nat)
    requires Inv(d, w) && Quiet(d, w) && w.db.store.log.revision.Some?
    requires i < |w.threads| && w.threads[i].Installing?
    ensures Moves(d, w, ThreadStep(d, w, i, 0))
  {
    var pc := w.threads[i];
    assert w.holder == Some(i);
    if InstallerAt(d, w, i) {
      var stmt := StatementAt(d, pc.wanted, pc.generation, pc.next);
      if OnlyDrops(d, pc.wanted, pc.next) {
        LosingStands(d, w, w.db.triggers - {stmt.slot});
      } else {
        VerifiedOwnsLast(d, w.db.triggers);
        FirstStatementsMove(d, w, i, stmt);
      }
    }
  }

  lemma FirstStatementsMove(d: Dialect, w: World, i: nat, stmt: Stmt)
    requires w.holder == Some(i) && i < |w.threads| && w.threads[i].Installing? && w.threads[i].next <= 2
    requires w.db.store.log.revision.Some? && !Verified(d, w.db.triggers)
    requires InstallerAt(d, w, i)
    requires stmt == StatementAt(d, w.threads[i].wanted, w.threads[i].generation, w.threads[i].next)
    ensures Moves(d, w, ThreadStep(d, w, i, 0))
  {
  }

  lemma StepMoves(d: Dialect, w: World, step: Step)
    requires Inv(d, w) && Quiet(d, w) && w.db.store.log.revision.Some?
    ensures Moves(d, w, Next(d, w, step))
  {
    match step
    case Thread(i, g) => ThreadMoves(d, w, i, g);
    case Write(e) => WriteMoves(d, w, e);
    case BulkDelete(doomed, listed) => BulkMoves(d, w, doomed, listed);
    case Take(_) =>
    case Lose(s) => LosingStands(d, w, w.db.triggers - {s});
    case Redefine(s) => LosingStands(d, w, w.db.triggers[s := Foreign]);
    case Drift(truncate) =>
      if d.Postgres? {
        LosingStands(d, w, Drifting(w.db.triggers, truncate));
      }
    case Reinstall(g) => ReinstallMoves(d, w, g);
  }

  /** The counter is at the end where it was, and the set verifies: then it did throughout,
      and nothing the run passed through was any different. */
  lemma {:induction false} RunStands(d: Dialect, w: World, steps: seq<Step>, store: Store)
    requires Inv(d, w) && Quiet(d, w) && w.db.store.log.revision.Some? && Allowed(d, w, steps)
    requires
      Run(d, w, steps).db.store.log.revision == w.db.store.log.revision && Verified(d, Run(d, w, steps).db.triggers)
    requires Passes(d, w, steps, store)
    ensures Verified(d, w.db.triggers) && store == Run(d, w, steps).db.store == w.db.store
    decreases |steps|
  {
    if steps != [] {
      var after := Next(d, w, steps[0]);
      StepMoves(d, w, steps[0]);
      StepKeepsInv(d, w, steps[0]);
      GenerationSurvives(d, after, steps[1..]);
      RunStands(d, after, steps[1..], if store == w.db.store then after.db.store else store);
    }
  }

  lemma {:induction false} EndIsPassed(d: Dialect, w: World, steps: seq<Step>)
    ensures Passes(d, w, steps, Run(d, w, steps).db.store)
    decreases |steps|
  {
    if steps != [] {
      EndIsPassed(d, Next(d, w, steps[0]), steps[1..]);
    }
  }

  /** Every select finds what the last one finds. */
  lemma SelectsFindTheSame(d: Dialect, w: World, steps: seq<Step>, v: Selects)
    requires Inv(d, w) && Verified(d, w.db.triggers) && w.db.store.log.revision.Some? && Allowed(d, w, steps)
    requires
      Run(d, w, steps).db.store.log.revision == w.db.store.log.revision && Verified(d, Run(d, w, steps).db.triggers)
    requires ReadsDuring(d, w, steps, v)
    ensures AllFind(v, Run(d, w, steps).db.store)
  {
    VerifiedIsQuiet(d, w);
    RunStands(d, w, steps, v.generation);
    RunStands(d, w, steps, v.entries);
    forall t ensures v.tables(t) == v.closing {
      RunStands(d, w, steps, v.tables(t));
    }
    forall rid ensures v.rows(rid) == v.closing {
      RunStands(d, w, steps, v.rows(rid));
    }
  }

  /** Main theorem: whatever others do between its selects, a read that is served is one
      look at the tables as they are at its end, provided the protection verified when the
      counter was read and still does. It is refused exactly when the counter or the
      configuration has moved, or there is no generation. What it serves is again a
      snapshot of which the log will tell everything. */
  lemma ServedIsReread(
      d: Dialect, w: World, steps: seq<Step>, v: Selects, cached: Option<Snapshot>,
      configuration: string, revision: int, later: string)
    requires Inv(d, w) && Allowed(d, w, steps) && ReadsDuring(d, w, steps, v)
    requires Verified(d, w.db.triggers) && Verified(d, Run(d, w, steps).db.triggers)
    requires w.db.store.log.revision == Some(revision) && (cached.Some? ==> cached.value in w.snapshots)
    ensures
      var end, served := Run(d, w, steps), Served(cached, v, configuration, revision, later);
      && (served.Ok? <==>
            GENERATION in v.generation.log.changes
            && end.db.store.log.revision == Some(revision) && later == configuration)
      && (served.Ok? ==>
            && GENERATION in end.db.store.log.changes
            && served.value
               == Fresh(end.db.store.rows, configuration, end.db.store.log.changes[GENERATION], revision)
            && served.value in Next(d, end, Take(configuration)).snapshots)
  {
    var end := Run(d, w, steps);
    if Served(cached, v, configuration, revision, later).Ok? {
      SelectsFindTheSame(d, w, steps, v);
      ReadOfOneStore(cached, v, end.db.store, configuration, revision);
      RunKeepsInv(d, w, steps);
      SnapshotsStay(d, w, steps);
      RefreshedIsFresh(d, end, cached, configuration);
    }
  }

  lemma {:induction false} SnapshotsStay(d: Dialect, w: World, steps: seq<Step>)
    ensures w.snapshots <= Run(d, w, steps).snapshots
    decreases |steps|
  {
    if steps != [] {
      SnapshotsStay(d, Next(d, w, steps[0]), steps[1..]);
    }
  }

  lemma RefreshedIsFresh(d: Dialect, w: World, cached: Option<Snapshot>, configuration: string)
    requires Inv(d, w) && Verified(d, w.db.triggers)
    requires w.db.store.log.revision.Some? && GENERATION in w.db.store.log.changes
    requires cached.Some? ==> cached.value in w.snapshots
    ensures
      var log := w.db.store.log;
      Refresh(cached, w.db.store, configuration, log.revision.value)
      == Ok(Fresh(w.db.store.rows, configuration, log.changes[GENERATION], log.revision.value))
  {
    if cached.Some? && cached.value.configuration == configuration {
      assert Tracks(cached.value, w.db.store);
      RefreshIsReread(cached.value, w.db.store, configuration);
    }
  }

  // ---- Why the protection has to verify at the end

  /** The closing check reads the counter, not the triggers: with a trigger lost between
      two selects a read is served that lacks a row. */
  lemma LostTriggerHidesAWrite(d: Dialect, w: World, configuration: string) returns (steps: seq<Step>, v: Selects)
    requires Verified(d, w.db.triggers) && Coherent(w.db.store.log)
    ensures NoReinstall(steps) && ReadsDuring(d, w, steps, v)
    ensures
      var served := Served(None, v, configuration, w.db.store.log.revision.value, configuration);
      var end := Run(d, w, steps).db.store;
      && served.Ok? && served.value.revision == end.log.revision.value
      && exists rid :: rid in end.rows && rid.table == Sports && rid !in served.value.entries
  {
    var rid := UnusedRow(w.db.store.rows, Sports);
    var insert := Insert(Sports, rid.id, SomeRow(Sports, "a"));
    var lost := Next(d, w, Lose(FiredSlot(d, insert)));
    UnloggedChangesRows(d, lost, insert);
    steps := [] + [Lose(FiredSlot(d, insert))] + [Write(insert)];
    Onward(d, w, [], w, Lose(FiredSlot(d, insert)), lost);
    Onward(d, w, [] + [Lose(FiredSlot(d, insert))], lost, Write(insert), Next(d, lost, Write(insert)));
    var store, end := w.db.store, Next(d, lost, Write(insert)).db.store;
    v := Selects(store, store, (t: Table) => store, (r: RowId) => store, end);
    StoreReadBefore(v, store, configuration, rid);
    assert rid in end.rows;
  }

  lemma StoreReadBefore(v: Selects, store: Store, configuration: string, rid: RowId)
    requires AllFind(v.(closing := store), store) && Coherent(store.log)
    requires v.closing.log.revision == store.log.revision && rid !in store.rows
    ensures
      var served := Served(None, v, configuration, store.log.revision.value, configuration);
      served.Ok? && served.value.revision == store.log.revision.value && rid !in served.value.entries
  {
    AllOfOneStore(v.(closing := store), store, configuration, store.log.revision.value);
  }

  // ---- The read in place

  class SnapshotCache {
    var cached: Option<Snapshot>

    constructor ()
      ensures cached == None
    {
      cached := None;
    }

    /** Read the instances and then the media tables. */
    static method ReadAll(v: Selects, configuration: string, revision: int) returns (r: Snapshot)
      requires GENERATION in v.generation.log.changes
      ensures r == AllRead(v, configuration, revision)
    {
      var instances := InstancesOf(v.tables(Instances).rows);
      var entries: map<RowId, Derived> := map[];
      var i := 0;
      while i < |MEDIA_TABLES|
        invariant 0 <= i <= |MEDIA_TABLES| && entries == TablesRead(instances, v.tables, i)
      {
        entries := entries + DeriveTable(instances, v.tables(MEDIA_TABLES[i]).rows, MEDIA_TABLES[i]);
        i := i + 1;
      }
      r := Snapshot(configuration, v.generation.log.changes[GENERATION], revision, instances, entries);
    }

    /** Read the rows `ids` of one table again. */
    static method RereadRows(
        from: Snapshot, soFar: map<RowId, Derived>, rows: RowId -> Store, t: Table, ids: set<int>,
        ghost done: set<RowId>)
      returns (entries: map<RowId, Derived>)
      requires soFar == RowsRead(from, rows, done)
      ensures entries == RowsRead(from, rows, done + RowIds(t, ids))
    {
      entries := soFar;
      var left := ids;
      ghost var rids := done;
      while left != {}
        invariant left <= ids
        invariant forall rid :: rid in rids <==> rid in done || (rid in RowIds(t, ids) && rid.id !in left)
        invariant entries == RowsRead(from, rows, rids)
      {
        var n := AnyOf(left);
        var rid := RowId(t, n);
        RowsReadMore(from, rows, rids, rid);
        if rid in rows(rid).rows {
          entries := entries[rid := Derive(from.instances, rows(rid).rows[rid])];
        }
        left := left - {n};
        rids := rids + {rid};
      }
      assert rids == done + RowIds(t, ids);
    }

    /** Read the rows `named` in the log again, table by table. */
    static method RereadLogged(from: Snapshot, v: Selects, named: set<Key>) returns (r: Snapshot)
      requires named == set k | k in v.entries.log.changes && v.entries.log.changes[k] > from.revision
      ensures r == from.(entries := RowsRead(from, v.rows, NamedRows(v.entries.log, from.revision)))
    {
      var entries := from.entries;
      var i := 0;
      ghost var done: set<RowId> := {};
      assert from.entries == RowsRead(from, v.rows, {});
      while i < |MEDIA_TABLES|
        invariant 0 <= i <= |MEDIA_TABLES|
        invariant forall rid :: rid in done <==> rid.table in MEDIA_TABLES[..i] && RowKey(rid) in named
        invariant entries == RowsRead(from, v.rows, done)
      {
        var ids := RowsNamed(named, MEDIA_TABLES[i]);
        entries := RereadRows(from, entries, v.rows, MEDIA_TABLES[i], ids, done);
        done := done + RowIds(MEDIA_TABLES[i], ids);
        i := i + 1;
      }
      assert MEDIA_TABLES[..i] == MEDIA_TABLES;
      forall rid: RowId ensures rid in done <==> rid in NamedRows(v.entries.log, from.revision) {
        MediaTables(rid.table);
      }
      assert done == NamedRows(v.entries.log, from.revision);
      r := from.(entries := entries);
    }

    /** The snapshot at counter value `revision`, read from the tables or brought up to date
        from the log. Only a cacheable read uses or keeps the cache. */
    method Read(v: Selects, configuration: string, revision: int, cacheable: bool, later: string)
      returns (r: Result<Snapshot>)
      modifies this
      ensures r == Served(if cacheable then old(cached) else None, v, configuration, revision, later)
      ensures cacheable && GENERATION in v.generation.log.changes ==>
        cached == if r.Ok? then Some(r.value) else None
      ensures !cacheable || GENERATION !in v.generation.log.changes ==> cached == old(cached)
    {
      if GENERATION !in v.generation.log.changes {
        return Err("generation unavailable");
      }
      var generation := v.generation.log.changes[GENERATION];
      var use := if cacheable then cached else None;
      var named: set<Key> := {};
      if use.Some? && use.value.configuration == configuration
         && use.value.generation == generation && use.value.revision <= revision {
        named := set k | k in v.entries.log.changes && v.entries.log.changes[k] > use.value.revision;
        if exists k :: k in named && (k.name == Star || k.name == Of(Instances)) {
          use := None;
        }
      } else {
        use := None;
      }
      var snapshot: Snapshot;
      if use.None? {
        snapshot := ReadAll(v, configuration, revision);
      } else {
        assert MayUpdate(use.value, v, configuration, revision);
        snapshot := RereadLogged(use.value, v, named);
      }
      if v.closing.log.revision != Some(revision) || later != configuration {
        if cacheable {
          cached := None;
        }
        return Err("ownership changed");
      }
      snapshot := snapshot.(revision := revision);
      if cacheable {
        cached := Some(snapshot);
      }
      r := Ok(snapshot);
    }
  }

  function RowsNamed(named: set<Key>, t: Table): (ids: set<int>)
    ensures forall n :: n in ids <==> Key(Of(t), n) in named
  {
    var ids := set k | k in named && k.name == Of(t) :: k.row;
    assert forall n | Key(Of(t), n) in named :: Key(Of(t), n).row in ids;
    ids
  }

  function RowIds(t: Table, ids: set<int>): (rids: set<RowId>)
    ensures forall rid :: rid in rids <==> rid.table == t && rid.id in ids
  {
    set n | n in ids :: RowId(t, n)
  }

  lemma RowsReadMore(from: Snapshot, rows: RowId -> Store, rids: set<RowId>, rid: RowId)
    ensures
      RowsRead(from, rows, rids + {rid})
      == if rid in rows(rid).rows
         then RowsRead(from, rows, rids)[rid := Derive(from.instances, rows(rid).rows[rid])]
         else RowsRead(from, rows, rids)
  {
    RowsReadIs(from, rows, rids);
    RowsReadIs(from, rows, rids + {rid});
  }

  /** Entry by entry. */
  lemma RowsReadIs(from: Snapshot, rows: RowId -> Store, rids: set<RowId>)
    ensures forall rid ::
      rid in RowsRead(from, rows, rids) <==> rid in from.entries || (rid in rids && rid in rows(rid).rows)
    ensures forall rid | rid in RowsRead(from, rows, rids) ::
      RowsRead(from, rows, rids)[rid]
      == if rid in rids && rid in rows(rid).rows then Derive(from.instances, rows(rid).rows[rid])
         else from.entries[rid]
  {
  }
}
