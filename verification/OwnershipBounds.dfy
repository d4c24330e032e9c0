/**
 How large the change log can get: over every run of the install machine it holds at
 most one entry for each live media row, three more, and one for each row that a write
 took away without its trigger since the log was last cleared.
 */
module OwnershipBounds {
  import opened Common
  import opened OwnershipLog
  import opened OwnershipInstall
  import opened OwnershipSafety

  // ---- Entries of rows that are gone

  predicate IsRowKey(k: Key) {
    k.name.Of? && k.name.table != Instances
  }

  function RowOf(k: Key): RowId
    requires IsRowKey(k)
  {
    RowId(k.name.table, k.row)
  }

  /** The row entries whose row is gone. */
  function Strays(store: Store): set<Key> {
    set k | k in store.log.changes && IsRowKey(k) && RowOf(k) !in store.rows
  }

  lemma NoStraysMeansLiveRows(store: Store)
    ensures Strays(store) == {} <==> NamesLiveRows(store)
  {
    if Strays(store) == {} {
      forall rid: RowId | rid.table != Instances && RowKey(rid) in store.log.changes ensures rid in store.rows {
        assert RowOf(RowKey(rid)) == rid;
        assert RowKey(rid) !in Strays(store);
      }
    } else {
      var k :| k in Strays(store);
      assert RowKey(RowOf(k)) == k;
    }
  }

  function MediaRows(rows: Rows): set<RowId> {
    set rid | rid in rows && rid.table != Instances
  }

  lemma {:induction false} SameSize(s: set<RowId>, keys: set<Key>)
    requires keys == RowKeys(s)
    ensures |keys| == |s|
    decreases s
  {
    if s != {} {
      var rid :| rid in s;
      assert keys - {RowKey(rid)} == RowKeys(s - {rid});
      SameSize(s - {rid}, keys - {RowKey(rid)});
    }
  }

  lemma SmallerSet<T>(a: set<T>, b: set<T>)
    requires a <= b
    ensures |a| <= |b|
  {
    assert b == a + (b - a);
  }

  /** Only the rows of media tables have entries of their own. */
  ghost predicate OneEntryEach(log: Log) {
    forall k | k in log.changes && (k.name in {Star, Generation} || k.name == Of(Instances)) :: k.row == 0
  }

  lemma EntriesAreFew(store: Store)
    requires OneEntryEach(store.log)
    ensures |store.log.changes| <= |MediaRows(store.rows)| + 3 + |Strays(store)|
  {
    var named := RowKeys(MediaRows(store.rows));
    var few := {STAR, GENERATION, INSTANCES};
    SameSize(MediaRows(store.rows), named);
    forall k | k in store.log.changes ensures k in named + few + Strays(store) {
      if IsRowKey(k) {
        assert RowKey(RowOf(k)) == k;
      }
    }
    SmallerSet(store.log.changes.Keys, named + few + Strays(store));
    SumIsFew(named, few, Strays(store));
  }

  lemma SumIsFew(a: set<Key>, few: set<Key>, b: set<Key>)
    requires few == {STAR, GENERATION, INSTANCES}
    ensures |a + few + b| <= |a| + 3 + |b|
  {
    assert |few| <= 3;
    UnionIsFew(a, few);
    UnionIsFew(a + few, b);
  }

  lemma UnionIsFew<T>(a: set<T>, b: set<T>)
    ensures |a + b| <= |a| + |b|
  {
    assert a + b == a + (b - a);
    SmallerSet(b - a, b);
  }

  // ---- What leaves an entry behind

  /** The entries a step leaves behind with no row: those of the media rows it takes
      away, or renames, with no trigger to remove their entry. */
  function Orphaned(d: Dialect, db: Db, step: Step): set<Key> {
    match step
    case Write(e) =>
      if IsLogged(d, db.triggers, e) || !Possible(db.store.rows, e) || (d.Sqlite? && e.Truncate?) then {}
      else set k | k in db.store.log.changes && IsRowKey(k) && RowOf(k) in db.store.rows && TakesAway(e, RowOf(k))
    case BulkDelete(doomed, listed) =>
      var tables := Tracked(db, listed);
      if d.Sqlite? || (tables != {} && db.store.log.revision.None?) then {}
      else
        set k | k in db.store.log.changes && IsRowKey(k)
                && RowOf(k) in Doomed(db.store.rows, doomed, listed) && RowOf(k).table !in tables
    case _ => {}
  }

  /** The write leaves no row at this id. */
  predicate TakesAway(e: Event, rid: RowId) {
    match e
    case Insert(_, _, _) => false
    case Update(t, id, newId, _) => rid == RowId(t, id) && newId != id
    case Delete(t, id) => rid == RowId(t, id)
    case Truncate(t) => rid.table == t
  }

  lemma TakenAwayIsGone(rows: Rows, e: Event, rid: RowId)
    requires Possible(rows, e) && rid in rows
    ensures rid !in Applied(rows, e) <==> TakesAway(e, rid)
  {
  }

  lemma UnloggedStrays(store: Store, e: Event)
    requires Possible(store.rows, e)
    ensures
      var after := store.(rows := Applied(store.rows, e));
      var orphaned := set k | k in store.log.changes && IsRowKey(k) && RowOf(k) in store.rows && TakesAway(e, RowOf(k));
      Strays(after) <= Strays(store) + orphaned && orphaned <= Strays(after)
  {
    forall k | k in store.log.changes && IsRowKey(k) && RowOf(k) in store.rows
      ensures RowOf(k) !in Applied(store.rows, e) <==> TakesAway(e, RowOf(k))
    {
      TakenAwayIsGone(store.rows, e, RowOf(k));
    }
  }

  /** Exactly when a write no trigger logs breaks the log: when it takes away a media row
      the log has an entry of. */
  lemma UnloggedWriteKeepsLiveRows(d: Dialect, db: Db, e: Event)
    requires NamesLiveRows(db.store) && !IsLogged(d, db.triggers, e)
    ensures NamesLiveRows(Written(d, db, e).store) <==> Orphaned(d, db, Write(e)) == {}
  {
    NoStraysMeansLiveRows(db.store);
    NoStraysMeansLiveRows(Written(d, db, e).store);
    if Possible(db.store.rows, e) {
      UnloggedStrays(db.store, e);
    }
  }

  lemma LoggedStrays(store: Store, e: Event)
    ensures Strays(TrackedWrite(store, e)) <= Strays(store)
  {
    if Possible(store.rows, e) && store.log.revision.Some? {
      var after := TrackedWrite(store, e);
      forall k | k in Strays(after) ensures k in Strays(store) {
        LoggedEntryIsLive(store, e, k);
      }
    }
  }

  /** A logged write leaves no entry of a row it takes away, and adds none of a row
      that is not there. */
  lemma LoggedEntryIsLive(store: Store, e: Event, k: Key)
    requires Possible(store.rows, e) && store.log.revision.Some? && IsRowKey(k)
    requires k in TrackedWrite(store, e).log.changes && RowOf(k) !in Applied(store.rows, e)
    ensures k in store.log.changes && RowOf(k) !in store.rows
  {
    assert RowKey(RowOf(k)) == k;
  }

  lemma BulkStrays(d: Dialect, db: Db, doomed: set<RowId>, listed: set<Table>)
    ensures
      var after, orphaned := DeletedInBulk(d, db, doomed, listed).store, Orphaned(d, db, BulkDelete(doomed, listed));
      Strays(after) <= Strays(db.store) + orphaned && orphaned <= Strays(after)
  {
    var rids, tables := Doomed(db.store.rows, doomed, listed), Tracked(db, listed);
    var removed := RowKeys(set rid | rid in rids && rid.table in tables);
    forall k | IsRowKey(k) && RowOf(k) in rids && RowOf(k).table in tables ensures k in removed {
      assert RowKey(RowOf(k)) == k;
    }
    forall k | k in removed ensures k != STAR && (IsRowKey(k) ==> RowOf(k).table in tables) {
      var rid :| rid in rids && rid.table in tables && k == RowKey(rid);
    }
  }

  lemma StatementStrays(store: Store, stmt: Stmt)
    ensures Strays(store.(log := ExecuteLog(store.log, stmt))) <= Strays(store)
    ensures stmt.ClearLog? ==> Strays(store.(log := ExecuteLog(store.log, stmt))) == {}
  {
  }

  lemma InstallStraysMore(d: Dialect, db: Db, wanted: bool, generation: int, n: nat)
    requires n < ProgramLength(d, wanted)
    ensures
      var earlier, after :=
        ExecuteUpTo(d, db, wanted, generation, n).store, ExecuteUpTo(d, db, wanted, generation, n + 1).store;
      Strays(after) <= Strays(earlier) && (n == 3 ==> Strays(after) == {})
  {
    var earlier := ExecuteUpTo(d, db, wanted, generation, n);
    ExecuteNext(d, db, wanted, generation, n);
    StatementStrays(earlier.store, StatementAt(d, wanted, generation, n));
  }

  lemma {:induction false} InstallStrays(d: Dialect, db: Db, wanted: bool, generation: int, n: nat)
    requires n <= ProgramLength(d, wanted)
    ensures
      var after := ExecuteUpTo(d, db, wanted, generation, n).store;
      Strays(after) <= Strays(db.store) && (n >= 4 ==> Strays(after) == {})
    decreases n
  {
    if n > 0 {
      InstallStrays(d, db, wanted, generation, n - 1);
      InstallStraysMore(d, db, wanted, generation, n - 1);
    }
  }

  // ---- Every step and every run

  /** The step empties the log of row entries. */
  predicate Clears(d: Dialect, w: World, step: Step) {
    match step
    case Reinstall(_) => true
    case Thread(i, _) =>
      && i < |w.threads| && w.threads[i].Installing? && w.threads[i].next == 3
      && ProgramLength(d, w.threads[i].wanted) > 3
    case _ => false
  }

  lemma StepStrays(d: Dialect, w: World, step: Step)
    ensures
      var after := Next(d, w, step).db.store;
      Strays(after) <= (if Clears(d, w, step) then {} else Strays(w.db.store)) + Orphaned(d, w.db, step)
  {
    match step
    case Write(e) => WriteStrays(d, w.db, e);
    case BulkDelete(doomed, listed) => BulkStrays(d, w.db, doomed, listed);
    case Reinstall(g) =>
      var wanted := SportarrInUse(w.db.store.rows);
      InstallStrays(d, w.db, wanted, g, ProgramLength(d, wanted));
    case Thread(i, g) => ThreadStrays(d, w, i, g);
    case _ =>
  }

  lemma WriteStrays(d: Dialect, db: Db, e: Event)
    ensures Strays(Written(d, db, e).store) <= Strays(db.store) + Orphaned(d, db, Write(e))
  {
    if IsLogged(d, db.triggers, e) {
      LoggedStrays(db.store, e);
    } else if Possible(db.store.rows, e) {
      UnloggedStrays(db.store, e);
    }
  }

  lemma ThreadStrays(d: Dialect, w: World, i: nat, generation: int)
    ensures
      var after, step := ThreadStep(d, w, i, generation).db.store, Thread(i, generation);
      Strays(after) <= if Clears(d, w, step) then {} else Strays(w.db.store)
  {
    if i < |w.threads| && w.threads[i].Installing? {
      var pc := w.threads[i];
      if pc.next < ProgramLength(d, pc.wanted) {
        StatementStrays(w.db.store, StatementAt(d, pc.wanted, pc.generation, pc.next));
      }
    }
  }

  /** Exactly when a step leaves a log of live rows one of live rows. */
  lemma StepKeepsLiveRows(d: Dialect, w: World, step: Step)
    requires NamesLiveRows(w.db.store)
    ensures NamesLiveRows(Next(d, w, step).db.store) <==> Orphaned(d, w.db, step) == {}
  {
    NoStraysMeansLiveRows(w.db.store);
    NoStraysMeansLiveRows(Next(d, w, step).db.store);
    StepStrays(d, w, step);
    if step.Write? && !IsLogged(d, w.db.triggers, step.e) {
      UnloggedWriteKeepsLiveRows(d, w.db, step.e);
    } else if step.BulkDelete? {
      BulkStrays(d, w.db, step.doomed, step.listed);
    }
  }

  /** The entries a run may have left behind since the log was last cleared. */
  function LeftBehind(d: Dialect, w: World, steps: seq<Step>, before: set<Key>): set<Key>
    decreases |steps|
  {
    if steps == [] then before
    else
      var kept := if Clears(d, w, steps[0]) then {} else before;
      LeftBehind(d, Next(d, w, steps[0]), steps[1..], kept + Orphaned(d, w.db, steps[0]))
  }

  lemma {:induction false} RunStrays(d: Dialect, w: World, steps: seq<Step>, before: set<Key>)
    requires Strays(w.db.store) <= before
    ensures Strays(Run(d, w, steps).db.store) <= LeftBehind(d, w, steps, before)
    decreases |steps|
  {
    if steps != [] {
      StepStrays(d, w, steps[0]);
      var kept := if Clears(d, w, steps[0]) then {} else before;
      RunStrays(d, Next(d, w, steps[0]), steps[1..], kept + Orphaned(d, w.db, steps[0]));
    }
  }

  /** As Sane, and the counter is there once an install is past its first statement. */
  ghost predicate Seeded(w: World) {
    && Sane(w.db.store.log)
    && forall i | 0 <= i < |w.threads| && w.threads[i].Installing? && w.threads[i].next >= 1 ::
         w.db.store.log.revision.Some?
  }

  lemma StatementKeepsSane(log: Log, stmt: Stmt)
    requires Sane(log) && (stmt.SeedGeneration? ==> log.revision.Some?)
    ensures Sane(ExecuteLog(log, stmt))
    ensures log.revision.Some? || stmt.SeedRevision? ==> ExecuteLog(log, stmt).revision.Some?
  {
  }

  lemma SeededThread(d: Dialect, w: World, i: nat, generation: int)
    requires Seeded(w)
    ensures Seeded(ThreadStep(d, w, i, generation))
  {
    if i < |w.threads| && w.threads[i].Installing? {
      var pc := w.threads[i];
      if pc.next < ProgramLength(d, pc.wanted) {
        StatementKeepsSane(w.db.store.log, StatementAt(d, pc.wanted, pc.generation, pc.next));
      }
    }
  }

  lemma SeededStep(d: Dialect, w: World, step: Step)
    requires Seeded(w)
    ensures Seeded(Next(d, w, step))
  {
    match step
    case Thread(i, g) => SeededThread(d, w, i, g);
    case Write(e) => WriteKeepsSane(w.db.store, e, {});
    case BulkDelete(doomed, listed) =>
      BulkKeepsSane(w.db.store, Doomed(w.db.store.rows, doomed, listed), Tracked(w.db, listed), {});
    case Reinstall(g) =>
      var wanted := SportarrInUse(w.db.store.rows);
      LogAfterInstall(d, w.db, wanted, g, ProgramLength(d, wanted));
      FiveStatementsAreSafe(w.db.store.log, {}, g);
    case _ =>
  }

  lemma {:induction false} SeededRun(d: Dialect, w: World, steps: seq<Step>)
    requires Seeded(w)
    ensures Seeded(Run(d, w, steps))
    decreases |steps|
  {
    if steps != [] {
      SeededStep(d, w, steps[0]);
      SeededRun(d, Next(d, w, steps[0]), steps[1..]);
    }
  }

  /** Main theorem: in every state any run reaches, no entry but the generation is above
      the counter, and the log holds at most one entry for each live media row, three
      more, and one for each row entry left behind since the log was last cleared. */
  lemma LogStaysBounded(d: Dialect, w: World, steps: seq<Step>)
    requires Seeded(w)
    ensures
      var end, left := Run(d, w, steps).db.store, LeftBehind(d, w, steps, Strays(w.db.store));
      && Sane(end.log)
      && (forall k | k in end.log.changes && IsRowKey(k) :: RowOf(k) in end.rows || k in left)
      && |end.log.changes| <= |MediaRows(end.rows)| + 3 + |left|
      && (left == {} ==> NamesLiveRows(end))
  {
    var end, left := Run(d, w, steps).db.store, LeftBehind(d, w, steps, Strays(w.db.store));
    SeededRun(d, w, steps);
    RunStrays(d, w, steps, Strays(w.db.store));
    EntriesAreFew(end);
    SmallerSet(Strays(end), left);
    NoStraysMeansLiveRows(end);
    forall k | k in end.log.changes && IsRowKey(k) && RowOf(k) !in end.rows ensures k in left {
      assert k in Strays(end);
    }
  }

  /** An install in one transaction restores the bound, whatever was left behind. */
  lemma InstallRestoresTheBound(d: Dialect, w: World, generation: int)
    requires Sane(w.db.store.log)
    ensures
      var end := Next(d, w, Reinstall(generation)).db.store;
      NamesLiveRows(end) && end.log.changes.Keys == {GENERATION, STAR}
  {
    var wanted := SportarrInUse(w.db.store.rows);
    LogAfterInstall(d, w.db, wanted, generation, ProgramLength(d, wanted));
    FiveStatementsMark(w.db.store.log, generation);
  }
}
