/**
 No untracked write goes unnoticed: over every run of the install machine a
 snapshot read under verified protection refreshes to a re-read whenever the
 protection verifies again.
 */
module OwnershipSafety {
  import opened Common
  import opened OwnershipLog
  import opened OwnershipInstall

  // ---- The last trigger the program replaces

  /** The slot holds a trigger that verifies, or will once its function body is restored. */
  predicate Own(d: Dialect, triggers: Triggers, s: Slot) {
    s in triggers && (triggers[s] == Expected || (d.Postgres? && triggers[s] == Drifted))
  }

  /** A trigger of the table replaced last is not the expected one. */
  predicate LastMissing(d: Dialect, triggers: Triggers) {
    || !Own(d, triggers, SlotAt(d, SlotCount(d) - 1))
    || (d.Postgres? && !Own(d, triggers, SlotAt(d, SlotCount(d) - 2)))
  }

  lemma VerifiedOwnsLast(d: Dialect, triggers: Triggers)
    ensures Verified(d, triggers) ==> !LastMissing(d, triggers)
  {
    if Verified(d, triggers) {
      assert IsExpected(triggers, SlotAt(d, SlotCount(d) - 1));
      assert IsExpected(triggers, SlotAt(d, SlotCount(d) - 2));
    }
  }

  lemma SlotsDiffer(d: Dialect, i: nat, j: nat)
    requires i < SlotCount(d) && j < SlotCount(d) && i != j
    ensures SlotAt(d, i) != SlotAt(d, j)
  {
  }

  lemma FiredSlotIsRequired(d: Dialect, e: Event) returns (j: nat)
    requires e.Truncate? ==> d.Postgres?
    ensures j < SlotCount(d) && SlotAt(d, j) == FiredSlot(d, e)
  {
    var t := if e.table.Instances? then 0 else if e.table.Episodes? then 1 else if e.table.Movies? then 2 else 3;
    j := if d.Sqlite? then 3 * t + (if e.Insert? then 0 else if e.Update? then 1 else 2)
         else 2 * t + (if e.Truncate? then 1 else 0);
  }

  // ---- The invariant

  /** As Coherent, also before the counter and the generation are seeded. */
  ghost predicate Sane(log: Log) {
    && (log.revision.None? ==> log.changes == map[])
    && (log.revision.Some? ==> forall k | k in log.changes && k != GENERATION :: log.changes[k] <= log.revision.value)
    && (forall k | k in log.changes && (k.name in {Star, Generation} || k.name == Of(Instances)) :: k.row == 0)
  }

  ghost predicate Below(snapshots: set<Snapshot>, log: Log) {
    snapshots != {} ==>
      && Coherent(log)
      && (forall s | s in snapshots :: s.generation == log.changes[GENERATION] && s.revision <= log.revision.value)
  }

  ghost predicate AllMarked(snapshots: set<Snapshot>, log: Log) {
    forall s | s in snapshots :: Above(log, STAR, s.revision)
  }

  ghost predicate LockHeld(w: World) {
    && (w.holder.Some? ==> w.holder.value < |w.threads| && InCriticalSection(w.threads[w.holder.value]))
    && (forall i | 0 <= i < |w.threads| && InCriticalSection(w.threads[i]) :: w.holder == Some(i))
  }

  ghost predicate InstallUnderWay(d: Dialect, w: World, wanted: bool, next: nat) {
    var log := w.db.store.log;
    && next <= ProgramLength(d, wanted)
    && (next >= 1 ==> log.revision.Some?)
    && (next >= 2 ==> GENERATION in log.changes)
    && (next == ProgramLength(d, wanted) || OnlyDrops(d, wanted, next) || MarkerThere(log, next)
        || SetIncomplete(d, w, wanted, next))
  }

  /** The next statement is the marker, and will fail. */
  predicate MarkerThere(log: Log, next: nat) {
    next == 4 && STAR in log.changes
  }

  ghost predicate SetIncomplete(d: Dialect, w: World, wanted: bool, next: nat) {
    var log := w.db.store.log;
    && LastMissing(d, w.db.triggers)
    && (d.Postgres? && wanted && next >= ProgramLength(d, wanted) - 2 ==>
          !Own(d, w.db.triggers, SlotAt(d, SlotCount(d) - 1)))
    && (next >= 3 ==> log.revision.Some? && forall s | s in w.snapshots :: s.revision < log.revision.value)
    && (next >= 5 ==> AllMarked(w.snapshots, log))
  }

  ghost predicate HolderSafe(d: Dialect, w: World) {
    w.holder.Some? && w.holder.value < |w.threads| ==>
      match w.threads[w.holder.value]
      case Asking => LastMissing(d, w.db.triggers)
      case Installing(wanted, _, next) => InstallUnderWay(d, w, wanted, next)
      case _ => true
  }

  ghost predicate Base(d: Dialect, w: World) {
    && Sane(w.db.store.log)
    && Below(w.snapshots, w.db.store.log)
    && w.missed <= w.snapshots
    && LockHeld(w)
    && Honest(d, w)
  }

  ghost predicate Inv(d: Dialect, w: World) {
    Base(d, w) && HolderSafe(d, w)
  }

  // ---- Writes, bulk deletes and reads

  /** What a log may do while an install is under way. */
  ghost predicate Grows(before: Log, after: Log, snapshots: set<Snapshot>) {
    && (before.revision.Some? ==> after.revision.Some? && after.revision.value >= before.revision.value)
    && (GENERATION in before.changes ==> GENERATION in after.changes)
    && (STAR in before.changes ==> STAR in after.changes)
    && (AllMarked(snapshots, before) ==> AllMarked(snapshots, after))
  }

  lemma MarkedIsTracked(s: Snapshot, snapshots: set<Snapshot>, store: Store)
    requires s in snapshots && Below(snapshots, store.log) && AllMarked(snapshots, store.log)
    ensures Tracks(s, store)
  {
  }

  lemma MarkedIsHonest(d: Dialect, w: World)
    requires Below(w.snapshots, w.db.store.log) && AllMarked(w.snapshots, w.db.store.log) && w.missed <= w.snapshots
    ensures Honest(d, w)
  {
    forall s | s in w.snapshots ensures Tracks(s, w.db.store) {
      MarkedIsTracked(s, w.snapshots, w.db.store);
    }
  }

  lemma GrowingKeepsHolder(d: Dialect, w: World, after: World)
    requires HolderSafe(d, w) && Grows(w.db.store.log, after.db.store.log, w.snapshots)
    requires after.db.triggers == w.db.triggers && after.threads == w.threads && after.holder == w.holder
    requires after.snapshots == w.snapshots
    ensures HolderSafe(d, after)
  {
  }

  lemma WriteKeepsSane(store: Store, e: Event, snapshots: set<Snapshot>)
    requires Sane(store.log) && Below(snapshots, store.log)
    ensures
      var after := TrackedWrite(store, e).log;
      Sane(after) && Below(snapshots, after) && Grows(store.log, after, snapshots)
  {
    if Possible(store.rows, e) && store.log.revision.Some? {
      if snapshots != {} {
        WriteKeepsCoherent(store.log, e);
      }
      var after := Logged(store.log, e);
      assert STAR in store.log.changes ==> STAR in after.changes && after.changes[STAR] >= store.log.changes[STAR];
    }
  }

  lemma WriteIsHonest(d: Dialect, w: World, e: Event)
    requires Base(d, w)
    ensures Honest(d, Next(d, w, Write(e)))
  {
    var after := Next(d, w, Write(e));
    if Verified(d, w.db.triggers) && after.db != w.db {
      var j := FiredSlotIsRequired(d, e);
      assert IsExpected(w.db.triggers, SlotAt(d, j));
      forall s | s in w.snapshots
        ensures Tracks(s, after.db.store)
        ensures Above(w.db.store.log, STAR, s.revision) ==> Above(after.db.store.log, STAR, s.revision)
      {
        WriteKeepsTracks(s, w.db.store, e);
      }
    }
  }

  lemma WriteKeepsBase(d: Dialect, w: World, e: Event)
    requires Base(d, w)
    ensures Base(d, Next(d, w, Write(e)))
    ensures Grows(w.db.store.log, Next(d, w, Write(e)).db.store.log, w.snapshots)
  {
    WriteKeepsSane(w.db.store, e, w.snapshots);
    WriteIsHonest(d, w, e);
  }

  lemma WriteStep(d: Dialect, w: World, e: Event)
    requires Inv(d, w)
    ensures Inv(d, Next(d, w, Write(e)))
  {
    WriteKeepsBase(d, w, e);
    GrowingKeepsHolder(d, w, Next(d, w, Write(e)));
  }

  lemma BulkKeepsSane(store: Store, doomed: set<RowId>, tables: set<Table>, snapshots: set<Snapshot>)
    requires Sane(store.log) && Below(snapshots, store.log)
    ensures
      var after := BulkDeleted(store, doomed, tables).log;
      && Sane(after) && Below(snapshots, after) && Grows(store.log, after, snapshots)
      && (tables != {} && store.log.revision.Some? ==> AllMarked(snapshots, after))
  {
    assert STAR !in RowKeys(doomed) && GENERATION !in RowKeys(doomed);
  }

  lemma BulkKeepsBase(d: Dialect, w: World, doomed: set<RowId>, listed: set<Table>)
    requires Base(d, w)
    ensures Base(d, Next(d, w, BulkDelete(doomed, listed)))
    ensures Grows(w.db.store.log, Next(d, w, BulkDelete(doomed, listed)).db.store.log, w.snapshots)
  {
    var after := Next(d, w, BulkDelete(doomed, listed));
    var tables := Tracked(w.db, listed);
    BulkKeepsSane(w.db.store, Doomed(w.db.store.rows, doomed, listed), tables, w.snapshots);
    if d.Postgres? && tables != {} && w.db.store.log.revision.Some? {
      MarkedIsHonest(d, after);
    } else if after.db.store.rows != w.db.store.rows {
      UntrackedIsUnverified(d, w, doomed, listed);
    } else {
      assert after.db == w.db;
    }
  }

  /** Rows go without a trigger to switch off only where the protection is not there. */
  lemma UntrackedIsUnverified(d: Dialect, w: World, doomed: set<RowId>, listed: set<Table>)
    requires d.Postgres? && Tracked(w.db, listed) == {}
    requires w.db.store.rows - Doomed(w.db.store.rows, doomed, listed) != w.db.store.rows
    ensures !Verified(d, w.db.triggers)
  {
    var gone := Doomed(w.db.store.rows, doomed, listed);
    if gone == {} {
      NothingGone(w.db.store.rows, gone);
    }
    var rid :| rid in gone;
    assert rid.table !in Tracked(w.db, listed);
    var j := FiredSlotIsRequired(d, Delete(rid.table, rid.id));
    assert !IsExpected(w.db.triggers, SlotAt(d, j));
  }

  lemma NothingGone(rows: Rows, gone: set<RowId>)
    requires gone == {}
    ensures rows - gone == rows
  {
  }

  /** A bulk delete takes exactly the doomed rows of the listed tables, or, with a trigger
      to log it and no counter, none. */
  lemma BulkTakesExactly(w: World, doomed: set<RowId>, listed: set<Table>, rid: RowId)
    ensures
      var after := Next(Postgres, w, BulkDelete(doomed, listed)).db.store;
      var logged := exists t | t in listed :: RowTrigger(t) in w.db.triggers;
      if logged && w.db.store.log.revision.None? then after == w.db.store
      else
        && (rid in after.rows <==> rid in w.db.store.rows && !(rid in doomed && rid.table in listed))
        && (rid in after.rows ==> after.rows[rid] == w.db.store.rows[rid])
        && (!logged ==> after.log == w.db.store.log)
  {
    if t :| t in listed && RowTrigger(t) in w.db.triggers {
      assert t in Tracked(w.db, listed);
    }
  }

  lemma BulkStep(d: Dialect, w: World, doomed: set<RowId>, listed: set<Table>)
    requires Inv(d, w)
    ensures Inv(d, Next(d, w, BulkDelete(doomed, listed)))
  {
    BulkKeepsBase(d, w, doomed, listed);
    GrowingKeepsHolder(d, w, Next(d, w, BulkDelete(doomed, listed)));
  }

  lemma TakeKeepsBase(d: Dialect, w: World, configuration: string)
    requires Base(d, w)
    ensures Base(d, Next(d, w, Take(configuration)))
  {
    var log := w.db.store.log;
    if Verified(d, w.db.triggers) && log.revision.Some? && GENERATION in log.changes {
      FreshIsTracked(w.db.store, configuration);
    }
  }

  lemma TakeStep(d: Dialect, w: World, configuration: string)
    requires Inv(d, w)
    ensures Inv(d, Next(d, w, Take(configuration)))
  {
    TakeKeepsBase(d, w, configuration);
    if Verified(d, w.db.triggers) {
      VerifiedOwnsLast(d, w.db.triggers);
    }
  }

  lemma TriggersLost(d: Dialect, w: World, triggers: Triggers)
    requires Inv(d, w)
    requires forall s | Own(d, triggers, s) :: Own(d, w.db.triggers, s)
    requires forall s | IsExpected(triggers, s) :: IsExpected(w.db.triggers, s)
    ensures Inv(d, w.(db := w.db.(triggers := triggers)))
  {
    if Verified(d, triggers) {
      forall j | 0 <= j < SlotCount(d) ensures IsExpected(w.db.triggers, SlotAt(d, j)) {
        assert IsExpected(triggers, SlotAt(d, j));
      }
    }
  }

  // ---- Installs

  function FiveStatements(log: Log, generation: int): Log {
    ExecuteLog(ExecuteLog(ExecuteLog(ExecuteLog(ExecuteLog(
      log, SeedRevision), SeedGeneration(generation)), Bump), ClearLog), MarkResync)
  }

  lemma FiveStatementsMark(log: Log, generation: int)
    requires Sane(log)
    ensures
      var seeded := if log.revision.Some? then log.revision.value else 0;
      && FiveStatements(log, generation).revision == Some(seeded + 1)
      && FiveStatements(log, generation).changes
         == map[GENERATION := if GENERATION in log.changes then log.changes[GENERATION] else generation,
                STAR := seeded + 1]
  {
  }

  lemma ExecuteNext(d: Dialect, db: Db, wanted: bool, generation: int, n: nat)
    requires n < ProgramLength(d, wanted)
    ensures ExecuteUpTo(d, db, wanted, generation, n + 1)
         == Execute(ExecuteUpTo(d, db, wanted, generation, n), StatementAt(d, wanted, generation, n))
  {
  }

  /** What a whole install leaves in the log, whatever the triggers were. */
  lemma {:induction false} LogAfterInstall(d: Dialect, db: Db, wanted: bool, generation: int, n: nat)
    requires Sane(db.store.log) && 5 <= n <= ProgramLength(d, wanted)
    ensures
      ExecuteUpTo(d, db, wanted, generation, n).store == db.store.(log := FiveStatements(db.store.log, generation))
    decreases n
  {
    if n > 5 {
      var earlier := n - 1;
      LogAfterInstall(d, db, wanted, generation, earlier);
      LaterStatement(d, db, wanted, generation, earlier);
    } else {
      LogAfterFive(d, db, wanted, generation);
    }
  }

  lemma LaterStatement(d: Dialect, db: Db, wanted: bool, generation: int, n: nat)
    requires 5 <= n < ProgramLength(d, wanted)
    ensures ExecuteUpTo(d, db, wanted, generation, n + 1).store == ExecuteUpTo(d, db, wanted, generation, n).store
  {
    ExecuteNext(d, db, wanted, generation, n);
  }

  lemma LogAfterFive(d: Dialect, db: Db, wanted: bool, generation: int)
    ensures
      ExecuteUpTo(d, db, wanted, generation, 5).store == db.store.(log := FiveStatements(db.store.log, generation))
  {
    ExecuteNext(d, db, wanted, generation, 0);
    ExecuteNext(d, db, wanted, generation, 1);
    ExecuteNext(d, db, wanted, generation, 2);
    ExecuteNext(d, db, wanted, generation, 3);
    ExecuteNext(d, db, wanted, generation, 4);
  }

  lemma FiveStatementsAreSafe(log: Log, snapshots: set<Snapshot>, generation: int)
    requires Sane(log) && Below(snapshots, log)
    ensures
      var after := FiveStatements(log, generation);
      && Sane(after) && Below(snapshots, after) && AllMarked(snapshots, after)
      && after.revision.Some? && GENERATION in after.changes && STAR in after.changes
      && forall s | s in snapshots :: s.revision < after.revision.value
  {
    FiveStatementsMark(log, generation);
  }

  /** An install without Sportarr drops the last trigger at its end. */
  lemma UnwantedInstallDrops(d: Dialect, db: Db, generation: int)
    ensures
      var triggers := ExecuteUpTo(d, db, false, generation, ProgramLength(d, false)).triggers;
      SlotAt(d, SlotCount(d) - 1) !in triggers
  {
    var n := ProgramLength(d, false) - 1;
    ExecuteNext(d, db, false, generation, n);
    assert StatementAt(d, false, generation, n) == DropTrigger(SlotAt(d, SlotCount(d) - 1));
  }

  /** All a reinstall leaves: everything but the database as it was, the log marked, and
      without Sportarr no trigger of the table replaced last. */
  ghost predicate Reinstalled(d: Dialect, w: World, after: World) {
    && after == w.(db := after.db) && after.db.store.rows == w.db.store.rows
    && Sane(after.db.store.log) && Below(w.snapshots, after.db.store.log) && AllMarked(w.snapshots, after.db.store.log)
    && after.db.store.log.revision.Some?
    && GENERATION in after.db.store.log.changes && STAR in after.db.store.log.changes
    && (forall s | s in w.snapshots :: s.revision < after.db.store.log.revision.value)
    && (!SportarrInUse(w.db.store.rows) ==> SlotAt(d, SlotCount(d) - 1) !in after.db.triggers)
  }

  lemma ReinstallReinstalls(d: Dialect, w: World, generation: int)
    requires Sane(w.db.store.log) && Below(w.snapshots, w.db.store.log)
    ensures Reinstalled(d, w, Next(d, w, Reinstall(generation)))
  {
    var wanted := SportarrInUse(w.db.store.rows);
    LogAfterInstall(d, w.db, wanted, generation, ProgramLength(d, wanted));
    FiveStatementsAreSafe(w.db.store.log, w.snapshots, generation);
    if !wanted {
      UnwantedInstallDrops(d, w.db, generation);
    }
  }

  lemma ReinstalledKeepsHolder(d: Dialect, w: World, after: World)
    requires HolderSafe(d, w) && Harmless(d, w) && Reinstalled(d, w, after)
    ensures HolderSafe(d, after)
  {
  }

  lemma ReinstallKeepsHolder(d: Dialect, w: World, generation: int)
    requires HolderSafe(d, w) && Sane(w.db.store.log) && Below(w.snapshots, w.db.store.log) && Harmless(d, w)
    ensures HolderSafe(d, Next(d, w, Reinstall(generation)))
  {
    ReinstallReinstalls(d, w, generation);
    ReinstalledKeepsHolder(d, w, Next(d, w, Reinstall(generation)));
  }

  lemma ReinstalledKeepsBase(d: Dialect, w: World, after: World)
    requires Base(d, w) && Reinstalled(d, w, after)
    ensures Base(d, after)
  {
    MarkedIsHonest(d, after);
  }

  lemma ReinstallKeepsBase(d: Dialect, w: World, generation: int)
    requires Base(d, w)
    ensures Base(d, Next(d, w, Reinstall(generation)))
  {
    ReinstallReinstalls(d, w, generation);
    ReinstalledKeepsBase(d, w, Next(d, w, Reinstall(generation)));
  }

  lemma ReinstallStep(d: Dialect, w: World, generation: int)
    requires Inv(d, w) && Harmless(d, w)
    ensures Inv(d, Next(d, w, Reinstall(generation)))
  {
    ReinstallKeepsBase(d, w, generation);
    ReinstallKeepsHolder(d, w, generation);
  }

  /** One statement of an install keeps the log sane and the snapshots below it. */
  lemma LogStatement(d: Dialect, w: World, wanted: bool, generation: int, next: nat)
    requires Sane(w.db.store.log) && Below(w.snapshots, w.db.store.log)
    requires InstallUnderWay(d, w, wanted, next) && next < ProgramLength(d, wanted)
    requires !Fails(w.db, StatementAt(d, wanted, generation, next))
    ensures
      var log := ExecuteLog(w.db.store.log, StatementAt(d, wanted, generation, next));
      && Sane(log) && Below(w.snapshots, log) && log.revision.Some?
      && (next >= 1 ==> GENERATION in log.changes)
      && (!OnlyDrops(d, wanted, next) && next >= 2 ==> forall s | s in w.snapshots :: s.revision < log.revision.value)
      && (!OnlyDrops(d, wanted, next) && next >= 4 ==> AllMarked(w.snapshots, log))
      && (next >= 5 ==> log == w.db.store.log)
  {
  }

  /** Until the last statement, a trigger of the last table stays missing. */
  lemma DdlStatement(d: Dialect, w: World, wanted: bool, generation: int, next: nat)
    requires SetIncomplete(d, w, wanted, next) && next < ProgramLength(d, wanted)
    requires wanted ==> next < ProgramLength(d, wanted) - 1
    ensures
      var triggers := ExecuteDdl(w.db.triggers, StatementAt(d, wanted, generation, next));
      && LastMissing(d, triggers)
      && (d.Postgres? && wanted && next >= ProgramLength(d, wanted) - 3 ==>
            !Own(d, triggers, SlotAt(d, SlotCount(d) - 1)))
  {
    if wanted && next >= PrefixLength(d) {
      CreatesEarlier(d, generation, next);
    }
  }

  /** What an install does not create before its last statements. */
  lemma CreatesEarlier(d: Dialect, generation: int, next: nat)
    requires PrefixLength(d) <= next < ProgramLength(d, true) - 1
    ensures
      var stmt := StatementAt(d, true, generation, next);
      stmt.CreateTrigger? ==>
        && stmt.slot != SlotAt(d, SlotCount(d) - 1)
        && (d.Postgres? && stmt.slot == SlotAt(d, SlotCount(d) - 2) ==> next == ProgramLength(d, true) - 2)
  {
  }

  ghost predicate InstallerAt(d: Dialect, w: World, i: nat) {
    && i < |w.threads| && w.threads[i].Installing? && w.holder == Some(i)
    && w.threads[i].next < ProgramLength(d, w.threads[i].wanted)
    && !Fails(w.db, StatementAt(d, w.threads[i].wanted, w.threads[i].generation, w.threads[i].next))
  }

  lemma InstallStep(d: Dialect, w: World, i: nat)
    requires Inv(d, w) && i < |w.threads| && w.threads[i].Installing?
    ensures Inv(d, ThreadStep(d, w, i, 0))
  {
    var pc := w.threads[i];
    assert w.holder == Some(i);
    if InstallerAt(d, w, i) {
      if OnlyDrops(d, pc.wanted, pc.next) {
        DroppingStatement(d, w, i);
      } else if pc.wanted && pc.next == ProgramLength(d, true) - 1 {
        LastStatement(d, w, i);
      } else {
        EarlierStatement(d, w, i);
      }
    }
  }

  /** A statement after which a trigger is still missing. */
  lemma EarlierStatement(d: Dialect, w: World, i: nat)
    requires Inv(d, w) && InstallerAt(d, w, i) && !OnlyDrops(d, w.threads[i].wanted, w.threads[i].next)
    requires w.threads[i].wanted ==> w.threads[i].next < ProgramLength(d, true) - 1
    ensures Inv(d, ThreadStep(d, w, i, 0))
  {
    var pc := w.threads[i];
    LogStatement(d, w, pc.wanted, pc.generation, pc.next);
    DdlStatement(d, w, pc.wanted, pc.generation, pc.next);
    VerifiedOwnsLast(d, ThreadStep(d, w, i, 0).db.triggers);
  }

  /** The statement that completes the set, with every snapshot below the marker. */
  lemma LastStatement(d: Dialect, w: World, i: nat)
    requires Inv(d, w) && InstallerAt(d, w, i)
    requires w.threads[i].wanted && w.threads[i].next == ProgramLength(d, true) - 1
    ensures Inv(d, ThreadStep(d, w, i, 0))
  {
    var pc, after := w.threads[i], ThreadStep(d, w, i, 0);
    LogStatement(d, w, true, pc.generation, pc.next);
    MarkedIsHonest(d, after);
  }

  /** A statement that only takes a trigger away, Sportarr not being in use. */
  lemma DroppingStatement(d: Dialect, w: World, i: nat)
    requires Inv(d, w) && InstallerAt(d, w, i) && OnlyDrops(d, w.threads[i].wanted, w.threads[i].next)
    ensures Inv(d, ThreadStep(d, w, i, 0))
  {
    var pc := w.threads[i];
    var stmt := StatementAt(d, pc.wanted, pc.generation, pc.next);
    TriggersLost(d, w, w.db.triggers - {stmt.slot});
  }

  lemma NothingPresentIsMissing(d: Dialect, triggers: Triggers)
    requires !AnyPresent(d, triggers)
    ensures LastMissing(d, triggers)
  {
    assert SlotAt(d, SlotCount(d) - 1) !in triggers;
  }

  /** A step that only moves a thread along. */
  lemma MoveKeeps(d: Dialect, w: World, i: nat, pc: Pc, holder: Option<nat>)
    requires Inv(d, w) && i < |w.threads|
    requires
      holder == if InCriticalSection(pc) then Some(i) else if InCriticalSection(w.threads[i]) then None else w.holder
    requires InCriticalSection(pc) ==> w.holder == Some(i) || w.holder == None
    requires pc.Asking? || pc.Installing? ==> LastMissing(d, w.db.triggers)
    requires pc.Installing? ==> pc.next == 0
    ensures Inv(d, w.(threads := w.threads[i := pc], holder := holder))
  {
  }

  lemma ThreadStepKeeps(d: Dialect, w: World, i: nat, generation: int)
    requires Inv(d, w)
    ensures Inv(d, ThreadStep(d, w, i, generation))
  {
    if Enabled(w, i) {
      var after := ThreadStep(d, w, i, generation);
      if w.threads[i].Installing? {
        InstallStep(d, w, i);
      } else {
        if w.threads[i].Probing? && !AnyPresent(d, w.db.triggers) {
          NothingPresentIsMissing(d, w.db.triggers);
        }
        MoveKeeps(d, w, i, after.threads[i], after.holder);
        assert after == w.(threads := w.threads[i := after.threads[i]], holder := after.holder);
      }
    }
  }

  lemma StepKeepsInv(d: Dialect, w: World, step: Step)
    requires Inv(d, w) && (step.Reinstall? ==> Harmless(d, w))
    ensures Inv(d, Next(d, w, step))
  {
    match step
    case Thread(i, g) => ThreadStepKeeps(d, w, i, g);
    case Write(e) => WriteStep(d, w, e);
    case BulkDelete(doomed, listed) => BulkStep(d, w, doomed, listed);
    case Take(c) => TakeStep(d, w, c);
    case Lose(s) => TriggersLost(d, w, w.db.triggers - {s});
    case Redefine(s) => TriggersLost(d, w, w.db.triggers[s := Foreign]);
    case Drift(truncate) =>
      if d.Postgres? {
        TriggersLost(d, w, Drifting(w.db.triggers, truncate));
      }
    case Reinstall(g) => ReinstallStep(d, w, g);
  }

  lemma {:induction false} RunKeepsInv(d: Dialect, w: World, steps: seq<Step>)
    requires Inv(d, w) && Allowed(d, w, steps)
    ensures Inv(d, Run(d, w, steps))
    decreases |steps|
  {
    if steps != [] {
      StepKeepsInv(d, w, steps[0]);
      RunKeepsInv(d, Next(d, w, steps[0]), steps[1..]);
    }
  }
}
