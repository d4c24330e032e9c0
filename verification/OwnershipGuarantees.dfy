/**
 The theorems about the install machine: what every run guarantees, exactly
 when a reinstall run statement by statement is safe, and how every thread in
 ensure_ownership_protection ends.
 */
module OwnershipGuarantees {
  import opened Common
  import opened OwnershipLog
  import opened OwnershipInstall
  import opened OwnershipSafety

  function NewWorld(db: Db, count: nat): World {
    World(db, None, seq(count, _ => Start), {}, {})
  }

  /** Main theorem: over every run, whenever the protection verifies, refreshing
      any snapshot is a re-read and no snapshot has missed a write silently. */
  lemma NoWriteGoesUnnoticed(d: Dialect, db: Db, count: nat, steps: seq<Step>)
    requires Sane(db.store.log) && Allowed(d, NewWorld(db, count), steps)
    ensures
      var w := Run(d, NewWorld(db, count), steps);
      && Honest(d, w)
      && (Verified(d, w.db.triggers) ==>
            forall s | s in w.snapshots ::
              Refresh(Some(s), w.db.store, s.configuration, w.db.store.log.revision.value)
              == Ok(Fresh(w.db.store.rows, s.configuration, s.generation, w.db.store.log.revision.value)))
  {
    RunKeepsInv(d, NewWorld(db, count), steps);
    var w := Run(d, NewWorld(db, count), steps);
    if Verified(d, w.db.triggers) {
      forall s | s in w.snapshots
        ensures Refresh(Some(s), w.db.store, s.configuration, w.db.store.log.revision.value)
             == Ok(Fresh(w.db.store.rows, s.configuration, s.generation, w.db.store.log.revision.value))
      {
        RefreshIsReread(s, w.db.store, s.configuration);
      }
    }
  }

  // ---- The generation survives and the revision only grows

  predicate Follows(before: Log, after: Log) {
    && (before.revision.Some? ==> after.revision.Some? && after.revision.value >= before.revision.value)
    && (GENERATION in before.changes ==>
          GENERATION in after.changes && after.changes[GENERATION] == before.changes[GENERATION])
  }

  lemma {:induction false} InstallFollows(d: Dialect, db: Db, wanted: bool, generation: int, n: nat)
    requires n <= ProgramLength(d, wanted)
    ensures Follows(db.store.log, ExecuteUpTo(d, db, wanted, generation, n).store.log)
    decreases n
  {
    if n > 0 {
      InstallFollows(d, db, wanted, generation, n - 1);
      var earlier := ExecuteUpTo(d, db, wanted, generation, n - 1);
      StatementFollows(earlier.store.log, StatementAt(d, wanted, generation, n - 1));
    }
  }

  lemma StatementFollows(log: Log, stmt: Stmt)
    ensures Follows(log, ExecuteLog(log, stmt))
  {
  }

  lemma WriteFollows(store: Store, e: Event)
    ensures Follows(store.log, TrackedWrite(store, e).log)
  {
  }

  lemma BulkFollows(store: Store, doomed: set<RowId>, tables: set<Table>)
    ensures Follows(store.log, BulkDeleted(store, doomed, tables).log)
  {
  }

  lemma StepFollows(d: Dialect, w: World, step: Step)
    ensures Follows(w.db.store.log, Next(d, w, step).db.store.log)
  {
    if step.Write? {
      WriteFollows(w.db.store, step.e);
    } else if step.BulkDelete? {
      BulkFollows(w.db.store, Doomed(w.db.store.rows, step.doomed, step.listed), Tracked(w.db, step.listed));
    } else if step.Thread? {
      if Enabled(w, step.i) && w.threads[step.i].Installing? {
        var pc := w.threads[step.i];
        if pc.next < ProgramLength(d, pc.wanted) {
          StatementFollows(w.db.store.log, StatementAt(d, pc.wanted, pc.generation, pc.next));
        }
      }
    } else if step.Reinstall? {
      var wanted := SportarrInUse(w.db.store.rows);
      InstallFollows(d, w.db, wanted, step.generation, ProgramLength(d, wanted));
    }
  }

  /** Over every run whatever, reinstalls included. */
  lemma {:induction false} GenerationSurvives(d: Dialect, w: World, steps: seq<Step>)
    ensures Follows(w.db.store.log, Run(d, w, steps).db.store.log)
    decreases |steps|
  {
    if steps != [] {
      StepFollows(d, w, steps[0]);
      GenerationSurvives(d, Next(d, w, steps[0]), steps[1..]);
    }
  }

  // ---- The triggers after the first `n` statements

  /** A thread that finds the set verified is done at once: it neither waits nor locks. */
  lemma VerifiedNeedsNoLock(d: Dialect, w: World, i: nat, generation: int)
    requires i < |w.threads| && w.threads[i].Start? && Verified(d, w.db.triggers)
    ensures ThreadStep(d, w, i, generation) == w.(threads := w.threads[i := Done])
  {
  }

  /** From here on an own trigger is the expected one. */
  function RestoredAt(d: Dialect, s: Slot): nat {
    if d.Sqlite? then 0 else if s.TruncateTrigger? then 7 else 6
  }

  ghost predicate SlotUpTo(d: Dialect, before: Triggers, triggers: Triggers, n: nat, j: nat)
    requires j < SlotCount(d)
  {
    SlotAround(d, before, triggers, SlotAt(d, j), n, DropIndex(d, true, j), CreateIndex(d, j))
  }

  /** The slot `s`, dropped at `drop` and created at `create`, after `n` statements. */
  ghost predicate SlotAround(
      d: Dialect, before: Triggers, triggers: Triggers, s: Slot, n: nat, drop: nat, create: nat)
  {
    && (n > create ==> IsExpected(triggers, s))
    && (drop < n <= create ==> s !in triggers)
    && (n <= drop && s !in before ==> s !in triggers)
    && (n <= drop && Own(d, before, s) ==> Own(d, triggers, s))
    && (RestoredAt(d, s) <= n <= drop && Own(d, before, s) ==> IsExpected(triggers, s))
  }

  lemma SlotStatement(d: Dialect, before: Triggers, triggers: Triggers, generation: int, n: nat, j: nat)
    requires n < ProgramLength(d, true) && j < SlotCount(d) && SlotUpTo(d, before, triggers, n, j)
    ensures SlotUpTo(d, before, ExecuteDdl(triggers, StatementAt(d, true, generation, n)), n + 1, j)
  {
    if n < PrefixLength(d) {
      PrefixStatement(d, before, triggers, generation, n, j);
    } else {
      var i := SlotOfStatement(d, generation, n);
      IndicesOfSlot(d, j);
      if i != j {
        OtherSlotStatement(d, before, triggers, generation, n, i, j);
      } else {
        DropBeforeCreate(d, j);
      }
    }
  }

  lemma PrefixStatement(d: Dialect, before: Triggers, triggers: Triggers, generation: int, n: nat, j: nat)
    requires n < PrefixLength(d) && j < SlotCount(d) && SlotUpTo(d, before, triggers, n, j)
    ensures SlotUpTo(d, before, ExecuteDdl(triggers, StatementAt(d, true, generation, n)), n + 1, j)
  {
    DropBeforeCreate(d, j);
  }

  lemma DropBeforeCreate(d: Dialect, j: nat)
    requires j < SlotCount(d)
    ensures PrefixLength(d) <= DropIndex(d, true, j) < CreateIndex(d, j)
    ensures RestoredAt(d, SlotAt(d, j)) <= PrefixLength(d)
  {
  }

  lemma OtherSlotStatement(d: Dialect, before: Triggers, triggers: Triggers, generation: int, n: nat, i: nat, j: nat)
    requires PrefixLength(d) <= n < ProgramLength(d, true) && i < SlotCount(d) && j < SlotCount(d) && i != j
    requires SlotUpTo(d, before, triggers, n, j) && n != DropIndex(d, true, j) && n != CreateIndex(d, j)
    requires
      var stmt := StatementAt(d, true, generation, n);
      stmt == CreateTrigger(SlotAt(d, i)) || stmt == DropTrigger(SlotAt(d, i))
    ensures SlotUpTo(d, before, ExecuteDdl(triggers, StatementAt(d, true, generation, n)), n + 1, j)
  {
    SlotsDiffer(d, i, j);
    DropBeforeCreate(d, j);
  }

  /** The slot after the first `n` statements on `db`. */
  ghost predicate SlotReached(d: Dialect, db: Db, generation: int, n: nat, j: nat)
    requires j < SlotCount(d)
  {
    n <= ProgramLength(d, true) ==>
      SlotUpTo(d, db.triggers, ExecuteUpTo(d, db, true, generation, n).triggers, n, j)
  }

  lemma {:induction false} SlotIsReached(d: Dialect, db: Db, generation: int, n: nat, j: nat)
    requires j < SlotCount(d)
    ensures SlotReached(d, db, generation, n, j)
    decreases n
  {
    NothingReplaced(d, db, generation, n, j);
    if n > 0 {
      var earlier := n - 1;
      SlotIsReached(d, db, generation, earlier, j);
      SlotReachedNext(d, db, generation, earlier, n, j);
    }
  }

  lemma TriggersUpTo(d: Dialect, db: Db, generation: int, n: nat, j: nat)
    requires n <= ProgramLength(d, true) && j < SlotCount(d)
    ensures SlotUpTo(d, db.triggers, ExecuteUpTo(d, db, true, generation, n).triggers, n, j)
  {
    SlotIsReached(d, db, generation, n, j);
  }

  lemma SlotReachedNext(d: Dialect, db: Db, generation: int, earlier: nat, n: nat, j: nat)
    requires n == earlier + 1 && j < SlotCount(d) && SlotReached(d, db, generation, earlier, j)
    ensures SlotReached(d, db, generation, n, j)
  {
    if n <= ProgramLength(d, true) {
      TriggersOneMore(d, db, generation, earlier, j);
    }
  }

  lemma TriggersOneMore(d: Dialect, db: Db, generation: int, n: nat, j: nat)
    requires n < ProgramLength(d, true) && j < SlotCount(d)
    requires SlotUpTo(d, db.triggers, ExecuteUpTo(d, db, true, generation, n).triggers, n, j)
    ensures SlotUpTo(d, db.triggers, ExecuteUpTo(d, db, true, generation, n + 1).triggers, n + 1, j)
  {
    var triggers := ExecuteUpTo(d, db, true, generation, n).triggers;
    SlotStatement(d, db.triggers, triggers, generation, n, j);
    assert ExecuteUpTo(d, db, true, generation, n + 1).triggers
        == ExecuteDdl(triggers, StatementAt(d, true, generation, n)) by {
      ExecuteNext(d, db, true, generation, n);
      TriggersExecuted(ExecuteUpTo(d, db, true, generation, n), StatementAt(d, true, generation, n));
    }
  }

  lemma NothingReplaced(d: Dialect, db: Db, generation: int, n: nat, j: nat)
    requires j < SlotCount(d)
    ensures n == 0 ==> SlotReached(d, db, generation, n, j)
  {
  }

  lemma TriggersExecuted(db: Db, stmt: Stmt)
    ensures Execute(db, stmt).triggers == ExecuteDdl(db.triggers, stmt)
  {
  }

  /** The trigger the n-th statement drops or creates. */
  function SlotIndex(d: Dialect, n: nat): nat
    requires n >= PrefixLength(d)
  {
    var k := n - PrefixLength(d);
    if d.Sqlite? then k / 2 else 2 * (k / 4) + k % 2
  }

  lemma SlotOfStatement(d: Dialect, generation: int, n: nat) returns (j: nat)
    requires PrefixLength(d) <= n < ProgramLength(d, true)
    ensures
      && j < SlotCount(d)
      && ((StatementAt(d, true, generation, n) == CreateTrigger(SlotAt(d, j)) && n == CreateIndex(d, j))
          || (StatementAt(d, true, generation, n) == DropTrigger(SlotAt(d, j)) && n == DropIndex(d, true, j)))
    ensures j == SlotIndex(d, n)
  {
    j := SlotIndex(d, n);
    if d.Sqlite? {
      SqliteSlot(generation, n);
    } else {
      PostgresSlot(generation, n);
    }
  }

  lemma SqliteSlot(generation: int, n: nat)
    requires 5 <= n < ProgramLength(Sqlite, true)
    ensures
      var j, stmt := SlotIndex(Sqlite, n), StatementAt(Sqlite, true, generation, n);
      && j < 12
      && if n == 2 * j + 5 then stmt == DropTrigger(SlotAt(Sqlite, j))
         else n == 2 * j + 6 && stmt == CreateTrigger(SlotAt(Sqlite, j))
  {
  }

  lemma PostgresSlot(generation: int, n: nat)
    requires 7 <= n < ProgramLength(Postgres, true)
    ensures
      var j, stmt := SlotIndex(Postgres, n), StatementAt(Postgres, true, generation, n);
      && j < 8
      && if n == DropIndex(Postgres, true, j) then stmt == DropTrigger(SlotAt(Postgres, j))
         else n == DropIndex(Postgres, true, j) + 2 && stmt == CreateTrigger(SlotAt(Postgres, j))
  {
  }

  lemma IndicesOfSlot(d: Dialect, j: nat)
    requires j < SlotCount(d)
    ensures SlotIndex(d, DropIndex(d, true, j)) == j && SlotIndex(d, CreateIndex(d, j)) == j
  {
    if d.Sqlite? {
      SqliteIndices(j);
    } else {
      PostgresIndices(j);
    }
  }

  lemma SqliteIndices(j: nat)
    ensures SlotIndex(Sqlite, DropIndex(Sqlite, true, j)) == j && SlotIndex(Sqlite, CreateIndex(Sqlite, j)) == j
  {
  }

  lemma PostgresIndices(j: nat)
    ensures SlotIndex(Postgres, DropIndex(Postgres, true, j)) == j
    ensures SlotIndex(Postgres, CreateIndex(Postgres, j)) == j
  {
    Divided(j / 2, j % 2);
    Divided(j / 2, j % 2 + 2);
  }

  lemma Divided(t: nat, i: nat)
    ensures i < 2 ==> (2 * t + i) / 2 == t && (2 * t + i) % 2 == i
    ensures i < 4 ==> (4 * t + i) / 4 == t && (4 * t + i) % 4 == i && (4 * t + i) % 2 == i % 2
  {
  }

  lemma WholeInstallVerifies(d: Dialect, db: Db, generation: int)
    ensures Verified(d, ExecuteUpTo(d, db, true, generation, ProgramLength(d, true)).triggers)
  {
    forall j | 0 <= j < SlotCount(d)
      ensures IsExpected(ExecuteUpTo(d, db, true, generation, ProgramLength(d, true)).triggers, SlotAt(d, j))
    {
      TriggersUpTo(d, db, generation, ProgramLength(d, true), j);
    }
  }

  lemma ClearedLogHasNoMarker(d: Dialect, db: Db, generation: int)
    ensures STAR !in ExecuteUpTo(d, db, true, generation, 4).store.log.changes
  {
    ExecuteNext(d, db, true, generation, 3);
  }

  lemma NoStatementFails(d: Dialect, db: Db, generation: int, n: nat)
    requires n < ProgramLength(d, true)
    ensures !Fails(ExecuteUpTo(d, db, true, generation, n), StatementAt(d, true, generation, n))
  {
    if n == 4 {
      ClearedLogHasNoMarker(d, db, generation);
    } else if n >= PrefixLength(d) {
      var j := SlotOfStatement(d, generation, n);
      TriggersUpTo(d, db, generation, n, j);
    }
  }

  // ---- Runs

  lemma {:induction false} RunAppend(d: Dialect, w: World, a: seq<Step>, b: seq<Step>)
    ensures Run(d, w, a + b) == Run(d, Run(d, w, a), b)
    decreases |a|
  {
    if a == [] {
      assert a + b == b;
    } else {
      assert (a + b)[1..] == a[1..] + b;
      RunAppend(d, Next(d, w, a[0]), a[1..], b);
    }
  }

  lemma {:induction false} PlainRunsAreAllowed(d: Dialect, w: World, steps: seq<Step>)
    requires forall step | step in steps :: !step.Reinstall?
    ensures Allowed(d, w, steps)
    decreases |steps|
  {
    if steps != [] {
      PlainRunsAreAllowed(d, Next(d, w, steps[0]), steps[1..]);
    }
  }

  /** Thread `h` runs alone for `n` steps. */
  function Threads(h: nat, n: nat): seq<Step> {
    seq(n, _ => Thread(h, 0))
  }

  function InstallWorld(db: Db, generation: int, n: nat): World {
    World(db, Some(0), [Installing(true, generation, n)], {}, {})
  }

  lemma NextStatement(d: Dialect, w: World, generation: int, n: nat)
    requires n < ProgramLength(d, true)
    requires w.holder == Some(0) && w.threads == [Installing(true, generation, n)]
    requires !Fails(w.db, StatementAt(d, true, generation, n))
    ensures Next(d, w, Thread(0, 0))
         == w.(db := Execute(w.db, StatementAt(d, true, generation, n)),
               threads := [Installing(true, generation, n + 1)])
  {
  }

  lemma RunOneMore(d: Dialect, w: World, steps: seq<Step>, step: Step)
    ensures Run(d, w, steps + [step]) == Next(d, Run(d, w, steps), step)
  {
    RunAppend(d, w, steps, [step]);
    assert [step][1..] == [];
    assert Run(d, Next(d, Run(d, w, steps), step), []) == Next(d, Run(d, w, steps), step);
  }

  lemma OneStatement(d: Dialect, db: Db, generation: int, n: nat)
    requires n < ProgramLength(d, true)
    ensures Next(d, InstallWorld(ExecuteUpTo(d, db, true, generation, n), generation, n), Thread(0, 0))
         == InstallWorld(ExecuteUpTo(d, db, true, generation, n + 1), generation, n + 1)
  {
    NoStatementFails(d, db, generation, n);
    NextStatement(d, InstallWorld(ExecuteUpTo(d, db, true, generation, n), generation, n), generation, n);
    ExecuteNext(d, db, true, generation, n);
  }

  // ---- Which set an install leaves

  lemma OneMoreDropped(d: Dialect, db: Db, generation: int, n: nat, k: nat)
    requires k < SlotCount(d) && n == PrefixLength(d) + k
    ensures
      ExecuteUpTo(d, db, false, generation, n + 1).triggers
      == ExecuteUpTo(d, db, false, generation, n).triggers - {SlotAt(d, k)}
  {
    ExecuteNext(d, db, false, generation, n);
    assert StatementAt(d, false, generation, n) == DropTrigger(SlotAt(d, k));
    TriggersExecuted(ExecuteUpTo(d, db, false, generation, n), DropTrigger(SlotAt(d, k)));
  }

  /** The j-th trigger is gone after `k` drops of an install without Sportarr. */
  ghost predicate IsDropped(d: Dialect, db: Db, generation: int, n: nat, j: nat) {
    n <= ProgramLength(d, false) && j < SlotCount(d) ==>
      SlotAt(d, j) !in ExecuteUpTo(d, db, false, generation, n).triggers
  }

  lemma StaysDropped(d: Dialect, db: Db, generation: int, n: nat, after: nat, j: nat)
    requires after == n + 1 && PrefixLength(d) <= n
    requires n == PrefixLength(d) + j || IsDropped(d, db, generation, n, j)
    ensures IsDropped(d, db, generation, after, j)
  {
    if after <= ProgramLength(d, false) {
      OneMoreDropped(d, db, generation, n, n - PrefixLength(d));
    }
  }

  lemma {:induction false} DropsEach(d: Dialect, db: Db, generation: int, n: nat, j: nat)
    requires n > PrefixLength(d) + j
    ensures IsDropped(d, db, generation, n, j)
    decreases n
  {
    var earlier := n - 1;
    if earlier > PrefixLength(d) + j {
      DropsEach(d, db, generation, earlier, j);
    }
    StaysDropped(d, db, generation, earlier, n, j);
  }

  /** An install in one transaction leaves the full set when some instance is a Sportarr
      one, and no trigger at all otherwise, whatever was there. */
  lemma InstallFollowsTheInstances(d: Dialect, w: World, generation: int)
    ensures
      var after := Next(d, w, Reinstall(generation)).db.triggers;
      if exists rid, mappings :: rid in w.db.store.rows && rid.table == Instances
           && w.db.store.rows[rid] == InstanceRow("sportarr", mappings)
      then Verified(d, after)
      else !AnyPresent(d, after)
  {
    if SportarrInUse(w.db.store.rows) {
      var rid :| rid in w.db.store.rows && rid.table == Instances && w.db.store.rows[rid].InstanceRow?
                 && w.db.store.rows[rid].kind == "sportarr";
      assert w.db.store.rows[rid] == InstanceRow("sportarr", w.db.store.rows[rid].mappings);
      WholeInstallVerifies(d, w.db, generation);
    } else {
      forall j | 0 <= j < SlotCount(d) ensures SlotAt(d, j) !in Next(d, w, Reinstall(generation)).db.triggers {
        DropsEach(d, w.db, generation, ProgramLength(d, false), j);
      }
    }
  }

  /** Thread 0 has run alone through the first `n` statements. */
  ghost predicate RunsUpTo(d: Dialect, db: Db, generation: int, n: nat) {
    n <= ProgramLength(d, true) ==>
      Run(d, InstallWorld(db, generation, 0), Threads(0, n))
      == InstallWorld(ExecuteUpTo(d, db, true, generation, n), generation, n)
  }

  lemma {:induction false} RunsThrough(d: Dialect, db: Db, generation: int, n: nat)
    ensures RunsUpTo(d, db, generation, n)
    decreases n
  {
    NothingExecuted(d, db, generation, n);
    if n > 0 {
      var earlier := n - 1;
      RunsThrough(d, db, generation, earlier);
      OneThreadMore(d, db, generation, earlier, n);
    }
  }

  /** An install nothing interrupts. */
  lemma UninterruptedInstall(d: Dialect, db: Db, generation: int, n: nat)
    requires n <= ProgramLength(d, true)
    ensures Run(d, InstallWorld(db, generation, 0), Threads(0, n))
         == InstallWorld(ExecuteUpTo(d, db, true, generation, n), generation, n)
  {
    RunsThrough(d, db, generation, n);
  }

  lemma NothingExecuted(d: Dialect, db: Db, generation: int, n: nat)
    ensures n == 0 ==> RunsUpTo(d, db, generation, n)
  {
  }

  lemma OneThreadMore(d: Dialect, db: Db, generation: int, earlier: nat, n: nat)
    requires n == earlier + 1 && RunsUpTo(d, db, generation, earlier)
    ensures RunsUpTo(d, db, generation, n)
  {
    if n <= ProgramLength(d, true) {
      ThreadStepsOn(d, db, generation, earlier);
    }
  }

  lemma ThreadStepsOn(d: Dialect, db: Db, generation: int, n: nat)
    requires n < ProgramLength(d, true) && RunsUpTo(d, db, generation, n)
    ensures RunsUpTo(d, db, generation, n + 1)
  {
    OneStatement(d, db, generation, n);
    assert Threads(0, n + 1) == Threads(0, n) + [Thread(0, 0)];
    RunOneMore(d, InstallWorld(db, generation, 0), Threads(0, n), Thread(0, 0));
  }
}
