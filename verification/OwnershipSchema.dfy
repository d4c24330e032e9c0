/**
 The install and verify statement sequences as one caller runs them, in place.
 */
module OwnershipSchema {
  import opened Common
  import opened OwnershipLog
  import opened OwnershipInstall
  import opened OwnershipGuarantees

  class Schema {
    const dialect: Dialect
    var rows: Rows
    var log: Log
    var triggers: Triggers

    function State(): Db
      reads this
    {
      Db(Store(rows, log), triggers)
    }

    constructor (dialect: Dialect, db: Db)
      ensures this.dialect == dialect && State() == db
    {
      this.dialect := dialect;
      this.rows, this.log, this.triggers := db.store.rows, db.store.log, db.triggers;
    }

    method Execute(stmt: Stmt)
      modifies this`log, this`triggers
      ensures State() == OwnershipInstall.Execute(old(State()), stmt)
    {
      match stmt {
        case SeedRevision =>
          if log.revision == None {
            log := log.(revision := Some(0));
          }
        case SeedGeneration(g) =>
          if GENERATION !in log.changes {
            log := log.(changes := log.changes[GENERATION := g]);
          }
        case Bump =>
          if log.revision.Some? {
            log := log.(revision := Some(log.revision.value + 1));
          }
        case ClearLog =>
          log := log.(changes := map k | k in log.changes && k.name == Generation :: log.changes[k]);
        case MarkResync =>
          if log.revision.Some? {
            log := log.(changes := log.changes[STAR := log.revision.value]);
          }
        case RestoreFunction(truncate) => triggers := Restored(triggers, truncate);
        case DropTrigger(s) => triggers := triggers - {s};
        case CreateTrigger(s) => triggers := triggers[s := Expected];
      }
    }

    /** The n-th statement of the install that started from `db`. */
    method ExecuteAt(stmt: Stmt, ghost db: Db, wanted: bool, generation: int, ghost n: nat)
      requires n < ProgramLength(dialect, wanted) && stmt == StatementAt(dialect, wanted, generation, n)
      requires State() == ExecuteUpTo(dialect, db, wanted, generation, n)
      modifies this`log, this`triggers
      ensures State() == ExecuteUpTo(dialect, db, wanted, generation, n + 1)
    {
      Execute(stmt);
    }

    method SeedTables(ghost db: Db, wanted: bool, generation: int)
      requires State() == db
      modifies this`log, this`triggers
      ensures State() == ExecuteUpTo(dialect, db, wanted, generation, PrefixLength(dialect))
    {
      ExecuteAt(SeedRevision, db, wanted, generation, 0);
      ExecuteAt(SeedGeneration(generation), db, wanted, generation, 1);
      ExecuteAt(Bump, db, wanted, generation, 2);
      ExecuteAt(ClearLog, db, wanted, generation, 3);
      ExecuteAt(MarkResync, db, wanted, generation, 4);
      if dialect.Postgres? {
        ExecuteAt(RestoreFunction(false), db, wanted, generation, 5);
        ExecuteAt(RestoreFunction(true), db, wanted, generation, 6);
      }
    }

    method ReplacePostgres(t: nat, ghost db: Db, wanted: bool, generation: int)
      requires t < 4 && dialect.Postgres?
      requires State() == ExecuteUpTo(dialect, db, wanted, generation, TableIndex(dialect, t, wanted))
      modifies this`log, this`triggers
      ensures State() == ExecuteUpTo(dialect, db, wanted, generation, TableIndex(dialect, t + 1, wanted))
    {
      ghost var n := TableIndex(dialect, t, wanted);
      PostgresStatements(t, wanted, generation);
      ExecuteAt(DropTrigger(RowTrigger(TableAt(t))), db, wanted, generation, n);
      ExecuteAt(DropTrigger(TruncateTrigger(TableAt(t))), db, wanted, generation, n + 1);
      if wanted {
        ExecuteAt(CreateTrigger(RowTrigger(TableAt(t))), db, wanted, generation, n + 2);
        ExecuteAt(CreateTrigger(TruncateTrigger(TableAt(t))), db, wanted, generation, n + 3);
      }
    }

    method ReplaceAction(t: nat, a: nat, ghost db: Db, wanted: bool, generation: int)
      requires t < 4 && a < 3 && dialect.Sqlite?
      requires State() == ExecuteUpTo(dialect, db, wanted, generation, SqliteIndex(t, a, wanted))
      modifies this`log, this`triggers
      ensures State() == ExecuteUpTo(dialect, db, wanted, generation, SqliteIndex(t, a + 1, wanted))
    {
      SqliteStatements(t, a, wanted, generation);
      ghost var n := SqliteIndex(t, a, wanted);
      ExecuteAt(DropTrigger(ActionTrigger(TableAt(t), ActionAt(a))), db, wanted, generation, n);
      if wanted {
        ExecuteAt(CreateTrigger(ActionTrigger(TableAt(t), ActionAt(a))), db, wanted, generation, n + 1);
      }
    }

    method ReplaceSqlite(t: nat, ghost db: Db, wanted: bool, generation: int)
      requires t < 4 && dialect.Sqlite?
      requires State() == ExecuteUpTo(dialect, db, wanted, generation, TableIndex(dialect, t, wanted))
      modifies this`log, this`triggers
      ensures State() == ExecuteUpTo(dialect, db, wanted, generation, TableIndex(dialect, t + 1, wanted))
    {
      var a: nat := 0;
      TableOfActions(t, wanted);
      while a < 3
        invariant a <= 3
        invariant State() == ExecuteUpTo(dialect, db, wanted, generation, SqliteIndex(t, a, wanted))
      {
        ReplaceAction(t, a, db, wanted, generation);
        a := a + 1;
      }
    }

    /** The whole install. With Sportarr in use its triggers verify afterwards. */
    method Install(generation: int)
      modifies this`log, this`triggers
      ensures State() == InstalledAtOnce(dialect, old(State()), generation)
      ensures SportarrInUse(rows) ==> Verified(dialect, triggers)
    {
      var wanted := SportarrInUse(rows);
      ghost var db := State();
      SeedTables(db, wanted, generation);
      var t: nat := 0;
      while t < 4
        invariant t <= 4
        invariant State() == ExecuteUpTo(dialect, db, wanted, generation, TableIndex(dialect, t, wanted))
      {
        if dialect.Postgres? {
          ReplacePostgres(t, db, wanted, generation);
        } else {
          ReplaceSqlite(t, db, wanted, generation);
        }
        t := t + 1;
      }
      if wanted {
        WholeInstallVerifies(dialect, db, generation);
      }
    }

    method Verify() returns (ok: bool)
      ensures ok == Verified(dialect, triggers)
    {
      var j: nat := 0;
      while j < SlotCount(dialect)
        invariant j <= SlotCount(dialect)
        invariant forall k | 0 <= k < j :: IsExpected(triggers, SlotAt(dialect, k))
      {
        if !IsExpected(triggers, SlotAt(dialect, j)) {
          return false;
        }
        j := j + 1;
      }
      ok := true;
    }

    /** ensure_ownership_protection with no other thread about. False when it raises. */
    method Ensure(generation: int) returns (ok: bool)
      modifies this`log, this`triggers
      ensures ok <==> Verified(dialect, old(triggers)) || (!AnyPresent(dialect, old(triggers)) && SportarrInUse(rows))
      ensures ok ==> Verified(dialect, triggers)
      ensures AnyPresent(dialect, old(triggers)) ==> State() == old(State())
      ensures !AnyPresent(dialect, old(triggers)) ==> State() == InstalledAtOnce(dialect, old(State()), generation)
    {
      ok := Verify();
      assert ok ==> IsExpected(triggers, SlotAt(dialect, 0));
      if ok || AnyPresent(dialect, triggers) {
        return;
      }
      ghost var db := State();
      Install(generation);
      ok := Verify();
      if !SportarrInUse(rows) {
        NothingInstalled(dialect, db, generation, ProgramLength(dialect, false));
        assert !IsExpected(triggers, SlotAt(dialect, 0));
      }
    }
  }

  /** Where the statements of the t-th table start. */
  function TableIndex(d: Dialect, t: nat, wanted: bool): nat {
    if d.Sqlite? then 5 + (if wanted then 6 * t else 3 * t) else 7 + (if wanted then 4 * t else 2 * t)
  }

  function SqliteIndex(t: nat, a: nat, wanted: bool): (n: nat)
    ensures t < 4 && a <= 3 ==> n <= ProgramLength(Sqlite, wanted)
  {
    TableIndex(Sqlite, t, wanted) + (if wanted then 2 * a else a)
  }

  lemma TableOfActions(t: nat, wanted: bool)
    ensures SqliteIndex(t, 0, wanted) == TableIndex(Sqlite, t, wanted)
    ensures SqliteIndex(t, 3, wanted) == TableIndex(Sqlite, t + 1, wanted)
  {
  }

  lemma PostgresStatements(t: nat, wanted: bool, generation: int)
    requires t < 4
    ensures
      var n := TableIndex(Postgres, t, wanted);
      && TableIndex(Postgres, t + 1, wanted) <= ProgramLength(Postgres, wanted)
      && StatementAt(Postgres, wanted, generation, n) == DropTrigger(RowTrigger(TableAt(t)))
      && StatementAt(Postgres, wanted, generation, n + 1) == DropTrigger(TruncateTrigger(TableAt(t)))
      && (wanted ==>
            && StatementAt(Postgres, wanted, generation, n + 2) == CreateTrigger(RowTrigger(TableAt(t)))
            && StatementAt(Postgres, wanted, generation, n + 3) == CreateTrigger(TruncateTrigger(TableAt(t))))
  {
    PostgresDropStatements(t, wanted, generation);
    if wanted {
      PostgresCreateStatements(t, generation);
    }
  }

  lemma PostgresDropStatements(t: nat, wanted: bool, generation: int)
    requires t < 4
    ensures
      var n := TableIndex(Postgres, t, wanted);
      && TableIndex(Postgres, t + 1, wanted) <= ProgramLength(Postgres, wanted)
      && StatementAt(Postgres, wanted, generation, n) == DropTrigger(RowTrigger(TableAt(t)))
      && StatementAt(Postgres, wanted, generation, n + 1) == DropTrigger(TruncateTrigger(TableAt(t)))
  {
  }

  lemma PostgresCreateStatements(t: nat, generation: int)
    requires t < 4
    ensures
      var n := TableIndex(Postgres, t, true);
      && TableIndex(Postgres, t + 1, true) <= ProgramLength(Postgres, true)
      && StatementAt(Postgres, true, generation, n + 2) == CreateTrigger(RowTrigger(TableAt(t)))
      && StatementAt(Postgres, true, generation, n + 3) == CreateTrigger(TruncateTrigger(TableAt(t)))
  {
  }

  lemma SqliteStatements(t: nat, a: nat, wanted: bool, generation: int)
    requires t < 4 && a < 3
    ensures
      var n := SqliteIndex(t, a, wanted);
      && n + (if wanted then 2 else 1) <= ProgramLength(Sqlite, wanted)
      && StatementAt(Sqlite, wanted, generation, n) == DropTrigger(ActionTrigger(TableAt(t), ActionAt(a)))
      && (wanted ==>
            StatementAt(Sqlite, wanted, generation, n + 1) == CreateTrigger(ActionTrigger(TableAt(t), ActionAt(a))))
  {
  }

  /** Without Sportarr the install only drops. */
  lemma {:induction false} NothingInstalled(d: Dialect, db: Db, generation: int, n: nat)
    requires n <= ProgramLength(d, false) && !AnyPresent(d, db.triggers)
    ensures !AnyPresent(d, ExecuteUpTo(d, db, false, generation, n).triggers)
    decreases n
  {
    if n > 0 {
      NothingInstalled(d, db, generation, n - 1);
    }
  }
}
