/**
 Exactly when replacing the triggers beside readers, writers and a thread that holds
 the install lock is safe, with a run that loses a write for every other moment.
 */
module OwnershipReinstall {
  import opened Common
  import opened OwnershipLog
  import opened OwnershipInstall
  import opened OwnershipSafety
  import opened OwnershipGuarantees
  import opened OwnershipThreads

  // ---- Rows and snapshots

  ghost function UnusedId(ids: set<int>): int {
    if ids == {} then 0 else Larger(Element(ids) + 1, UnusedId(ids - {Element(ids)}))
  }

  function Larger(a: int, b: int): int {
    if a > b then a else b
  }

  lemma {:induction false} UnusedIdIsAbove(ids: set<int>, id: int)
    requires id in ids
    ensures id < UnusedId(ids)
    decreases ids
  {
    var n := Element(ids);
    if id != n {
      UnusedIdIsAbove(ids - {n}, id);
    }
  }

  ghost function UnusedRow(rows: Rows, t: Table): (rid: RowId)
    ensures rid.table == t && rid !in rows
  {
    var ids := set rid | rid in rows && rid.table == t :: rid.id;
    var id := UnusedId(ids);
    assert RowId(t, id) !in rows by {
      if RowId(t, id) in rows {
        assert RowId(t, id).id in ids;
        UnusedIdIsAbove(ids, id);
      }
    }
    RowId(t, id)
  }

  /** A row for the table; `mark` tells two of them apart. */
  function SomeRow(t: Table, mark: string): Row {
    if t == Instances then InstanceRow("sonarr", Some(mark)) else MediaRow(None, mark, "")
  }

  /** The snapshot a reader takes of the store. */
  function Taken(store: Store): Snapshot
    requires store.log.revision.Some? && GENERATION in store.log.changes
  {
    Fresh(store.rows, "", store.log.changes[GENERATION], store.log.revision.value)
  }

  /** A snapshot just taken is not told of a row that changes unlogged. */
  lemma UnloggedIsUntold(store: Store, rows: Rows, rid: RowId)
    requires Coherent(store.log)
    requires (rid in rows) != (rid in store.rows) || (rid in rows && rid in store.rows && rows[rid] != store.rows[rid])
    ensures !Tracks(Taken(store), store.(rows := rows))
  {
    var s := Taken(store);
    if rid.table == Instances {
      assert (rid in InstancesOf(rows)) == (rid in rows);
      assert (rid in s.instances) == (rid in store.rows);
      assert s.instances != InstancesOf(rows);
    } else {
      assert (rid in s.entries) == (rid in store.rows);
      if rid in rows && rid in store.rows {
        assert s.entries[rid].row == store.rows[rid];
      }
    }
  }

  // ---- Runs

  /** Threads, writes and readers, and nothing that touches a trigger. */
  predicate Plain(step: Step) {
    step.Thread? || step.Write? || step.Take?
  }

  ghost predicate AllPlain(steps: seq<Step>) {
    forall step | step in steps :: Plain(step)
  }

  lemma PlainSum(a: seq<Step>, b: seq<Step>)
    requires AllPlain(a) && AllPlain(b)
    ensures AllPlain(a + b)
  {
  }

  lemma PlainThreads(h: nat, n: nat)
    ensures AllPlain(Threads(h, n))
  {
  }

  lemma ThreadExecutes(d: Dialect, w: World, h: nat, wanted: bool, generation: int, n: nat)
    requires h < |w.threads| && w.threads[h] == Installing(wanted, generation, n) && n < ProgramLength(d, wanted)
    requires !Fails(w.db, StatementAt(d, wanted, generation, n))
    ensures
      Next(d, w, Thread(h, 0))
      == w.(threads := w.threads[h := Installing(wanted, generation, n + 1)],
            db := Execute(w.db, StatementAt(d, wanted, generation, n)))
  {
  }

  lemma TakeTakes(d: Dialect, w: World)
    requires Verified(d, w.db.triggers) && Coherent(w.db.store.log)
    ensures Next(d, w, Take("")) == w.(snapshots := w.snapshots + {Taken(w.db.store)})
  {
  }

  /** With the set verified, inserting a row that is not there is logged. */
  lemma InsertIsLogged(d: Dialect, w: World, rid: RowId, row: Row)
    requires Verified(d, w.db.triggers) && Coherent(w.db.store.log) && rid !in w.db.store.rows
    ensures
      var after := Next(d, w, Write(Insert(rid.table, rid.id, row)));
      && after.db == w.db.(store := TrackedWrite(w.db.store, Insert(rid.table, rid.id, row)))
      && after.threads == w.threads && after.holder == w.holder && after.snapshots == w.snapshots
      && Coherent(after.db.store.log) && after.db.store.rows == w.db.store.rows[rid := row]
  {
    var e := Insert(rid.table, rid.id, row);
    var j := FiredSlotIsRequired(d, e);
    assert IsExpected(w.db.triggers, SlotAt(d, j));
    WriteKeepsCoherent(w.db.store.log, e);
  }

  lemma UnloggedChangesRows(d: Dialect, w: World, e: Event)
    requires Possible(w.db.store.rows, e) && !IsLogged(d, w.db.triggers, e) && (e.Truncate? ==> d.Postgres?)
    ensures
      var after := Next(d, w, Write(e));
      && after.db == w.db.(store := w.db.store.(rows := Applied(w.db.store.rows, e)))
      && after.threads == w.threads && after.holder == w.holder && after.snapshots == w.snapshots
  {
  }

  lemma UntoldIsDishonest(d: Dialect, w: World, s: Snapshot)
    requires s in w.snapshots && !Tracks(s, w.db.store) && Verified(d, w.db.triggers)
    ensures !Honest(d, w)
  {
  }

  // ---- A group of triggers dropped and created again

  /** The triggers that are dropped together before they are created again. */
  function GroupSize(d: Dialect): nat {
    if d.Sqlite? then 1 else 2
  }

  /** From statement `n` on one trigger is dropped and created, as on SQLite; or two are
      dropped and then created, as on PostgreSQL. */
  ghost predicate ReplacesOne(generation: int, n: nat, a: Slot) {
    && n + 2 <= ProgramLength(Sqlite, true)
    && StatementAt(Sqlite, true, generation, n) == DropTrigger(a)
    && StatementAt(Sqlite, true, generation, n + 1) == CreateTrigger(a)
  }

  ghost predicate ReplacesTwo(generation: int, n: nat, a: Slot, b: Slot) {
    && n + 4 <= ProgramLength(Postgres, true)
    && StatementAt(Postgres, true, generation, n) == DropTrigger(a)
    && StatementAt(Postgres, true, generation, n + 1) == DropTrigger(b)
    && StatementAt(Postgres, true, generation, n + 2) == CreateTrigger(a)
    && StatementAt(Postgres, true, generation, n + 3) == CreateTrigger(b)
  }

  lemma SqliteStatement(generation: int, t: nat, i: nat)
    requires t < 12 && i < 2
    ensures
      StatementAt(Sqlite, true, generation, 5 + 2 * t + i)
      == if i == 0 then DropTrigger(SlotAt(Sqlite, t)) else CreateTrigger(SlotAt(Sqlite, t))
  {
    Divided(t, i);
  }

  lemma SqliteDropsAndCreates(generation: int, t: nat, n: nat)
    requires t < 12 && n == 5 + 2 * t
    ensures StatementAt(Sqlite, true, generation, n) == DropTrigger(SlotAt(Sqlite, t))
    ensures StatementAt(Sqlite, true, generation, n + 1) == CreateTrigger(SlotAt(Sqlite, t))
  {
    SqliteStatement(generation, t, 0);
    SqliteStatement(generation, t, 1);
  }

  /** The t-th group. */
  lemma SqliteGroup(generation: int, t: nat)
    requires t < 12
    ensures ReplacesOne(generation, 5 + 2 * t, SlotAt(Sqlite, t))
  {
    SqliteDropsAndCreates(generation, t, 5 + 2 * t);
  }

  lemma PostgresStatement(generation: int, t: nat, i: nat)
    requires t < 4 && i < 4
    ensures
      var slot := if i % 2 == 0 then RowTrigger(TableAt(t)) else TruncateTrigger(TableAt(t));
      StatementAt(Postgres, true, generation, 7 + 4 * t + i) == if i < 2 then DropTrigger(slot) else CreateTrigger(slot)
  {
    Divided(t, i);
    Divided(t, i % 2);
  }

  lemma PostgresDrops(generation: int, t: nat, n: nat)
    requires t < 4 && n == 7 + 4 * t
    ensures StatementAt(Postgres, true, generation, n) == DropTrigger(RowTrigger(TableAt(t)))
    ensures StatementAt(Postgres, true, generation, n + 1) == DropTrigger(TruncateTrigger(TableAt(t)))
  {
    PostgresStatement(generation, t, 0);
    PostgresStatement(generation, t, 1);
  }

  lemma PostgresCreates(generation: int, t: nat, n: nat)
    requires t < 4 && n == 7 + 4 * t
    ensures StatementAt(Postgres, true, generation, n + 2) == CreateTrigger(RowTrigger(TableAt(t)))
    ensures StatementAt(Postgres, true, generation, n + 3) == CreateTrigger(TruncateTrigger(TableAt(t)))
  {
    PostgresStatement(generation, t, 2);
    PostgresStatement(generation, t, 3);
  }

  lemma PostgresGroup(generation: int, t: nat)
    requires t < 4
    ensures ReplacesTwo(generation, 7 + 4 * t, RowTrigger(TableAt(t)), TruncateTrigger(TableAt(t)))
  {
    var n: nat := 7 + 4 * t;
    PostgresDrops(generation, t, n);
    PostgresCreates(generation, t, n);
    assert n + 4 <= ProgramLength(Postgres, true);
    assert ReplacesTwo(generation, n, RowTrigger(TableAt(t)), TruncateTrigger(TableAt(t)));
  }

  lemma RunThreads(d: Dialect, w: World, h: nat)
    ensures Run(d, w, Threads(h, 1)) == Next(d, w, Thread(h, 0))
    ensures Run(d, w, Threads(h, 2)) == Next(d, Next(d, w, Thread(h, 0)), Thread(h, 0))
  {
    assert Threads(h, 1) == [] + [Thread(h, 0)];
    assert Threads(h, 2) == Threads(h, 1) + [Thread(h, 0)];
    RunOneMore(d, w, [], Thread(h, 0));
    RunOneMore(d, w, Threads(h, 1), Thread(h, 0));
  }

  /** Thread `h` has replaced the triggers by `triggers` and stands at statement `n`. */
  function At(w: World, h: nat, triggers: Triggers, generation: int, n: nat): World
    requires h < |w.threads|
  {
    w.(db := w.db.(triggers := triggers), threads := w.threads[h := Installing(true, generation, n)])
  }

  lemma ThreadDrops(d: Dialect, w: World, h: nat, generation: int, n: nat, s: Slot)
    requires n < ProgramLength(d, true) && StatementAt(d, true, generation, n) == DropTrigger(s)
    requires h < |w.threads| && w.threads[h] == Installing(true, generation, n)
    ensures Next(d, w, Thread(h, 0)) == At(w, h, w.db.triggers - {s}, generation, n + 1)
  {
    ThreadExecutes(d, w, h, true, generation, n);
  }

  lemma ThreadCreates(d: Dialect, w: World, h: nat, generation: int, n: nat, s: Slot)
    requires n < ProgramLength(d, true) && StatementAt(d, true, generation, n) == CreateTrigger(s)
    requires h < |w.threads| && w.threads[h] == Installing(true, generation, n) && s !in w.db.triggers
    ensures Next(d, w, Thread(h, 0)) == At(w, h, w.db.triggers[s := Expected], generation, n + 1)
  {
    ThreadExecutes(d, w, h, true, generation, n);
  }

  lemma BackAgain(d: Dialect, before: Triggers, after: Triggers, group: set<Slot>)
    requires Verified(d, before)
    requires forall s | s in before && s !in group :: s in after && after[s] == before[s]
    requires forall s | s in group :: s in after && after[s] == Expected
    ensures Verified(d, after)
  {
    forall i | 0 <= i < SlotCount(d) ensures IsExpected(after, SlotAt(d, i)) {
      assert IsExpected(before, SlotAt(d, i));
    }
  }

  /** The write `e` changes the row `rid`. */
  predicate Changes(rows: Rows, e: Event, rid: RowId) {
    var after := Applied(rows, e);
    (rid in after) != (rid in rows) || (rid in after && rid in rows && after[rid] != rows[rid])
  }

  lemma Onward(d: Dialect, w: World, steps: seq<Step>, mid: World, step: Step, next: World)
    requires Run(d, w, steps) == mid && Next(d, mid, step) == next
    ensures Run(d, w, steps + [step]) == next
  {
    RunOneMore(d, w, steps, step);
  }

  /** The world after a write that no trigger logs. */
  function Unlogged(w: World, e: Event): World {
    w.(db := w.db.(store := w.db.store.(rows := Applied(w.db.store.rows, e))), missed := w.snapshots)
  }

  lemma WritesUnlogged(d: Dialect, w: World, e: Event, rid: RowId)
    requires Possible(w.db.store.rows, e) && !IsLogged(d, w.db.triggers, e) && !e.Truncate?
    requires Changes(w.db.store.rows, e, rid)
    ensures Next(d, w, Write(e)) == Unlogged(w, e)
  {
    assert Applied(w.db.store.rows, e) != w.db.store.rows;
  }

  lemma TakenAndDropped(w: World, h: nat, generation: int, n: nat, a: Slot) returns (steps: seq<Step>)
    requires n < ProgramLength(Sqlite, true) && StatementAt(Sqlite, true, generation, n) == DropTrigger(a)
    requires h < |w.threads| && w.threads[h] == Installing(true, generation, n)
    requires Verified(Sqlite, w.db.triggers) && Coherent(w.db.store.log)
    ensures AllPlain(steps)
    ensures
      var taken := w.(snapshots := w.snapshots + {Taken(w.db.store)});
      Run(Sqlite, w, steps) == At(taken, h, w.db.triggers - {a}, generation, n + 1)
  {
    var taken := w.(snapshots := w.snapshots + {Taken(w.db.store)});
    TakeTakes(Sqlite, w);
    Onward(Sqlite, w, [], w, Take(""), taken);
    ThreadDrops(Sqlite, taken, h, generation, n, a);
    Onward(Sqlite, w, [] + [Take("")], taken, Thread(h, 0), At(taken, h, w.db.triggers - {a}, generation, n + 1));
    steps := [] + [Take("")] + [Thread(h, 0)];
  }

  lemma WrittenAndCreated(
      w: World, h: nat, generation: int, n: nat, a: Slot, e: Event, rid: RowId) returns (steps: seq<Step>)
    requires n < ProgramLength(Sqlite, true) && StatementAt(Sqlite, true, generation, n) == CreateTrigger(a)
    requires h < |w.threads| && w.threads[h] == Installing(true, generation, n)
    requires FiredSlot(Sqlite, e) == a && a !in w.db.triggers
    requires Possible(w.db.store.rows, e) && !e.Truncate? && Changes(w.db.store.rows, e, rid)
    ensures AllPlain(steps)
    ensures Run(Sqlite, w, steps) == At(Unlogged(w, e), h, w.db.triggers[a := Expected], generation, n + 1)
  {
    var written := Unlogged(w, e);
    WritesUnlogged(Sqlite, w, e, rid);
    Onward(Sqlite, w, [], w, Write(e), written);
    ThreadCreates(Sqlite, written, h, generation, n, a);
    Onward(Sqlite, w, [] + [Write(e)], written, Thread(h, 0),
           At(written, h, w.db.triggers[a := Expected], generation, n + 1));
    steps := [] + [Write(e)] + [Thread(h, 0)];
  }

  /** A reader takes a snapshot, one trigger is dropped, the write only it logs is made,
      and the trigger is there again. */
  lemma OneTriggerLosesAWrite(
      w: World, h: nat, generation: int, n: nat, a: Slot, e: Event, rid: RowId) returns (steps: seq<Step>)
    requires ReplacesOne(generation, n, a) && FiredSlot(Sqlite, e) == a
    requires h < |w.threads| && w.threads[h] == Installing(true, generation, n)
    requires Verified(Sqlite, w.db.triggers) && Coherent(w.db.store.log)
    requires Possible(w.db.store.rows, e) && !e.Truncate? && Changes(w.db.store.rows, e, rid)
    ensures AllPlain(steps) && !Honest(Sqlite, Run(Sqlite, w, steps))
  {
    var first := TakenAndDropped(w, h, generation, n, a);
    var w2 := Run(Sqlite, w, first);
    var last := WrittenAndCreated(w2, h, generation, n + 1, a, e, rid);
    var w4 := Run(Sqlite, w2, last);
    RunAppend(Sqlite, w, first, last);
    PlainSum(first, last);
    steps := first + last;
    BackAgain(Sqlite, w.db.triggers, w4.db.triggers, {a});
    UnloggedIsUntold(w.db.store, w4.db.store.rows, rid);
    UntoldIsDishonest(Sqlite, w4, Taken(w.db.store));
  }

  /** As above, over two triggers. */
  lemma TwoTriggersLoseAWrite(
      w: World, h: nat, generation: int, n: nat, a: Slot, b: Slot, e: Event, rid: RowId) returns (steps: seq<Step>)
    requires ReplacesTwo(generation, n, a, b) && a != b && FiredSlot(Postgres, e) == a
    requires h < |w.threads| && w.threads[h] == Installing(true, generation, n)
    requires Verified(Postgres, w.db.triggers) && Coherent(w.db.store.log)
    requires Possible(w.db.store.rows, e) && !e.Truncate? && Changes(w.db.store.rows, e, rid)
    ensures AllPlain(steps) && !Honest(Postgres, Run(Postgres, w, steps))
  {
    var w1 := w.(snapshots := w.snapshots + {Taken(w.db.store)});
    TakeTakes(Postgres, w);
    Onward(Postgres, w, [], w, Take(""), w1);
    var dropped := BothDropped(w1, h, generation, n, a, b);
    var w2 := At(w1, h, w.db.triggers - {a} - {b}, generation, n + 2);
    RunAppend(Postgres, w, [Take("")], dropped);
    assert [] + [Take("")] == [Take("")];
    var w3 := Unlogged(w2, e);
    WritesUnlogged(Postgres, w2, e, rid);
    Onward(Postgres, w, [Take("")] + dropped, w2, Write(e), w3);
    var created := BothCreated(w3, h, generation, n, a, b);
    var w4 := At(w3, h, w3.db.triggers[a := Expected][b := Expected], generation, n + 4);
    RunAppend(Postgres, w, [Take("")] + dropped + [Write(e)], created);
    steps := [Take("")] + dropped + [Write(e)] + created;
    BackAgain(Postgres, w.db.triggers, w4.db.triggers, {a, b});
    UnloggedIsUntold(w.db.store, w4.db.store.rows, rid);
    UntoldIsDishonest(Postgres, w4, Taken(w.db.store));
  }

  lemma BothDropped(w: World, h: nat, generation: int, n: nat, a: Slot, b: Slot) returns (steps: seq<Step>)
    requires n + 4 <= ProgramLength(Postgres, true)
    requires StatementAt(Postgres, true, generation, n) == DropTrigger(a)
    requires StatementAt(Postgres, true, generation, n + 1) == DropTrigger(b)
    requires h < |w.threads| && w.threads[h] == Installing(true, generation, n)
    ensures AllPlain(steps)
    ensures Run(Postgres, w, steps) == At(w, h, w.db.triggers - {a} - {b}, generation, n + 2)
  {
    var first := At(w, h, w.db.triggers - {a}, generation, n + 1);
    ThreadDrops(Postgres, w, h, generation, n, a);
    Onward(Postgres, w, [], w, Thread(h, 0), first);
    ThreadDrops(Postgres, first, h, generation, n + 1, b);
    steps := [] + [Thread(h, 0)] + [Thread(h, 0)];
    Onward(Postgres, w, [] + [Thread(h, 0)], first, Thread(h, 0),
           At(first, h, first.db.triggers - {b}, generation, n + 2));
  }

  lemma BothCreated(w: World, h: nat, generation: int, n: nat, a: Slot, b: Slot) returns (steps: seq<Step>)
    requires n + 4 <= ProgramLength(Postgres, true)
    requires StatementAt(Postgres, true, generation, n + 2) == CreateTrigger(a)
    requires StatementAt(Postgres, true, generation, n + 3) == CreateTrigger(b)
    requires h < |w.threads| && w.threads[h] == Installing(true, generation, n + 2)
    requires a != b && a !in w.db.triggers && b !in w.db.triggers
    ensures AllPlain(steps)
    ensures Run(Postgres, w, steps) == At(w, h, w.db.triggers[a := Expected][b := Expected], generation, n + 4)
  {
    var first := At(w, h, w.db.triggers[a := Expected], generation, n + 3);
    ThreadCreates(Postgres, w, h, generation, n + 2, a);
    Onward(Postgres, w, [], w, Thread(h, 0), first);
    ThreadCreates(Postgres, first, h, generation, n + 3, b);
    steps := [] + [Thread(h, 0)] + [Thread(h, 0)];
    Onward(Postgres, w, [] + [Thread(h, 0)], first, Thread(h, 0),
           At(first, h, first.db.triggers[b := Expected], generation, n + 4));
  }

  /** Replacing one trigger of a full set loses a write: one that only this trigger
      logs, of a row put there before the snapshot where the write needs one. */
  lemma SqliteSlotLosesAWrite(w: World, h: nat, generation: int, n: nat, slot: Slot) returns (steps: seq<Step>)
    requires ReplacesOne(generation, n, slot) && slot.ActionTrigger?
    requires h < |w.threads| && w.threads[h] == Installing(true, generation, n)
    requires Verified(Sqlite, w.db.triggers) && Coherent(w.db.store.log)
    ensures AllPlain(steps) && !Honest(Sqlite, Run(Sqlite, w, steps))
  {
    var rid := UnusedRow(w.db.store.rows, slot.table);
    var row, other := SomeRow(rid.table, "a"), SomeRow(rid.table, "b");
    var insert := Insert(rid.table, rid.id, row);
    if slot.action.OnInsert? {
      steps := OneTriggerLosesAWrite(w, h, generation, n, slot, insert, rid);
    } else {
      var e := if slot.action.OnUpdate? then Update(rid.table, rid.id, rid.id, other) else Delete(rid.table, rid.id);
      InsertIsLogged(Sqlite, w, rid, row);
      var rest := OneTriggerLosesAWrite(Next(Sqlite, w, Write(insert)), h, generation, n, slot, e, rid);
      RunFirst(Sqlite, w, Write(insert), rest);
      steps := [Write(insert)] + rest;
    }
  }

  lemma SqliteGroupLosesAWrite(w: World, h: nat, generation: int, t: nat) returns (steps: seq<Step>)
    requires t < 12 && h < |w.threads| && w.threads[h] == Installing(true, generation, 5 + 2 * t)
    requires Verified(Sqlite, w.db.triggers) && Coherent(w.db.store.log)
    ensures AllPlain(steps) && !Honest(Sqlite, Run(Sqlite, w, steps))
  {
    var slot := SlotAt(Sqlite, t);
    assert slot.ActionTrigger?;
    SqliteGroup(generation, t);
    steps := SqliteSlotLosesAWrite(w, h, generation, 5 + 2 * t, slot);
  }

  lemma RunFirst(d: Dialect, w: World, step: Step, steps: seq<Step>)
    ensures Run(d, w, [step] + steps) == Run(d, Next(d, w, step), steps)
  {
    assert ([step] + steps)[1..] == steps;
  }

  lemma PostgresGroupLosesAWrite(w: World, h: nat, generation: int, t: nat) returns (steps: seq<Step>)
    requires t < 4 && h < |w.threads| && w.threads[h] == Installing(true, generation, 7 + 4 * t)
    requires Verified(Postgres, w.db.triggers) && Coherent(w.db.store.log)
    ensures AllPlain(steps) && !Honest(Postgres, Run(Postgres, w, steps))
  {
    var rid := UnusedRow(w.db.store.rows, TableAt(t));
    var insert := Insert(rid.table, rid.id, SomeRow(rid.table, "a"));
    PostgresGroup(generation, t);
    steps := TwoTriggersLoseAWrite(w, h, generation, 7 + 4 * t, RowTrigger(TableAt(t)), TruncateTrigger(TableAt(t)),
                                   insert, rid);
  }

  /** On PostgreSQL the statements before the first group leave a full set full. */
  lemma PostgresPrefixLosesAWrite(w: World, h: nat, generation: int, n: nat) returns (steps: seq<Step>)
    requires 5 <= n <= 7 && h < |w.threads| && w.threads[h] == Installing(true, generation, n)
    requires Verified(Postgres, w.db.triggers) && Coherent(w.db.store.log)
    ensures AllPlain(steps) && !Honest(Postgres, Run(Postgres, w, steps))
    decreases 7 - n
  {
    if n == 7 {
      steps := PostgresGroupLosesAWrite(w, h, generation, 0);
    } else {
      var next := Next(Postgres, w, Thread(h, 0));
      ThreadExecutes(Postgres, w, h, true, generation, n);
      RestoringKeepsVerified(Postgres, w.db.triggers, n == 6);
      var rest := PostgresPrefixLosesAWrite(next, h, generation, n + 1);
      steps := [Thread(h, 0)] + rest;
      RunFirst(Postgres, w, Thread(h, 0), rest);
    }
  }

  lemma RestoringKeepsVerified(d: Dialect, triggers: Triggers, truncate: bool)
    requires Verified(d, triggers)
    ensures Verified(d, Restored(triggers, truncate))
  {
    forall i | 0 <= i < SlotCount(d) ensures IsExpected(Restored(triggers, truncate), SlotAt(d, i)) {
      assert IsExpected(triggers, SlotAt(d, i));
    }
  }

  // ---- The log cleared under a full set

  /** Thread `h` goes on to clear a log that names a row the snapshot lacks. */
  lemma ClearingLosesAWrite(d: Dialect, w: World, h: nat, s: Snapshot, rid: RowId) returns (steps: seq<Step>)
    requires h < |w.threads| && w.threads[h].Installing? && w.threads[h].next <= 4
    requires Verified(d, w.db.triggers) && w.db.store.log.revision.Some?
    requires s in w.snapshots && rid.table != Instances && rid in w.db.store.rows && rid !in s.entries
    requires w.threads[h].next == 4 ==> forall k | k in w.db.store.log.changes :: k.name == Generation
    ensures AllPlain(steps) && !Honest(d, Run(d, w, steps))
    decreases 4 - w.threads[h].next
  {
    var pc := w.threads[h];
    if pc.next == 4 {
      assert !Tracks(s, w.db.store);
      UntoldIsDishonest(d, w, s);
      steps := [];
    } else {
      var next := Next(d, w, Thread(h, 0));
      ThreadExecutes(d, w, h, pc.wanted, pc.generation, pc.next);
      var rest := ClearingLosesAWrite(d, next, h, s, rid);
      steps := [Thread(h, 0)] + rest;
      RunFirst(d, w, Thread(h, 0), rest);
    }
  }

  lemma ClearedLogLosesAWrite(d: Dialect, w: World, h: nat) returns (steps: seq<Step>)
    requires h < |w.threads| && w.threads[h].Installing? && w.threads[h].next <= 3
    requires Verified(d, w.db.triggers) && Coherent(w.db.store.log)
    ensures AllPlain(steps) && !Honest(d, Run(d, w, steps))
  {
    var rid := UnusedRow(w.db.store.rows, Sports);
    var row := SomeRow(Sports, "a");
    var insert := Insert(Sports, rid.id, row);
    var w1 := Next(d, w, Take(""));
    TakeTakes(d, w);
    InsertIsLogged(d, w1, rid, row);
    var w2 := Next(d, w1, Write(insert));
    var rest := ClearingLosesAWrite(d, w2, h, Taken(w.db.store), rid);
    RunFirst(d, w1, Write(insert), rest);
    RunFirst(d, w, Take(""), [Write(insert)] + rest);
    steps := [Take("")] + ([Write(insert)] + rest);
  }

  lemma AskingLosesAWrite(d: Dialect, w: World, h: nat) returns (steps: seq<Step>)
    requires h < |w.threads| && w.threads[h].Asking?
    requires Verified(d, w.db.triggers) && Coherent(w.db.store.log)
    ensures AllPlain(steps) && !Honest(d, Run(d, w, steps))
  {
    var next := Next(d, w, Thread(h, 0));
    assert next == w.(threads := next.threads) && next.threads[h].Installing?;
    var rest := ClearedLogLosesAWrite(d, next, h);
    steps := [Thread(h, 0)] + rest;
    RunFirst(d, w, Thread(h, 0), rest);
  }

  // ---- A statement that would fail, and someone who lets it succeed

  /** Someone drops those of the first `j` triggers that are still to be created after
      statement `n`. */
  function Losing(d: Dialect, n: nat, j: nat): seq<Step>
    requires j <= SlotCount(d)
    decreases j
  {
    if j == 0 then []
    else Losing(d, n, j - 1) + if CreateIndex(d, j - 1) >= n then [Lose(SlotAt(d, j - 1))] else []
  }

  ghost predicate LostUpTo(d: Dialect, before: Triggers, after: Triggers, n: nat, j: nat) {
    forall i: nat | i < SlotCount(d) :: SlotLost(d, before, after, n, j, i)
  }

  ghost predicate SlotLost(d: Dialect, before: Triggers, after: Triggers, n: nat, j: nat, i: nat)
    requires i < SlotCount(d)
  {
    if i < j && CreateIndex(d, i) >= n then SlotAt(d, i) !in after
    else IsExpected(before, SlotAt(d, i)) ==> IsExpected(after, SlotAt(d, i))
  }

  lemma LosingOne(d: Dialect, before: Triggers, after: Triggers, n: nat, j: nat)
    requires j < SlotCount(d) && LostUpTo(d, before, after, n, j)
    ensures LostUpTo(d, before, if CreateIndex(d, j) >= n then after - {SlotAt(d, j)} else after, n, j + 1)
  {
    var lost, k := if CreateIndex(d, j) >= n then after - {SlotAt(d, j)} else after, j + 1;
    forall i: nat | i < SlotCount(d) ensures SlotLost(d, before, lost, n, k, i) {
      assert SlotLost(d, before, after, n, j, i);
      if i != j {
        SlotsDiffer(d, i, j);
      }
    }
  }

  /** `end` is `w` without those triggers. */
  ghost predicate OnlyLost(d: Dialect, w: World, end: World, n: nat, j: nat) {
    end == w.(db := w.db.(triggers := end.db.triggers)) && LostUpTo(d, w.db.triggers, end.db.triggers, n, j)
  }

  lemma NothingLost(d: Dialect, w: World, n: nat)
    ensures OnlyLost(d, w, w, n, 0)
  {
  }

  lemma OneLost(d: Dialect, w: World, end: World, n: nat, j: nat)
    requires j < SlotCount(d) && OnlyLost(d, w, end, n, j)
    ensures OnlyLost(d, w, if CreateIndex(d, j) >= n then Next(d, end, Lose(SlotAt(d, j))) else end, n, j + 1)
  {
    LosingOne(d, w.db.triggers, end.db.triggers, n, j);
  }

  lemma LosingOneMore(d: Dialect, w: World, n: nat, j: nat)
    requires j < SlotCount(d) && OnlyLost(d, w, Run(d, w, Losing(d, n, j)), n, j)
    ensures OnlyLost(d, w, Run(d, w, Losing(d, n, j + 1)), n, j + 1)
  {
    OneLost(d, w, Run(d, w, Losing(d, n, j)), n, j);
    if CreateIndex(d, j) >= n {
      RunOneMore(d, w, Losing(d, n, j), Lose(SlotAt(d, j)));
    } else {
      assert Losing(d, n, j + 1) == Losing(d, n, j);
    }
  }

  lemma {:induction false} LosingRuns(d: Dialect, w: World, n: nat, j: nat)
    requires j <= SlotCount(d)
    ensures OnlyLost(d, w, Run(d, w, Losing(d, n, j)), n, j)
    decreases j
  {
    if j == 0 {
      NothingLost(d, w, n);
    } else {
      LosingRuns(d, w, n, j - 1);
      LosingOneMore(d, w, n, j - 1);
    }
  }

  lemma LostIsHalfWritten(d: Dialect, before: Triggers, after: Triggers, n: nat)
    requires Verified(d, before) && LostUpTo(d, before, after, n, SlotCount(d))
    ensures HalfWritten(d, after, n)
  {
    forall j: nat | j < SlotCount(d) ensures SlotHalfWritten(d, after, n, j) {
      assert IsExpected(before, SlotAt(d, j)) && SlotLost(d, before, after, n, SlotCount(d), j);
    }
  }

  /** From a half-written set thread `h` completes it and touches nothing else. */
  lemma {:induction false} CompletingRuns(d: Dialect, w: World, h: nat, generation: int, n: nat, k: nat)
    requires n >= 5 && n + k <= ProgramLength(d, true) && HalfWritten(d, w.db.triggers, n)
    requires h < |w.threads| && w.threads[h] == Installing(true, generation, n)
    ensures Completing(d, w, Run(d, w, Threads(h, k)), h, generation, n + k)
    decreases k
  {
    NothingCompleted(d, w, h, generation, n, k);
    if k > 0 {
      var fewer := k - 1;
      CompletingRuns(d, w, h, generation, n, fewer);
      CompletingMore(d, w, h, generation, n, fewer, k);
    }
  }

  lemma NothingCompleted(d: Dialect, w: World, h: nat, generation: int, n: nat, k: nat)
    requires HalfWritten(d, w.db.triggers, n)
    requires h < |w.threads| && w.threads[h] == Installing(true, generation, n)
    ensures k == 0 ==> Completing(d, w, Run(d, w, Threads(h, k)), h, generation, n + k)
  {
  }

  lemma CompletingMore(d: Dialect, w: World, h: nat, generation: int, n: nat, fewer: nat, k: nat)
    requires n >= 5 && k == fewer + 1 && n + k <= ProgramLength(d, true)
    requires Completing(d, w, Run(d, w, Threads(h, fewer)), h, generation, n + fewer)
    ensures Completing(d, w, Run(d, w, Threads(h, k)), h, generation, n + k)
  {
    CompletingOne(d, w, Run(d, w, Threads(h, fewer)), h, generation, n + fewer);
    assert Threads(h, k) == Threads(h, fewer) + [Thread(h, 0)];
    RunOneMore(d, w, Threads(h, fewer), Thread(h, 0));
  }

  ghost predicate Completing(d: Dialect, w: World, end: World, h: nat, generation: int, n: nat) {
    && end.db.store == w.db.store && end.snapshots == w.snapshots
    && h < |end.threads| && end.threads[h] == Installing(true, generation, n)
    && HalfWritten(d, end.db.triggers, n)
  }

  lemma CompletingOne(d: Dialect, w: World, end: World, h: nat, generation: int, n: nat)
    requires 5 <= n < ProgramLength(d, true) && Completing(d, w, end, h, generation, n)
    ensures Completing(d, w, Next(d, end, Thread(h, 0)), h, generation, n + 1)
  {
    HalfWrittenStatement(d, end.db.triggers, generation, n);
    LaterStatementsLeaveTheLog(d, end.db.store.log, generation, n);
    ThreadExecutes(d, end, h, true, generation, n);
  }

  lemma LaterStatementsLeaveTheLog(d: Dialect, log: Log, generation: int, n: nat)
    requires 5 <= n < ProgramLength(d, true)
    ensures ExecuteLog(log, StatementAt(d, true, generation, n)) == log
    ensures !StatementAt(d, true, generation, n).MarkResync?
  {
  }

  /** The write that only the trigger created last logs. */
  function LastWrite(d: Dialect, rid: RowId): Event {
    if d.Sqlite? then Delete(rid.table, rid.id) else Truncate(rid.table)
  }

  lemma LastWriteFiresLast(d: Dialect, rid: RowId)
    requires rid.table == Sports
    ensures FiredSlot(d, LastWrite(d, rid)) == SlotAt(d, SlotCount(d) - 1)
    ensures CreateIndex(d, SlotCount(d) - 1) == ProgramLength(d, true) - 1
  {
  }

  ghost function LosingSteps(d: Dialect, h: nat, n: nat, e: Event): seq<Step>
    requires n <= ProgramLength(d, true)
  {
    [Take("")] + Losing(d, n, SlotCount(d)) + [Write(e)] + Threads(h, ProgramLength(d, true) - n)
  }

  lemma LosingStepsRun(d: Dialect, w: World, h: nat, n: nat, e: Event)
    requires n <= ProgramLength(d, true)
    ensures
      var w1 := Next(d, w, Take(""));
      var w2 := Run(d, w1, Losing(d, n, SlotCount(d)));
      Run(d, w, LosingSteps(d, h, n, e)) == Run(d, Next(d, w2, Write(e)), Threads(h, ProgramLength(d, true) - n))
  {
    var losing, threads := Losing(d, n, SlotCount(d)), Threads(h, ProgramLength(d, true) - n);
    RunAppend(d, w, [Take("")] + losing + [Write(e)], threads);
    RunOneMore(d, w, [Take("")] + losing, Write(e));
    RunFirst(d, w, Take(""), losing);
  }

  lemma CompletedSet(d: Dialect, w: World, h: nat, generation: int, n: nat)
    requires 5 <= n < ProgramLength(d, true) && HalfWritten(d, w.db.triggers, n)
    requires h < |w.threads| && w.threads[h] == Installing(true, generation, n)
    ensures
      var end := Run(d, w, Threads(h, ProgramLength(d, true) - n));
      Verified(d, end.db.triggers) && end.db.store == w.db.store && end.snapshots == w.snapshots
  {
    CompletingRuns(d, w, h, generation, n, ProgramLength(d, true) - n);
    HalfWrittenEnds(d, Run(d, w, Threads(h, ProgramLength(d, true) - n)).db.triggers);
  }

  /** What losing the triggers leaves. */
  lemma LosingLeaves(d: Dialect, w: World, n: nat)
    requires Verified(d, w.db.triggers) && 5 <= n < ProgramLength(d, true)
    ensures
      var end := Run(d, w, Losing(d, n, SlotCount(d)));
      && end == w.(db := w.db.(triggers := end.db.triggers))
      && HalfWritten(d, end.db.triggers, n)
      && SlotAt(d, SlotCount(d) - 1) !in end.db.triggers
  {
    LosingRuns(d, w, n, SlotCount(d));
    var end := Run(d, w, Losing(d, n, SlotCount(d)));
    LostIsHalfWritten(d, w.db.triggers, end.db.triggers, n);
    LastWriteFiresLast(d, RowId(Sports, 0));
    assert SlotHalfWritten(d, end.db.triggers, n, SlotCount(d) - 1);
  }

  /** With the row `rid` in the tables: what happens to it while its trigger is away is
      not told, once thread `h` has completed the set. */
  lemma CompletingLosesAWrite(d: Dialect, w: World, h: nat, generation: int, n: nat, rid: RowId)
    requires 5 <= n < ProgramLength(d, true)
    requires h < |w.threads| && w.threads[h] == Installing(true, generation, n)
    requires Verified(d, w.db.triggers) && Coherent(w.db.store.log)
    requires rid.table == Sports && rid in w.db.store.rows
    ensures !Honest(d, Run(d, w, LosingSteps(d, h, n, LastWrite(d, rid))))
  {
    var e := LastWrite(d, rid);
    var w1 := Next(d, w, Take(""));
    TakeTakes(d, w);
    LosingLeaves(d, w1, n);
    var w2 := Run(d, w1, Losing(d, n, SlotCount(d)));
    LastWriteFiresLast(d, rid);
    UnloggedChangesRows(d, w2, e);
    var w3 := Next(d, w2, Write(e));
    CompletedSet(d, w3, h, generation, n);
    LosingStepsRun(d, w, h, n, e);
    UnloggedIsUntold(w.db.store, w3.db.store.rows, rid);
    UntoldIsDishonest(d, Run(d, w, LosingSteps(d, h, n, e)), Taken(w.db.store));
  }

  ghost predicate NoReinstall(steps: seq<Step>) {
    forall step | step in steps :: !step.Reinstall?
  }

  lemma LosingIsNoReinstall(d: Dialect, n: nat, j: nat)
    requires j <= SlotCount(d)
    ensures NoReinstall(Losing(d, n, j))
  {
  }

  lemma LosingStepsAreNoReinstall(d: Dialect, h: nat, n: nat, e: Event)
    requires n <= ProgramLength(d, true)
    ensures NoReinstall(LosingSteps(d, h, n, e))
  {
    LosingIsNoReinstall(d, n, SlotCount(d));
    PlainThreads(h, ProgramLength(d, true) - n);
  }

  /** A row put into the sports table first, where the run needs one. */
  lemma WithARow(d: Dialect, w: World) returns (rid: RowId, insert: Step)
    requires Verified(d, w.db.triggers) && Coherent(w.db.store.log)
    ensures rid.table == Sports && insert.Write?
    ensures
      var after := Next(d, w, insert);
      && rid in after.db.store.rows && Coherent(after.db.store.log)
      && after.db.triggers == w.db.triggers && after.threads == w.threads
  {
    rid := UnusedRow(w.db.store.rows, Sports);
    var row := SomeRow(Sports, "a");
    insert := Write(Insert(Sports, rid.id, row));
    InsertIsLogged(d, w, rid, row);
  }

  lemma PendingLosesAWrite(d: Dialect, w: World, h: nat, generation: int, n: nat) returns (steps: seq<Step>)
    requires 5 <= n < ProgramLength(d, true)
    requires h < |w.threads| && w.threads[h] == Installing(true, generation, n)
    requires Verified(d, w.db.triggers) && Coherent(w.db.store.log)
    ensures NoReinstall(steps) && !Honest(d, Run(d, w, steps))
  {
    var rid, insert := WithARow(d, w);
    var after := Next(d, w, insert);
    CompletingLosesAWrite(d, after, h, generation, n, rid);
    LosingStepsAreNoReinstall(d, h, n, LastWrite(d, rid));
    var rest := LosingSteps(d, h, n, LastWrite(d, rid));
    steps := [insert] + rest;
    RunFirst(d, w, insert, rest);
  }

  /** A truncate function someone changes and the install restores. */
  lemma RestoringLosesAWrite(w: World, h: nat, n: nat) returns (steps: seq<Step>)
    requires h < |w.threads| && w.threads[h].Installing? && w.threads[h].next == n && 5 <= n <= 6
    requires Verified(Postgres, w.db.triggers) && Coherent(w.db.store.log)
    ensures NoReinstall(steps) && !Honest(Postgres, Run(Postgres, w, steps))
  {
    var rid, insert := WithARow(Postgres, w);
    var w0 := Next(Postgres, w, insert);
    var w1 := Next(Postgres, w0, Take(""));
    TakeTakes(Postgres, w0);
    var w2 := Next(Postgres, w1, Drift(true));
    DriftingUnlogs(w1.db.triggers);
    UnloggedChangesRows(Postgres, w2, Truncate(Sports));
    var w3 := Next(Postgres, w2, Write(Truncate(Sports)));
    var rest := RestoringRuns(w3, h, n, Taken(w0.db.store));
    UnloggedIsUntold(w0.db.store, w3.db.store.rows, rid);
    UntoldIsDishonest(Postgres, Run(Postgres, w3, rest), Taken(w0.db.store));
    RunFirst(Postgres, w2, Write(Truncate(Sports)), rest);
    RunFirst(Postgres, w1, Drift(true), [Write(Truncate(Sports))] + rest);
    RunFirst(Postgres, w0, Take(""), [Drift(true)] + ([Write(Truncate(Sports))] + rest));
    steps := [insert] + ([Take("")] + ([Drift(true)] + ([Write(Truncate(Sports))] + rest)));
    RunFirst(Postgres, w, insert, [Take("")] + ([Drift(true)] + ([Write(Truncate(Sports))] + rest)));
  }

  lemma DriftingUnlogs(triggers: Triggers)
    requires Verified(Postgres, triggers)
    ensures !IsLogged(Postgres, Drifting(triggers, true), Truncate(Sports))
    ensures Verified(Postgres, Restored(Drifting(triggers, true), true))
  {
    assert IsExpected(triggers, SlotAt(Postgres, 7));
    forall i | 0 <= i < 8 ensures IsExpected(Restored(Drifting(triggers, true), true), SlotAt(Postgres, i)) {
      assert IsExpected(triggers, SlotAt(Postgres, i));
    }
  }

  lemma RestoringRuns(w: World, h: nat, n: nat, s: Snapshot) returns (steps: seq<Step>)
    requires h < |w.threads| && w.threads[h].Installing? && w.threads[h].next == n && 5 <= n <= 6
    requires Verified(Postgres, Restored(w.db.triggers, true)) && s in w.snapshots
    ensures NoReinstall(steps)
    ensures
      var end := Run(Postgres, w, steps);
      Verified(Postgres, end.db.triggers) && end.db.store == w.db.store && s in end.snapshots
    decreases 6 - n
  {
    var pc, next := w.threads[h], Next(Postgres, w, Thread(h, 0));
    ThreadExecutes(Postgres, w, h, pc.wanted, pc.generation, n);
    if n == 6 {
      steps := [Thread(h, 0)];
      RunFirst(Postgres, w, Thread(h, 0), []);
    } else {
      RestoringEither(w.db.triggers);
      var rest := RestoringRuns(next, h, 6, s);
      steps := [Thread(h, 0)] + rest;
      RunFirst(Postgres, w, Thread(h, 0), rest);
    }
  }

  lemma RestoringEither(triggers: Triggers)
    requires Verified(Postgres, Restored(triggers, true))
    ensures Verified(Postgres, Restored(Restored(triggers, false), true))
  {
    forall i | 0 <= i < 8 ensures IsExpected(Restored(Restored(triggers, false), true), SlotAt(Postgres, i)) {
      assert IsExpected(Restored(triggers, true), SlotAt(Postgres, i));
    }
  }

  // ---- Exactly when a reinstall is safe

  /** The thread at statement `n` is past the first drop of a group. */
  predicate InsideGroup(d: Dialect, n: nat) {
    n >= PrefixLength(d) && (n - PrefixLength(d)) % (2 * GroupSize(d)) != 0
  }

  /** As Harmless, when no one but the threads touches a trigger: then a thread inside a
      group, too, finds its next create refused. */
  predicate PlainHarmless(d: Dialect, w: World) {
    SportarrInUse(w.db.store.rows) && w.holder.Some? && w.holder.value < |w.threads| ==>
      match w.threads[w.holder.value]
      case Asking => false
      case Installing(wanted, _, next) =>
        next == 4 || next >= ProgramLength(d, wanted) || (if wanted then InsideGroup(d, next) else next >= 5)
      case _ => true
  }

  lemma FullAfterReinstall(d: Dialect, w: World, generation: int)
    requires Sane(w.db.store.log) && SportarrInUse(w.db.store.rows)
    ensures
      var after := Next(d, w, Reinstall(generation));
      && Verified(d, after.db.triggers) && Coherent(after.db.store.log)
      && after == w.(db := after.db)
  {
    CoherentAfterInstall(d, w.db, generation);
    WholeInstallVerifies(d, w.db, generation);
  }

  lemma CoherentAfterInstall(d: Dialect, db: Db, generation: int)
    requires Sane(db.store.log)
    ensures Coherent(ExecuteUpTo(d, db, true, generation, ProgramLength(d, true)).store.log)
  {
    LogAfterInstall(d, db, true, generation, ProgramLength(d, true));
    FiveStatementsMark(db.store.log, generation);
  }

  /** Beside a thread at any other place a reinstall can lose a write. */
  lemma HarmfulReinstallLosesAWrite(d: Dialect, w: World, generation: int) returns (steps: seq<Step>)
    requires Sane(w.db.store.log) && !Harmless(d, w)
    ensures NoReinstall(steps) && (!PlainHarmless(d, w) ==> AllPlain(steps))
    ensures !Honest(d, Run(d, Next(d, w, Reinstall(generation)), steps))
  {
    var after, h := Next(d, w, Reinstall(generation)), w.holder.value;
    FullAfterReinstall(d, w, generation);
    if w.threads[h].Asking? {
      steps := AskingLosesAWrite(d, after, h);
    } else if w.threads[h].next <= 3 {
      steps := ClearedLogLosesAWrite(d, after, h);
    } else if !w.threads[h].wanted {
      steps := RestoringLosesAWrite(after, h, w.threads[h].next);
    } else if InsideGroup(d, w.threads[h].next) {
      steps := PendingLosesAWrite(d, after, h, w.threads[h].generation, w.threads[h].next);
    } else {
      steps := FullSetReplacedLosesAWrite(d, after, h, w.threads[h].generation, w.threads[h].next);
    }
  }

  lemma FullSetReplacedLosesAWrite(d: Dialect, w: World, h: nat, generation: int, n: nat) returns (steps: seq<Step>)
    requires 5 <= n < ProgramLength(d, true) && !InsideGroup(d, n)
    requires h < |w.threads| && w.threads[h] == Installing(true, generation, n)
    requires Verified(d, w.db.triggers) && Coherent(w.db.store.log)
    ensures AllPlain(steps) && !Honest(d, Run(d, w, steps))
  {
    if d.Sqlite? {
      steps := SqliteGroupLosesAWrite(w, h, generation, (n - 5) / 2);
    } else if n <= 7 {
      steps := PostgresPrefixLosesAWrite(w, h, generation, n);
    } else {
      steps := PostgresGroupLosesAWrite(w, h, generation, (n - 7) / 4);
    }
  }

  lemma {:induction false} OthersAreAllowed(d: Dialect, w: World, steps: seq<Step>)
    requires NoReinstall(steps)
    ensures Allowed(d, w, steps)
    decreases |steps|
  {
    if steps != [] {
      OthersAreAllowed(d, Next(d, w, steps[0]), steps[1..]);
    }
  }

  /** Main theorem: from any state that runs reach, a reinstall in one transaction is
      safe, whatever follows it, if and only if it comes at a harmless moment. */
  lemma ReinstallIsSafe(d: Dialect, w: World, generation: int)
    requires Inv(d, w)
    ensures
      var after := Next(d, w, Reinstall(generation));
      (forall steps | Allowed(d, after, steps) :: Honest(d, Run(d, after, steps))) <==> Harmless(d, w)
  {
    var after := Next(d, w, Reinstall(generation));
    if Harmless(d, w) {
      ReinstallStep(d, w, generation);
      forall steps | Allowed(d, after, steps) ensures Honest(d, Run(d, after, steps)) {
        RunKeepsInv(d, after, steps);
      }
    } else {
      var steps := HarmfulReinstallLosesAWrite(d, w, generation);
      OthersAreAllowed(d, after, steps);
    }
  }

  // ---- The same when only the threads touch the triggers

  /** The trigger whose presence refuses the next create. */
  function Blocking(d: Dialect, n: nat): Slot
    requires InsideGroup(d, n) && n < ProgramLength(d, true)
  {
    var k := n - PrefixLength(d);
    if d.Sqlite? then SlotAt(d, k / 2)
    else if k % 4 == 3 then TruncateTrigger(TableAt(k / 4)) else RowTrigger(TableAt(k / 4))
  }

  lemma BlockedStatement(d: Dialect, generation: int, n: nat)
    requires InsideGroup(d, n) && n < ProgramLength(d, true)
    ensures
      var stmt := StatementAt(d, true, generation, n);
      || stmt == CreateTrigger(Blocking(d, n))
      || (d.Postgres? && n + 1 < ProgramLength(d, true) && InsideGroup(d, n + 1)
          && Blocking(d, n + 1) == Blocking(d, n) && Blocking(d, n).RowTrigger?
          && stmt == DropTrigger(TruncateTrigger(Blocking(d, n).table)))
  {
  }

  lemma SlotsAreRequired(d: Dialect, s: Slot) returns (j: nat)
    requires if d.Sqlite? then s.ActionTrigger? else !s.ActionTrigger?
    ensures j < SlotCount(d) && SlotAt(d, j) == s
  {
    var e := if s.TruncateTrigger? then Truncate(s.table)
      else if s.RowTrigger? || s.action.OnDelete? then Delete(s.table, 0)
      else if s.action.OnInsert? then Insert(s.table, 0, SomeRow(s.table, "a"))
      else Update(s.table, 0, 0, SomeRow(s.table, "a"));
    j := FiredSlotIsRequired(d, e);
  }

  ghost predicate HolderDoomed(d: Dialect, w: World) {
    && w.holder.Some? && w.holder.value < |w.threads| && w.threads[w.holder.value].Installing?
    && var pc, triggers, log := w.threads[w.holder.value], w.db.triggers, w.db.store.log;
       && log.revision.Some? && GENERATION in log.changes
       && 5 <= pc.next < ProgramLength(d, pc.wanted)
       && if pc.wanted then InsideGroup(d, pc.next) && Blocking(d, pc.next) in triggers
          else Restored(triggers, false) == triggers == Restored(triggers, true)
  }

  ghost predicate PlainInv(d: Dialect, w: World) {
    Base(d, w) && (HolderSafe(d, w) || HolderDoomed(d, w))
  }

  lemma RestoringFullIsNothing(triggers: Triggers, truncate: bool)
    requires Verified(Postgres, triggers)
    ensures Restored(triggers, truncate) == triggers
  {
    forall s | s in triggers && !s.ActionTrigger? ensures triggers[s] == Expected {
      var j := SlotsAreRequired(Postgres, s);
      assert IsExpected(triggers, SlotAt(Postgres, j));
    }
  }

  lemma PlainReinstallStep(d: Dialect, w: World, generation: int)
    requires Inv(d, w) && PlainHarmless(d, w)
    ensures PlainInv(d, Next(d, w, Reinstall(generation)))
  {
    if Harmless(d, w) {
      ReinstallStep(d, w, generation);
    } else {
      var after := Next(d, w, Reinstall(generation));
      FullAfterReinstall(d, w, generation);
      ReinstallKeepsBase(d, w, generation);
      DoomedAfterReinstall(d, after);
    }
  }

  lemma DoomedAfterReinstall(d: Dialect, w: World)
    requires Verified(d, w.db.triggers) && Coherent(w.db.store.log) && w.holder.Some?
    requires w.holder.value < |w.threads| && w.threads[w.holder.value].Installing?
    requires
      var pc := w.threads[w.holder.value];
      && 5 <= pc.next < ProgramLength(d, pc.wanted) && !OnlyDrops(d, pc.wanted, pc.next)
      && (pc.wanted ==> InsideGroup(d, pc.next))
    ensures HolderDoomed(d, w)
  {
    var pc := w.threads[w.holder.value];
    if pc.wanted {
      var j := SlotsAreRequired(d, Blocking(d, pc.next));
      assert IsExpected(w.db.triggers, SlotAt(d, j));
    } else {
      RestoringFullIsNothing(w.db.triggers, false);
      RestoringFullIsNothing(w.db.triggers, true);
    }
  }

  /** Another thread meanwhile. */
  lemma BesideTheDoomed(d: Dialect, w: World, i: nat, generation: int)
    requires Base(d, w) && HolderDoomed(d, w) && Some(i) != w.holder
    ensures PlainInv(d, ThreadStep(d, w, i, generation))
  {
    if Enabled(w, i) {
      assert !InCriticalSection(w.threads[i]);
    }
  }

  lemma DoomedCreates(d: Dialect, w: World, i: nat)
    requires Base(d, w) && HolderDoomed(d, w) && Some(i) == w.holder && w.threads[i].wanted
    ensures PlainInv(d, ThreadStep(d, w, i, 0))
  {
    var pc := w.threads[i];
    BlockedStatement(d, pc.generation, pc.next);
    if StatementAt(d, true, pc.generation, pc.next).DropTrigger? {
      DoomedDrops(d, w, i, Blocking(d, pc.next));
    }
  }

  lemma DoomedDrops(d: Dialect, w: World, i: nat, blocking: Slot)
    requires Base(d, w) && HolderDoomed(d, w) && Some(i) == w.holder && w.threads[i].wanted
    requires
      var n := w.threads[i].next;
      && d.Postgres? && n + 1 < ProgramLength(d, true) && InsideGroup(d, n + 1) && blocking.RowTrigger?
      && Blocking(d, n) == blocking == Blocking(d, n + 1)
      && StatementAt(d, true, w.threads[i].generation, n) == DropTrigger(TruncateTrigger(blocking.table))
    ensures PlainInv(d, ThreadStep(d, w, i, 0))
  {
    var pc := w.threads[i];
    ThreadDrops(d, w, i, pc.generation, pc.next, TruncateTrigger(blocking.table));
    var after := ThreadStep(d, w, i, 0);
    var j := SlotsAreRequired(d, TruncateTrigger(blocking.table));
    assert !IsExpected(after.db.triggers, SlotAt(d, j));
    assert HolderDoomed(d, after);
  }

  lemma DoomedRestores(d: Dialect, w: World, i: nat)
    requires Base(d, w) && HolderDoomed(d, w) && Some(i) == w.holder && !w.threads[i].wanted && !HolderSafe(d, w)
    ensures PlainInv(d, ThreadStep(d, w, i, 0))
  {
    var pc := w.threads[i];
    ThreadExecutes(d, w, i, false, pc.generation, pc.next);
  }

  lemma PlainStepKeeps(d: Dialect, w: World, step: Step)
    requires PlainInv(d, w) && Plain(step)
    ensures PlainInv(d, Next(d, w, step))
  {
    if HolderSafe(d, w) {
      StepKeepsInv(d, w, step);
    } else {
      match step
      case Write(e) => WriteKeepsBase(d, w, e);
      case Take(c) => TakeKeepsBase(d, w, c);
      case Thread(i, g) =>
        if Some(i) != w.holder {
          BesideTheDoomed(d, w, i, g);
        } else if w.threads[i].wanted {
          DoomedCreates(d, w, i);
        } else {
          DoomedRestores(d, w, i);
        }
    }
  }

  lemma {:induction false} PlainRunKeeps(d: Dialect, w: World, steps: seq<Step>)
    requires PlainInv(d, w) && AllPlain(steps)
    ensures PlainInv(d, Run(d, w, steps))
    decreases |steps|
  {
    if steps != [] {
      PlainStepKeeps(d, w, steps[0]);
      PlainRunKeeps(d, Next(d, w, steps[0]), steps[1..]);
    }
  }

  /** Exactly when it is safe beside threads, writers and readers alone. */
  lemma PlainReinstallIsSafe(d: Dialect, w: World, generation: int)
    requires Inv(d, w)
    ensures
      var after := Next(d, w, Reinstall(generation));
      (forall steps | AllPlain(steps) :: Honest(d, Run(d, after, steps))) <==> PlainHarmless(d, w)
  {
    var after := Next(d, w, Reinstall(generation));
    if PlainHarmless(d, w) {
      PlainReinstallStep(d, w, generation);
      forall steps | AllPlain(steps) ensures Honest(d, Run(d, after, steps)) {
        PlainRunKeeps(d, after, steps);
      }
    } else {
      var steps := HarmfulReinstallLosesAWrite(d, w, generation);
    }
  }

  // ---- Exactly when replacing the set statement by statement is safe

  /** The index just before the last group is replaced. */
  function BeforeLastGroup(d: Dialect): nat {
    ProgramLength(d, true) - 2 * GroupSize(d)
  }

  lemma GroupIndices(d: Dialect, j: nat)
    requires j < SlotCount(d)
    ensures j < SlotCount(d) - GroupSize(d) ==> CreateIndex(d, j) < BeforeLastGroup(d)
    ensures
      j >= SlotCount(d) - GroupSize(d) ==>
        DropIndex(d, true, j) >= BeforeLastGroup(d) >= RestoredAt(d, SlotAt(d, j))
  {
  }

  /** Everything is in place there. */
  lemma VerifiedBeforeLastGroup(d: Dialect, db: Db, generation: int)
    requires !LastMissing(d, db.triggers)
    ensures Verified(d, ExecuteUpTo(d, db, true, generation, BeforeLastGroup(d)).triggers)
  {
    var triggers := ExecuteUpTo(d, db, true, generation, BeforeLastGroup(d)).triggers;
    forall j | 0 <= j < SlotCount(d) ensures IsExpected(triggers, SlotAt(d, j)) {
      GroupIndices(d, j);
      TriggersUpTo(d, db, generation, BeforeLastGroup(d), j);
    }
  }

  /** A run that ends with a snapshot that has silently missed a write. */
  lemma FullSetLosesAWrite(d: Dialect, db: Db, generation: int) returns (steps: seq<Step>)
    requires Sane(db.store.log) && !LastMissing(d, db.triggers)
    ensures AllPlain(steps) && !Honest(d, Run(d, InstallWorld(db, generation, 0), steps))
  {
    var n := BeforeLastGroup(d);
    var w, reached := InstallWorld(db, generation, 0), ExecuteUpTo(d, db, true, generation, n);
    UninterruptedInstall(d, db, generation, n);
    ReadyBeforeLastGroup(d, db, generation);
    BeforeLastIsAGroup(d);
    var rest := FullSetReplacedLosesAWrite(d, InstallWorld(reached, generation, n), 0, generation, n);
    RunAppend(d, w, Threads(0, n), rest);
    PlainThreads(0, n);
    PlainSum(Threads(0, n), rest);
    steps := Threads(0, n) + rest;
  }

  lemma BeforeLastIsAGroup(d: Dialect)
    ensures 5 <= BeforeLastGroup(d) < ProgramLength(d, true) && !InsideGroup(d, BeforeLastGroup(d))
  {
  }

  lemma ReadyBeforeLastGroup(d: Dialect, db: Db, generation: int)
    requires Sane(db.store.log) && !LastMissing(d, db.triggers)
    ensures
      var reached := ExecuteUpTo(d, db, true, generation, BeforeLastGroup(d));
      Verified(d, reached.triggers) && Coherent(reached.store.log)
  {
    VerifiedBeforeLastGroup(d, db, generation);
    LogAfterInstall(d, db, true, generation, BeforeLastGroup(d));
    FiveStatementsMark(db.store.log, generation);
  }

  /** Exactly when an install run statement by statement is safe beside readers
      and writers: a trigger of the table it replaces last must be missing when it
      starts. ensure_ownership_protection starts one with no trigger present. */
  lemma StatementwiseInstallIsSafe(d: Dialect, db: Db, generation: int)
    requires Sane(db.store.log)
    ensures
      var w := InstallWorld(db, generation, 0);
      (forall steps | Allowed(d, w, steps) :: Honest(d, Run(d, w, steps))) <==> LastMissing(d, db.triggers)
  {
    var w := InstallWorld(db, generation, 0);
    if LastMissing(d, db.triggers) {
      forall steps | Allowed(d, w, steps) ensures Honest(d, Run(d, w, steps)) {
        VerifiedOwnsLast(d, db.triggers);
        RunKeepsInv(d, w, steps);
      }
    } else {
      var steps := FullSetLosesAWrite(d, db, generation);
      OthersAreAllowed(d, w, steps);
    }
  }

  /** The refresh of arr_instances/repository.py does not take the install lock. Run in
      one transaction after a first publication found no trigger, it leaves that thread
      clearing the log under a full set. */
  lemma ReinstallBesideAnInstallLosesAWrite(d: Dialect, store: Store, generation: int) returns (steps: seq<Step>)
    requires Sane(store.log) && SportarrInUse(store.rows)
    ensures forall step | step in steps :: Plain(step) || step == Reinstall(generation)
    ensures !Honest(d, Run(d, NewWorld(Db(store, map[]), 1), steps))
  {
    var w := NewWorld(Db(store, map[]), 1);
    var asking := w.(threads := [Asking], holder := Some(0));
    FirstPublicationAsks(d, w);
    var rest := HarmfulReinstallLosesAWrite(d, asking, generation);
    PlainThreads(0, 4);
    RunFirst(d, asking, Reinstall(generation), rest);
    RunAppend(d, w, Threads(0, 4), [Reinstall(generation)] + rest);
    steps := Threads(0, 4) + ([Reinstall(generation)] + rest);
  }

  lemma FirstPublicationAsks(d: Dialect, w: World)
    requires w.threads == [Start] && w.holder == None && w.db.triggers == map[]
    ensures Run(d, w, Threads(0, 4)) == w.(threads := [Asking], holder := Some(0))
  {
    assert !IsExpected(w.db.triggers, SlotAt(d, 0));
    assert Threads(0, 4) == Threads(0, 2) + Threads(0, 2);
    RunThreads(d, w, 0);
    var verifying := w.(threads := [Verifying], holder := Some(0));
    assert Next(d, w, Thread(0, 0)) == w.(threads := [Waiting]);
    assert Run(d, w, Threads(0, 2)) == verifying;
    RunAppend(d, w, Threads(0, 2), Threads(0, 2));
    RunThreads(d, verifying, 0);
    assert Next(d, verifying, Thread(0, 0)) == verifying.(threads := [Probing]);
  }
}
