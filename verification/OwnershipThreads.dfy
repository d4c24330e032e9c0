/**
 How any number of threads in ensure_ownership_protection end, when nothing
 else touches the triggers.
 */
module OwnershipThreads {
  import opened Common
  import opened OwnershipLog
  import opened OwnershipInstall
  import opened OwnershipSafety
  import opened OwnershipGuarantees

  /** Threads, writes, bulk deletes and readers, while Sportarr stays in use or stays unused. */
  predicate Gentle(d: Dialect, w: World, steps: seq<Step>)
    decreases |steps|
  {
    steps == [] ||
    (&& (steps[0].Thread? || steps[0].Write? || steps[0].BulkDelete? || steps[0].Take?)
     && SportarrInUse(Next(d, w, steps[0]).db.store.rows) == SportarrInUse(w.db.store.rows)
     && Gentle(d, Next(d, w, steps[0]), steps[1..]))
  }

  /** The protection can be verified, or nothing is there and it is wanted. */
  predicate Succeeds(d: Dialect, triggers: Triggers, inUse: bool) {
    Verified(d, triggers) || (!AnyPresent(d, triggers) && inUse)
  }

  /** Exactly the first triggers of an uninterrupted install are in place. */
  ghost predicate HalfWritten(d: Dialect, triggers: Triggers, next: nat) {
    forall j: nat | j < SlotCount(d) :: SlotHalfWritten(d, triggers, next, j)
  }

  ghost predicate ThreadSafe(d: Dialect, before: Triggers, inUse: bool, db: Db, pc: Pc) {
    var now, log := db.triggers, db.store.log;
    match pc
    case Probing => !Verified(d, now)
    case Asking => !AnyPresent(d, now) && !AnyPresent(d, before) && !Verified(d, before)
    case Installing(wanted, _, next) =>
      && !AnyPresent(d, before) && !Verified(d, before) && wanted == inUse && next <= ProgramLength(d, wanted)
      && (next == 4 ==> STAR !in log.changes)
      && (if inUse then HalfWritten(d, now, next) else !AnyPresent(d, now))
    case Final => !AnyPresent(d, before) && !Verified(d, before) && (inUse ==> Verified(d, now))
    case Done => Succeeds(d, before, inUse) && Verified(d, now)
    case Raised => !Succeeds(d, before, inUse)
    case _ => true
  }

  ghost predicate EnsureInv(d: Dialect, before: Triggers, inUse: bool, w: World) {
    && LockHeld(w)
    && SportarrInUse(w.db.store.rows) == inUse
    && (forall i | 0 <= i < |w.threads| :: ThreadSafe(d, before, inUse, w.db, w.threads[i]))
    && (AnyPresent(d, before) ==> w.db.triggers == before)
    && (!AnyPresent(d, before) && !(w.holder.Some? && w.threads[w.holder.value].Installing?) ==>
          !AnyPresent(d, w.db.triggers) || (inUse && Verified(d, w.db.triggers)))
  }

  lemma VerifiedIsPresent(d: Dialect, triggers: Triggers)
    ensures Verified(d, triggers) ==> AnyPresent(d, triggers)
  {
    if Verified(d, triggers) {
      assert IsExpected(triggers, SlotAt(d, 0));
    }
  }

  lemma HalfWrittenEnds(d: Dialect, triggers: Triggers)
    ensures !AnyPresent(d, triggers) ==> HalfWritten(d, triggers, 0)
    ensures HalfWritten(d, triggers, ProgramLength(d, true)) ==> Verified(d, triggers)
  {
    if HalfWritten(d, triggers, ProgramLength(d, true)) {
      forall j | 0 <= j < SlotCount(d) ensures IsExpected(triggers, SlotAt(d, j)) {
        assert SlotHalfWritten(d, triggers, ProgramLength(d, true), j);
      }
    }
  }

  ghost predicate SlotHalfWritten(d: Dialect, triggers: Triggers, next: nat, j: nat)
    requires j < SlotCount(d)
  {
    if CreateIndex(d, j) < next then IsExpected(triggers, SlotAt(d, j)) else SlotAt(d, j) !in triggers
  }

  lemma SlotStaysHalfWritten(d: Dialect, triggers: Triggers, generation: int, next: nat, j: nat)
    requires next < ProgramLength(d, true) && j < SlotCount(d) && SlotHalfWritten(d, triggers, next, j)
    ensures SlotHalfWritten(d, ExecuteDdl(triggers, StatementAt(d, true, generation, next)), next + 1, j)
  {
    DropBeforeCreate(d, j);
    if next >= PrefixLength(d) {
      var i := SlotOfStatement(d, generation, next);
      IndicesOfSlot(d, j);
      if i != j {
        SlotsDiffer(d, i, j);
      }
    }
  }

  lemma CreateIsFree(d: Dialect, triggers: Triggers, generation: int, next: nat)
    requires next < ProgramLength(d, true) && HalfWritten(d, triggers, next)
    ensures
      var stmt := StatementAt(d, true, generation, next);
      stmt.CreateTrigger? ==> stmt.slot !in triggers
  {
    if next >= PrefixLength(d) {
      var i := SlotOfStatement(d, generation, next);
      DropBeforeCreate(d, i);
      assert SlotHalfWritten(d, triggers, next, i);
    }
  }

  lemma HalfWrittenStatement(d: Dialect, triggers: Triggers, generation: int, next: nat)
    requires next < ProgramLength(d, true) && HalfWritten(d, triggers, next)
    ensures
      var stmt := StatementAt(d, true, generation, next);
      && HalfWritten(d, ExecuteDdl(triggers, stmt), next + 1)
      && (stmt.CreateTrigger? ==> stmt.slot !in triggers)
  {
    var after := ExecuteDdl(triggers, StatementAt(d, true, generation, next));
    var later := next + 1;
    forall j: nat | j < SlotCount(d) ensures SlotHalfWritten(d, after, later, j) {
      assert SlotHalfWritten(d, triggers, next, j);
      SlotStaysHalfWritten(d, triggers, generation, next, j);
    }
    CreateIsFree(d, triggers, generation, next);
  }

  lemma UnusedStatement(d: Dialect, triggers: Triggers, generation: int, next: nat)
    requires next < ProgramLength(d, false) && !AnyPresent(d, triggers)
    ensures
      var stmt := StatementAt(d, false, generation, next);
      !AnyPresent(d, ExecuteDdl(triggers, stmt)) && !stmt.CreateTrigger?
  {
  }

  /** While an install runs, no thread outside it has seen the protection verify. */
  lemma OthersWait(d: Dialect, before: Triggers, inUse: bool, w: World, i: nat, k: nat)
    requires EnsureInv(d, before, inUse, w) && i < |w.threads| && k < |w.threads| && k != i
    requires w.threads[i].Installing? && w.threads[i].next < ProgramLength(d, inUse)
    ensures w.threads[k].Start? || w.threads[k].Waiting? || w.threads[k].Raised? || (w.threads[k].Final? && !inUse)
  {
    assert ThreadSafe(d, before, inUse, w.db, w.threads[i]);
    assert ThreadSafe(d, before, inUse, w.db, w.threads[k]);
    assert w.holder == Some(i);
    VerifiedIsPresent(d, w.db.triggers);
    if inUse {
      assert SlotHalfWritten(d, w.db.triggers, w.threads[i].next, SlotCount(d) - 1);
      assert SlotAt(d, SlotCount(d) - 1) !in w.db.triggers;
      assert !IsExpected(w.db.triggers, SlotAt(d, SlotCount(d) - 1));
    }
  }

  lemma InstallerStatement(d: Dialect, before: Triggers, inUse: bool, w: World, i: nat)
    requires EnsureInv(d, before, inUse, w) && i < |w.threads|
    requires w.threads[i].Installing? && w.threads[i].next < ProgramLength(d, inUse)
    ensures
      var pc, after := w.threads[i], ThreadStep(d, w, i, 0);
      && after.threads == w.threads[i := Installing(inUse, pc.generation, pc.next + 1)] && after.holder == w.holder
      && after.db.store.rows == w.db.store.rows
      && ThreadSafe(d, before, inUse, after.db, after.threads[i])
  {
    var pc := w.threads[i];
    assert ThreadSafe(d, before, inUse, w.db, pc);
    if inUse {
      HalfWrittenStatement(d, w.db.triggers, pc.generation, pc.next);
    } else {
      UnusedStatement(d, w.db.triggers, pc.generation, pc.next);
    }
    assert !Fails(w.db, StatementAt(d, inUse, pc.generation, pc.next));
  }

  lemma InstallingStep(d: Dialect, before: Triggers, inUse: bool, w: World, i: nat)
    requires EnsureInv(d, before, inUse, w) && i < |w.threads| && w.threads[i].Installing?
    ensures EnsureInv(d, before, inUse, ThreadStep(d, w, i, 0))
  {
    var pc := w.threads[i];
    assert ThreadSafe(d, before, inUse, w.db, pc);
    assert w.holder == Some(i);
    var after := ThreadStep(d, w, i, 0);
    if pc.next < ProgramLength(d, inUse) {
      InstallerStatement(d, before, inUse, w, i);
      forall k | 0 <= k < |w.threads| && k != i ensures ThreadSafe(d, before, inUse, after.db, after.threads[k]) {
        OthersWait(d, before, inUse, w, i, k);
        assert ThreadSafe(d, before, inUse, w.db, w.threads[k]);
      }
    } else {
      HalfWrittenEnds(d, w.db.triggers);
      MovedAlong(d, before, inUse, w, i, Final, None);
    }
  }

  /** A move that changes neither triggers nor tables. */
  lemma MovedAlong(d: Dialect, before: Triggers, inUse: bool, w: World, i: nat, pc: Pc, holder: Option<nat>)
    requires EnsureInv(d, before, inUse, w) && i < |w.threads|
    requires
      holder == if InCriticalSection(pc) then Some(i) else if InCriticalSection(w.threads[i]) then None else w.holder
    requires InCriticalSection(pc) ==> w.holder == Some(i) || w.holder == None
    requires ThreadSafe(d, before, inUse, w.db, pc)
    requires w.threads[i].Installing? ==> !AnyPresent(d, w.db.triggers) || (inUse && Verified(d, w.db.triggers))
    ensures EnsureInv(d, before, inUse, w.(threads := w.threads[i := pc], holder := holder))
  {
    var after := w.(threads := w.threads[i := pc], holder := holder);
    forall k | 0 <= k < |after.threads| ensures ThreadSafe(d, before, inUse, after.db, after.threads[k]) {
      assert ThreadSafe(d, before, inUse, w.db, w.threads[k]);
    }
  }

  lemma MovingStep(d: Dialect, before: Triggers, inUse: bool, w: World, i: nat, generation: int)
    requires EnsureInv(d, before, inUse, w) && i < |w.threads| && !w.threads[i].Installing?
    ensures EnsureInv(d, before, inUse, ThreadStep(d, w, i, generation))
  {
    if Enabled(w, i) {
      var after := ThreadStep(d, w, i, generation);
      assert ThreadSafe(d, before, inUse, w.db, w.threads[i]);
      VerifiedIsPresent(d, w.db.triggers);
      VerifiedIsPresent(d, before);
      HalfWrittenEnds(d, w.db.triggers);
      assert InCriticalSection(w.threads[i]) ==> w.holder == Some(i);
      assert ThreadSafe(d, before, inUse, w.db, after.threads[i]);
      MovedAlong(d, before, inUse, w, i, after.threads[i], after.holder);
      assert after == w.(threads := w.threads[i := after.threads[i]], holder := after.holder);
    }
  }

  lemma WritingStep(d: Dialect, before: Triggers, inUse: bool, w: World, e: Event)
    requires EnsureInv(d, before, inUse, w) && SportarrInUse(Next(d, w, Write(e)).db.store.rows) == inUse
    ensures EnsureInv(d, before, inUse, Next(d, w, Write(e)))
  {
    var after := Next(d, w, Write(e));
    forall i | 0 <= i < |w.threads| ensures ThreadSafe(d, before, inUse, after.db, w.threads[i]) {
      assert ThreadSafe(d, before, inUse, w.db, w.threads[i]);
      if w.threads[i].Installing? && w.threads[i].next == 4 && (e.Truncate? ==> d.Postgres?) {
        var j := FiredSlotIsRequired(d, e);
        assert inUse ==> SlotHalfWritten(d, w.db.triggers, 4, j);
      }
    }
  }

  lemma BulkDeletingStep(d: Dialect, before: Triggers, inUse: bool, w: World, doomed: set<RowId>, listed: set<Table>)
    requires EnsureInv(d, before, inUse, w)
    requires SportarrInUse(Next(d, w, BulkDelete(doomed, listed)).db.store.rows) == inUse
    ensures EnsureInv(d, before, inUse, Next(d, w, BulkDelete(doomed, listed)))
  {
    var after := Next(d, w, BulkDelete(doomed, listed));
    forall i | 0 <= i < |w.threads| ensures ThreadSafe(d, before, inUse, after.db, w.threads[i]) {
      assert ThreadSafe(d, before, inUse, w.db, w.threads[i]);
      if w.threads[i].Installing? && w.threads[i].next == 4 && d.Postgres? {
        forall t | t in listed ensures RowTrigger(t) !in w.db.triggers {
          var j := FiredSlotIsRequired(d, Delete(t, 0));
          assert inUse ==> SlotHalfWritten(d, w.db.triggers, 4, j);
          assert SlotAt(d, j) == RowTrigger(t);
        }
        assert Tracked(w.db, listed) == {};
      }
    }
  }

  lemma {:induction false} GentleKeeps(d: Dialect, before: Triggers, inUse: bool, w: World, steps: seq<Step>)
    requires EnsureInv(d, before, inUse, w) && Gentle(d, w, steps)
    ensures EnsureInv(d, before, inUse, Run(d, w, steps))
    decreases |steps|
  {
    if steps != [] {
      var step := steps[0];
      match step {
        case Thread(i, g) =>
          if i < |w.threads| && w.threads[i].Installing? {
            InstallingStep(d, before, inUse, w, i);
          } else if i < |w.threads| {
            MovingStep(d, before, inUse, w, i, g);
          }
        case Write(e) => WritingStep(d, before, inUse, w, e);
        case BulkDelete(doomed, listed) => BulkDeletingStep(d, before, inUse, w, doomed, listed);
        case _ =>
      }
      GentleKeeps(d, before, inUse, Next(d, w, step), steps[1..]);
    }
  }

  predicate Finished(w: World) {
    forall i | 0 <= i < |w.threads| :: w.threads[i].Done? || w.threads[i].Raised?
  }

  /** However the threads interleave: every one ends well exactly when the
      protection verifies at the start, or nothing is there and Sportarr is in
      use. What is there is never altered. */
  lemma EveryThreadEndsAlike(d: Dialect, db: Db, count: nat, steps: seq<Step>)
    requires Gentle(d, NewWorld(db, count), steps)
    ensures
      var w, good := Run(d, NewWorld(db, count), steps), Succeeds(d, db.triggers, SportarrInUse(db.store.rows));
      && (forall i | 0 <= i < |w.threads| :: w.threads[i].Raised? ==> !good)
      && (forall i | 0 <= i < |w.threads| :: w.threads[i].Done? ==> good && Verified(d, w.db.triggers))
      && (AnyPresent(d, db.triggers) ==> w.db.triggers == db.triggers)
      && (Finished(w) ==> forall i | 0 <= i < |w.threads| :: w.threads[i] == if good then Done else Raised)
  {
    var inUse := SportarrInUse(db.store.rows);
    GentleKeeps(d, db.triggers, inUse, NewWorld(db, count), steps);
    var w := Run(d, NewWorld(db, count), steps);
    forall i | 0 <= i < |w.threads| ensures ThreadSafe(d, db.triggers, inUse, w.db, w.threads[i]) {
    }
  }

  // ---- No thread waits for ever

  function Left(d: Dialect, pc: Pc): nat {
    match pc
    case Start => 40
    case Waiting => 39
    case Verifying => 38
    case Probing => 37
    case Asking => 36
    case Installing(wanted, _, next) =>
      if next < ProgramLength(d, wanted) then ProgramLength(d, wanted) - next + 2 else 2
    case Final => 1
    case _ => 0
  }

  function TotalLeft(d: Dialect, threads: seq<Pc>): nat
    decreases |threads|
  {
    if threads == [] then 0 else Left(d, threads[0]) + TotalLeft(d, threads[1..])
  }

  lemma {:induction false} TotalLeftUpdate(d: Dialect, threads: seq<Pc>, i: nat, pc: Pc)
    requires i < |threads|
    ensures TotalLeft(d, threads[i := pc]) == TotalLeft(d, threads) - Left(d, threads[i]) + Left(d, pc)
    decreases |threads|
  {
    if i > 0 {
      assert threads[i := pc][1..] == threads[1..][i - 1 := pc];
      TotalLeftUpdate(d, threads[1..], i - 1, pc);
    } else {
      assert threads[i := pc][1..] == threads[1..];
    }
  }

  lemma MoveUsesSome(d: Dialect, w: World, i: nat, generation: int)
    requires Enabled(w, i)
    ensures TotalLeft(d, ThreadStep(d, w, i, generation).threads) < TotalLeft(d, w.threads)
  {
    var after := ThreadStep(d, w, i, generation);
    MoveIsOwn(d, w, i, generation);
    TotalLeftUpdate(d, w.threads, i, after.threads[i]);
  }

  lemma MoveIsOwn(d: Dialect, w: World, i: nat, generation: int)
    requires Enabled(w, i)
    ensures
      var after := ThreadStep(d, w, i, generation);
      && |after.threads| == |w.threads| && after.threads == w.threads[i := after.threads[i]]
      && Left(d, after.threads[i]) < Left(d, w.threads[i])
  {
    if w.threads[i].Installing? {
      InstallerMoveIsOwn(d, w, i, generation);
    }
  }

  lemma InstallerMoveIsOwn(d: Dialect, w: World, i: nat, generation: int)
    requires Enabled(w, i) && w.threads[i].Installing?
    ensures
      var after := ThreadStep(d, w, i, generation);
      && |after.threads| == |w.threads| && after.threads == w.threads[i := after.threads[i]]
      && Left(d, after.threads[i]) < Left(d, w.threads[i])
  {
  }

  /** While a thread is unfinished one can move, and every move uses up some of
      what is left, so every run of moves ends with all threads finished. */
  lemma ThreadsFinish(d: Dialect, w: World, generation: int)
    requires LockHeld(w)
    ensures Finished(w) <==> !exists i: nat :: Enabled(w, i)
    ensures forall i: nat | Enabled(w, i) ::
      TotalLeft(d, ThreadStep(d, w, i, generation).threads) < TotalLeft(d, w.threads)
  {
    if !Finished(w) {
      var i: nat :| i < |w.threads| && !w.threads[i].Done? && !w.threads[i].Raised?;
      var k: nat := if w.holder.Some? then w.holder.value else i;
      assert Enabled(w, k);
    }
    forall i: nat | Enabled(w, i)
      ensures TotalLeft(d, ThreadStep(d, w, i, generation).threads) < TotalLeft(d, w.threads)
    {
      MoveUsesSome(d, w, i, generation);
    }
  }
}
