/**
 The startup backfill of default instances: create one, then stamp the ownerless
 rows table by table, each statement committed on its own.
 */
module Backfill {
  import opened Common

  datatype Kind = Sonarr | Radarr

  datatype Instance = Instance(id: int, kind: Kind, enabled: bool, isDefault: bool)

  /** The owner column of one table. */
  type Owners = seq<Option<int>>

  /** `others` are the further tables with an owner column, those of the sports kind among
      them; `retired` is the highest id a deleted instance kept. */
  datatype Db = Db(
    instances: seq<Instance>, sonarr: seq<Owners>, radarr: seq<Owners>, others: seq<Owners>, retired: int)

  /** Every table that names owners. */
  function AllTables(db: Db): seq<Owners> {
    db.sonarr + db.radarr + db.others
  }

  datatype Flags = Flags(useSonarr: bool, useRadarr: bool)

  function TablesOf(db: Db, kind: Kind): seq<Owners> {
    if kind.Sonarr? then db.sonarr else db.radarr
  }

  function WithTables(db: Db, kind: Kind, tables: seq<Owners>): Db {
    if kind.Sonarr? then db.(sonarr := tables) else db.(radarr := tables)
  }

  function Flag(flags: Flags, kind: Kind): bool {
    if kind.Sonarr? then flags.useSonarr else flags.useRadarr
  }

  function OfKind(instances: seq<Instance>, kind: Kind): seq<Instance>
    decreases |instances|
  {
    if instances == [] then []
    else
      var last := instances[|instances| - 1];
      OfKind(instances[..|instances| - 1], kind) + if last.kind == kind then [last] else []
  }

  predicate HasOwnerless(tables: seq<Owners>) {
    exists t | 0 <= t < |tables| :: None in tables[t]
  }

  // ---- Ids

  function Max(a: int, b: int): int {
    if a > b then a else b
  }

  function HighestOwner(rows: Owners): int
    decreases |rows|
  {
    if rows == [] then 0
    else
      var last := rows[|rows| - 1];
      Max(HighestOwner(rows[..|rows| - 1]), if last.Some? then last.value else 0)
  }

  function HighestIn(tables: seq<Owners>): int
    decreases |tables|
  {
    if tables == [] then 0 else Max(HighestIn(tables[..|tables| - 1]), HighestOwner(tables[|tables| - 1]))
  }

  function HighestId(instances: seq<Instance>): int
    decreases |instances|
  {
    if instances == [] then 0
    else Max(HighestId(instances[..|instances| - 1]), instances[|instances| - 1].id)
  }

  /** Above every id an instance has or had and every id a row still names. */
  function UnusedId(db: Db): int {
    Max(Max(HighestId(db.instances), db.retired), HighestIn(AllTables(db))) + 1
  }

  // ---- A run, and a run cut short

  function Stamped(rows: Owners, id: int): Owners {
    seq(|rows|, i requires 0 <= i < |rows| => if rows[i].None? then Some(id) else rows[i])
  }

  /** The first `n` tables are stamped. */
  function StampedUpTo(tables: seq<Owners>, id: int, n: int): seq<Owners> {
    seq(|tables|, t requires 0 <= t < |tables| => if t < n then Stamped(tables[t], id) else tables[t])
  }

  predicate Creates(db: Db, kind: Kind, flag: bool) {
    OfKind(db.instances, kind) == [] && (flag || HasOwnerless(TablesOf(db, kind)))
  }

  predicate Resumes(db: Db, kind: Kind) {
    |OfKind(db.instances, kind)| == 1
  }

  /** The statements one kind commits. */
  function Commits(db: Db, kind: Kind, flag: bool): nat {
    (if Creates(db, kind, flag) then 1 else 0)
      + if Creates(db, kind, flag) || Resumes(db, kind) then |TablesOf(db, kind)| else 0
  }

  function WithDefault(db: Db, kind: Kind): Db {
    db.(instances := db.instances + [Instance(UnusedId(db), kind, true, true)])
  }

  /** One kind, stopped after its first `n` commits. */
  function KindCut(db: Db, kind: Kind, flag: bool, n: int): Db {
    if n <= 0 then db
    else if Creates(db, kind, flag) then
      WithTables(WithDefault(db, kind), kind, StampedUpTo(TablesOf(db, kind), UnusedId(db), n - 1))
    else if Resumes(db, kind) then
      WithTables(db, kind, StampedUpTo(TablesOf(db, kind), OfKind(db.instances, kind)[0].id, n))
    else db
  }

  function KindDone(db: Db, kind: Kind, flag: bool): Db {
    KindCut(db, kind, flag, Commits(db, kind, flag))
  }

  /** A run stopped after its first `n` commits. */
  function Cut(db: Db, flags: Flags, n: nat): Db {
    var first := Commits(db, Sonarr, flags.useSonarr);
    if n <= first then KindCut(db, Sonarr, flags.useSonarr, n)
    else KindCut(KindDone(db, Sonarr, flags.useSonarr), Radarr, flags.useRadarr, n - first)
  }

  function Completed(db: Db, flags: Flags): Db {
    KindDone(KindDone(db, Sonarr, flags.useSonarr), Radarr, flags.useRadarr)
  }

  /** Runs that each stop somewhere. */
  function CutRuns(db: Db, flags: Flags, stops: seq<nat>): Db
    decreases |stops|
  {
    if stops == [] then db else CutRuns(Cut(db, flags, stops[0]), flags, stops[1..])
  }

  // ---- Stamping

  lemma StampTwice(tables: seq<Owners>, id: int, n: int, m: int)
    requires n <= m
    ensures StampedUpTo(StampedUpTo(tables, id, n), id, m) == StampedUpTo(tables, id, m)
  {
    forall t | 0 <= t < |tables|
      ensures StampedUpTo(StampedUpTo(tables, id, n), id, m)[t] == StampedUpTo(tables, id, m)[t]
    {
      assert Stamped(Stamped(tables[t], id), id) == Stamped(tables[t], id);
    }
  }

  lemma OfKindAppended(instances: seq<Instance>, i: Instance, kind: Kind)
    ensures OfKind(instances + [i], kind) == OfKind(instances, kind) + if i.kind == kind then [i] else []
  {
    assert (instances + [i])[..|instances|] == instances;
  }

  lemma NothingLeftToStamp(tables: seq<Owners>, id: int)
    ensures !HasOwnerless(StampedUpTo(tables, id, |tables|))
  {
  }

  lemma CreatedResumes(db: Db, kind: Kind, flag: bool, tables: seq<Owners>)
    requires Creates(db, kind, flag) && |tables| == |TablesOf(db, kind)|
    ensures
      var cut := WithTables(WithDefault(db, kind), kind, tables);
      KindDone(cut, kind, flag)
      == WithTables(WithDefault(db, kind), kind, StampedUpTo(tables, UnusedId(db), |tables|))
  {
    var cut := WithTables(WithDefault(db, kind), kind, tables);
    var instance := Instance(UnusedId(db), kind, true, true);
    OfKindAppended(db.instances, instance, kind);
    assert OfKind(cut.instances, kind) == [instance];
    ResumedIsStamped(cut, kind, flag);
  }

  lemma ResumedIsStamped(db: Db, kind: Kind, flag: bool)
    requires Resumes(db, kind)
    ensures
      var tables := TablesOf(db, kind);
      KindDone(db, kind, flag) == WithTables(db, kind, StampedUpTo(tables, OfKind(db.instances, kind)[0].id, |tables|))
  {
    var tables := TablesOf(db, kind);
    if tables == [] {
      assert StampedUpTo(tables, OfKind(db.instances, kind)[0].id, 0) == tables;
    }
  }

  lemma CreatedIsStamped(db: Db, kind: Kind, flag: bool)
    requires Creates(db, kind, flag)
    ensures
      var tables, id := TablesOf(db, kind), UnusedId(db);
      KindDone(db, kind, flag) == WithTables(WithDefault(db, kind), kind, StampedUpTo(tables, id, |tables|))
  {
  }

  lemma CreatedIsCut(db: Db, kind: Kind, flag: bool, n: int)
    requires n > 0 && Creates(db, kind, flag)
    ensures
      KindCut(db, kind, flag, n)
      == WithTables(WithDefault(db, kind), kind, StampedUpTo(TablesOf(db, kind), UnusedId(db), n - 1))
  {
  }

  lemma CreatedConverges(db: Db, kind: Kind, flag: bool, n: int)
    requires n > 0 && Creates(db, kind, flag)
    ensures KindDone(KindCut(db, kind, flag, n), kind, flag) == KindDone(db, kind, flag)
  {
    CreatedIsCut(db, kind, flag, n);
    CutFurther(TablesOf(db, kind), UnusedId(db), n - 1);
    CreatedIsResumed(db, kind, flag, StampedUpTo(TablesOf(db, kind), UnusedId(db), n - 1));
  }

  lemma CreatedIsResumed(db: Db, kind: Kind, flag: bool, stamped: seq<Owners>)
    requires Creates(db, kind, flag) && |stamped| == |TablesOf(db, kind)|
    requires
      StampedUpTo(stamped, UnusedId(db), |stamped|)
      == StampedUpTo(TablesOf(db, kind), UnusedId(db), |TablesOf(db, kind)|)
    ensures KindDone(WithTables(WithDefault(db, kind), kind, stamped), kind, flag) == KindDone(db, kind, flag)
  {
    CreatedIsStamped(db, kind, flag);
    CreatedResumes(db, kind, flag, stamped);
  }

  lemma ResumedConverges(db: Db, kind: Kind, flag: bool, n: int)
    requires n > 0 && Resumes(db, kind)
    ensures KindDone(KindCut(db, kind, flag, n), kind, flag) == KindDone(db, kind, flag)
  {
    ResumedIsStamped(db, kind, flag);
    ResumedIsStamped(KindCut(db, kind, flag, n), kind, flag);
    CutFurther(TablesOf(db, kind), OfKind(db.instances, kind)[0].id, n);
  }

  /** Whatever was committed before, the kind ends where an uninterrupted run ends it. */
  lemma KindConverges(db: Db, kind: Kind, flag: bool, n: int)
    ensures KindDone(KindCut(db, kind, flag, n), kind, flag) == KindDone(db, kind, flag)
  {
    if n > 0 && Creates(db, kind, flag) {
      CreatedConverges(db, kind, flag, n);
    } else if n > 0 && Resumes(db, kind) {
      ResumedConverges(db, kind, flag, n);
    } else {
      assert KindCut(db, kind, flag, n) == db;
    }
  }

  lemma CutFurther(tables: seq<Owners>, id: int, n: int)
    ensures StampedUpTo(StampedUpTo(tables, id, n), id, |tables|) == StampedUpTo(tables, id, |tables|)
  {
    if n <= |tables| {
      StampTwice(tables, id, n, |tables|);
    } else {
      assert StampedUpTo(tables, id, n) == StampedUpTo(tables, id, |tables|);
      StampTwice(tables, id, |tables|, |tables|);
    }
  }

  /** A kind that is done stays done while the other one is worked on. */
  lemma OtherKindIsNoConcern(db: Db, kind: Kind, other: Kind, flag: bool, otherFlag: bool, n: int)
    requires kind != other && KindDone(db, kind, flag) == db
    ensures
      var cut := KindCut(db, other, otherFlag, n);
      KindDone(cut, kind, flag) == cut
  {
    var cut := KindCut(db, other, otherFlag, n);
    OfKindAppended(db.instances, Instance(UnusedId(db), other, true, true), kind);
    assert OfKind(cut.instances, kind) == OfKind(db.instances, kind);
    assert TablesOf(cut, kind) == TablesOf(db, kind);
    assert !Creates(db, kind, flag) by {
      if Creates(db, kind, flag) {
        NewInstanceShows(db, kind, flag);
      }
    }
    if Resumes(db, kind) {
      ResumedIsStamped(db, kind, flag);
      ResumedIsStamped(cut, kind, flag);
    }
  }

  lemma NewInstanceShows(db: Db, kind: Kind, flag: bool)
    requires Creates(db, kind, flag)
    ensures KindDone(db, kind, flag) != db
  {
    assert |WithDefault(db, kind).instances| == |db.instances| + 1;
  }

  /** With the first kind done, stopping in the second one leaves it done. */
  lemma SecondConverges(half: Db, flags: Flags, n: nat)
    requires KindDone(half, Sonarr, flags.useSonarr) == half
    ensures
      Completed(KindCut(half, Radarr, flags.useRadarr, n), flags) == KindDone(half, Radarr, flags.useRadarr)
  {
    OtherKindIsNoConcern(half, Sonarr, Radarr, flags.useSonarr, flags.useRadarr, n);
    KindConverges(half, Radarr, flags.useRadarr, n);
  }

  lemma CutConverges(db: Db, flags: Flags, n: nat)
    ensures Completed(Cut(db, flags, n), flags) == Completed(db, flags)
  {
    var first := Commits(db, Sonarr, flags.useSonarr);
    if n <= first {
      assert Cut(db, flags, n) == KindCut(db, Sonarr, flags.useSonarr, n);
      KindConverges(db, Sonarr, flags.useSonarr, n);
    } else {
      var half := KindDone(db, Sonarr, flags.useSonarr);
      KindIsDone(db, Sonarr, flags.useSonarr);
      SecondConverges(half, flags, n - first);
      assert Cut(db, flags, n) == KindCut(half, Radarr, flags.useRadarr, n - first);
    }
  }

  lemma KindIsDone(db: Db, kind: Kind, flag: bool)
    ensures KindDone(KindDone(db, kind, flag), kind, flag) == KindDone(db, kind, flag)
  {
    KindConverges(db, kind, flag, Commits(db, kind, flag));
  }

  /** Main theorem: any runs stopped after any commits, and then one run to the
      end, reach what one uninterrupted run reaches; and more runs change nothing. */
  lemma {:induction false} CrashesConverge(db: Db, flags: Flags, stops: seq<nat>)
    ensures Completed(CutRuns(db, flags, stops), flags) == Completed(db, flags)
    ensures Completed(Completed(db, flags), flags) == Completed(db, flags)
    decreases |stops|
  {
    if stops != [] {
      CutConverges(db, flags, stops[0]);
      CrashesConverge(Cut(db, flags, stops[0]), flags, stops[1..]);
    }
    var half := KindDone(db, Sonarr, flags.useSonarr);
    KindIsDone(db, Sonarr, flags.useSonarr);
    SecondConverges(half, flags, Commits(half, Radarr, flags.useRadarr));
  }

  // ---- What it reaches

  lemma {:induction false} OwnersAreBelow(rows: Owners, i: nat)
    requires i < |rows| && rows[i].Some?
    ensures rows[i].value <= HighestOwner(rows)
    decreases |rows|
  {
    if i < |rows| - 1 {
      OwnersAreBelow(rows[..|rows| - 1], i);
    }
  }

  lemma {:induction false} TablesAreBelow(tables: seq<Owners>, t: nat, i: nat)
    requires t < |tables| && i < |tables[t]| && tables[t][i].Some?
    ensures tables[t][i].value <= HighestIn(tables)
    decreases |tables|
  {
    if t < |tables| - 1 {
      TablesAreBelow(tables[..|tables| - 1], t, i);
    } else {
      OwnersAreBelow(tables[t], i);
    }
  }

  lemma {:induction false} InstancesAreBelow(instances: seq<Instance>, i: nat)
    requires i < |instances|
    ensures instances[i].id <= HighestId(instances)
    decreases |instances|
  {
    if i < |instances| - 1 {
      InstancesAreBelow(instances[..|instances| - 1], i);
    }
  }

  /** A row that named an owner still names it; one that did not names `id`. */
  ghost predicate OnlyOwnerlessStamped(before: seq<Owners>, after: seq<Owners>, id: int) {
    |after| == |before| && forall t | 0 <= t < |before| ::
      |after[t]| == |before[t]|
      && forall i | 0 <= i < |before[t]| :: after[t][i] == if before[t][i].None? then Some(id) else before[t][i]
  }

  /** One kind with no instance, run to the end: exactly one default is created
      when there is something to own, under an id nothing named before; no row is
      left without an owner and none that had one is touched. */
  lemma OneDefaultIsCreated(db: Db, kind: Kind, flag: bool)
    requires OfKind(db.instances, kind) == []
    ensures
      var after, tables := KindDone(db, kind, flag), TablesOf(db, kind);
      && !HasOwnerless(TablesOf(after, kind))
      && (if flag || HasOwnerless(tables)
          then
            && OfKind(after.instances, kind) == [Instance(UnusedId(db), kind, true, true)]
            && after.instances[..|db.instances|] == db.instances
            && OnlyOwnerlessStamped(tables, TablesOf(after, kind), UnusedId(db))
          else after == db)
    ensures forall i | 0 <= i < |db.instances| :: db.instances[i].id < UnusedId(db)
    ensures NamedAreBelow(AllTables(db), UnusedId(db))
  {
    var tables := TablesOf(db, kind);
    UnusedIdIsAbove(db);
    OfKindAppended(db.instances, Instance(UnusedId(db), kind, true, true), kind);
    if Creates(db, kind, flag) {
      NothingLeftToStamp(tables, UnusedId(db));
      assert KindDone(db, kind, flag)
        == WithTables(WithDefault(db, kind), kind, StampedUpTo(tables, UnusedId(db), |tables|));
      StampedOnlyOwnerless(tables, UnusedId(db));
    }
  }

  lemma StampedOnlyOwnerless(tables: seq<Owners>, id: int)
    ensures OnlyOwnerlessStamped(tables, StampedUpTo(tables, id, |tables|), id)
  {
  }

  ghost predicate NamedAreBelow(tables: seq<Owners>, id: int) {
    forall t, i | 0 <= t < |tables| && 0 <= i < |tables[t]| && tables[t][i].Some? :: tables[t][i].value < id
  }

  /** Some row of some table names no owner. */
  lemma OwnerlessIsSome(tables: seq<Owners>)
    ensures HasOwnerless(tables) <==> exists t, i :: 0 <= t < |tables| && 0 <= i < |tables[t]| && tables[t][i].None?
  {
    if HasOwnerless(tables) {
      var t :| 0 <= t < |tables| && None in tables[t];
      var i :| 0 <= i < |tables[t]| && tables[t][i] == None;
    }
    if t, i :| 0 <= t < |tables| && 0 <= i < |tables[t]| && tables[t][i].None? {
      assert tables[t][i] in tables[t];
    }
  }

  lemma {:induction false} HighestOwnerIsNamed(rows: Owners)
    ensures HighestOwner(rows) == 0 || Some(HighestOwner(rows)) in rows
    decreases |rows|
  {
    if rows != [] {
      HighestOwnerIsNamed(rows[..|rows| - 1]);
    }
  }

  lemma {:induction false} HighestInIsNamed(tables: seq<Owners>)
    ensures HighestIn(tables) == 0 || exists t | 0 <= t < |tables| :: Some(HighestIn(tables)) in tables[t]
    decreases |tables|
  {
    if tables != [] {
      var init := tables[..|tables| - 1];
      HighestInIsNamed(init);
      HighestOwnerIsNamed(tables[|tables| - 1]);
      assert forall t | 0 <= t < |init| :: init[t] == tables[t];
    }
  }

  lemma {:induction false} HighestIdIsAnInstance(instances: seq<Instance>)
    ensures HighestId(instances) == 0 || exists i | 0 <= i < |instances| :: instances[i].id == HighestId(instances)
    decreases |instances|
  {
    if instances != [] {
      HighestIdIsAnInstance(instances[..|instances| - 1]);
    }
  }

  /** And no higher than it must be: the one below it is taken, or it is 1. */
  lemma UnusedIdIsNext(db: Db)
    ensures
      var last := UnusedId(db) - 1;
      || last == 0 || last == db.retired
      || (exists i | 0 <= i < |db.instances| :: db.instances[i].id == last)
      || exists t | 0 <= t < |AllTables(db)| :: Some(last) in AllTables(db)[t]
  {
    HighestIdIsAnInstance(db.instances);
    HighestInIsNamed(AllTables(db));
  }

  /** The new id is above every id an instance has or had and every id a row of any
      table names. */
  lemma UnusedIdIsAbove(db: Db)
    ensures forall i | 0 <= i < |db.instances| :: db.instances[i].id < UnusedId(db)
    ensures db.retired < UnusedId(db)
    ensures NamedAreBelow(AllTables(db), UnusedId(db))
  {
    var tables: seq<seq<Option<int>>> := AllTables(db);
    forall i | 0 <= i < |db.instances| ensures db.instances[i].id < UnusedId(db) {
      InstancesAreBelow(db.instances, i);
    }
    forall t, i | 0 <= t < |tables| && 0 <= i < |tables[t]| && tables[t][i].Some?
      ensures tables[t][i].value < UnusedId(db)
    {
      TablesAreBelow(tables, t, i);
    }
  }

  /** The one instance of a kind that had none: a default under an id nothing named. */
  ghost predicate IsNewDefault(db: Db, kind: Kind, instance: Instance) {
    && instance.kind == kind && instance.enabled && instance.isDefault
    && db.retired < instance.id
    && (forall i | 0 <= i < |db.instances| :: db.instances[i].id < instance.id)
    && NamedAreBelow(AllTables(db), instance.id)
  }

  ghost predicate Settled(db: Db, end: Db, kind: Kind, flag: bool) {
    var tables, after := TablesOf(db, kind), TablesOf(end, kind);
    && !HasOwnerless(after)
    && if flag || HasOwnerless(tables) then
         && |OfKind(end.instances, kind)| == 1
         && IsNewDefault(db, kind, OfKind(end.instances, kind)[0])
         && OnlyOwnerlessStamped(tables, after, OfKind(end.instances, kind)[0].id)
       else OfKind(end.instances, kind) == [] && after == tables
  }

  lemma KindSettles(db: Db, kind: Kind, flag: bool)
    requires OfKind(db.instances, kind) == []
    ensures Settled(db, KindDone(db, kind, flag), kind, flag)
  {
    OneDefaultIsCreated(db, kind, flag);
    UnusedIdIsAbove(db);
  }

  lemma BelowBefore(db: Db, half: Db, id: int)
    requires Keeps(db, half) && NamedAreBelow(AllTables(half), id)
    ensures NamedAreBelow(AllTables(db), id)
  {
    var before: seq<seq<Option<int>>>, after: seq<seq<Option<int>>> := AllTables(db), AllTables(half);
    forall t, i | 0 <= t < |before| && 0 <= i < |before[t]| && before[t][i].Some? ensures before[t][i].value < id {
      assert |after[t]| == |before[t]| && after[t][i] == before[t][i];
    }
  }

  lemma SettledBeside(db: Db, half: Db, end: Db, kind: Kind, flag: bool)
    requires Keeps(db, half) && TablesOf(half, kind) == TablesOf(db, kind) && Settled(half, end, kind, flag)
    ensures Settled(db, end, kind, flag)
  {
    if flag || HasOwnerless(TablesOf(db, kind)) {
      var instance := OfKind(end.instances, kind)[0];
      BelowBefore(db, half, instance.id);
      forall i | 0 <= i < |db.instances| ensures db.instances[i].id < instance.id {
        assert db.instances[i] == half.instances[i];
      }
    }
  }

  /** Main theorem: from no instance of a kind, any runs stopped after any commits and
      then one to the end leave exactly one default of it when there is something to
      own, and none otherwise, no ownerless row, and every row that named an owner as it
      was. The other kind makes no difference. */
  lemma CrashesLeaveOneDefault(db: Db, flags: Flags, stops: seq<nat>, kind: Kind)
    requires OfKind(db.instances, kind) == []
    ensures Settled(db, Completed(CutRuns(db, flags, stops), flags), kind, Flag(flags, kind))
  {
    CrashesConverge(db, flags, stops);
    var half := KindDone(db, Sonarr, flags.useSonarr);
    var firsts, lasts := Commits(db, Sonarr, flags.useSonarr), Commits(half, Radarr, flags.useRadarr);
    KeepsOthers(db, Sonarr, flags.useSonarr, firsts);
    KeepsOthers(half, Radarr, flags.useRadarr, lasts);
    if kind.Sonarr? {
      KindSettles(db, kind, flags.useSonarr);
    } else {
      KindSettles(half, kind, flags.useRadarr);
      KindKeeps(db, Sonarr, flags.useSonarr, firsts);
      SettledBeside(db, half, Completed(db, flags), kind, flags.useRadarr);
    }
  }

  /** The lone instance of a kind takes its ownerless rows, enabled or not, default or
      not; several instances leave them, and no instance is created or changed. */
  lemma LoneInstanceTakesTheRest(db: Db, kind: Kind, flag: bool)
    requires OfKind(db.instances, kind) != []
    ensures
      var after, tables := KindDone(db, kind, flag), TablesOf(db, kind);
      && after.instances == db.instances
      && if |OfKind(db.instances, kind)| == 1
         then OnlyOwnerlessStamped(tables, TablesOf(after, kind), OfKind(db.instances, kind)[0].id)
         else after == db
  {
    if Resumes(db, kind) {
      ResumedIsStamped(db, kind, flag);
      StampedOnlyOwnerless(TablesOf(db, kind), OfKind(db.instances, kind)[0].id);
    }
  }

  /** A finished run leaves a row ownerless exactly when its kind had several
      instances, so that the owner is not known. */
  lemma OwnerlessOnlyBesideSeveral(db: Db, flags: Flags, kind: Kind)
    ensures
      HasOwnerless(TablesOf(Completed(db, flags), kind))
      <==> HasOwnerless(TablesOf(db, kind)) && |OfKind(db.instances, kind)| > 1
  {
    var half := KindDone(db, Sonarr, flags.useSonarr);
    KindOwnerless(db, Sonarr, flags.useSonarr);
    KindOwnerless(half, Radarr, flags.useRadarr);
    KeepsOthers(db, Sonarr, flags.useSonarr, Commits(db, Sonarr, flags.useSonarr));
    KeepsOthers(half, Radarr, flags.useRadarr, Commits(half, Radarr, flags.useRadarr));
  }

  lemma KindOwnerless(db: Db, kind: Kind, flag: bool)
    ensures
      HasOwnerless(TablesOf(KindDone(db, kind, flag), kind))
      <==> HasOwnerless(TablesOf(db, kind)) && |OfKind(db.instances, kind)| > 1
  {
    if Creates(db, kind, flag) {
      NothingLeftToStamp(TablesOf(db, kind), UnusedId(db));
    } else if Resumes(db, kind) {
      ResumedIsStamped(db, kind, flag);
      NothingLeftToStamp(TablesOf(db, kind), OfKind(db.instances, kind)[0].id);
    }
  }

  /** Wherever a run stops, the tables are stamped in their order: one that was stamped has
      none before it that still has an ownerless row. */
  lemma StampsInOrder(db: Db, kind: Kind, flag: bool, n: int, t: nat, u: nat)
    requires t < u < |TablesOf(db, kind)| && TablesOf(KindCut(db, kind, flag, n), kind)[u] != TablesOf(db, kind)[u]
    ensures None !in TablesOf(KindCut(db, kind, flag, n), kind)[t]
  {
  }

  lemma StampingKeepsNamed(tables: seq<Owners>, id: int, n: int)
    ensures KeepsNamed(tables, StampedUpTo(tables, id, n)) && KeepsNamed(tables, tables)
  {
  }

  lemma KeepsOthers(db: Db, kind: Kind, flag: bool, n: int)
    ensures
      var cut, other := KindCut(db, kind, flag, n), if kind.Sonarr? then Radarr else Sonarr;
      && TablesOf(cut, other) == TablesOf(db, other)
      && OfKind(cut.instances, other) == OfKind(db.instances, other)
  {
    var other := if kind.Sonarr? then Radarr else Sonarr;
    OfKindAppended(db.instances, Instance(UnusedId(db), kind, true, true), other);
  }

  ghost predicate KeepsNamed(before: seq<Owners>, after: seq<Owners>) {
    |after| == |before| && forall t | 0 <= t < |before| ::
      |after[t]| == |before[t]|
      && forall i | 0 <= i < |before[t]| :: before[t][i].Some? ==> after[t][i] == before[t][i]
  }

  /** Rows that named an owner name it still, and every instance is as it was; the tables
      of other kinds are not touched. */
  ghost predicate Keeps(before: Db, after: Db) {
    && KeepsNamed(before.sonarr, after.sonarr) && KeepsNamed(before.radarr, after.radarr)
    && after.others == before.others && after.retired == before.retired
    && before.instances <= after.instances
  }

  lemma KindKeeps(db: Db, kind: Kind, flag: bool, n: int)
    ensures Keeps(db, KindCut(db, kind, flag, n))
  {
    var id := if Creates(db, kind, flag) || !Resumes(db, kind) then UnusedId(db) else OfKind(db.instances, kind)[0].id;
    StampingKeepsNamed(db.sonarr, id, n);
    StampingKeepsNamed(db.radarr, id, n);
    StampingKeepsNamed(db.sonarr, id, n - 1);
    StampingKeepsNamed(db.radarr, id, n - 1);
  }

  lemma NamedKeepsNamed(a: seq<Owners>, b: seq<Owners>, c: seq<Owners>)
    requires KeepsNamed(a, b) && KeepsNamed(b, c)
    ensures KeepsNamed(a, c)
  {
    forall t | 0 <= t < |a|
      ensures |c[t]| == |a[t]| && forall i | 0 <= i < |a[t]| :: a[t][i].Some? ==> c[t][i] == a[t][i]
    {
      assert |b[t]| == |a[t]|;
    }
  }

  lemma KeepingKeeps(a: Db, b: Db, c: Db)
    requires Keeps(a, b) && Keeps(b, c)
    ensures Keeps(a, c)
  {
    NamedKeepsNamed(a.sonarr, b.sonarr, c.sonarr);
    NamedKeepsNamed(a.radarr, b.radarr, c.radarr);
  }

  /** Through any runs stopped anywhere, a row that named an owner names it still
      and every instance stays as it was. */
  lemma {:induction false} NamedOwnersStay(db: Db, flags: Flags, stops: seq<nat>)
    ensures Keeps(db, CutRuns(db, flags, stops))
    decreases |stops|
  {
    if stops == [] {
      KindKeeps(db, Sonarr, flags.useSonarr, 0);
    } else {
      CutKeeps(db, flags, stops[0]);
      NamedOwnersStay(Cut(db, flags, stops[0]), flags, stops[1..]);
      KeepingKeeps(db, Cut(db, flags, stops[0]), CutRuns(db, flags, stops));
    }
  }

  lemma CutKeeps(db: Db, flags: Flags, n: nat)
    ensures Keeps(db, Cut(db, flags, n))
  {
    var first := Commits(db, Sonarr, flags.useSonarr);
    if n <= first {
      KindKeeps(db, Sonarr, flags.useSonarr, n);
    } else {
      BothKeep(db, flags, n - first);
    }
  }

  lemma BothKeep(db: Db, flags: Flags, n: int)
    ensures Keeps(db, KindCut(KindDone(db, Sonarr, flags.useSonarr), Radarr, flags.useRadarr, n))
  {
    var half := KindDone(db, Sonarr, flags.useSonarr);
    KindKeeps(db, Sonarr, flags.useSonarr, Commits(db, Sonarr, flags.useSonarr));
    KindKeeps(half, Radarr, flags.useRadarr, n);
    KeepingKeeps(db, half, KindCut(half, Radarr, flags.useRadarr, n));
  }

  /** Commits beyond the last change nothing. */
  lemma NothingAfterTheLast(db: Db, kind: Kind, flag: bool, n: int)
    requires n >= Commits(db, kind, flag)
    ensures KindCut(db, kind, flag, n) == KindDone(db, kind, flag)
  {
    var tables := TablesOf(db, kind);
    if Creates(db, kind, flag) {
      assert StampedUpTo(tables, UnusedId(db), n - 1) == StampedUpTo(tables, UnusedId(db), |tables|);
    } else if Resumes(db, kind) {
      var id := OfKind(db.instances, kind)[0].id;
      assert StampedUpTo(tables, id, n) == StampedUpTo(tables, id, |tables|);
      assert StampedUpTo(tables, id, 0) == tables;
    }
  }

  // ---- The run in place

  class Library {
    var instances: seq<Instance>
    var sonarr: seq<Owners>
    var radarr: seq<Owners>
    var others: seq<Owners>
    var retired: int
    /** The commits left before the process stops. */
    var left: nat

    function Contents(): Db
      reads this
    {
      Db(instances, sonarr, radarr, others, retired)
    }

    constructor (db: Db, commits: nat)
      ensures Contents() == db && left == commits
    {
      instances, sonarr, radarr, others := db.instances, db.sonarr, db.radarr, db.others;
      retired := db.retired;
      left := commits;
    }

    method HasOwnerlessRows(kind: Kind) returns (any: bool)
      ensures any == HasOwnerless(TablesOf(Contents(), kind))
    {
      var tables := TablesOf(Contents(), kind);
      var t := 0;
      while t < |tables|
        invariant 0 <= t <= |tables|
        invariant forall u | 0 <= u < t :: None !in tables[u]
      {
        if None in tables[t] {
          return true;
        }
        t := t + 1;
      }
      any := false;
    }

    /** One `UPDATE ... WHERE arr_instance_id IS NULL`. */
    method StampTable(kind: Kind, t: nat, id: int)
      requires t < |TablesOf(Contents(), kind)| && left > 0
      modifies this`sonarr, this`radarr, this`left
      ensures Contents() == WithTables(old(Contents()), kind,
        TablesOf(old(Contents()), kind)[t := Stamped(TablesOf(old(Contents()), kind)[t], id)])
      ensures left == old(left) - 1
    {
      if kind.Sonarr? {
        sonarr := sonarr[t := Stamped(sonarr[t], id)];
      } else {
        radarr := radarr[t := Stamped(radarr[t], id)];
      }
      left := left - 1;
    }

    method StampNullRows(kind: Kind, id: int)
      modifies this`sonarr, this`radarr, this`left
      ensures
        var db := old(Contents());
        Contents() == WithTables(db, kind, StampedUpTo(TablesOf(db, kind), id, old(left)))
      ensures
        var tables := |TablesOf(old(Contents()), kind)|;
        left == if old(left) > tables then old(left) - tables else 0
    {
      ghost var before, budget := Contents(), left;
      var t := 0;
      assert StampedUpTo(TablesOf(before, kind), id, 0) == TablesOf(before, kind);
      while t < |TablesOf(Contents(), kind)| && left > 0
        invariant 0 <= t <= |TablesOf(before, kind)| && left == budget - t
        invariant Contents() == WithTables(before, kind, StampedUpTo(TablesOf(before, kind), id, t))
        decreases |TablesOf(before, kind)| - t
      {
        StampTable(kind, t, id);
        t := t + 1;
        assert TablesOf(Contents(), kind) == StampedUpTo(TablesOf(before, kind), id, t);
      }
      assert StampedUpTo(TablesOf(before, kind), id, t) == StampedUpTo(TablesOf(before, kind), id, budget);
    }

    method BackfillKind(kind: Kind, flag: bool) returns (created: bool)
      modifies this
      ensures Contents() == KindCut(old(Contents()), kind, flag, old(left))
      ensures created <==> Creates(old(Contents()), kind, flag) && old(left) > 0
      ensures
        var commits := Commits(old(Contents()), kind, flag);
        left == if old(left) > commits then old(left) - commits else 0
    {
      var existing := OfKind(instances, kind);
      if existing != [] {
        if |existing| == 1 {
          StampNullRows(kind, existing[0].id);
          assert StampedUpTo(TablesOf(old(Contents()), kind), existing[0].id, 0) == TablesOf(old(Contents()), kind);
        }
        return false;
      }
      var any := HasOwnerlessRows(kind);
      if (!flag && !any) || left == 0 {
        return false;
      }
      var id := UnusedId(Contents());
      instances, left := instances + [Instance(id, kind, true, true)], left - 1;
      StampNullRows(kind, id);
      created := true;
    }

    method BackfillDefaults(flags: Flags)
      modifies this
      ensures Contents() == Cut(old(Contents()), flags, old(left))
      ensures left > 0 ==> Contents() == Completed(old(Contents()), flags)
    {
      ghost var before, budget := Contents(), left;
      var created := BackfillKind(Sonarr, flags.useSonarr);
      ghost var half := KindDone(before, Sonarr, flags.useSonarr);
      if budget >= Commits(before, Sonarr, flags.useSonarr) {
        NothingAfterTheLast(before, Sonarr, flags.useSonarr, budget);
      }
      ghost var rest := left;
      created := BackfillKind(Radarr, flags.useRadarr);
      if left > 0 {
        NothingAfterTheLast(half, Radarr, flags.useRadarr, rest);
      }
    }
  }
}
