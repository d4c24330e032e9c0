/**
 Installing the ownership triggers, one statement at a time, while other
 threads write, read and ensure the protection themselves.
 */
module OwnershipInstall {
  import opened Common
  import opened OwnershipLog

  datatype Dialect = Sqlite | Postgres

  datatype Action = OnInsert | OnUpdate | OnDelete

  /** A trigger name: one for each table and action on SQLite, a row and a
      truncate trigger for each table on PostgreSQL. */
  datatype Slot = ActionTrigger(table: Table, action: Action) | RowTrigger(table: Table) | TruncateTrigger(table: Table)

  /** `Drifted` calls the right PostgreSQL function, whose body someone changed. */
  datatype Definition = Expected | Drifted | Foreign

  type Triggers = map<Slot, Definition>

  datatype Db = Db(store: Store, triggers: Triggers)

  function TableAt(i: nat): Table {
    if i == 0 then Instances else if i == 1 then Episodes else if i == 2 then Movies else Sports
  }

  function ActionAt(i: nat): Action {
    if i == 0 then OnInsert else if i == 1 then OnUpdate else OnDelete
  }

  function SlotCount(d: Dialect): nat {
    if d.Sqlite? then 12 else 8
  }

  /** The required triggers, in the order they are created. */
  function SlotAt(d: Dialect, j: nat): Slot
    requires j < SlotCount(d)
  {
    if d.Sqlite? then ActionTrigger(TableAt(j / 3), ActionAt(j % 3))
    else if j % 2 == 0 then RowTrigger(TableAt(j / 2)) else TruncateTrigger(TableAt(j / 2))
  }

  predicate IsExpected(triggers: Triggers, s: Slot) {
    s in triggers && triggers[s] == Expected
  }

  /** Every definition matches. */
  predicate Verified(d: Dialect, triggers: Triggers) {
    forall j | 0 <= j < SlotCount(d) :: IsExpected(triggers, SlotAt(d, j))
  }

  /** Any of the trigger names is taken. */
  predicate AnyPresent(d: Dialect, triggers: Triggers) {
    exists j | 0 <= j < SlotCount(d) :: SlotAt(d, j) in triggers
  }

  predicate SportarrInUse(rows: Rows) {
    exists rid | rid in rows :: rid.table == Instances && rows[rid].InstanceRow? && rows[rid].kind == "sportarr"
  }

  // ---- Writes

  function FiredSlot(d: Dialect, e: Event): Slot {
    if d.Postgres? then (if e.Truncate? then TruncateTrigger(e.table) else RowTrigger(e.table))
    else ActionTrigger(e.table, if e.Insert? then OnInsert else if e.Update? then OnUpdate else OnDelete)
  }

  predicate IsLogged(d: Dialect, triggers: Triggers, e: Event) {
    IsExpected(triggers, FiredSlot(d, e))
  }

  /** A write is logged when its trigger is the expected one. SQLite has no TRUNCATE. */
  function Written(d: Dialect, db: Db, e: Event): Db {
    if d.Sqlite? && e.Truncate? then db
    else if IsLogged(d, db.triggers, e) then db.(store := TrackedWrite(db.store, e))
    else if Possible(db.store.rows, e) then db.(store := db.store.(rows := Applied(db.store.rows, e)))
    else db
  }

  /** A bulk delete, in one transaction. It switches a row trigger off by its name,
      whatever it is; SQLite deletes row by row. */
  function DeletedInBulk(d: Dialect, db: Db, doomed: set<RowId>, listed: set<Table>): Db {
    if d.Sqlite? then db
    else db.(store := BulkDeleted(db.store, Doomed(db.store.rows, doomed, listed), Tracked(db, listed)))
  }

  function Doomed(rows: Rows, doomed: set<RowId>, listed: set<Table>): set<RowId> {
    set rid | rid in doomed && rid in rows && rid.table in listed
  }

  function Tracked(db: Db, listed: set<Table>): set<Table> {
    set t | t in listed && RowTrigger(t) in db.triggers
  }

  // ---- The statements of an install

  datatype Stmt =
    | SeedRevision
    | SeedGeneration(generation: int)
    | Bump
    | ClearLog
    | MarkResync
    | RestoreFunction(truncate: bool)
    | DropTrigger(slot: Slot)
    | CreateTrigger(slot: Slot)

  function PrefixLength(d: Dialect): nat {
    if d.Sqlite? then 5 else 7
  }

  function ProgramLength(d: Dialect, wanted: bool): nat {
    PrefixLength(d) + if wanted then 2 * SlotCount(d) else SlotCount(d)
  }

  /** Where the program drops, and where it creates, the j-th trigger. SQLite
      replaces trigger by trigger, PostgreSQL table by table. */
  function DropIndex(d: Dialect, wanted: bool, j: nat): nat {
    PrefixLength(d) + if !wanted then j else if d.Sqlite? then 2 * j else 4 * (j / 2) + j % 2
  }

  function CreateIndex(d: Dialect, j: nat): nat {
    if d.Sqlite? then DropIndex(d, true, j) + 1 else DropIndex(d, true, j) + 2
  }

  function StatementAt(d: Dialect, wanted: bool, generation: int, i: nat): Stmt
    requires i < ProgramLength(d, wanted)
  {
    if i == 0 then SeedRevision
    else if i == 1 then SeedGeneration(generation)
    else if i == 2 then Bump
    else if i == 3 then ClearLog
    else if i == 4 then MarkResync
    else if i < PrefixLength(d) then RestoreFunction(i == 6)
    else
      var k := i - PrefixLength(d);
      if !wanted then DropTrigger(SlotAt(d, k))
      else if d.Sqlite? then
        if k % 2 == 0 then DropTrigger(SlotAt(d, k / 2)) else CreateTrigger(SlotAt(d, k / 2))
      else
        if k % 4 < 2 then DropTrigger(SlotAt(d, 2 * (k / 4) + k % 2)) else CreateTrigger(SlotAt(d, 2 * (k / 4) + k % 2))
  }

  /** The trigger calls the truncate function, or the row function. */
  predicate Calls(s: Slot, truncate: bool) {
    if truncate then s.TruncateTrigger? else s.RowTrigger?
  }

  function Restored(triggers: Triggers, truncate: bool): Triggers {
    map s | s in triggers ::
      if triggers[s] == Drifted && Calls(s, truncate) then Expected else triggers[s]
  }

  predicate Fails(db: Db, stmt: Stmt) {
    || (stmt.MarkResync? && db.store.log.revision.Some? && STAR in db.store.log.changes)
    || (stmt.CreateTrigger? && stmt.slot in db.triggers)
  }

  function ExecuteLog(log: Log, stmt: Stmt): Log {
    match stmt
    case SeedRevision => if log.revision.None? then log.(revision := Some(0)) else log
    case SeedGeneration(g) => if GENERATION in log.changes then log else log.(changes := log.changes[GENERATION := g])
    case Bump => if log.revision.Some? then log.(revision := Some(log.revision.value + 1)) else log
    case ClearLog => log.(changes := map k | k in log.changes && k.name == Generation :: log.changes[k])
    case MarkResync => if log.revision.Some? then log.(changes := log.changes[STAR := log.revision.value]) else log
    case _ => log
  }

  function ExecuteDdl(triggers: Triggers, stmt: Stmt): Triggers {
    match stmt
    case RestoreFunction(truncate) => Restored(triggers, truncate)
    case DropTrigger(s) => triggers - {s}
    case CreateTrigger(s) => triggers[s := Expected]
    case _ => triggers
  }

  function Execute(db: Db, stmt: Stmt): Db {
    Db(db.store.(log := ExecuteLog(db.store.log, stmt)), ExecuteDdl(db.triggers, stmt))
  }

  /** The first `n` statements with nothing in between. */
  function ExecuteUpTo(d: Dialect, db: Db, wanted: bool, generation: int, n: nat): Db
    requires n <= ProgramLength(d, wanted)
  {
    if n == 0 then db
    else Execute(ExecuteUpTo(d, db, wanted, generation, n - 1), StatementAt(d, wanted, generation, n - 1))
  }

  function InstalledAtOnce(d: Dialect, db: Db, generation: int): Db {
    var wanted := SportarrInUse(db.store.rows);
    ExecuteUpTo(d, db, wanted, generation, ProgramLength(d, wanted))
  }

  // ---- Threads in ensure_ownership_protection

  datatype Pc =
    | Start | Waiting | Verifying | Probing | Asking
    | Installing(wanted: bool, generation: int, next: nat)
    | Final | Done | Raised

  /** `snapshots` were read while the protection verified; those in `missed`
      were followed by a write no trigger logged. */
  datatype World = World(db: Db, holder: Option<nat>, threads: seq<Pc>, snapshots: set<Snapshot>, missed: set<Snapshot>)

  predicate InCriticalSection(pc: Pc) {
    pc.Verifying? || pc.Probing? || pc.Asking? || pc.Installing?
  }

  predicate Enabled(w: World, i: nat) {
    && i < |w.threads|
    && !w.threads[i].Done? && !w.threads[i].Raised?
    && (w.threads[i].Waiting? ==> w.holder.None?)
  }

  function To(w: World, i: nat, pc: Pc): World
    requires i < |w.threads|
  {
    w.(threads := w.threads[i := pc])
  }

  /** Leave the lock. */
  function Leave(w: World, i: nat, pc: Pc): World
    requires i < |w.threads|
  {
    w.(threads := w.threads[i := pc], holder := None)
  }

  /** One step of thread `i`; an install draws `generation`. */
  function ThreadStep(d: Dialect, w: World, i: nat, generation: int): World {
    if !Enabled(w, i) then w
    else match w.threads[i]
      case Start => To(w, i, if Verified(d, w.db.triggers) then Done else Waiting)
      case Waiting => To(w, i, Verifying).(holder := Some(i))
      case Verifying => if Verified(d, w.db.triggers) then Leave(w, i, Done) else To(w, i, Probing)
      case Probing => if AnyPresent(d, w.db.triggers) then Leave(w, i, Raised) else To(w, i, Asking)
      case Asking => To(w, i, Installing(SportarrInUse(w.db.store.rows), generation, 0))
      case Installing(wanted, g, next) =>
        if next >= ProgramLength(d, wanted) then Leave(w, i, Final)
        else
          var stmt := StatementAt(d, wanted, g, next);
          if Fails(w.db, stmt) then Leave(w, i, Raised)
          else To(w, i, Installing(wanted, g, next + 1)).(db := Execute(w.db, stmt))
      case Final => To(w, i, if Verified(d, w.db.triggers) then Done else Raised)
      case _ => w
  }

  datatype Step =
    | Thread(i: nat, generation: int)
    | Write(e: Event)
    | BulkDelete(doomed: set<RowId>, listed: set<Table>)
    | Take(configuration: string)
    | Lose(slot: Slot)
    | Redefine(slot: Slot)
    | Drift(truncate: bool)
    | Reinstall(generation: int)

  function Drifting(triggers: Triggers, truncate: bool): Triggers {
    map s | s in triggers ::
      if triggers[s] == Expected && Calls(s, truncate) then Drifted else triggers[s]
  }

  function Next(d: Dialect, w: World, step: Step): World {
    match step
    case Thread(i, g) => ThreadStep(d, w, i, g)
    case Write(e) =>
      var db := Written(d, w.db, e);
      w.(db := db, missed := if db != w.db && !IsLogged(d, w.db.triggers, e) then w.snapshots else w.missed)
    case BulkDelete(doomed, listed) =>
      var db := DeletedInBulk(d, w.db, doomed, listed);
      w.(db := db, missed := if db.store.rows != w.db.store.rows then w.snapshots else w.missed)
    case Take(c) =>
      var log := w.db.store.log;
      if Verified(d, w.db.triggers) && log.revision.Some? && GENERATION in log.changes then
        w.(snapshots := w.snapshots + {Fresh(w.db.store.rows, c, log.changes[GENERATION], log.revision.value)})
      else w
    case Lose(s) => w.(db := w.db.(triggers := w.db.triggers - {s}))
    case Redefine(s) => w.(db := w.db.(triggers := w.db.triggers[s := Foreign]))
    case Drift(truncate) => if d.Postgres? then w.(db := w.db.(triggers := Drifting(w.db.triggers, truncate))) else w
    case Reinstall(g) => w.(db := InstalledAtOnce(d, w.db, g))
  }

  function Run(d: Dialect, w: World, steps: seq<Step>): World
    decreases |steps|
  {
    if steps == [] then w else Run(d, Next(d, w, steps[0]), steps[1..])
  }

  /** An install in one transaction leaves a full set when Sportarr is in use. Beside
      the thread that holds the lock this is harmless when that thread has not probed
      yet, when its next statement is the marker that is there now, or when it will not
      create, restore or clear anything any more. */
  predicate Harmless(d: Dialect, w: World) {
    SportarrInUse(w.db.store.rows) && w.holder.Some? && w.holder.value < |w.threads| ==>
      match w.threads[w.holder.value]
      case Asking => false
      case Installing(wanted, _, next) => next == 4 || next >= ProgramLength(d, wanted) || OnlyDrops(d, wanted, next)
      case _ => true
  }

  predicate OnlyDrops(d: Dialect, wanted: bool, next: nat) {
    !wanted && next >= PrefixLength(d)
  }

  /** Every install in one transaction comes at a harmless moment. */
  predicate Allowed(d: Dialect, w: World, steps: seq<Step>)
    decreases |steps|
  {
    steps == [] || ((steps[0].Reinstall? ==> Harmless(d, w)) && Allowed(d, Next(d, w, steps[0]), steps[1..]))
  }

  /** What a publication relies on once the protection verifies: refreshing any
      snapshot read under it is a re-read, and a snapshot that missed a write
      stands below the full-resync marker. */
  ghost predicate Honest(d: Dialect, w: World) {
    Verified(d, w.db.triggers) ==>
      && (forall s | s in w.snapshots :: Tracks(s, w.db.store))
      && (forall s | s in w.missed :: s in w.snapshots && Above(w.db.store.log, STAR, s.revision))
  }
}
