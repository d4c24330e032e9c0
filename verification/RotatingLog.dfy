/**
 The live log file and the folder it rolls into.

 A roll names the file it sets aside after the day its records began in and a number,
 then deletes the oldest files past the limit. Renames, listings and deletes may fail.
 */
module RotatingLog {
  import opened Common

  /** The name of a rolled file. */
  datatype Stamp = Stamp(day: int, number: nat)

  type Positive = n: int | n > 0 witness 1

  datatype Record = Record(id: int, size: Positive)

  type Records = seq<Record>

  /** What a prune could not do: list the folder, or delete one file. */
  datatype Failure = Folder | File(stamp: Stamp)

  /** `midnight` is the next deadline after a moment, `day` the day a moment falls on;
      `regular` is false when the log path is a device. */
  datatype Settings = Settings(
    maxBytes: int, backupCount: int, regular: bool,
    midnight: int -> int, day: int -> int, notice: Failure -> Record)

  ghost predicate Calendar(c: Settings) {
    && (forall t :: t < c.midnight(t))
    && forall a, b :: a <= b ==> c.day(a) <= c.day(b)
  }

  /** What one call meets: the clock, read once to ask and once to roll, and what
      the file system refuses. */
  datatype Moment = Moment(asked: int, now: int, rollFails: bool, listFails: bool, stuck: set<Stamp>)

  /** `folder` is the rolled files, `blocked` the rolled names other entries hold. */
  datatype Handler = Handler(
    folder: map<Stamp, Records>, blocked: set<Stamp>, live: Records, deadline: int,
    retrySize: int, emptiedSize: Option<nat>, rollFailed: bool,
    pruneFailures: set<Failure>, notices: Records)

  // ---- Order

  predicate Before(a: Stamp, b: Stamp) {
    a.day < b.day || (a.day == b.day && a.number < b.number)
  }

  predicate IsNewest(s: Stamp, names: set<Stamp>) {
    s in names && forall k | k in names :: k == s || Before(k, s)
  }

  lemma {:induction false} NewestExists(names: set<Stamp>)
    requires names != {}
    ensures exists s :: IsNewest(s, names)
    decreases names
  {
    var one := Element(names);
    if forall k | k in names :: k == one {
      assert IsNewest(one, names);
    } else {
      var other :| other in names && other != one;
      assert other in names - {one};
      NewestExists(names - {one});
      var s :| IsNewest(s, names - {one});
      var newest := if Before(s, one) then one else s;
      forall k | k in names ensures k == newest || Before(k, newest) {
        assert k == one || k in names - {one};
      }
      assert IsNewest(newest, names);
    }
  }

  ghost function Newest(names: set<Stamp>): (s: Stamp)
    requires names != {}
    ensures IsNewest(s, names)
  {
    NewestExists(names);
    var s :| IsNewest(s, names); s
  }

  /** The names in order, oldest first. */
  ghost function Sort(names: set<Stamp>): (order: seq<Stamp>)
    ensures |order| == |names|
    ensures forall k {:trigger k in order} :: k in order <==> k in names
    ensures forall i | 0 <= i < |order| :: order[i] in names
    decreases |names|
  {
    if names == {} then []
    else Sort(names - {Newest(names)}) + [Newest(names)]
  }

  lemma SortWithNewest(names: set<Stamp>, s: Stamp)
    requires s !in names && IsNewest(s, names + {s})
    ensures Sort(names + {s}) == Sort(names) + [s]
  {
    assert Newest(names + {s}) == s;
    assert names + {s} - {s} == names;
  }

  /** The order is strict. */
  lemma {:induction false} SortAscends(names: set<Stamp>, i: nat, j: nat)
    requires i < j < |names|
    ensures Before(Sort(names)[i], Sort(names)[j])
    decreases |names|
  {
    var rest := names - {Newest(names)};
    if j < |rest| {
      SortAscends(rest, i, j);
    } else {
      assert Sort(names)[i] == Sort(rest)[i];
      assert Sort(rest)[i] in rest;
    }
  }

  lemma SortBeside(names: set<Stamp>, gone: set<Stamp>)
    requires names != {} && Newest(names) !in gone
    ensures Sort(names - gone) == Sort(names - {Newest(names)} - gone) + [Newest(names)]
    ensures |names - gone| == |names - {Newest(names)} - gone| + 1
  {
    var rest := names - {Newest(names)};
    assert names - gone == (rest - gone) + {Newest(names)};
    SortWithNewest(rest - gone, Newest(names));
  }

  /** Taking away names among the oldest `n` leaves the others in their order. */
  lemma {:induction false} SortWithoutOldest(names: set<Stamp>, gone: set<Stamp>, n: nat)
    requires gone <= names && n <= |names|
    requires forall k | k in gone :: k in Sort(names)[..n]
    ensures |names - gone| >= |names| - n
    ensures Sort(names - gone)[|names - gone| - (|names| - n)..] == Sort(names)[n..]
    decreases |names|
  {
    if n < |names| {
      var newest := Newest(names);
      var rest := names - {newest};
      TailOfAppended(Sort(rest), newest, n);
      assert forall k | k in gone :: k in Sort(rest);
      SortWithoutOldest(rest, gone, n);
      SortBeside(names, gone);
      TailOfAppended(Sort(rest - gone), newest, |rest - gone| - (|rest| - n));
    }
  }

  lemma TailOfAppended<T>(s: seq<T>, last: T, from: nat)
    requires from <= |s|
    ensures (s + [last])[from..] == s[from..] + [last] && (s + [last])[..from] == s[..from]
  {
  }

  // ---- Operations

  function Size(records: Records): nat {
    if records == [] then 0
    else Size(records[..|records| - 1]) + records[|records| - 1].size
  }

  function Max(a: int, b: int): int {
    if a > b then a else b
  }

  ghost function SameDay(names: set<Stamp>, day: int): set<Stamp> {
    set k | k in names && k.day == day
  }

  ghost function FreshName(names: set<Stamp>, day: int): Stamp {
    if SameDay(names, day) == {} then Stamp(day, 0)
    else Stamp(day, Newest(SameDay(names, day)).number + 1)
  }

  /** The name the live file gets when it is rolled. */
  ghost function NextName(c: Settings, h: Handler): Stamp {
    FreshName(h.folder.Keys + h.blocked, c.day(h.deadline - 1))
  }

  function Excess(c: Settings, count: nat): nat {
    if c.backupCount <= 0 || count <= c.backupCount then 0 else count - c.backupCount
  }

  /** The rolled files past the limit, oldest first. */
  ghost function Stale(c: Settings, names: set<Stamp>): seq<Stamp> {
    Sort(names)[..Excess(c, |names|)]
  }

  ghost function Deletable(stale: seq<Stamp>, stuck: set<Stamp>): set<Stamp> {
    set k | k in stale && k !in stuck
  }

  ghost function Failures(stale: seq<Stamp>, stuck: set<Stamp>): set<Failure> {
    set k | k in stale && k in stuck :: File(k)
  }

  /** One notice for every failure that was not reported before. */
  function Notices(c: Settings, stale: seq<Stamp>, stuck: set<Stamp>, reported: set<Failure>): Records
    decreases |stale|
  {
    if stale == [] then []
    else
      var last := stale[|stale| - 1];
      Notices(c, stale[..|stale| - 1], stuck, reported)
        + if last in stuck && File(last) !in reported then [c.notice(File(last))] else []
  }

  ghost function Pruned(c: Settings, h: Handler, m: Moment): Handler {
    if m.listFails then
      h.(pruneFailures := {Folder},
         notices := h.notices + if Folder in h.pruneFailures then [] else [c.notice(Folder)])
    else
      var stale := Stale(c, h.folder.Keys);
      h.(folder := h.folder - Deletable(stale, m.stuck),
         pruneFailures := Failures(stale, m.stuck),
         notices := h.notices + Notices(c, stale, m.stuck, h.pruneFailures))
  }

  /** The live file renamed, before anything is pruned. */
  ghost function Renamed(c: Settings, h: Handler): Handler {
    h.(folder := h.folder[NextName(c, h) := h.live], live := [],
       retrySize := 0, emptiedSize := None, rollFailed := false)
  }

  function AtMidnight(c: Settings, h: Handler, now: int): Handler {
    if now >= h.deadline then h.(deadline := c.midnight(now)) else h
  }

  /** A roll before it looks at the clock. */
  ghost function SetAside(c: Settings, h: Handler, m: Moment): Handler {
    if !c.regular || Size(h.live) == 0 then h.(rollFailed := false)
    else if m.rollFails then h.(rollFailed := true, retrySize := Size(h.live) + c.maxBytes)
    else Pruned(c, Renamed(c, h), m)
  }

  ghost function Rolled(c: Settings, h: Handler, m: Moment): Handler {
    AtMidnight(c, SetAside(c, h, m), m.now)
  }

  predicate OverSize(c: Settings, h: Handler) {
    c.regular && c.maxBytes > 0 && Size(h.live) >= Max(c.maxBytes, h.retrySize)
  }

  /** The handler as a record is about to be written. */
  ghost function Ready(c: Settings, h: Handler, m: Moment): Handler {
    if m.asked < h.deadline && !OverSize(c, h) then h
    else if !c.regular then h.(deadline := c.midnight(m.asked))
    else Rolled(c, h, m)
  }

  /** A device keeps nothing that could be read back. */
  function Wrote(c: Settings, h: Handler, record: Record): Handler {
    h.(notices := [], live := if c.regular then h.live + h.notices + [record] else h.live)
  }

  ghost function Emitted(c: Settings, h: Handler, record: Record, m: Moment): Handler {
    Wrote(c, Ready(c, h, m), record)
  }

  predicate NothingNew(h: Handler) {
    h.emptiedSize == Some(Size(h.live))
  }

  /** The handler as the live file is about to be truncated, unless its roll failed. */
  ghost function Aside(c: Settings, h: Handler, m: Moment): Handler {
    if NothingNew(h) then h else Rolled(c, h, m)
  }

  predicate Refused(h: Handler, aside: Handler) {
    !NothingNew(h) && aside.rollFailed
  }

  /** Emptying the live file; `m` is the roll before it and `later` the note after it. */
  ghost function Emptied(c: Settings, h: Handler, note: Record, m: Moment, later: Moment): Handler {
    var aside := Aside(c, h, m);
    if Refused(h, aside) then aside
    else
      var noted := Emitted(c, aside.(live := []), note, later);
      noted.(emptiedSize := Some(Size(noted.live)))
  }

  // ---- Runs

  datatype Op =
    | Emit(record: Record, m: Moment)
    | Empty(note: Record, m: Moment, later: Moment)

  /** `history` is every record written to the live file but those an emptying threw
      away; `mark` is what the last emptying wrote. */
  datatype Trace = Trace(h: Handler, history: Records, mark: Records)

  function Written(c: Settings, h: Handler, record: Record): Records {
    if c.regular then h.notices + [record] else []
  }

  function Without(history: Records, tail: Records): Records {
    if |tail| <= |history| then history[..|history| - |tail|] else []
  }

  ghost function Step(c: Settings, t: Trace, op: Op): Trace {
    match op
    case Emit(record, m) =>
      Trace(Emitted(c, t.h, record, m), t.history + Written(c, Ready(c, t.h, m), record), t.mark)
    case Empty(note, m, later) =>
      var aside, after := Aside(c, t.h, m), Emptied(c, t.h, note, m, later);
      if Refused(t.h, aside) then Trace(after, t.history, t.mark)
      else
        var written := Written(c, Ready(c, aside.(live := []), later), note);
        Trace(after, Without(t.history, aside.live) + written, written)
  }

  ghost function Run(c: Settings, t: Trace, ops: seq<Op>): Trace
    decreases |ops|
  {
    if ops == [] then t else Step(c, Run(c, t, ops[..|ops| - 1]), ops[|ops| - 1])
  }
}
