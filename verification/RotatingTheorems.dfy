/**
 What every run of the rotating log keeps: the folder ends the history, pruning spares
 the newest files, the live file stays bounded and emptying loses no record.
 */
module RotatingTheorems {
  import opened Common
  import opened RotatingLog

  // ---- What every run keeps

  /** No file is dated after the current day. */
  ghost predicate Dated(c: Settings, h: Handler) {
    forall k | k in h.folder.Keys + h.blocked :: k.day <= c.day(h.deadline - 1)
  }

  ghost predicate Sound(c: Settings, t: Trace) {
    && Dated(c, t.h)
    && t.h.notices == []
    && (!c.regular ==> t.h.live == [])
    && (t.h.emptiedSize.Some? ==> t.h.emptiedSize.value == Size(t.mark) && t.mark <= t.h.live)
    && (t.h.rollFailed ==> t.h.live != [] && (t.h.emptiedSize.Some? ==> |t.mark| < |t.h.live|))
    && (!t.h.rollFailed ==> t.h.retrySize == 0)
  }

  lemma {:induction false} SizeOfSum(a: Records, b: Records)
    ensures Size(a + b) == Size(a) + Size(b) && (b != [] ==> Size(b) > 0)
    decreases |b|
  {
    if b == [] {
      assert a + b == a;
    } else {
      assert (a + b)[..|a + b| - 1] == a + b[..|b| - 1];
      SizeOfSum(a, b[..|b| - 1]);
    }
  }

  /** A file that still begins with the mark and has its size is the mark. */
  lemma SameSizeIsSame(mark: Records, live: Records)
    requires mark <= live
    ensures Size(mark) == Size(live) <==> mark == live
  {
    SizeOfSum(mark, live[|mark|..]);
    assert mark + live[|mark|..] == live;
  }

  /** A free name, whatever the dates of the others. */
  lemma NextNameIsFree(c: Settings, h: Handler)
    ensures NextName(c, h) !in h.folder && NextName(c, h) !in h.blocked
    ensures NextName(c, h).day == c.day(h.deadline - 1)
  {
    var names, day, name := h.folder.Keys + h.blocked, c.day(h.deadline - 1), NextName(c, h);
    forall k | k in names && k.day == day ensures k.number < name.number {
      assert k in SameDay(names, day);
    }
  }

  /** A fresh name: nothing holds it, and every rolled file comes before it. */
  lemma NextNameIsNewest(c: Settings, h: Handler)
    requires Dated(c, h)
    ensures NextName(c, h) !in h.folder && NextName(c, h) !in h.blocked
    ensures NextName(c, h).day == c.day(h.deadline - 1)
    ensures IsNewest(NextName(c, h), h.folder.Keys + {NextName(c, h)})
  {
    var day, name := c.day(h.deadline - 1), NextName(c, h);
    forall k | k in h.folder.Keys + h.blocked ensures Before(k, name) {
      if k.day == day {
        assert k in SameDay(h.folder.Keys + h.blocked, day);
      }
    }
  }

  lemma PruneOnlyDeletes(c: Settings, h: Handler, m: Moment)
    ensures
      var after := Pruned(c, h, m);
      && after.folder.Keys <= h.folder.Keys
      && after == h.(folder := after.folder, pruneFailures := after.pruneFailures, notices := after.notices)
  {
  }

  lemma StaysDated(c: Settings, h: Handler, after: Handler)
    requires Dated(c, h) && after.deadline == h.deadline && after.blocked == h.blocked
    requires forall k | k in after.folder :: k in h.folder || k.day == c.day(h.deadline - 1)
    ensures Dated(c, after)
  {
  }

  lemma RenameKeepsDated(c: Settings, h: Handler, m: Moment)
    requires Dated(c, h)
    ensures Dated(c, Pruned(c, Renamed(c, h), m))
  {
    NextNameIsNewest(c, h);
    PruneOnlyDeletes(c, Renamed(c, h), m);
    StaysDated(c, h, Pruned(c, Renamed(c, h), m));
  }

  lemma MidnightKeepsDated(c: Settings, h: Handler, now: int)
    requires Calendar(c) && Dated(c, h)
    ensures Dated(c, AtMidnight(c, h, now))
  {
    var after := AtMidnight(c, h, now);
    assert h.deadline <= after.deadline;
    assert c.day(h.deadline - 1) <= c.day(after.deadline - 1);
  }

  lemma RollKeepsDated(c: Settings, h: Handler, m: Moment)
    requires Calendar(c) && Dated(c, h)
    ensures Dated(c, Rolled(c, h, m))
  {
    RenameKeepsDated(c, h, m);
    var before := if !c.regular || Size(h.live) == 0 then h.(rollFailed := false)
      else if m.rollFails then h.(rollFailed := true, retrySize := Size(h.live) + c.maxBytes)
      else Pruned(c, Renamed(c, h), m);
    MidnightKeepsDated(c, before, m.now);
  }

  lemma ReadyKeepsDated(c: Settings, h: Handler, m: Moment)
    requires Calendar(c) && Dated(c, h)
    ensures Dated(c, Ready(c, h, m))
  {
    RollKeepsDated(c, h, m);
    MidnightKeepsDated(c, h, m.asked);
  }

  lemma EmittingKeepsSound(c: Settings, t: Trace, record: Record, m: Moment)
    requires Calendar(c) && Sound(c, t)
    ensures Sound(c, Step(c, t, Emit(record, m)))
  {
    ReadyKeepsDated(c, t.h, m);
    RollOutcome(c, t.h, m);
    WritingKeepsSound(c, t, Ready(c, t.h, m), record);
  }

  /** A record written to a handler that is ready. */
  lemma WritingKeepsSound(c: Settings, t: Trace, ready: Handler, record: Record)
    requires Dated(c, ready) && (!c.regular ==> ready.live == [])
    requires ready.emptiedSize.Some? ==> ready.emptiedSize.value == Size(t.mark) && t.mark <= ready.live
    requires ready.rollFailed ==> c.regular
    requires !ready.rollFailed ==> ready.retrySize == 0
    ensures
      var history := t.history + Written(c, ready, record);
      Sound(c, Trace(Wrote(c, ready, record), history, t.mark))
  {
    StaysDated(c, ready, Wrote(c, ready, record));
  }

  /** What a roll leaves of the live file. */
  lemma RollOutcome(c: Settings, h: Handler, m: Moment)
    ensures
      var after := Rolled(c, h, m);
      if !c.regular || Size(h.live) == 0 then
        after == h.(rollFailed := false, deadline := after.deadline)
      else if m.rollFails then
        after == h.(rollFailed := true, retrySize := Size(h.live) + c.maxBytes, deadline := after.deadline)
      else after.live == [] && after.retrySize == 0 && after.emptiedSize == None && !after.rollFailed
  {
  }

  lemma EmptyingAside(c: Settings, t: Trace, m: Moment)
    requires Calendar(c) && Sound(c, t)
    ensures
      var aside := Aside(c, t.h, m);
      && Dated(c, aside)
      && (if Refused(t.h, aside)
          then Sound(c, t.(h := aside))
          else !aside.rollFailed && aside.retrySize == 0 && (NothingNew(t.h) ==> t.h.live == t.mark))
  {
    RollKeepsDated(c, t.h, m);
    RollOutcome(c, t.h, m);
    if t.h.emptiedSize.Some? {
      SameSizeIsSame(t.mark, t.h.live);
    }
  }

  /** An empty live file is not rolled, whatever the clock says. */
  lemma EmptyFileIsNotRolled(c: Settings, h: Handler, m: Moment)
    requires h.live == [] && h.retrySize == 0 && !h.rollFailed
    ensures Ready(c, h, m) == h.(deadline := Ready(c, h, m).deadline)
  {
    RollOutcome(c, h, m);
  }

  lemma EmptyingKeepsSound(c: Settings, t: Trace, note: Record, m: Moment, later: Moment)
    requires Calendar(c) && Sound(c, t)
    ensures Sound(c, Step(c, t, Empty(note, m, later)))
  {
    var aside := Aside(c, t.h, m);
    EmptyingAside(c, t, m);
    if !Refused(t.h, aside) {
      var h := aside.(live := []);
      EmptyFileIsNotRolled(c, h, later);
      StaysDated(c, aside, h);
      ReadyKeepsDated(c, h, later);
      NoteKeepsSound(c, Ready(c, h, later), Step(c, t, Empty(note, m, later)), note);
    }
  }

  lemma NoteKeepsSound(c: Settings, ready: Handler, after: Trace, note: Record)
    requires Dated(c, ready) && ready.live == [] && ready.retrySize == 0 && !ready.rollFailed
    requires after.h == Wrote(c, ready, note).(emptiedSize := Some(Size(Wrote(c, ready, note).live)))
    requires after.mark == Written(c, ready, note)
    ensures Sound(c, after)
  {
    StaysDated(c, ready, after.h);
    assert c.regular ==> after.h.live == after.mark;
  }

  lemma {:induction false} RunKeepsSound(c: Settings, t: Trace, ops: seq<Op>)
    requires Calendar(c) && Sound(c, t)
    ensures Sound(c, Run(c, t, ops))
    decreases |ops|
  {
    if ops != [] {
      RunKeepsSound(c, t, ops[..|ops| - 1]);
      match ops[|ops| - 1]
      case Emit(record, m) => EmittingKeepsSound(c, Run(c, t, ops[..|ops| - 1]), record, m);
      case Empty(note, m, later) => EmptyingKeepsSound(c, Run(c, t, ops[..|ops| - 1]), note, m, later);
    }
  }

  // ---- Reading the folder

  ghost function Contents(folder: map<Stamp, Records>, order: seq<Stamp>): Records
    requires forall k | k in order :: k in folder
    decreases |order|
  {
    if order == [] then []
    else Contents(folder, order[..|order| - 1]) + folder[order[|order| - 1]]
  }

  ghost predicate Ends(whole: Records, tail: Records) {
    |tail| <= |whole| && whole[|whole| - |tail|..] == tail
  }

  /** The rolled files that are not read: with `all` off, those past the limit. */
  function Skipped(c: Settings, all: bool, count: nat): nat {
    if all then 0 else Excess(c, count)
  }

  ghost function ReadOrder(c: Settings, h: Handler, all: bool): (order: seq<Stamp>)
    ensures forall k | k in order :: k in h.folder
  {
    Sort(h.folder.Keys)[Skipped(c, all, |h.folder.Keys|)..]
  }

  /** The rolled part of what can be read, oldest first. */
  ghost function ReadRolled(c: Settings, h: Handler, all: bool): Records {
    Contents(h.folder, ReadOrder(c, h, all))
  }

  /** Everything that can be read, or with `all` off only what the limit keeps. */
  ghost function Read(c: Settings, h: Handler, all: bool): Records {
    ReadRolled(c, h, all) + h.live
  }

  lemma {:induction false} SameContents(f: map<Stamp, Records>, g: map<Stamp, Records>, order: seq<Stamp>)
    requires forall k | k in order :: k in f && k in g && f[k] == g[k]
    ensures Contents(f, order) == Contents(g, order)
    decreases |order|
  {
    if order != [] {
      SameContents(f, g, order[..|order| - 1]);
    }
  }

  lemma {:induction false} LaterContentsEnd(f: map<Stamp, Records>, order: seq<Stamp>, n: nat)
    requires n <= |order| && forall k | k in order :: k in f
    ensures Ends(Contents(f, order), Contents(f, order[n..]))
    decreases |order|
  {
    if n < |order| {
      var last := |order| - 1;
      LaterContentsEnd(f, order[..last], n);
      assert order[n..][..last - n] == order[..last][n..];
    }
  }

  lemma EndsWithMore(whole: Records, tail: Records, more: Records)
    requires Ends(whole, tail)
    ensures Ends(whole + more, tail + more)
  {
  }

  lemma EndsThrough(whole: Records, tail: Records, end: Records)
    requires Ends(whole, tail) && Ends(tail, end)
    ensures Ends(whole, end)
  {
    assert whole[|whole| - |end|..] == tail[|tail| - |end|..];
  }

  ghost function Elements(order: seq<Stamp>): set<Stamp> {
    set k | k in order
  }

  lemma {:induction false} DistinctAreAsMany(names: set<Stamp>, n: nat)
    requires n <= |names|
    ensures |Elements(Sort(names)[..n])| == n
  {
    if n > 0 {
      var earlier, last := Sort(names)[..n - 1], Sort(names)[n - 1];
      DistinctAreAsMany(names, n - 1);
      forall i | 0 <= i < n - 1 ensures Sort(names)[i] != last {
        SortAscends(names, i, n - 1);
      }
      assert Sort(names)[..n] == earlier + [last];
      assert Elements(earlier + [last]) == Elements(earlier) + {last};
    }
  }

  lemma KeysWithout(folder: map<Stamp, Records>, gone: set<Stamp>)
    ensures (folder - gone).Keys == folder.Keys - gone
  {
  }

  lemma PruneTakesOldest(names: set<Stamp>, n: nat, stuck: set<Stamp>)
    requires n <= |names|
    ensures
      var left := LeftAfter(names, n, stuck);
      && |left| >= |names| - n
      && Sort(left)[|left| - (|names| - n)..] == Sort(names)[n..]
      && (stuck == {} ==> |left| == |names| - n)
  {
    var stale := Sort(names)[..n];
    var gone := Deletable(stale, stuck);
    assert gone <= names;
    SortWithoutOldest(names, gone, n);
    if stuck == {} {
      DistinctAreAsMany(names, n);
      assert gone == Elements(stale);
    }
  }

  /** The oldest names a prune may take out of the order that is read. */
  function Passed(c: Settings, m: Moment, all: bool, count: nat): nat {
    if all && m.listFails then 0 else Excess(c, count)
  }

  lemma NamesAfterPrune(c: Settings, h: Handler, m: Moment, all: bool)
    requires all ==> m.stuck == {}
    ensures
      ReadOrder(c, Pruned(c, h, m), all)
      == Sort(h.folder.Keys)[Passed(c, m, all, |h.folder.Keys|)..]
  {
    if !m.listFails {
      var names := h.folder.Keys;
      var gone := Deletable(Sort(names)[..Excess(c, |names|)], m.stuck);
      KeysWithout(h.folder, gone);
      assert Pruned(c, h, m).folder.Keys == names - gone;
      PrunedInOrder(c, names, m.stuck, all);
    }
  }

  /** What is left when the stale names go that are not stuck. */
  ghost function LeftAfter(names: set<Stamp>, n: nat, stuck: set<Stamp>): set<Stamp>
    requires n <= |names|
  {
    names - Deletable(Sort(names)[..n], stuck)
  }

  lemma NothingStale(names: set<Stamp>, stuck: set<Stamp>)
    ensures LeftAfter(names, 0, stuck) == names
  {
  }

  lemma PrunedInOrder(c: Settings, names: set<Stamp>, stuck: set<Stamp>, all: bool)
    requires all ==> stuck == {}
    ensures
      var n := Excess(c, |names|);
      Sort(LeftAfter(names, n, stuck))[Skipped(c, all, |LeftAfter(names, n, stuck)|)..] == Sort(names)[n..]
  {
    if Excess(c, |names|) == 0 {
      NothingStale(names, stuck);
    } else {
      SomePruned(c, names, Excess(c, |names|), stuck, all);
    }
  }

  lemma SomePruned(c: Settings, names: set<Stamp>, n: nat, stuck: set<Stamp>, all: bool)
    requires 0 < n == Excess(c, |names|) && (all ==> stuck == {})
    ensures
      var left := LeftAfter(names, n, stuck);
      Sort(left)[Skipped(c, all, |left|)..] == Sort(names)[n..]
  {
    PruneTakesOldest(names, n, stuck);
    SkippedAfterPrune(c, all, |names|, |LeftAfter(names, n, stuck)|);
  }

  lemma SkippedAfterPrune(c: Settings, all: bool, count: nat, left: nat)
    requires Excess(c, count) > 0 && left >= count - Excess(c, count)
    requires all ==> left == count - Excess(c, count)
    ensures Skipped(c, all, left) == left - (count - Excess(c, count))
  {
  }

  /** A roll appends one name after all the others. */
  lemma NamesAfterRename(c: Settings, h: Handler, n: nat)
    requires Dated(c, h) && n <= |h.folder.Keys|
    ensures |Renamed(c, h).folder.Keys| == |h.folder.Keys| + 1
    ensures Sort(Renamed(c, h).folder.Keys)[n..] == Sort(h.folder.Keys)[n..] + [NextName(c, h)]
  {
    NextNameIsNewest(c, h);
    SortWithNewest(h.folder.Keys, NextName(c, h));
    assert Renamed(c, h).folder.Keys == h.folder.Keys + {NextName(c, h)};
    TailOfAppended(Sort(h.folder.Keys), NextName(c, h), n);
  }

  lemma RollRenamesInOrder(c: Settings, h: Handler, m: Moment, all: bool)
    requires Dated(c, h) && (all ==> m.stuck == {})
    ensures
      var n := Passed(c, m, all, |h.folder.Keys| + 1);
      && Skipped(c, all, |h.folder.Keys|) <= n <= |h.folder.Keys|
      && ReadOrder(c, Pruned(c, Renamed(c, h), m), all) == Sort(h.folder.Keys)[n..] + [NextName(c, h)]
  {
    NamesAfterRename(c, h, Passed(c, m, all, |h.folder.Keys| + 1));
    NamesAfterPrune(c, Renamed(c, h), m, all);
  }

  /** How many of the files that are read a roll takes out of the order. */
  function Dropped(c: Settings, m: Moment, all: bool, count: nat): int {
    Passed(c, m, all, count + 1) - Skipped(c, all, count)
  }

  lemma DroppedFits(c: Settings, h: Handler, m: Moment, all: bool)
    requires 0 <= Dropped(c, m, all, |h.folder.Keys|) && Passed(c, m, all, |h.folder.Keys| + 1) <= |h.folder.Keys|
    ensures Dropped(c, m, all, |h.folder.Keys|) <= |ReadOrder(c, h, all)|
  {
  }

  lemma ReadIsTail(c: Settings, h: Handler, all: bool)
    ensures ReadOrder(c, h, all) == Sort(h.folder.Keys)[Skipped(c, all, |h.folder.Keys|)..]
  {
  }

  lemma DroppedOrder(c: Settings, h: Handler, m: Moment, all: bool)
    requires 0 <= Dropped(c, m, all, |h.folder.Keys|) <= |ReadOrder(c, h, all)|
    requires Passed(c, m, all, |h.folder.Keys| + 1) <= |h.folder.Keys|
    ensures
      ReadOrder(c, h, all)[Dropped(c, m, all, |h.folder.Keys|)..]
      == Sort(h.folder.Keys)[Passed(c, m, all, |h.folder.Keys| + 1)..]
  {
    ReadIsTail(c, h, all);
    LaterStill(Sort(h.folder.Keys), ReadOrder(c, h, all),
               Skipped(c, all, |h.folder.Keys|), Passed(c, m, all, |h.folder.Keys| + 1));
  }

  lemma OrderAfterRoll(c: Settings, h: Handler, m: Moment, all: bool)
    requires Dated(c, h) && (all ==> m.stuck == {})
    ensures 0 <= Dropped(c, m, all, |h.folder.Keys|) <= |ReadOrder(c, h, all)|
    ensures
      ReadOrder(c, Pruned(c, Renamed(c, h), m), all)
      == ReadOrder(c, h, all)[Dropped(c, m, all, |h.folder.Keys|)..] + [NextName(c, h)]
  {
    RollRenamesInOrder(c, h, m, all);
    DroppedFits(c, h, m, all);
    DroppedOrder(c, h, m, all);
  }

  lemma LaterStill(order: seq<Stamp>, tail: seq<Stamp>, from: nat, n: nat)
    requires from <= n <= |order| && tail == order[from..]
    ensures tail[n - from..] == order[n..]
  {
  }

  /** One file was renamed to `name` and no file's contents changed. */
  ghost predicate Renames(h: Handler, after: Handler, name: Stamp) {
    && name !in h.folder
    && after.live == []
    && forall k | k in after.folder ::
         if k == name then after.folder[k] == h.live else k in h.folder && after.folder[k] == h.folder[k]
  }

  lemma ContentsStay(c: Settings, h: Handler, m: Moment)
    requires Dated(c, h)
    ensures Renames(h, Pruned(c, Renamed(c, h), m), NextName(c, h))
  {
    NextNameIsNewest(c, h);
  }

  lemma ContentsAppended(f: map<Stamp, Records>, order: seq<Stamp>, name: Stamp)
    requires name in f && forall k | k in order :: k in f
    ensures forall k | k in order + [name] :: k in f
    ensures Contents(f, order + [name]) == Contents(f, order) + f[name]
  {
    assert (order + [name])[..|order|] == order;
  }

  lemma ReadOneMore(h: Handler, after: Handler, kept: seq<Stamp>, name: Stamp)
    requires Renames(h, after, name)
    requires forall k | k in kept :: k in h.folder
    requires forall k | k in kept + [name] :: k in after.folder
    ensures Contents(after.folder, kept + [name]) + after.live == Contents(h.folder, kept) + h.live
  {
    assert forall k | k in kept :: k in kept + [name];
    assert name in kept + [name];
    SameContents(h.folder, after.folder, kept);
    ContentsAppended(after.folder, kept, name);
  }

  lemma ReadsTheEnd(h: Handler, after: Handler, name: Stamp, order: seq<Stamp>, n: nat, newOrder: seq<Stamp>)
    requires Renames(h, after, name) && n <= |order| && newOrder == order[n..] + [name]
    requires forall k | k in order :: k in h.folder
    requires forall k | k in newOrder :: k in after.folder
    ensures Ends(Contents(h.folder, order) + h.live, Contents(after.folder, newOrder) + after.live)
  {
    LaterContentsEnd(h.folder, order, n);
    EndsWithMore(Contents(h.folder, order), Contents(h.folder, order[n..]), h.live);
    ReadOneMore(h, after, order[n..], name);
  }

  /** What can be read after a roll is the end of what could be read before it. */
  lemma RollingReadsTheEnd(c: Settings, h: Handler, m: Moment, all: bool)
    requires Dated(c, h) && (all ==> m.stuck == {})
    ensures Ends(Read(c, h, all), Read(c, Pruned(c, Renamed(c, h), m), all))
  {
    var after := Pruned(c, Renamed(c, h), m);
    var dropped := Dropped(c, m, all, |h.folder.Keys|);
    OrderAfterRoll(c, h, m, all);
    ContentsStay(c, h, m);
    ReadsTheEnd(h, after, NextName(c, h), ReadOrder(c, h, all), dropped, ReadOrder(c, after, all));
  }

  // ---- The folder is the end of the history

  lemma SameFilesReadTheSame(c: Settings, h: Handler, after: Handler, all: bool)
    requires after.folder == h.folder && after.live == h.live
    ensures Read(c, after, all) == Read(c, h, all) && Ends(Read(c, h, all), Read(c, after, all))
  {
  }

  predicate SetsAside(c: Settings, h: Handler, m: Moment) {
    c.regular && Size(h.live) > 0 && !m.rollFails
  }

  lemma RolledFiles(c: Settings, h: Handler, m: Moment)
    ensures
      var after, files := Rolled(c, h, m), if SetsAside(c, h, m) then Pruned(c, Renamed(c, h), m) else h;
      after.folder == files.folder && after.live == files.live
  {
  }

  lemma RolledReadsTheEnd(c: Settings, h: Handler, m: Moment, all: bool)
    requires Dated(c, h) && (all ==> m.stuck == {})
    ensures Ends(Read(c, h, all), Read(c, Rolled(c, h, m), all))
  {
    var files := if SetsAside(c, h, m) then Pruned(c, Renamed(c, h), m) else h;
    RolledFiles(c, h, m);
    SameFilesReadTheSame(c, files, Rolled(c, h, m), all);
    if !SetsAside(c, h, m) {
      SameFilesReadTheSame(c, h, files, all);
    } else {
      RollingReadsTheEnd(c, h, m, all);
    }
  }

  lemma ReadyReadsTheEnd(c: Settings, h: Handler, m: Moment, all: bool)
    requires Dated(c, h) && (all ==> m.stuck == {})
    ensures Ends(Read(c, h, all), Read(c, Ready(c, h, m), all))
  {
    if Ready(c, h, m) == Rolled(c, h, m) {
      RolledReadsTheEnd(c, h, m, all);
    } else {
      SameFilesReadTheSame(c, h, Ready(c, h, m), all);
    }
  }

  lemma AppendedInTurn(a: Records, b: Records, c: Records)
    ensures a + b + c == a + (b + c)
  {
  }

  lemma WritingReads(c: Settings, h: Handler, record: Record, all: bool)
    requires !c.regular ==> h.live == []
    ensures Read(c, Wrote(c, h, record), all) == Read(c, h, all) + Written(c, h, record)
  {
    var rolled, written := ReadRolled(c, h, all), Written(c, h, record);
    assert ReadRolled(c, Wrote(c, h, record), all) == rolled;
    if c.regular {
      AppendedInTurn(h.live, h.notices, [record]);
      AppendedInTurn(rolled, h.live, written);
    } else {
      assert rolled + [] + [] == rolled + [];
    }
  }

  predicate DeletesWork(op: Op) {
    match op
    case Emit(_, m) => m.stuck == {}
    case Empty(_, m, later) => m.stuck == {} && later.stuck == {}
  }

  lemma EmittingReadsTheEnd(c: Settings, t: Trace, record: Record, m: Moment, all: bool)
    requires Calendar(c) && Sound(c, t) && (all ==> m.stuck == {})
    requires Ends(t.history, Read(c, t.h, all))
    ensures
      var after := Step(c, t, Emit(record, m));
      Ends(after.history, Read(c, after.h, all))
  {
    var ready := Ready(c, t.h, m);
    ReadyReadsTheEnd(c, t.h, m, all);
    EndsThrough(t.history, Read(c, t.h, all), Read(c, ready, all));
    assert !c.regular ==> ready.live == [];
    WritingReads(c, ready, record, all);
    EndsWithMore(t.history, Read(c, ready, all), Written(c, ready, record));
  }

  lemma EndsWithout(history: Records, rolled: Records, live: Records)
    requires Ends(history, rolled + live)
    ensures Ends(Without(history, live), rolled)
  {
    var k := |history| - |rolled| - |live|;
    assert rolled == (rolled + live)[..|rolled|];
    assert history[k..][..|rolled|] == Without(history, live)[k..];
  }

  lemma AsideReadsTheEnd(c: Settings, t: Trace, m: Moment, all: bool)
    requires Dated(c, t.h) && (all ==> m.stuck == {})
    requires Ends(t.history, Read(c, t.h, all))
    ensures Ends(t.history, Read(c, Aside(c, t.h, m), all))
  {
    if !NothingNew(t.h) {
      RolledReadsTheEnd(c, t.h, m, all);
      EndsThrough(t.history, Read(c, t.h, all), Read(c, Aside(c, t.h, m), all));
    }
  }

  /** The note is written to a live file that was just truncated. */
  lemma NoteReads(c: Settings, h: Handler, note: Record, later: Moment, all: bool)
    requires h.live == [] && h.retrySize == 0 && !h.rollFailed
    ensures
      Read(c, Emitted(c, h, note, later), all)
      == ReadRolled(c, h, all) + Written(c, Ready(c, h, later), note)
  {
    EmptyFileIsNotRolled(c, h, later);
    WritingReads(c, Ready(c, h, later), note, all);
    SameFilesReadTheSame(c, h, Ready(c, h, later), all);
    assert ReadRolled(c, h, all) + [] == ReadRolled(c, h, all);
  }

  lemma EmptyingReadsTheEnd(c: Settings, t: Trace, note: Record, m: Moment, later: Moment, all: bool)
    requires Calendar(c) && Sound(c, t) && (all ==> m.stuck == {})
    requires Ends(t.history, Read(c, t.h, all))
    ensures
      var after := Step(c, t, Empty(note, m, later));
      Ends(after.history, Read(c, after.h, all))
  {
    var aside, after := Aside(c, t.h, m), Step(c, t, Empty(note, m, later));
    AsideReadsTheEnd(c, t, m, all);
    EmptyingAside(c, t, m);
    if !Refused(t.h, aside) {
      var h := aside.(live := []);
      var rolled := ReadRolled(c, aside, all);
      EndsWithout(t.history, rolled, aside.live);
      assert ReadRolled(c, h, all) == rolled;
      NoteReads(c, h, note, later, all);
      EndsWithMore(Without(t.history, aside.live), rolled, Written(c, Ready(c, h, later), note));
      SameFilesReadTheSame(c, Emitted(c, h, note, later), after.h, all);
    }
  }

  /** Main theorem: whatever fails, the newest files the limit keeps and the live file
      are together an unbroken end of everything written; and while deletes succeed,
      so is the whole folder. */
  lemma {:induction false} FolderEndsTheHistory(c: Settings, t: Trace, ops: seq<Op>, all: bool)
    requires Calendar(c) && Sound(c, t) && Ends(t.history, Read(c, t.h, all))
    requires all ==> forall i | 0 <= i < |ops| :: DeletesWork(ops[i])
    ensures
      var after := Run(c, t, ops);
      Ends(after.history, Read(c, after.h, all))
    decreases |ops|
  {
    if ops != [] {
      var earlier := ops[..|ops| - 1];
      FolderEndsTheHistory(c, t, earlier, all);
      RunKeepsSound(c, t, earlier);
      match ops[|ops| - 1]
      case Emit(record, m) => EmittingReadsTheEnd(c, Run(c, t, earlier), record, m, all);
      case Empty(note, m, later) => EmptyingReadsTheEnd(c, Run(c, t, earlier), note, m, later, all);
    }
  }

  lemma NewestEndAll(c: Settings, h: Handler)
    ensures Ends(Read(c, h, true), Read(c, h, false))
  {
    var order := ReadOrder(c, h, true);
    var n := Skipped(c, false, |h.folder.Keys|);
    assert order == Sort(h.folder.Keys);
    assert ReadOrder(c, h, false) == order[n..];
    LaterContentsEnd(h.folder, order, n);
    EndsWithMore(ReadRolled(c, h, true), ReadRolled(c, h, false), h.live);
  }

  /** The same from the start of the handler, whose history is what it found. */
  lemma FolderEndsTheHistoryFromTheStart(c: Settings, h: Handler, ops: seq<Op>)
    requires Calendar(c) && Sound(c, Trace(h, Read(c, h, true), []))
    ensures
      var after := Run(c, Trace(h, Read(c, h, true), []), ops);
      && Ends(after.history, Read(c, after.h, false))
      && ((forall i | 0 <= i < |ops| :: DeletesWork(ops[i])) ==> Ends(after.history, Read(c, after.h, true)))
  {
    var t := Trace(h, Read(c, h, true), []);
    NewestEndAll(c, h);
    FolderEndsTheHistory(c, t, ops, false);
    if forall i | 0 <= i < |ops| :: DeletesWork(ops[i]) {
      FolderEndsTheHistory(c, t, ops, true);
    }
  }

  // ---- What pruning may take

  lemma TheRest(order: seq<Stamp>, n: nat)
    requires n <= |order| && forall i, j | 0 <= i < j < |order| :: order[i] != order[j]
    ensures Elements(order[n..]) == Elements(order) - Elements(order[..n])
  {
    forall k | k in Elements(order) && k !in Elements(order[..n]) ensures k in Elements(order[n..]) {
      assert order == order[..n] + order[n..];
    }
  }

  lemma NewestAreTheRest(names: set<Stamp>, n: nat)
    requires n <= |names|
    ensures Elements(Sort(names)[n..]) == names - Elements(Sort(names)[..n])
  {
    var order := Sort(names);
    forall i, j | 0 <= i < j < |order| ensures order[i] != order[j] {
      SortAscends(names, i, j);
    }
    TheRest(order, n);
    assert Elements(order) == names;
  }

  lemma NewestAreAsMany(names: set<Stamp>, n: nat)
    requires n <= |names|
    ensures |Elements(Sort(names)[n..])| == |names| - n
    ensures Elements(Sort(names)[n..]) == names - Elements(Sort(names)[..n])
  {
    NewestAreTheRest(names, n);
    DistinctAreAsMany(names, n);
    OldestAreIn(names, n);
  }

  lemma OldestAreIn(names: set<Stamp>, n: nat)
    requires n <= |names|
    ensures Elements(Sort(names)[..n]) <= names
  {
  }

  ghost function NewerThan(names: set<Stamp>, k: Stamp): set<Stamp> {
    set s | s in names && Before(k, s)
  }

  lemma FewerInside(inner: set<Stamp>, outer: set<Stamp>)
    requires inner <= outer
    ensures |inner| <= |outer|
  {
    assert outer == inner + (outer - inner);
  }

  lemma StaleHasNewer(c: Settings, names: set<Stamp>, stuck: set<Stamp>, k: Stamp)
    requires k in Deletable(Stale(c, names), stuck)
    ensures c.backupCount > 0
    ensures |NewerThan(names - Deletable(Stale(c, names), stuck), k)| >= c.backupCount
  {
    var n := Excess(c, |names|);
    var order := Sort(names);
    var i :| 0 <= i < n && order[i] == k;
    NewestAreAsMany(names, n);
    var newest := Elements(order[n..]);
    forall s | s in newest ensures s in NewerThan(names - Deletable(Stale(c, names), stuck), k) {
      var j :| n <= j < |names| && order[j] == s;
      SortAscends(names, i, j);
    }
    FewerInside(newest, NewerThan(names - Deletable(Stale(c, names), stuck), k));
  }

  /** No step deletes a file unless the limit's worth of newer ones stay, and a file
      that stays keeps its contents. */
  lemma NewestAreNeverDeleted(c: Settings, t: Trace, op: Op, k: Stamp)
    requires Calendar(c) && Sound(c, t) && k in t.h.folder
    ensures
      var after := Step(c, t, op).h;
      if k in after.folder then after.folder[k] == t.h.folder[k]
      else c.backupCount > 0 && |NewerThan(after.folder.Keys, k)| >= c.backupCount
  {
    match op
    case Emit(_, m) =>
      RollDeletesTheOldest(c, t.h, m, k);
    case Empty(_, m, later) =>
      RollDeletesTheOldest(c, t.h, m, k);
      EmptyingAside(c, t, m);
      var aside := Aside(c, t.h, m);
      if !Refused(t.h, aside) {
        EmptyFileIsNotRolled(c, aside.(live := []), later);
      }
  }

  lemma RollDeletesTheOldest(c: Settings, h: Handler, m: Moment, k: Stamp)
    requires Dated(c, h) && k in h.folder
    ensures
      var after := Rolled(c, h, m);
      if k in after.folder then after.folder[k] == h.folder[k]
      else c.backupCount > 0 && |NewerThan(after.folder.Keys, k)| >= c.backupCount
  {
    RolledFiles(c, h, m);
    if SetsAside(c, h, m) {
      ContentsStay(c, h, m);
      var names := Renamed(c, h).folder.Keys;
      var gone := Deletable(Stale(c, names), m.stuck);
      if !m.listFails {
        KeysWithout(Renamed(c, h).folder, gone);
        if k in gone {
          StaleHasNewer(c, names, m.stuck, k);
        }
      }
    }
  }

  lemma PruneLimits(c: Settings, h: Handler, m: Moment, stuck: set<Stamp>)
    requires c.backupCount > 0 && !m.listFails && m.stuck <= stuck
    ensures |Pruned(c, h, m).folder.Keys - stuck| <= c.backupCount
  {
    var names := h.folder.Keys;
    var n := Excess(c, |names|);
    var gone := Deletable(Stale(c, names), m.stuck);
    NewestAreAsMany(names, n);
    KeysWithout(h.folder, gone);
    FewerInside(names - gone - stuck, Elements(Sort(names)[n..]));
  }

  lemma RenameAddsOne(c: Settings, h: Handler, m: Moment, stuck: set<Stamp>)
    ensures |Pruned(c, Renamed(c, h), m).folder.Keys - stuck| <= |h.folder.Keys - stuck| + 1
  {
    var before, after := h.folder.Keys - stuck, Pruned(c, Renamed(c, h), m).folder.Keys - stuck;
    PruneOnlyDeletes(c, Renamed(c, h), m);
    assert Renamed(c, h).folder.Keys == h.folder.Keys + {NextName(c, h)};
    FewerInside(after, before + {NextName(c, h)});
    OneMore(before, NextName(c, h));
  }

  lemma OneMore(names: set<Stamp>, s: Stamp)
    ensures |names + {s}| <= |names| + 1
  {
    if s in names {
      assert names + {s} == names;
    }
  }

  /** How many rolled files a roll may leave, of those that can be deleted: one more than
      there were, and no more than the limit once the folder could be listed. */
  function AfterRoll(c: Settings, m: Moment, count: nat): nat {
    if m.listFails || c.backupCount <= 0 || count < c.backupCount then count + 1 else c.backupCount
  }

  lemma RollLimits(c: Settings, h: Handler, m: Moment, stuck: set<Stamp>, count: nat)
    requires m.stuck <= stuck && |h.folder.Keys - stuck| <= count
    ensures
      |Rolled(c, h, m).folder.Keys - stuck| <= if SetsAside(c, h, m) then AfterRoll(c, m, count) else count
  {
    RolledFiles(c, h, m);
    if SetsAside(c, h, m) {
      PrunedLimits(c, h, m, stuck, count);
    }
  }

  lemma PrunedLimits(c: Settings, h: Handler, m: Moment, stuck: set<Stamp>, count: nat)
    requires m.stuck <= stuck && |h.folder.Keys - stuck| <= count
    ensures |Pruned(c, Renamed(c, h), m).folder.Keys - stuck| <= AfterRoll(c, m, count)
  {
    RenameAddsOne(c, h, m, stuck);
    if !m.listFails && c.backupCount > 0 {
      PruneLimits(c, Renamed(c, h), m, stuck);
    }
  }

  /** The roll a step begins with, if it sets a file aside. */
  ghost predicate Rolls(c: Settings, h: Handler, op: Op) {
    match op
    case Emit(_, m) => Ready(c, h, m) == Rolled(c, h, m) && SetsAside(c, h, m)
    case Empty(_, m, _) => !NothingNew(h) && SetsAside(c, h, m)
  }

  lemma StepLimits(c: Settings, t: Trace, op: Op, stuck: set<Stamp>, count: nat)
    requires Calendar(c) && Sound(c, t) && op.m.stuck <= stuck && |t.h.folder.Keys - stuck| <= count
    ensures
      |Step(c, t, op).h.folder.Keys - stuck| <= if Rolls(c, t.h, op) then AfterRoll(c, op.m, count) else count
  {
    RollLimits(c, t.h, op.m, stuck, count);
    match op
    case Emit(_, m) =>
    case Empty(_, m, later) =>
      EmptyingAside(c, t, m);
      var aside := Aside(c, t.h, m);
      if !Refused(t.h, aside) {
        EmptyFileIsNotRolled(c, aside.(live := []), later);
      }
  }

  /** The bound over a run that starts with `count` rolled files. */
  ghost function Bound(c: Settings, t: Trace, ops: seq<Op>, count: nat): nat
    decreases |ops|
  {
    if ops == [] then count
    else
      var init, last := ops[..|ops| - 1], ops[|ops| - 1];
      var before := Bound(c, t, init, count);
      if Rolls(c, Run(c, t, init).h, last) then AfterRoll(c, last.m, before) else before
  }

  /** Over every run, from however many rolled files: those that can be deleted stay
      within the bound. */
  lemma {:induction false} FolderStaysBounded(c: Settings, t: Trace, ops: seq<Op>, stuck: set<Stamp>)
    requires Calendar(c) && Sound(c, t) && forall i | 0 <= i < |ops| :: ops[i].m.stuck <= stuck
    ensures |Run(c, t, ops).h.folder.Keys - stuck| <= Bound(c, t, ops, |t.h.folder.Keys - stuck|)
    decreases |ops|
  {
    if ops != [] {
      var earlier := ops[..|ops| - 1];
      FolderStaysBounded(c, t, earlier, stuck);
      RunKeepsSound(c, t, earlier);
      StepLimits(c, Run(c, t, earlier), ops[|ops| - 1], stuck, Bound(c, t, earlier, |t.h.folder.Keys - stuck|));
    }
  }

  /** What the bound is while the folder can be listed: the limit, or what there was
      before the first roll. */
  lemma {:induction false} BoundIsTheLimit(c: Settings, t: Trace, ops: seq<Op>, count: nat)
    requires c.backupCount > 0 && forall i | 0 <= i < |ops| :: !ops[i].m.listFails
    ensures Bound(c, t, ops, count) <= Max(c.backupCount, count)
    ensures Bound(c, t, ops, count) <= c.backupCount || NoRoll(c, t, ops)
    decreases |ops|
  {
    if ops != [] {
      BoundIsTheLimit(c, t, ops[..|ops| - 1], count);
    }
  }

  /** No step of the run sets a file aside. */
  ghost predicate NoRoll(c: Settings, t: Trace, ops: seq<Op>)
    decreases |ops|
  {
    ops == [] ||
    (NoRoll(c, t, ops[..|ops| - 1]) && !Rolls(c, Run(c, t, ops[..|ops| - 1]).h, ops[|ops| - 1]))
  }

  /** Main theorem: over every run in which the folder can be listed it holds at most the
      limit, or what it started with until the first roll, and the files that could not
      be deleted. */
  lemma FolderStaysLimited(c: Settings, t: Trace, ops: seq<Op>, stuck: set<Stamp>)
    requires Calendar(c) && Sound(c, t) && c.backupCount > 0
    requires forall i | 0 <= i < |ops| :: ops[i].m.stuck <= stuck && !ops[i].m.listFails
    ensures
      var left := |Run(c, t, ops).h.folder.Keys - stuck|;
      && left <= Max(c.backupCount, |t.h.folder.Keys - stuck|)
      && (left <= c.backupCount || NoRoll(c, t, ops))
  {
    FolderStaysBounded(c, t, ops, stuck);
    BoundIsTheLimit(c, t, ops, |t.h.folder.Keys - stuck|);
  }

  // ---- Files of a later day

  lemma {:induction false} RankInSort(names: set<Stamp>, i: nat)
    requires i < |names|
    ensures |NewerThan(names, Sort(names)[i])| == |names| - 1 - i
  {
    var order, k := Sort(names), Sort(names)[i];
    forall s | s in Elements(order[i + 1..]) ensures s in NewerThan(names, k) {
      var j :| i < j < |names| && order[j] == s;
      SortAscends(names, i, j);
    }
    forall s | s in NewerThan(names, k) ensures s in Elements(order[i + 1..]) {
      assert s in order;
      var j :| 0 <= j < |names| && order[j] == s;
      if j < i {
        SortAscends(names, j, i);
      }
      assert j > i;
      assert order[i + 1..][j - i - 1] == s;
    }
    NewestAreAsMany(names, i + 1);
    assert NewerThan(names, k) == Elements(order[i + 1..]);
  }

  lemma StaleByRank(c: Settings, names: set<Stamp>, k: Stamp)
    requires k in names
    ensures k in Stale(c, names) <==> c.backupCount > 0 && |NewerThan(names, k)| >= c.backupCount
  {
    var order, n := Sort(names), Excess(c, |names|);
    assert k in order;
    var i :| 0 <= i < |names| && order[i] == k;
    RankInSort(names, i);
    if i < n {
      assert order[..n][i] == k;
    }
    if k in Stale(c, names) {
      var j :| 0 <= j < n && order[j] == k;
      RankInSort(names, j);
    }
  }

  /** Whatever the dates in the folder: exactly when a roll keeps what it set aside. With
      files of a later day, after a clock that stepped back, it may prune it at once. */
  lemma JustRolledStays(c: Settings, h: Handler, m: Moment)
    requires SetsAside(c, h, m)
    ensures
      var name, after := NextName(c, h), Rolled(c, h, m).folder;
      && name !in h.folder
      && (name in after <==>
            || m.listFails || name in m.stuck || c.backupCount <= 0
            || |NewerThan(h.folder.Keys, name)| < c.backupCount)
      && (name in after ==> after[name] == h.live)
  {
    NextNameIsFree(c, h);
    RolledFiles(c, h, m);
    RenamedRank(c, h);
    RenamedStays(c, Renamed(c, h), m, NextName(c, h));
  }

  lemma RenamedRank(c: Settings, h: Handler)
    ensures NextName(c, h) in Renamed(c, h).folder && Renamed(c, h).folder[NextName(c, h)] == h.live
    ensures NewerThan(Renamed(c, h).folder.Keys, NextName(c, h)) == NewerThan(h.folder.Keys, NextName(c, h))
  {
    assert Renamed(c, h).folder.Keys == h.folder.Keys + {NextName(c, h)};
  }

  lemma RenamedStays(c: Settings, h: Handler, m: Moment, name: Stamp)
    requires name in h.folder
    ensures
      var after := Pruned(c, h, m).folder;
      && (name in after <==>
            || m.listFails || name in m.stuck || c.backupCount <= 0
            || |NewerThan(h.folder.Keys, name)| < c.backupCount)
      && (name in after ==> after[name] == h.folder[name])
  {
    StaleByRank(c, h.folder.Keys, name);
    KeysWithout(h.folder, Deletable(Stale(c, h.folder.Keys), m.stuck));
  }

  // ---- The live file

  /** The live file passes its limit by at most what one call writes; the limit is
      `maxBytes` unless the last roll failed. */
  lemma LiveFileIsBounded(c: Settings, t: Trace, record: Record, m: Moment)
    requires Calendar(c) && Sound(c, t) && c.regular && c.maxBytes > 0
    ensures
      var after, wrote := Step(c, t, Emit(record, m)).h, Written(c, Ready(c, t.h, m), record);
      && Size(after.live) - Size(wrote) < Max(c.maxBytes, after.retrySize)
      && (!after.rollFailed ==> after.retrySize == 0)
      && (after.rollFailed && !t.h.rollFailed ==> m.rollFails && Size(t.h.live) + c.maxBytes == after.retrySize)
  {
    EmittingKeepsSound(c, t, record, m);
    ReadyIsBelow(c, t.h, m);
    WritingAdds(c, Ready(c, t.h, m), record);
  }

  /** Before anything is written the live file is below its limit. */
  lemma ReadyIsBelow(c: Settings, h: Handler, m: Moment)
    requires c.regular && c.maxBytes > 0 && (!h.rollFailed ==> h.retrySize == 0)
    ensures
      var ready := Ready(c, h, m);
      && Size(ready.live) < Max(c.maxBytes, ready.retrySize)
      && (ready.rollFailed && !h.rollFailed ==> m.rollFails && Size(h.live) + c.maxBytes == ready.retrySize)
  {
    RollOutcome(c, h, m);
  }

  lemma WritingAdds(c: Settings, h: Handler, record: Record)
    requires c.regular
    ensures
      var after := Wrote(c, h, record);
      && Size(after.live) == Size(h.live) + Size(Written(c, h, record))
      && after.retrySize == h.retrySize && after.rollFailed == h.rollFailed
  {
    AppendedInTurn(h.live, h.notices, [record]);
    SizeOfSum(h.live, h.notices + [record]);
  }

  // ---- Emptying

  /** An emptying throws away at most what the emptying before it wrote: everything
      else is still live, or set aside in a file of its own. */
  lemma EmptyingLosesOnlyTheMark(c: Settings, t: Trace, note: Record, m: Moment, later: Moment)
    requires Calendar(c) && Sound(c, t) && c.regular
    ensures
      var aside, after := Aside(c, t.h, m), Emptied(c, t.h, note, m, later);
      if NothingNew(t.h) then
        t.h.live == t.mark && after.folder == t.h.folder
      else if Refused(t.h, aside) then
        m.rollFails && after.live == t.h.live && after.folder == t.h.folder
      else
        t.h.live == []
        || (NextName(c, t.h) !in t.h.folder
            && NextName(c, t.h) in after.folder && after.folder[NextName(c, t.h)] == t.h.live)
  {
    EmptyingAside(c, t, m);
    RollOutcome(c, t.h, m);
    RolledFiles(c, t.h, m);
    var aside := Aside(c, t.h, m);
    if !Refused(t.h, aside) {
      EmptyFileIsNotRolled(c, aside.(live := []), later);
      if !NothingNew(t.h) && t.h.live != [] {
        SizeOfSum([], t.h.live);
        assert [] + t.h.live == t.h.live;
        NewNameStays(c, t.h, m);
      }
    }
  }

  lemma NewNameStays(c: Settings, h: Handler, m: Moment)
    requires Dated(c, h)
    ensures
      var after := Pruned(c, Renamed(c, h), m);
      && NextName(c, h) !in h.folder
      && NextName(c, h) in after.folder && after.folder[NextName(c, h)] == h.live
  {
    ContentsStay(c, h, m);
    RollRenamesInOrder(c, h, m, false);
    var after := Pruned(c, Renamed(c, h), m);
    assert NextName(c, h) in ReadOrder(c, after, false);
  }

  /** Two emptyings in a row spend at most the slot the first one spent. */
  lemma EmptyingTwiceSpendsOneSlot(
      c: Settings, t: Trace, note: Record, m: Moment, later: Moment, again: Record, m2: Moment, later2: Moment)
    requires Calendar(c) && Sound(c, t) && !Refused(t.h, Aside(c, t.h, m))
    ensures
      var once := Emptied(c, t.h, note, m, later);
      var twice := Emptied(c, once, again, m2, later2);
      twice.folder == once.folder && |once.folder| <= |t.h.folder| + 1
  {
    var aside := Aside(c, t.h, m);
    EmptyingAside(c, t, m);
    EmptyFileIsNotRolled(c, aside.(live := []), later);
    var once := Emptied(c, t.h, note, m, later);
    assert NothingNew(once);
    EmptyFileIsNotRolled(c, once.(live := []), later2);
    RolledFiles(c, t.h, m);
    if once.folder != t.h.folder {
      NamesAfterRename(c, t.h, 0);
      FewerInside(once.folder.Keys, Renamed(c, t.h).folder.Keys);
    }
  }

  lemma {:induction false} NoticesTell(c: Settings, stale: seq<Stamp>, stuck: set<Stamp>, reported: set<Failure>)
    ensures Notices(c, stale, stuck, reported) == [] <==>
            forall k | k in stale && k in stuck :: File(k) in reported
    decreases |stale|
  {
    if stale != [] {
      var last := stale[|stale| - 1];
      NoticesTell(c, stale[..|stale| - 1], stuck, reported);
      assert stale == stale[..|stale| - 1] + [last];
    }
  }

  /** The roll meets a failure that was not reported before. */
  ghost predicate NewFailure(c: Settings, h: Handler, m: Moment) {
    && SetsAside(c, h, m)
    && if m.listFails then Folder !in h.pruneFailures
       else
         exists k | k in Stale(c, h.folder.Keys + {NextName(c, h)}) && k in m.stuck :: File(k) !in h.pruneFailures
  }

  /** What the next emptying may throw away is the note alone, exactly when this one's
      roll met no new failure to prune; otherwise the notices of it are lost too. */
  lemma MarkIsTheNote(c: Settings, t: Trace, note: Record, m: Moment, later: Moment)
    requires Calendar(c) && Sound(c, t) && c.regular && !Refused(t.h, Aside(c, t.h, m))
    ensures
      Step(c, t, Empty(note, m, later)).mark == [note]
      <==> NothingNew(t.h) || !NewFailure(c, t.h, m)
  {
    var aside := Aside(c, t.h, m);
    EmptyingAside(c, t, m);
    EmptyFileIsNotRolled(c, aside.(live := []), later);
    assert Step(c, t, Empty(note, m, later)).mark == aside.notices + [note];
    if !NothingNew(t.h) {
      NoticesOfRoll(c, t.h, m);
    }
    assert aside.notices == [] <==> aside.notices + [note] == [note];
  }

  lemma NoticesOfRoll(c: Settings, h: Handler, m: Moment)
    requires h.notices == []
    ensures Rolled(c, h, m).notices == [] <==> !NewFailure(c, h, m)
  {
    if SetsAside(c, h, m) {
      var names := Renamed(c, h).folder.Keys;
      assert names == h.folder.Keys + {NextName(c, h)};
      NoticesTell(c, Stale(c, names), m.stuck, h.pruneFailures);
      PruneNotices(c, Renamed(c, h), m);
    }
  }

  lemma PruneNotices(c: Settings, h: Handler, m: Moment)
    ensures
      Pruned(c, h, m).notices
      == h.notices
         + if m.listFails then if Folder in h.pruneFailures then [] else [c.notice(Folder)]
           else Notices(c, Stale(c, h.folder.Keys), m.stuck, h.pruneFailures)
  {
  }
}
