/**
 When the live log is rolled, and when it is left alone: only a deadline that has passed
 or a file that has grown too large rolls it, and a roll at midnight moves the deadline.
 */
module RotatingRolls {
  import opened Common
  import opened RotatingLog
  import opened RotatingTheorems

  // ---- One emit

  /** A roll is due. */
  predicate Due(c: Settings, h: Handler, asked: int) {
    asked >= h.deadline || (c.maxBytes > 0 && Size(h.live) >= c.maxBytes && Size(h.live) >= h.retrySize)
  }

  /** The deadline after a roll is past the clock the roll read, and is the next one after
      it exactly when that clock had reached the old one. */
  lemma RollMovesTheDeadline(c: Settings, h: Handler, m: Moment)
    requires Calendar(c)
    ensures
      var after := Rolled(c, h, m);
      && m.now < after.deadline
      && (m.now >= h.deadline ==> after.deadline == c.midnight(m.now))
      && (m.now < h.deadline ==> after.deadline == h.deadline)
  {
  }

  /** A record that finds no roll due is appended, and nothing else happens. */
  lemma QuietEmitAppends(c: Settings, h: Handler, record: Record, m: Moment)
    requires c.regular && !Due(c, h, m.asked)
    ensures Emitted(c, h, record, m) == h.(live := h.live + h.notices + [record], notices := [])
  {
    NotDueIsReady(c, h, m);
  }

  lemma NotDueIsReady(c: Settings, h: Handler, m: Moment)
    requires c.regular && !Due(c, h, m.asked)
    ensures Ready(c, h, m) == h
  {
  }

  function NextDeadline(c: Settings, h: Handler, now: int): int {
    if now >= h.deadline then c.midnight(now) else h.deadline
  }

  lemma EmptyIsNotRolled(c: Settings, h: Handler, m: Moment)
    requires h.live == []
    ensures Rolled(c, h, m) == h.(rollFailed := false, deadline := NextDeadline(c, h, m.now))
  {
  }

  lemma NotEmptyHasSize(live: Records)
    ensures Size(live) == 0 <==> live == []
  {
    SizeOfSum([], live);
    assert [] + live == live;
  }

  lemma FailedRollKeeps(c: Settings, h: Handler, m: Moment)
    requires c.regular && h.live != [] && m.rollFails
    ensures
      Rolled(c, h, m)
      == h.(rollFailed := true, retrySize := Size(h.live) + c.maxBytes, deadline := NextDeadline(c, h, m.now))
  {
    NotEmptyHasSize(h.live);
  }

  /** The file stands under a new name, or was pruned at once; no other name is new, and
      what a name holds stays. */
  ghost predicate SetsLiveAside(c: Settings, h: Handler, after: Handler) {
    && NextName(c, h) !in h.folder && after.folder.Keys <= h.folder.Keys + {NextName(c, h)}
    && (forall k | k in after.folder :: after.folder[k] == if k in h.folder then h.folder[k] else h.live)
    && !after.rollFailed && after.retrySize == 0 && after.emptiedSize == None
  }

  lemma GoodRollSetsAside(c: Settings, h: Handler, m: Moment)
    requires c.regular && h.live != [] && !m.rollFails
    ensures
      var after := Rolled(c, h, m);
      && SetsLiveAside(c, h, after) && after.live == [] && h.notices <= after.notices
      && after.deadline == NextDeadline(c, h, m.now)
  {
    NotEmptyHasSize(h.live);
    NextNameIsFree(c, h);
    PruneOnlyDeletes(c, Renamed(c, h), m);
    NoticesAreAdded(c, Renamed(c, h), m);
    RenamedHolds(c, h);
  }

  lemma RenamedHolds(c: Settings, h: Handler)
    ensures Renamed(c, h).folder.Keys == h.folder.Keys + {NextName(c, h)}
    ensures NextName(c, h) !in h.folder
    ensures forall k | k in Renamed(c, h).folder ::
      Renamed(c, h).folder[k] == if k in h.folder then h.folder[k] else h.live
  {
    NextNameIsFree(c, h);
  }

  lemma DueIsRolled(c: Settings, h: Handler, record: Record, m: Moment)
    requires c.regular && Due(c, h, m.asked)
    ensures
      Emitted(c, h, record, m)
      == Rolled(c, h, m).(live := Rolled(c, h, m).live + Rolled(c, h, m).notices + [record], notices := [])
  {
  }

  /** One that finds a roll due rolls the file, unless that is empty or its rename fails:
      then what is there stays before the record. */
  lemma DueEmitRolls(c: Settings, h: Handler, record: Record, m: Moment)
    requires c.regular && Due(c, h, m.asked)
    ensures
      var after := Emitted(c, h, record, m);
      && after.deadline == NextDeadline(c, h, m.now) && after.notices == []
      && if h.live == [] then
           after == h.(live := h.notices + [record], notices := [], rollFailed := false, deadline := after.deadline)
         else if m.rollFails then
           after == h.(live := h.live + h.notices + [record], notices := [], rollFailed := true,
                       retrySize := Size(h.live) + c.maxBytes, deadline := after.deadline)
         else
           && SetsLiveAside(c, h, after)
           && h.notices <= after.live && after.live != [] && after.live[|after.live| - 1] == record
  {
    DueIsRolled(c, h, record, m);
    if h.live == [] {
      EmptyIsNotRolled(c, h, m);
      assert [] + h.notices == h.notices;
    } else if m.rollFails {
      FailedRollKeeps(c, h, m);
    } else {
      GoodRollSetsAside(c, h, m);
      assert [] + Rolled(c, h, m).notices == Rolled(c, h, m).notices;
    }
  }

  lemma NoticesAreAdded(c: Settings, h: Handler, m: Moment)
    ensures h.notices <= Pruned(c, h, m).notices
  {
  }

  /** On a device nothing is kept or rolled; only the deadline moves, past the clock. */
  lemma DeviceOnlyMoves(c: Settings, h: Handler, record: Record, m: Moment)
    requires Calendar(c) && !c.regular
    ensures
      var after := Emitted(c, h, record, m);
      && after == h.(notices := [], deadline := after.deadline) && m.asked < after.deadline
      && (m.asked < h.deadline ==> after.deadline == h.deadline)
  {
  }

  // ---- Names and failures

  /** The first file of a day is number 0, and every later one the next after the highest
      number any entry of the day holds. */
  lemma NextNameIsTheNextNumber(c: Settings, h: Handler)
    ensures
      var day, number := c.day(h.deadline - 1), NextName(c, h).number;
      && NextName(c, h).day == day
      && (forall k | k in h.folder.Keys + h.blocked && k.day == day :: k.number < number)
      && (number > 0 ==> Stamp(day, number - 1) in h.folder.Keys + h.blocked)
  {
    NextNameIsFree(c, h);
    var names, day := h.folder.Keys + h.blocked, c.day(h.deadline - 1);
    forall k | k in names && k.day == day ensures k.number < NextName(c, h).number {
      assert k in SameDay(names, day);
    }
  }

  /** What a prune remembers having failed at: the folder it could not list, or each file
      past the limit it could not delete, and nothing of the prune before. */
  lemma PruneRemembers(c: Settings, h: Handler, m: Moment)
    ensures
      var after := Pruned(c, h, m);
      if m.listFails then after.pruneFailures == {Folder}
      else
        && Folder !in after.pruneFailures
        && forall k ::
             File(k) in after.pruneFailures
             <==> k in h.folder && k in m.stuck && 0 < c.backupCount <= |NewerThan(h.folder.Keys, k)|
  {
    if !m.listFails {
      forall k
        ensures
          File(k) in Pruned(c, h, m).pruneFailures
          <==> k in h.folder && k in m.stuck && 0 < c.backupCount <= |NewerThan(h.folder.Keys, k)|
      {
        if k in h.folder {
          StaleByRank(c, h.folder.Keys, k);
        }
      }
    }
  }

  /** A prune leaves a notice for each failure the one before did not have, and none for
      those it had. */
  lemma FailuresAreToldOnce(c: Settings, h: Handler, m: Moment)
    ensures
      var after := Pruned(c, h, m);
      && h.notices <= after.notices
      && (after.notices == h.notices <==> after.pruneFailures <= h.pruneFailures)
  {
    NoticesAreAdded(c, h, m);
    PruneNotices(c, h, m);
    if !m.listFails {
      NoticesTell(c, Stale(c, h.folder.Keys), m.stuck, h.pruneFailures);
      AppendedNothing(h.notices, Notices(c, Stale(c, h.folder.Keys), m.stuck, h.pruneFailures));
    }
  }

  lemma AppendedNothing(a: Records, b: Records)
    ensures a + b == a <==> b == []
  {
    if b != [] {
      assert |a + b| > |a|;
    }
  }

  // ---- Runs

  function RecordsOf(ops: seq<Op>): Records
    requires forall op | op in ops :: op.Emit?
    decreases |ops|
  {
    if ops == [] then [] else RecordsOf(ops[..|ops| - 1]) + [ops[|ops| - 1].record]
  }

  /** Records only, all before the deadline, and the file never found too large. */
  ghost predicate QuietOps(c: Settings, h: Handler, ops: seq<Op>) {
    && (forall op | op in ops :: op.Emit? && op.m.asked < h.deadline)
    && (c.maxBytes <= 0 || ops == []
        || Size(h.live) + Size(RecordsOf(ops[..|ops| - 1])) < Max(c.maxBytes, h.retrySize))
  }

  lemma QuietBefore(c: Settings, h: Handler, ops: seq<Op>)
    requires ops != [] && QuietOps(c, h, ops)
    ensures QuietOps(c, h, ops[..|ops| - 1])
  {
    var init := ops[..|ops| - 1];
    forall op | op in init ensures op in ops {
    }
    if init != [] {
      SizeOfSum(RecordsOf(init[..|init| - 1]), [init[|init| - 1].record]);
    }
  }

  /** A quiet run leaves the folder alone and appends its records, in order. */
  lemma {:induction false} QuietRunAppends(c: Settings, t: Trace, ops: seq<Op>)
    requires c.regular && t.h.notices == [] && QuietOps(c, t.h, ops)
    ensures Run(c, t, ops).h == t.h.(live := t.h.live + RecordsOf(ops))
    decreases |ops|
  {
    if ops == [] {
      assert t.h.live + RecordsOf(ops) == t.h.live;
    } else {
      var init, last := ops[..|ops| - 1], ops[|ops| - 1];
      assert last in ops;
      QuietBefore(c, t.h, ops);
      QuietRunAppends(c, t, init);
      QuietOneMore(c, t.h, RecordsOf(init), last);
    }
  }

  lemma QuietOneMore(c: Settings, h: Handler, records: Records, last: Op)
    requires c.regular && h.notices == [] && last.Emit? && last.m.asked < h.deadline
    requires c.maxBytes <= 0 || Size(h.live) + Size(records) < Max(c.maxBytes, h.retrySize)
    ensures
      Emitted(c, h.(live := h.live + records), last.record, last.m)
      == h.(live := h.live + (records + [last.record]))
  {
    var now := h.(live := h.live + records);
    SizeOfSum(h.live, records);
    QuietEmitAppends(c, now, last.record, last.m);
    assert h.live + records + h.notices + [last.record] == h.live + (records + [last.record]);
  }

  /** Main theorem: the first record after the deadline rolls the file, once: until the
      next deadline, and while the file stays below its limit, every later record is
      appended to the file that one began, and the folder stays as its roll left it. */
  lemma OneRollEachDay(c: Settings, t: Trace, record: Record, m: Moment, ops: seq<Op>)
    requires Calendar(c) && Sound(c, t) && c.regular && m.now >= t.h.deadline
    requires QuietOps(c, Step(c, t, Emit(record, m)).h, ops)
    requires m.asked >= t.h.deadline
    ensures
      var first := Step(c, t, Emit(record, m));
      var end := Run(c, first, ops);
      && first.h.deadline == c.midnight(m.now) && m.now < end.h.deadline
      && end.h == first.h.(live := first.h.live + RecordsOf(ops))
  {
    var first := Step(c, t, Emit(record, m));
    DueEmitRolls(c, t.h, record, m);
    EmittingKeepsSound(c, t, record, m);
    QuietRunAppends(c, first, ops);
  }
}
