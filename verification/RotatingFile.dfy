/**
 The rotating handler and empty_log as they update the folder, the live file and their
 own fields in place.
 */
module RotatingFile {
  import opened Common
  import opened RotatingLog
  import opened RotatingTheorems

  lemma NewestIsOne(a: Stamp, b: Stamp, names: set<Stamp>)
    requires IsNewest(a, names) && IsNewest(b, names)
    ensures a == b
  {
  }

  method NewestOf(names: set<Stamp>) returns (newest: Stamp)
    requires names != {}
    ensures newest == Newest(names)
  {
    newest := AnyOf(names);
    var rest := names - {newest};
    while rest != {}
      invariant rest <= names && newest in names && newest !in rest
      invariant forall k | k in names && k !in rest :: k == newest || Before(k, newest)
      decreases |rest|
    {
      var s := AnyOf(rest);
      if Before(newest, s) {
        newest := s;
      }
      rest := rest - {s};
    }
    NewestIsOne(newest, Newest(names), names);
  }

  lemma OneMoreStale(
      c: Settings, folder: map<Stamp, Records>, done: seq<Stamp>, path: Stamp, stuck: set<Stamp>, told: set<Failure>)
    ensures folder - Deletable(done + [path], stuck) ==
            if path in stuck then folder - Deletable(done, stuck) else folder - Deletable(done, stuck) - {path}
    ensures Failures(done + [path], stuck) ==
            if path in stuck then Failures(done, stuck) + {File(path)} else Failures(done, stuck)
    ensures Notices(c, done + [path], stuck, told) ==
            Notices(c, done, stuck, told) + if path in stuck && File(path) !in told then [c.notice(File(path))] else []
  {
    assert (done + [path])[..|done|] == done;
    assert path in stuck ==> Deletable(done + [path], stuck) == Deletable(done, stuck);
    assert path !in stuck ==> Deletable(done + [path], stuck) == Deletable(done, stuck) + {path};
  }

  class RotatingHandler {
    const c: Settings
    var folder: map<Stamp, Records>
    var blocked: set<Stamp>
    var live: Records
    var deadline: int
    var retrySize: int
    var emptiedSize: Option<nat>
    var rollFailed: bool
    var pruneFailures: set<Failure>
    var notices: Records

    ghost function State(): Handler
      reads this
    {
      Handler(folder, blocked, live, deadline, retrySize, emptiedSize, rollFailed, pruneFailures, notices)
    }

    constructor (c: Settings, folder: map<Stamp, Records>, blocked: set<Stamp>, live: Records, now: int)
      requires Calendar(c)
      requires !c.regular ==> live == []
      ensures this.c == c && this.folder == folder && this.live == live && this.blocked == blocked
      ensures
        Sound(c, Trace(State(), Read(c, State(), true), []))
        <==> forall k | k in folder.Keys + blocked :: k.day <= c.day(deadline - 1)
      ensures (forall k | k in folder.Keys + blocked :: k.day <= c.day(now)) ==> Dated(c, State())
    {
      this.c, this.folder, this.blocked, this.live := c, folder, blocked, live;
      deadline := c.midnight(now);
      retrySize, emptiedSize, rollFailed, pruneFailures, notices := 0, None, false, {}, [];
      new;
      assert c.day(now) <= c.day(deadline - 1);
    }

    function OverSizeNow(): bool
      reads this
    {
      c.regular && c.maxBytes > 0 && Size(live) >= Max(c.maxBytes, retrySize)
    }

    method ShouldRollover(asked: int) returns (due: bool)
      modifies this`deadline
      ensures due <==> c.regular && (asked >= old(deadline) || OverSize(c, old(State())))
      ensures deadline == if asked >= old(deadline) && !c.regular then c.midnight(asked) else old(deadline)
    {
      if asked < deadline && !OverSizeNow() {
        return false;
      }
      if !c.regular {
        deadline := c.midnight(asked);
        return false;
      }
      due := true;
    }

    /** One higher than the highest number that holds a name of the day. */
    method NextRolledName() returns (name: Stamp)
      ensures name == NextName(c, State())
    {
      var day := c.day(deadline - 1);
      var taken := set k | k in folder.Keys + blocked && k.day == day;
      assert taken == SameDay(folder.Keys + blocked, day);
      if taken == {} {
        name := Stamp(day, 0);
      } else {
        var newest := NewestOf(taken);
        name := Stamp(day, newest.number + 1);
      }
    }

    method RolledFiles() returns (order: seq<Stamp>)
      ensures order == Sort(folder.Keys)
    {
      var rest := folder.Keys;
      order := [];
      while rest != {}
        invariant Sort(folder.Keys) == Sort(rest) + order
        decreases |rest|
      {
        var newest := NewestOf(rest);
        order, rest := [newest] + order, rest - {newest};
      }
    }

    method FilesToDelete() returns (stale: seq<Stamp>)
      ensures stale == Stale(c, folder.Keys)
    {
      var rolled := RolledFiles();
      if c.backupCount <= 0 || |rolled| <= c.backupCount {
        return [];
      }
      stale := rolled[..|rolled| - c.backupCount];
    }

    /** Delete the stale files, and remember which ones refused. */
    method DeleteStale(stale: seq<Stamp>, m: Moment) returns (failed: set<Failure>)
      modifies this`folder, this`notices
      ensures folder == old(folder) - Deletable(stale, m.stuck)
      ensures notices == old(notices) + Notices(c, stale, m.stuck, pruneFailures)
      ensures failed == Failures(stale, m.stuck)
    {
      failed := {};
      var i := 0;
      while i < |stale|
        invariant 0 <= i <= |stale|
        invariant folder == old(folder) - Deletable(stale[..i], m.stuck)
        invariant failed == Failures(stale[..i], m.stuck)
        invariant notices == old(notices) + Notices(c, stale[..i], m.stuck, pruneFailures)
      {
        var path := stale[i];
        assert stale[..i + 1] == stale[..i] + [path];
        OneMoreStale(c, old(folder), stale[..i], path, m.stuck, pruneFailures);
        if path in m.stuck {
          failed := failed + {File(path)};
          if File(path) !in pruneFailures {
            notices := notices + [c.notice(File(path))];
          }
        } else {
          folder := folder - {path};
        }
        i := i + 1;
      }
      assert stale[..i] == stale;
    }

    method Prune(m: Moment)
      modifies this`folder, this`pruneFailures, this`notices
      ensures State() == Pruned(c, old(State()), m)
    {
      if m.listFails {
        if Folder !in pruneFailures {
          notices := notices + [c.notice(Folder)];
        }
        pruneFailures := {Folder};
        return;
      }
      var stale := FilesToDelete();
      pruneFailures := DeleteStale(stale, m);
    }

    /** A failed rename leaves the records where they are. */
    method RenameLive(m: Moment)
      requires c.regular && Size(live) > 0
      modifies this
      ensures State() == SetAside(c, old(State()), m)
    {
      var name := NextRolledName();
      if m.rollFails {
        rollFailed, retrySize := true, Size(live) + c.maxBytes;
      } else {
        folder, live := folder[name := live], [];
        rollFailed, retrySize, emptiedSize := false, 0, None;
        assert State() == Renamed(c, old(State()));
        Prune(m);
      }
    }

    method DoRollover(m: Moment)
      modifies this
      ensures State() == Rolled(c, old(State()), m)
    {
      if c.regular && Size(live) > 0 {
        RenameLive(m);
      } else {
        rollFailed := false;
      }
      if m.now >= deadline {
        deadline := c.midnight(m.now);
      }
    }

    method Write(record: Record)
      modifies this`live
      ensures live == if c.regular then old(live) + [record] else old(live)
    {
      if c.regular {
        live := live + [record];
      }
    }

    method RollWhenDue(m: Moment)
      modifies this
      ensures State() == Ready(c, old(State()), m)
    {
      var due := ShouldRollover(m.asked);
      if due {
        DoRollover(m);
      }
    }

    /** The roll that is due, then what it had to report, then the record itself. */
    method Emit(record: Record, m: Moment)
      modifies this
      ensures State() == Emitted(c, old(State()), record, m)
    {
      RollWhenDue(m);
      WriteNotices();
      Write(record);
    }

    method WriteNotices()
      modifies this`notices, this`live
      ensures notices == [] && live == if c.regular then old(live) + old(notices) else old(live)
    {
      var left := notices;
      notices := [];
      var i := 0;
      while i < |left|
        invariant 0 <= i <= |left| && notices == []
        invariant live == if c.regular then old(live) + left[..i] else old(live)
      {
        assert left[..i + 1] == left[..i] + [left[i]];
        Write(left[i]);
        i := i + 1;
      }
      assert left[..i] == left;
    }

    method RollBeforeEmptying(m: Moment) returns (ok: bool)
      modifies this
      ensures State() == Aside(c, old(State()), m)
      ensures ok <==> !Refused(old(State()), State())
    {
      if emptiedSize == Some(Size(live)) {
        return true;
      }
      DoRollover(m);
      ok := !rollFailed;
    }

    method NoteEmptied()
      modifies this`emptiedSize
      ensures emptiedSize == Some(Size(live))
    {
      emptiedSize := Some(Size(live));
    }

    method EmptyLog(note: Record, m: Moment, later: Moment) returns (r: Result<()>)
      modifies this
      ensures State() == Emptied(c, old(State()), note, m, later)
      ensures r.Err? <==> Refused(old(State()), Aside(c, old(State()), m))
    {
      var ok := RollBeforeEmptying(m);
      if !ok {
        return Err("the records could not be set aside");
      }
      live := [];
      Emit(note, later);
      NoteEmptied();
      r := Ok(());
    }
  }
}
