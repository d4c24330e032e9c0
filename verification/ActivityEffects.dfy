/**
 What the registry tells of what it was told: the operations one by one, and over every run
 the outcomes and remote reports that stand behind each observation.
 */
module ActivityEffects {
  import opened Common
  import opened Activity

  // ---- What a trim takes

  lemma NewestDropsOnlyTheOldest<K, V>(m: Ordered<K, V>, cap: nat)
    requires Wellformed(m) && 0 < cap && |m.keys| <= cap + 1
    ensures
      Newest(m, cap) == if |m.keys| <= cap then m else Ordered(m.keys[1..], m.values - {m.keys[0]})
  {
    if |m.keys| > cap {
      assert Newest(WithoutOldest(m), cap) == WithoutOldest(m);
    }
  }

  /** After a put of `k` and a trim: `k` holds `o`, and every other entry is as it was,
      but for the oldest when there was no room. */
  ghost predicate PutWithin(
      before: Ordered<string, Observation>, after: Ordered<string, Observation>, cap: nat, k: string, o: Observation)
  {
    && k in after.values && after.values[k] == o
    && forall other | other != k ::
         && (other in after.values
             <==> other in before.values
                  && !(k !in before.values && |before.keys| == cap > 0 && before.keys[0] == other))
         && (other in after.values ==> after.values[other] == before.values[other])
  }

  lemma PutAndTrimmed(m: Ordered<string, Observation>, cap: nat, k: string, o: Observation)
    requires Wellformed(m) && 0 < cap && |m.keys| <= cap
    ensures PutWithin(m, Newest(Put(m, k, o), cap), cap, k, o)
  {
    PutKeeps(m, k, o);
    NewestDropsOnlyTheOldest(Put(m, k, o), cap);
  }

  // ---- The operations

  /** A registered activity is active: blank if it is new, as it was otherwise, and with
      the time it was given to live. No other goes but the oldest, where 256 were active. */
  lemma RegisteredIsActive(r: Registry, id: string, ttl: Option<int>, now: int)
    requires Inv(r) && id != ""
    ensures
      var after := Next(r, Register(id, ttl), now);
      var o := if id in r.active.values then r.active.values[id] else Observation(None, None, None, None, [], []);
      && after.retained == r.retained
      && PutWithin(r.active, after.active, 256, id,
                   if ttl.Some? && ttl.value != 0 then o.(expiresAt := Some(now + ttl.value)) else o)
  {
    PutAndTrimmed(r.active, MAX_ACTIVE, id, Refreshed(r.active, id, ttl, now));
    NewestFits(r.retained, MAX_RETAINED);
  }

  lemma PoppedExactly(r: Registry, id: string, k: string)
    requires Inv(r)
    ensures k in Pop(r.active, id).values <==> k in r.active.values && k != id
    ensures k in Pop(r.active, id).values ==> Pop(r.active, id).values[k] == r.active.values[k]
    ensures |Pop(r.active, id).keys| <= MAX_ACTIVE
  {
    DroppingKeeps(r.active, {id});
  }

  /** A finished activity is active no more. It is retained exactly when an outcome was
      reported for it, the one that came with its end included, and no other goes. */
  lemma FinishedIsRetained(r: Registry, id: string, outcome: Option<Outcome>, now: int)
    requires Inv(r) && id in r.active.values
    ensures
      var after, o := Next(r, Finish(id, outcome), now), r.active.values[id];
      && (forall k ::
            && (k in after.active.values <==> k in r.active.values && k != id)
            && (k in after.active.values ==> after.active.values[k] == r.active.values[k]))
      && if outcome.None? && o.outcome.None? then after.retained == r.retained
         else
           PutWithin(r.retained, after.retained, 64, id,
                     if outcome.None? then o
                     else o.(outcome := Some(if o.outcome.None? || Rank(outcome.value) > Rank(o.outcome.value)
                                             then outcome.value else o.outcome.value),
                             reported := o.reported + [outcome.value]))
  {
    var o := Reported(r.active.values[id], outcome);
    FinishTrims(r, id, outcome, now);
    forall k
      ensures
        && (k in Pop(r.active, id).values <==> k in r.active.values && k != id)
        && (k in Pop(r.active, id).values ==> Pop(r.active, id).values[k] == r.active.values[k])
    {
      PoppedExactly(r, id, k);
    }
    PoppedExactly(r, id, id);
    NewestFits(r.retained, MAX_RETAINED);
    PutAndTrimmed(r.retained, MAX_RETAINED, id, o);
  }

  /** Everything but one active observation is as it was. */
  ghost predicate OnlyActive(r: Registry, after: Registry, id: string) {
    && after.retained == r.retained && after.aliases == r.aliases && after.active.keys == r.active.keys
    && after.active.values.Keys == r.active.values.Keys
    && forall k | k in r.active.values && k != id :: after.active.values[k] == r.active.values[k]
  }

  /** Progress is noted exactly when it is measured and the activity active. */
  lemma ProgressIsNoted(r: Registry, id: string, percent: bool, value: Option<int>, total: Option<int>, now: int)
    requires Inv(r)
    ensures
      var after := Next(r, NoteProgress(id, percent, value, total), now);
      if id in r.active.values && value.Some? && total.Some? && 0 <= value.value <= total.value && 0 < total.value then
        && OnlyActive(r, after, id)
        && after.active.values[id]
           == r.active.values[id].(progress := Some(Progress(percent, value.value, total.value)))
      else after.active.values == r.active.values && OnlyActive(r, after, id)
  {
  }

  /** A submission starts the remote job over, and from then on its alias leads to the
      activity: a report under it is a report of the activity. */
  lemma SubmissionBinds(r: Registry, id: string, service: string, job: string, now: int)
    requires Inv(r) && id in r.active.values && id != "" && service != "" && job != ""
    ensures
      var after := Next(r, NoteSubmission(id, service, job), now);
      && OnlyActive(r, after.(aliases := r.aliases), id)
      && after.active.values[id]
         == r.active.values[id].(remote := Some(Remote(service, job, "submitted", None, None, None)), moments := [])
      && Target(after, None, service, job) == Some(id)
  {
    var o, alias := Submitted(r.active.values[id], service, job), Alias(service, job);
    SubmittedIsTruthful(r.active.values[id], service, job);
    PutTruthful(r.active, id, o);
    NewestFits(Put(r.active, id, o), MAX_ACTIVE);
    NewestFits(r.retained, MAX_RETAINED);
    PutKeeps(r.aliases, alias, Bound(id, now));
    BoundStays(Put(r.aliases, alias, Bound(id, now)), alias, now - ALIAS_RETENTION_SECONDS);
  }

  /** A fresh alias outlives the trim that follows. */
  lemma BoundStays(m: Ordered<Alias, Bound>, alias: Alias, cutoff: int)
    requires Wellformed(m) && alias in m.values && m.values[alias].at >= cutoff && |m.keys| <= MAX_ALIASES + 1
    requires |m.keys| <= MAX_ALIASES || m.keys[|m.keys| - 1] == alias
    ensures
      var after := Newest(Unexpired(m, cutoff), MAX_ALIASES);
      alias in after.values && after.values[alias] == m.values[alias]
  {
    UnexpiredStay(m, cutoff);
    var left := Unexpired(m, cutoff);
    NewestDropsOnlyTheOldest(left, MAX_ALIASES);
    if |left.keys| > MAX_ALIASES {
      LeftWhole(m.keys, OlderThan(m, cutoff));
      assert left.keys[0] != alias;
    }
  }

  lemma {:induction false} LeftWhole<K>(keys: seq<K>, gone: set<K>)
    requires |Left(keys, gone)| == |keys|
    ensures Left(keys, gone) == keys
    decreases |keys|
  {
    if keys != [] {
      LeftIsShorter(keys[..|keys| - 1], gone);
      LeftWhole(keys[..|keys| - 1], gone);
    }
  }

  lemma {:induction false} LeftIsShorter<K>(keys: seq<K>, gone: set<K>)
    ensures |Left(keys, gone)| <= |keys|
    decreases |keys|
  {
    if keys != [] {
      LeftIsShorter(keys[..|keys| - 1], gone);
    }
  }

  /** Bound aliases go only by age or, oldest first, past the cap; every other leads on. */
  lemma AliasesTrimmed(r: Registry, now: int, alias: Alias)
    requires Wellformed(r.aliases) && |r.aliases.keys| <= 512
    ensures
      var after := Trimmed(r, now).aliases;
      && (alias in after.values <==> alias in r.aliases.values && now - r.aliases.values[alias].at <= 900)
      && (alias in after.values ==> after.values[alias] == r.aliases.values[alias])
  {
    UnexpiredStay(r.aliases, now - ALIAS_RETENTION_SECONDS);
    NewestFits(Unexpired(r.aliases, now - ALIAS_RETENTION_SECONDS), MAX_ALIASES);
  }

  /** A count a service sends: its whole part, if it is a number and not below zero. */
  ghost predicate Counts(n: Number, count: Option<int>) {
    if n.Finite? && n.r >= 0.0 then count.Some? && count.value as real <= n.r < (count.value + 1) as real
    else count.None?
  }

  lemma PhasedAsReported(o: Observation, phase: string, done: Number, outOf: Number, moment: int)
    requires o.remote.Some?
    ensures
      var after, remote := Phased(o, phase, done, outOf, moment), o.remote.value;
      if remote.observedAt.Some? && moment < remote.observedAt.value then after == o.(moments := o.moments + [moment])
      else
        && after.remote.Some?
        && var seen := after.remote.value;
           && seen.service == remote.service && seen.job == remote.job && seen.observedAt == Some(moment)
           && seen.phase == (if phase != "" then phase else remote.phase)
           && Counts(done, seen.progress) && Counts(outOf, seen.total)
           && after == o.(remote := after.remote, progress := after.progress, moments := o.moments + [moment])
           && var total := if seen.total.Some? && seen.total.value != 0 then seen.total.value else 100;
              after.progress
              == if seen.phase != "processing" then None
                 else if seen.progress.Some? && seen.progress.value <= total then
                   Some(Progress(true, seen.progress.value, total))
                 else o.progress
  {
  }

  /** A remote report reaches the activity it names, or the one its alias leads to, if that
      is active and was submitted; then it counts unless it is older than the last one.
      Nothing else changes. */
  lemma PhaseIsNoted(
      r: Registry, activity: Option<string>, service: string, job: string, phase: string, done: Number, outOf: Number,
      moment: int, now: int)
    requires Inv(r)
    ensures
      var after := Next(r, NotePhase(activity, service, job, phase, done, outOf, moment), now);
      var named := activity.Some? || (service != "" && job != "" && Alias(service, job) in r.aliases.values);
      var id := if activity.Some? then activity.value else if named then r.aliases.values[Alias(service, job)].activity
        else "";
      if named && id in r.active.values && r.active.values[id].remote.Some? then
        && OnlyActive(r, after, id)
        && after.active.values[id] == Phased(r.active.values[id], phase, done, outOf, moment)
      else after.active.values == r.active.values && OnlyActive(r, after, "")
  {
  }

  /** A look drops exactly the observations whose time is up. */
  lemma LookDropsTheExpired(r: Registry, now: int, k: string)
    requires Inv(r)
    ensures
      var after := Next(r, Snapshot, now);
      && after.retained == r.retained && after.aliases == r.aliases
      && (k in after.active.values
          <==> k in r.active.values
               && (r.active.values[k].expiresAt.None? || now < r.active.values[k].expiresAt.value))
      && (k in after.active.values ==> after.active.values[k] == r.active.values[k])
  {
    ExpiredGo(r.active, now);
  }

  // ---- Outcomes

  /** Trouble dominates: a success stands only if nothing else was ever reported, and what
      is partial, cancelled or failed is never told as less than the worst of it. */
  lemma TroubleDominates(reported: seq<Outcome>)
    requires reported != []
    ensures Recorded(reported) == Some(Success) <==> forall o | o in reported :: o == Success
    ensures Failed in reported ==> Recorded(reported) == Some(Failed)
    ensures Cancelled in reported ==> Recorded(reported).value in {Cancelled, Failed}
    ensures Partial in reported ==> Recorded(reported).value in {Partial, Cancelled, Failed}
  {
    RecordedIsStrictest(reported);
    var strictest := Recorded(reported).value;
    forall o | o in reported ensures Rank(o) <= Rank(strictest) {
      assert o in multiset(reported);
    }
    assert strictest in reported;
  }

  // ---- What was reported, told from the operations

  /** The outcomes reported of an activity, as the active observation and as the retained
      one should tell them, and the moments of the reports of its remote job. */
  datatype Told = Told(active: seq<Outcome>, retained: seq<Outcome>, moments: seq<int>)

  /** The report is of this activity. */
  predicate IsOf(r: Registry, op: Op, id: string) {
    && op.NotePhase?
    && if op.activity.Some? then op.activity == Some(id)
       else
         && op.service != "" && op.job != "" && Alias(op.service, op.job) in r.aliases.values
         && r.aliases.values[Alias(op.service, op.job)].activity == id
  }

  function With(outcomes: seq<Outcome>, outcome: Option<Outcome>): seq<Outcome> {
    if outcome.Some? then outcomes + [outcome.value] else outcomes
  }

  function Hear(r: Registry, op: Op, id: string, told: Told): Told {
    match op
    case Register(k, _) => if k == id && id !in r.active.values then told.(active := [], moments := []) else told
    case NoteSubmission(k, service, job) =>
      if k == id && id != "" && service != "" && job != "" then told.(moments := []) else told
    case NotePhase(_, _, _, _, _, _, moment) =>
      if IsOf(r, op, id) && id in r.active.values && r.active.values[id].remote.Some?
      then told.(moments := told.moments + [moment]) else told
    case NotePublication(k, outcome) =>
      if k != id then told
      else if id in r.active.values then told.(active := With(told.active, outcome))
      else told.(retained := With(told.retained, outcome))
    case Finish(k, outcome) =>
      if k != id || id !in r.active.values || With(told.active, outcome) == [] then told
      else told.(retained := With(told.active, outcome))
    case _ => told
  }

  function HearAll(r: Registry, ops: seq<(Op, int)>, id: string, told: Told): Told
    decreases |ops|
  {
    if ops == [] then told
    else HearAll(Next(r, ops[0].0, ops[0].1), ops[1..], id, Hear(r, ops[0].0, id, told))
  }

  /** The registry holds of the activity exactly what was told of it. */
  ghost predicate TellsWhatWasTold(r: Registry, id: string, told: Told) {
    && (id in r.active.values ==>
          r.active.values[id].reported == told.active && r.active.values[id].moments == told.moments)
    && (id in r.retained.values ==> r.retained.values[id].reported == told.retained)
  }

  lemma OutcomeIffReported(o: Observation)
    requires Truthful(o)
    ensures o.outcome.Some? <==> o.reported != []
  {
    RecordedIsStrictest(o.reported);
  }

  lemma RegisterTells(r: Registry, k: string, ttl: Option<int>, now: int, id: string, told: Told)
    requires Inv(r) && TellsWhatWasTold(r, id, told)
    ensures TellsWhatWasTold(Next(r, Register(k, ttl), now), id, Hear(r, Register(k, ttl), id, told))
  {
    if k != "" {
      RegisteredIsActive(r, k, ttl, now);
    }
  }

  lemma SubmissionTells(r: Registry, k: string, service: string, job: string, now: int, id: string, told: Told)
    requires Inv(r) && TellsWhatWasTold(r, id, told)
    ensures
      var op := NoteSubmission(k, service, job);
      TellsWhatWasTold(Next(r, op, now), id, Hear(r, op, id, told))
  {
    if k != "" && service != "" && job != "" && k in r.active.values {
      SubmissionBinds(r, k, service, job, now);
    }
  }

  lemma PublicationTells(r: Registry, k: string, outcome: Option<Outcome>, now: int, id: string, told: Told)
    requires Inv(r) && TellsWhatWasTold(r, id, told)
    ensures
      var op := NotePublication(k, outcome);
      TellsWhatWasTold(Next(r, op, now), id, Hear(r, op, id, told))
  {
    PublicationIsNoted(r, k, outcome, now);
  }

  lemma FinishTells(r: Registry, k: string, outcome: Option<Outcome>, now: int, id: string, told: Told)
    requires Inv(r) && TellsWhatWasTold(r, id, told)
    ensures TellsWhatWasTold(Next(r, Finish(k, outcome), now), id, Hear(r, Finish(k, outcome), id, told))
  {
    if k in r.active.values {
      FinishedIsRetained(r, k, outcome, now);
      OutcomeIffReported(r.active.values[k]);
    }
  }

  lemma PhaseTells(r: Registry, op: Op, now: int, id: string, told: Told)
    requires Inv(r) && TellsWhatWasTold(r, id, told) && op.NotePhase?
    ensures TellsWhatWasTold(Next(r, op, now), id, Hear(r, op, id, told))
  {
    PhaseIsNoted(r, op.activity, op.service, op.job, op.phase, op.done, op.outOf, op.moment, now);
    if id in r.active.values && r.active.values[id].remote.Some? {
      PhasedAsReported(r.active.values[id], op.phase, op.done, op.outOf, op.moment);
    }
  }

  lemma StepTells(r: Registry, op: Op, now: int, id: string, told: Told)
    requires Inv(r) && TellsWhatWasTold(r, id, told)
    ensures TellsWhatWasTold(Next(r, op, now), id, Hear(r, op, id, told))
  {
    match op
    case Register(k, ttl) => RegisterTells(r, k, ttl, now, id, told);
    case NoteProgress(k, percent, value, total) => ProgressIsNoted(r, k, percent, value, total, now);
    case NoteSubmission(k, service, job) => SubmissionTells(r, k, service, job, now, id, told);
    case NotePhase(_, _, _, _, _, _, _) => PhaseTells(r, op, now, id, told);
    case NotePublication(k, outcome) => PublicationTells(r, k, outcome, now, id, told);
    case Finish(k, outcome) => FinishTells(r, k, outcome, now, id, told);
    case Snapshot => LookDropsTheExpired(r, now, id);
  }

  lemma {:induction false} RunTells(r: Registry, ops: seq<(Op, int)>, id: string, told: Told)
    requires Inv(r) && TellsWhatWasTold(r, id, told)
    ensures Inv(Run(r, ops)) && TellsWhatWasTold(Run(r, ops), id, HearAll(r, ops, id, told))
    decreases |ops|
  {
    if ops != [] {
      StepKeeps(r, ops[0].0, ops[0].1);
      StepTells(r, ops[0].0, ops[0].1, id, told);
      RunTells(Next(r, ops[0].0, ops[0].1), ops[1..], id, Hear(r, ops[0].0, id, told));
    }
  }

  /** Main theorem: over every run an active observation tells the strictest of the
      outcomes the operations reported of it since it was registered anew, and none if
      none was; a retained one those up to its end and after it; and the remote job the
      latest of the moments it was reported at since it was submitted. */
  lemma RegistryTellsWhatItWasTold(ops: seq<(Op, int)>, id: string)
    ensures
      var r, told := Run(EMPTY, ops), HearAll(EMPTY, ops, id, Told([], [], []));
      && (id in r.active.values ==>
            var o := r.active.values[id];
            && (told.active == [] <==> o.outcome.None?)
            && (o.outcome.Some? ==> IsStrictest(o.outcome.value, multiset(told.active)))
            && (o.remote.Some? ==> o.remote.value.observedAt == Latest(told.moments)))
      && (id in r.retained.values ==>
            var o := r.retained.values[id];
            && o.outcome.Some? && IsStrictest(o.outcome.value, multiset(told.retained)))
  {
    RunTells(EMPTY, ops, id, Told([], [], []));
    RetainedHaveOutcomes(EMPTY, ops);
    var r, told := Run(EMPTY, ops), HearAll(EMPTY, ops, id, Told([], [], []));
    RecordedIsStrictest(told.active);
    RecordedIsStrictest(told.retained);
  }

  // ---- What is retained has an outcome

  ghost predicate AllHaveOutcomes(r: Registry) {
    forall k | k in r.retained.values :: r.retained.values[k].outcome.Some?
  }

  lemma StepKeepsOutcomes(r: Registry, op: Op, now: int)
    requires Inv(r) && AllHaveOutcomes(r)
    ensures AllHaveOutcomes(Next(r, op, now))
  {
    match op
    case Register(k, ttl) =>
      if k != "" {
        RegisteredIsActive(r, k, ttl, now);
      }
    case NoteProgress(k, percent, value, total) => ProgressIsNoted(r, k, percent, value, total, now);
    case NoteSubmission(k, service, job) =>
      if k != "" && service != "" && job != "" && k in r.active.values {
        SubmissionBinds(r, k, service, job, now);
      }
    case NotePhase(_, _, _, _, _, _, _) =>
      PhaseIsNoted(r, op.activity, op.service, op.job, op.phase, op.done, op.outOf, op.moment, now);
    case NotePublication(k, outcome) => PublicationIsNoted(r, k, outcome, now);
    case Finish(k, outcome) =>
      if k in r.active.values {
        FinishedIsRetained(r, k, outcome, now);
      }
    case Snapshot => LookDropsTheExpired(r, now, "");
  }

  lemma {:induction false} RetainedHaveOutcomes(r: Registry, ops: seq<(Op, int)>)
    requires Inv(r) && AllHaveOutcomes(r)
    ensures AllHaveOutcomes(Run(r, ops))
    decreases |ops|
  {
    if ops != [] {
      StepKeeps(r, ops[0].0, ops[0].1);
      StepKeepsOutcomes(r, ops[0].0, ops[0].1);
      RetainedHaveOutcomes(Next(r, ops[0].0, ops[0].1), ops[1..]);
    }
  }
}
