/**
 The activity registry: bounded ordered maps of observations, whose outcome only
 climbs and whose remote reports only move forward.
 */
module Activity {
  import opened Common

  const MAX_ACTIVE: nat := 256
  const MAX_RETAINED: nat := 64
  const MAX_ALIASES: nat := 512
  const ALIAS_RETENTION_SECONDS: int := 900

  // ---- Ordered maps

  /** A dictionary that remembers insertion order, oldest first. */
  datatype Ordered<K, V> = Ordered(keys: seq<K>, values: map<K, V>)

  ghost predicate Wellformed<K, V>(m: Ordered<K, V>) {
    && Distinct(m.keys)
    && (forall k | k in m.keys :: k in m.values) && (forall k | k in m.values :: k in m.keys)
  }

  function Put<K(==), V>(m: Ordered<K, V>, k: K, v: V): Ordered<K, V> {
    Ordered(if k in m.values then m.keys else m.keys + [k], m.values[k := v])
  }

  /** The keys that stay when `gone` go. */
  function Left<K(==)>(keys: seq<K>, gone: set<K>): seq<K>
    decreases |keys|
  {
    if keys == [] then []
    else
      var last := keys[|keys| - 1];
      Left(keys[..|keys| - 1], gone) + if last in gone then [] else [last]
  }

  ghost predicate Distinct<K>(keys: seq<K>) {
    forall i, j | 0 <= i < j < |keys| :: keys[i] != keys[j]
  }

  lemma {:induction false} LeftHolds<K>(keys: seq<K>, gone: set<K>, k: K)
    ensures k in Left(keys, gone) <==> k in keys && k !in gone
    decreases |keys|
  {
    if keys != [] {
      LeftHolds(keys[..|keys| - 1], gone, k);
      assert keys == keys[..|keys| - 1] + [keys[|keys| - 1]];
    }
  }

  lemma {:induction false} LeftIsDistinct<K>(keys: seq<K>, gone: set<K>)
    requires Distinct(keys)
    ensures Distinct(Left(keys, gone)) && |Left(keys, gone)| <= |keys|
    decreases |keys|
  {
    if keys != [] {
      var init, last := keys[..|keys| - 1], keys[|keys| - 1];
      LeftIsDistinct(init, gone);
      LeftHolds(init, gone, last);
    }
  }

  lemma {:induction false} LeftTwice<K>(keys: seq<K>, a: set<K>, b: set<K>)
    ensures Left(Left(keys, a), b) == Left(keys, a + b)
    decreases |keys|
  {
    if keys != [] {
      var init, last := keys[..|keys| - 1], keys[|keys| - 1];
      LeftTwice(init, a, b);
      var l := Left(init, a);
      assert l + [] == l && (l + [last])[..|l|] == l;
      assert Left(l, b) + [] == Left(l, b);
    }
  }

  function Dropping<K(==), V>(m: Ordered<K, V>, gone: set<K>): Ordered<K, V> {
    Ordered(Left(m.keys, gone), m.values - gone)
  }

  lemma DroppingKeeps<K, V>(m: Ordered<K, V>, gone: set<K>)
    requires Wellformed(m)
    ensures Wellformed(Dropping(m, gone)) && |Dropping(m, gone).keys| <= |m.keys|
  {
    LeftIsDistinct(m.keys, gone);
    forall k | k in Dropping(m, gone).keys ensures k in Dropping(m, gone).values {
      LeftHolds(m.keys, gone, k);
    }
    forall k | k in Dropping(m, gone).values ensures k in Dropping(m, gone).keys {
      LeftHolds(m.keys, gone, k);
    }
  }

  lemma DroppingTwice<K, V>(m: Ordered<K, V>, a: set<K>, b: set<K>)
    ensures Dropping(Dropping(m, a), b) == Dropping(m, a + b)
  {
    LeftTwice(m.keys, a, b);
    assert m.values - a - b == m.values - (a + b);
  }

  lemma {:induction false} LeftAll<K>(keys: seq<K>)
    ensures Left(keys, {}) == keys
    decreases |keys|
  {
    if keys != [] {
      LeftAll(keys[..|keys| - 1]);
    }
  }

  lemma DroppingNone<K, V>(m: Ordered<K, V>)
    ensures Dropping(m, {}) == m
  {
    LeftAll(m.keys);
    assert m.values - {} == m.values;
  }

  function Pop<K(==), V>(m: Ordered<K, V>, k: K): Ordered<K, V> {
    Dropping(m, {k})
  }

  /** What is left when the oldest go until at most `cap` are left. */
  function Newest<K(==), V>(m: Ordered<K, V>, cap: nat): Ordered<K, V>
    decreases |m.keys|
  {
    if |m.keys| <= cap then m
    else Newest(WithoutOldest(m), cap)
  }

  function WithoutOldest<K(==), V>(m: Ordered<K, V>): Ordered<K, V>
    requires m.keys != []
  {
    Ordered(m.keys[1..], m.values - {m.keys[0]})
  }

  lemma OldestGoes<K, V>(m: Ordered<K, V>)
    requires Wellformed(m) && m.keys != []
    ensures Wellformed(WithoutOldest(m))
  {
    var left := WithoutOldest(m);
    forall k | k in left.values ensures k in left.keys {
      assert k in m.keys && k != m.keys[0];
    }
    forall k | k in left.keys ensures k in left.values {
      var i :| 0 <= i < |left.keys| && left.keys[i] == k;
      assert m.keys[i + 1] == k;
    }
  }

  /** The newest stay, unchanged and in their order. */
  lemma {:induction false} NewestFits<K, V>(m: Ordered<K, V>, cap: nat)
    requires Wellformed(m)
    ensures Wellformed(Newest(m, cap)) && |Newest(m, cap).keys| <= cap
    ensures forall k | k in Newest(m, cap).values :: k in m.values && Newest(m, cap).values[k] == m.values[k]
    ensures |m.keys| <= cap ==> Newest(m, cap) == m
    decreases |m.keys|
  {
    if |m.keys| > cap {
      OldestGoes(m);
      NewestFits(WithoutOldest(m), cap);
    }
  }

  lemma {:induction false} NewestAreLast<K, V>(m: Ordered<K, V>, cap: nat)
    requires |m.keys| >= cap
    ensures Newest(m, cap).keys == m.keys[|m.keys| - cap..]
    decreases |m.keys|
  {
    if |m.keys| > cap {
      NewestAreLast(WithoutOldest(m), cap);
      assert m.keys[1..][|m.keys| - 1 - cap..] == m.keys[|m.keys| - cap..];
    }
  }

  lemma PutKeeps<K, V>(m: Ordered<K, V>, k: K, v: V)
    requires Wellformed(m)
    ensures Wellformed(Put(m, k, v))
  {
  }

  // ---- Outcomes

  datatype Outcome = Success | Unknown | Partial | Cancelled | Failed

  function Rank(o: Outcome): nat {
    match o
    case Success => 0
    case Unknown => 1
    case Partial => 2
    case Cancelled => 3
    case Failed => 4
  }

  /** A stricter outcome replaces the recorded one, a softer one does not. */
  function Stricter(current: Option<Outcome>, o: Outcome): Outcome {
    if current.None? || Rank(o) > Rank(current.value) then o else current.value
  }

  /** Reporting them one after the other. */
  function Recorded(reported: seq<Outcome>): Option<Outcome>
    decreases |reported|
  {
    if reported == [] then None
    else Some(Stricter(Recorded(reported[..|reported| - 1]), reported[|reported| - 1]))
  }

  /** `o` was reported and nothing stricter was. */
  ghost predicate IsStrictest(o: Outcome, reported: multiset<Outcome>) {
    o in reported && forall other | other in reported :: Rank(other) <= Rank(o)
  }

  lemma {:induction false} RecordedIsStrictest(reported: seq<Outcome>)
    ensures Recorded(reported).None? <==> reported == []
    ensures reported != [] ==> IsStrictest(Recorded(reported).value, multiset(reported))
    decreases |reported|
  {
    if reported != [] {
      var init, last := reported[..|reported| - 1], reported[|reported| - 1];
      assert reported == init + [last];
      RecordedIsStrictest(init);
    }
  }

  /** The order of the reports makes no difference. */
  lemma OutcomesJoin(a: seq<Outcome>, b: seq<Outcome>)
    requires multiset(a) == multiset(b)
    ensures Recorded(a) == Recorded(b)
  {
    RecordedIsStrictest(a);
    RecordedIsStrictest(b);
    assert |a| == |multiset(a)| == |multiset(b)| == |b|;
  }

  // ---- Observations

  datatype Progress = Progress(percent: bool, value: int, total: int)

  datatype Remote = Remote(service: string, job: string, phase: string, observedAt: Option<int>,
                           progress: Option<int>, total: Option<int>)

  /** The last two fields are history: every outcome reported, and the moment of
      every remote report since the submission. */
  datatype Observation = Observation(outcome: Option<Outcome>, progress: Option<Progress>, remote: Option<Remote>,
                                     expiresAt: Option<int>, reported: seq<Outcome>, moments: seq<int>)

  const BLANK: Observation := Observation(None, None, None, None, [], [])

  function Reported(o: Observation, outcome: Option<Outcome>): Observation {
    match outcome
    case None => o
    case Some(v) => o.(outcome := Some(Stricter(o.outcome, v)), reported := o.reported + [v])
  }

  /** Progress is kept when it is measured: 0 <= value <= total and 0 < total. */
  function Progressed(o: Observation, percent: bool, value: Option<int>, total: Option<int>): Observation {
    if value.None? || value.value < 0 || total.None? || total.value <= 0 || value.value > total.value then o
    else o.(progress := Some(Progress(percent, value.value, total.value)))
  }

  /** A count as a service sends it. */
  datatype Number = NotANumber | Finite(r: real)

  function Measure(n: Number): Option<int> {
    if n.NotANumber? || n.r < 0.0 then None else Some(n.r.Floor)
  }

  function Submitted(o: Observation, service: string, job: string): Observation {
    o.(remote := Some(Remote(service, job, "submitted", None, None, None)), moments := [])
  }

  function Observed(r: Remote, phase: string, progress: Number, total: Number, moment: int): Remote {
    r.(observedAt := Some(moment), phase := if phase != "" then phase else r.phase,
       progress := Measure(progress), total := Measure(total))
  }

  /** Progress shows while the remote job is being processed. */
  function Shown(o: Observation, r: Remote): Observation {
    if r.phase == "processing" then
      Progressed(o, true, r.progress, if r.total.Some? && r.total.value != 0 then r.total else Some(100))
    else o.(progress := None)
  }

  /** A report older than the last one changes nothing. */
  function Phased(o: Observation, phase: string, progress: Number, total: Number, moment: int): Observation {
    if o.remote.None? then o
    else
      var seen, r := o.(moments := o.moments + [moment]), o.remote.value;
      if r.observedAt.Some? && moment < r.observedAt.value then seen
      else
        var after := Observed(r, phase, progress, total, moment);
        Shown(seen.(remote := Some(after)), after)
  }

  function Latest(moments: seq<int>): Option<int>
    decreases |moments|
  {
    if moments == [] then None
    else
      var before, last := Latest(moments[..|moments| - 1]), moments[|moments| - 1];
      Some(if before.Some? && before.value > last then before.value else last)
  }

  /** What every stored observation satisfies. */
  ghost predicate Truthful(o: Observation) {
    && o.outcome == Recorded(o.reported)
    && (o.progress.Some? ==> 0 <= o.progress.value.value <= o.progress.value.total && o.progress.value.total > 0)
    && (o.remote.Some? ==> o.remote.value.observedAt == Latest(o.moments))
    && (o.remote.None? ==> o.moments == [])
  }

  lemma ReportedIsTruthful(o: Observation, outcome: Option<Outcome>)
    requires Truthful(o)
    ensures Truthful(Reported(o, outcome))
  {
    if outcome.Some? {
      assert (o.reported + [outcome.value])[..|o.reported|] == o.reported;
    }
  }

  lemma LatestMore(moments: seq<int>, moment: int)
    ensures Latest(moments + [moment])
         == Some(if Latest(moments).Some? && Latest(moments).value > moment then Latest(moments).value else moment)
  {
    assert (moments + [moment])[..|moments|] == moments;
  }

  lemma ProgressedIsTruthful(o: Observation, percent: bool, value: Option<int>, total: Option<int>)
    requires Truthful(o)
    ensures Truthful(Progressed(o, percent, value, total))
  {
  }

  lemma PhasedIsTruthful(o: Observation, phase: string, progress: Number, total: Number, moment: int)
    requires Truthful(o)
    ensures Truthful(Phased(o, phase, progress, total, moment))
    ensures o.remote.Some? && o.remote.value.observedAt.Some? && moment < o.remote.value.observedAt.value ==>
      Phased(o, phase, progress, total, moment) == o.(moments := o.moments + [moment])
  {
    if o.remote.Some? {
      SeenIsTruthful(o, phase, progress, total, moment);
      var after := Observed(o.remote.value, phase, progress, total, moment);
      ShownIsTruthful(o.(moments := o.moments + [moment]).(remote := Some(after)), after);
    }
  }

  lemma ShownIsTruthful(o: Observation, r: Remote)
    ensures Truthful(o) ==> Truthful(Shown(o, r))
  {
  }

  lemma SeenIsTruthful(o: Observation, phase: string, progress: Number, total: Number, moment: int)
    requires Truthful(o) && o.remote.Some?
    ensures
      var seen, r := o.(moments := o.moments + [moment]), o.remote.value;
      if r.observedAt.Some? && moment < r.observedAt.value then Truthful(seen)
      else Truthful(seen.(remote := Some(Observed(r, phase, progress, total, moment))))
  {
    LatestMore(o.moments, moment);
  }

  lemma {:induction false} LatestIsMaximum(moments: seq<int>)
    ensures moments == [] <==> Latest(moments).None?
    ensures moments != [] ==> Latest(moments).value in moments && forall m | m in moments :: m <= Latest(moments).value
    decreases |moments|
  {
    if moments != [] {
      var init, last := moments[..|moments| - 1], moments[|moments| - 1];
      assert moments == init + [last];
      LatestIsMaximum(init);
    }
  }

  // ---- The registry

  datatype Alias = Alias(service: string, job: string)

  datatype Bound = Bound(activity: string, at: int)

  datatype Registry = Registry(active: Ordered<string, Observation>, retained: Ordered<string, Observation>,
                               aliases: Ordered<Alias, Bound>)

  const EMPTY: Registry := Registry(Ordered([], map[]), Ordered([], map[]), Ordered([], map[]))

  /** Aliases older than the retention go first, wherever they stand. */
  function Unexpired(m: Ordered<Alias, Bound>, cutoff: int): Ordered<Alias, Bound> {
    Dropping(m, OlderThan(m, cutoff))
  }

  function OlderThan(m: Ordered<Alias, Bound>, cutoff: int): set<Alias> {
    set k | k in m.values && m.values[k].at < cutoff
  }

  function Trimmed(r: Registry, now: int): Registry {
    Registry(Newest(r.active, MAX_ACTIVE), Newest(r.retained, MAX_RETAINED),
             Newest(Unexpired(r.aliases, now - ALIAS_RETENTION_SECONDS), MAX_ALIASES))
  }

  datatype Op =
    | Register(id: string, ttl: Option<int>)
    | NoteProgress(id: string, percent: bool, value: Option<int>, total: Option<int>)
    | NoteSubmission(id: string, service: string, job: string)
    | NotePhase(
        activity: Option<string>, service: string, job: string, phase: string, done: Number, outOf: Number, moment: int)
    | NotePublication(id: string, outcome: Option<Outcome>)
    | Finish(id: string, outcome: Option<Outcome>)
    | Snapshot

  /** The activity a remote report is about. */
  function Target(r: Registry, id: Option<string>, service: string, job: string): Option<string> {
    if id.Some? then id
    else if service != "" && job != "" && Alias(service, job) in r.aliases.values
      then Some(r.aliases.values[Alias(service, job)].activity)
    else None
  }

  predicate Gone(o: Observation, now: int) {
    o.expiresAt.Some? && o.expiresAt.value <= now
  }

  function Expired(m: Ordered<string, Observation>, now: int): Ordered<string, Observation> {
    Dropping(m, AllGone(m, now))
  }

  function AllGone(m: Ordered<string, Observation>, now: int): set<string> {
    set k | k in m.values && Gone(m.values[k], now)
  }

  /** The observation a registration leaves: a blank one, or the one there was. */
  function Refreshed(m: Ordered<string, Observation>, id: string, ttl: Option<int>, now: int): Observation {
    var o := if id in m.values then m.values[id] else BLANK;
    if ttl.Some? && ttl.value != 0 then o.(expiresAt := Some(now + ttl.value)) else o
  }

  /** The observation leaves the active ones, and is retained if it has an outcome. */
  function Retired(r: Registry, id: string, o: Observation): Registry {
    var popped := r.(active := Pop(r.active, id));
    if o.outcome.Some? then popped.(retained := Put(r.retained, id, o)) else popped
  }

  function Next(r: Registry, op: Op, now: int): Registry {
    match op
    case Register(id, ttl) =>
      if id == "" then r
      else Trimmed(r.(active := Put(r.active, id, Refreshed(r.active, id, ttl, now))), now)
    case NoteProgress(id, percent, value, total) =>
      if id !in r.active.values then r
      else r.(active := Put(r.active, id, Progressed(r.active.values[id], percent, value, total)))
    case NoteSubmission(id, service, job) =>
      if id == "" || service == "" || job == "" || id !in r.active.values then r
      else
        Trimmed(r.(active := Put(r.active, id, Submitted(r.active.values[id], service, job)),
                   aliases := Put(r.aliases, Alias(service, job), Bound(id, now))), now)
    case NotePhase(id, service, job, phase, progress, total, moment) =>
      var target := Target(r, id, service, job);
      if target.None? || target.value !in r.active.values then r
      else r.(active := Put(r.active, target.value,
                            Phased(r.active.values[target.value], phase, progress, total, moment)))
    case NotePublication(id, outcome) =>
      if outcome.None? then r
      else if id in r.active.values then r.(active := Put(r.active, id, Reported(r.active.values[id], outcome)))
      else if id in r.retained.values then r.(retained := Put(r.retained, id, Reported(r.retained.values[id], outcome)))
      else r
    case Finish(id, outcome) =>
      if id !in r.active.values then r
      else
        Trimmed(Retired(r, id, Reported(r.active.values[id], outcome)), now)
    case Snapshot => r.(active := Expired(r.active, now))
  }

  function Run(r: Registry, ops: seq<(Op, int)>): Registry
    decreases |ops|
  {
    if ops == [] then r else Run(Next(r, ops[0].0, ops[0].1), ops[1..])
  }

  ghost predicate AllTruthful(m: Ordered<string, Observation>) {
    Wellformed(m) && forall k | k in m.values :: Truthful(m.values[k])
  }

  ghost predicate Inv(r: Registry) {
    && AllTruthful(r.active) && |r.active.keys| <= MAX_ACTIVE
    && AllTruthful(r.retained) && |r.retained.keys| <= MAX_RETAINED
    && Wellformed(r.aliases) && |r.aliases.keys| <= MAX_ALIASES
  }

  /** Exactly the expired observations go, and the others stay as they are, in their order. */
  lemma ExpiredGo(m: Ordered<string, Observation>, now: int)
    requires Wellformed(m)
    ensures Wellformed(Expired(m, now)) && |Expired(m, now).keys| <= |m.keys|
    ensures forall k :: k in Expired(m, now).values <==> k in m.values && !Gone(m.values[k], now)
    ensures forall k | k in Expired(m, now).values :: Expired(m, now).values[k] == m.values[k]
    ensures forall k :: k in Expired(m, now).keys <==> k in m.keys && !Gone(m.values[k], now)
  {
    DroppingKeeps(m, AllGone(m, now));
    forall k ensures k in Expired(m, now).keys <==> k in m.keys && !Gone(m.values[k], now) {
      LeftHolds(m.keys, AllGone(m, now), k);
    }
  }

  /** Exactly the aliases bound before the cutoff go. */
  lemma UnexpiredStay(m: Ordered<Alias, Bound>, cutoff: int)
    requires Wellformed(m)
    ensures Wellformed(Unexpired(m, cutoff)) && |Unexpired(m, cutoff).keys| <= |m.keys|
    ensures forall k :: k in Unexpired(m, cutoff).values <==> k in m.values && m.values[k].at >= cutoff
    ensures forall k | k in Unexpired(m, cutoff).values :: Unexpired(m, cutoff).values[k] == m.values[k]
    ensures forall k :: k in Unexpired(m, cutoff).keys <==> k in m.keys && m.values[k].at >= cutoff
  {
    DroppingKeeps(m, OlderThan(m, cutoff));
    forall k ensures k in Unexpired(m, cutoff).keys <==> k in m.keys && m.values[k].at >= cutoff {
      LeftHolds(m.keys, OlderThan(m, cutoff), k);
    }
  }

  lemma TrimmedFits(r: Registry, now: int)
    requires AllTruthful(r.active) && AllTruthful(r.retained) && Wellformed(r.aliases)
    ensures Inv(Trimmed(r, now))
  {
    NewestFits(r.active, MAX_ACTIVE);
    NewestFits(r.retained, MAX_RETAINED);
    UnexpiredStay(r.aliases, now - ALIAS_RETENTION_SECONDS);
    NewestFits(Unexpired(r.aliases, now - ALIAS_RETENTION_SECONDS), MAX_ALIASES);
  }

  lemma PutTruthful(m: Ordered<string, Observation>, id: string, o: Observation)
    requires AllTruthful(m) && Truthful(o)
    ensures AllTruthful(Put(m, id, o)) && |Put(m, id, o).keys| == if id in m.values then |m.keys| else |m.keys| + 1
  {
    PutKeeps(m, id, o);
  }

  lemma RefreshedIsTruthful(m: Ordered<string, Observation>, id: string, ttl: Option<int>, now: int)
    requires AllTruthful(m)
    ensures Truthful(Refreshed(m, id, ttl, now))
  {
    if id in m.values {
      assert Truthful(m.values[id]);
    }
  }

  lemma RegisterKeeps(r: Registry, id: string, ttl: Option<int>, now: int)
    requires Inv(r)
    ensures Inv(Next(r, Register(id, ttl), now))
  {
    if id != "" {
      RefreshedIsTruthful(r.active, id, ttl, now);
      PutTruthful(r.active, id, Refreshed(r.active, id, ttl, now));
      TrimmedFits(r.(active := Put(r.active, id, Refreshed(r.active, id, ttl, now))), now);
    }
  }

  /** An active observation gives way to a truthful one. */
  lemma ActiveReplaced(r: Registry, id: string, o: Observation)
    requires Inv(r) && id in r.active.values && Truthful(o)
    ensures Inv(r.(active := Put(r.active, id, o)))
  {
    PutTruthful(r.active, id, o);
  }

  lemma ProgressKeeps(r: Registry, id: string, percent: bool, value: Option<int>, total: Option<int>, now: int)
    requires Inv(r)
    ensures Inv(Next(r, NoteProgress(id, percent, value, total), now))
  {
    if id in r.active.values {
      ProgressedIsTruthful(r.active.values[id], percent, value, total);
      ActiveReplaced(r, id, Progressed(r.active.values[id], percent, value, total));
    }
  }

  lemma SubmissionKeeps(r: Registry, id: string, service: string, job: string, now: int)
    requires Inv(r)
    ensures Inv(Next(r, NoteSubmission(id, service, job), now))
  {
    if id in r.active.values {
      var o := Submitted(r.active.values[id], service, job);
      SubmittedIsTruthful(r.active.values[id], service, job);
      PutTruthful(r.active, id, o);
      PutKeeps(r.aliases, Alias(service, job), Bound(id, now));
      var aliases := Put(r.aliases, Alias(service, job), Bound(id, now));
      TrimmedFits(r.(active := Put(r.active, id, o), aliases := aliases), now);
    }
  }

  lemma SubmittedIsTruthful(o: Observation, service: string, job: string)
    requires Truthful(o)
    ensures Truthful(Submitted(o, service, job))
  {
  }

  lemma PhaseKeeps(
      r: Registry, id: Option<string>, service: string, job: string, phase: string, done: Number, outOf: Number,
      moment: int, now: int)
    requires Inv(r)
    ensures Inv(Next(r, NotePhase(id, service, job, phase, done, outOf, moment), now))
  {
    var target := Target(r, id, service, job);
    if target.Some? && target.value in r.active.values {
      PhasedIsTruthful(r.active.values[target.value], phase, done, outOf, moment);
      ActiveReplaced(r, target.value, Phased(r.active.values[target.value], phase, done, outOf, moment));
    }
  }

  /** Where a publication is noted. */
  lemma PublicationIsNoted(r: Registry, id: string, outcome: Option<Outcome>, now: int)
    ensures
      Next(r, NotePublication(id, outcome), now)
      == if id in r.active.values then r.(active := Put(r.active, id, Reported(r.active.values[id], outcome)))
         else if id in r.retained.values then
           r.(retained := Put(r.retained, id, Reported(r.retained.values[id], outcome)))
         else r
  {
  }

  lemma PublicationKeeps(r: Registry, id: string, outcome: Option<Outcome>, now: int)
    requires Inv(r)
    ensures Inv(Next(r, NotePublication(id, outcome), now))
  {
    PublicationIsNoted(r, id, outcome, now);
    if id in r.active.values {
      ReportedIsTruthful(r.active.values[id], outcome);
      ActiveReplaced(r, id, Reported(r.active.values[id], outcome));
    } else if id in r.retained.values {
      ReportedIsTruthful(r.retained.values[id], outcome);
      RetainedReplaced(r, id, Reported(r.retained.values[id], outcome));
    }
  }

  lemma RetainedReplaced(r: Registry, id: string, o: Observation)
    requires Inv(r) && id in r.retained.values && Truthful(o)
    ensures Inv(r.(retained := Put(r.retained, id, o)))
  {
    PutTruthful(r.retained, id, o);
  }

  lemma PopTruthful(m: Ordered<string, Observation>, id: string)
    requires AllTruthful(m)
    ensures AllTruthful(Pop(m, id)) && |Pop(m, id).keys| <= |m.keys|
  {
    DroppingKeeps(m, {id});
  }

  lemma FinishTrims(r: Registry, id: string, outcome: Option<Outcome>, now: int)
    requires id in r.active.values
    ensures Next(r, Finish(id, outcome), now) == Trimmed(Retired(r, id, Reported(r.active.values[id], outcome)), now)
  {
  }

  lemma FinishKeeps(r: Registry, id: string, outcome: Option<Outcome>, now: int)
    requires Inv(r)
    ensures Inv(Next(r, Finish(id, outcome), now))
  {
    if id in r.active.values {
      var o := Reported(r.active.values[id], outcome);
      ReportedIsTruthful(r.active.values[id], outcome);
      PopTruthful(r.active, id);
      PutTruthful(r.retained, id, o);
      TrimmedFits(Retired(r, id, o), now);
    }
  }

  lemma SnapshotKeeps(r: Registry, now: int)
    requires Inv(r)
    ensures Inv(Next(r, Snapshot, now))
  {
    ExpiredGo(r.active, now);
  }

  lemma StepKeeps(r: Registry, op: Op, now: int)
    requires Inv(r)
    ensures Inv(Next(r, op, now))
  {
    match op
    case Register(id, ttl) => RegisterKeeps(r, id, ttl, now);
    case NoteProgress(id, percent, value, total) => ProgressKeeps(r, id, percent, value, total, now);
    case NoteSubmission(id, service, job) => SubmissionKeeps(r, id, service, job, now);
    case NotePhase(id, service, job, phase, done, outOf, moment) =>
      PhaseKeeps(r, id, service, job, phase, done, outOf, moment, now);
    case NotePublication(id, outcome) => PublicationKeeps(r, id, outcome, now);
    case Finish(id, outcome) => FinishKeeps(r, id, outcome, now);
    case Snapshot => SnapshotKeeps(r, now);
  }

  lemma {:induction false} RunKeeps(r: Registry, ops: seq<(Op, int)>)
    requires Inv(r)
    ensures Inv(Run(r, ops))
    decreases |ops|
  {
    if ops != [] {
      StepKeeps(r, ops[0].0, ops[0].1);
      RunKeeps(Next(r, ops[0].0, ops[0].1), ops[1..]);
    }
  }

  /** Over every run: the maps stay within their caps, and each observation holds
      the strictest outcome ever reported for it, the latest moment reported since
      its submission, and only measured progress. */
  lemma RegistryTellsTheTruth(ops: seq<(Op, int)>, id: string)
    ensures
      var r := Run(EMPTY, ops);
      && |r.active.keys| <= MAX_ACTIVE && |r.retained.keys| <= MAX_RETAINED && |r.aliases.keys| <= MAX_ALIASES
      && (id in r.active.values ==>
            var o := r.active.values[id];
            && (if o.reported == [] then o.outcome == None
                else o.outcome.Some? && IsStrictest(o.outcome.value, multiset(o.reported)))
            && (o.remote.Some? && o.moments != [] ==>
                  o.remote.value.observedAt.Some? && o.remote.value.observedAt.value in o.moments
                  && forall m | m in o.moments :: m <= o.remote.value.observedAt.value)
            && (o.progress.Some? ==>
                  0 <= o.progress.value.value <= o.progress.value.total && o.progress.value.total > 0))
      && (id in r.retained.values ==>
            var o := r.retained.values[id];
            if o.reported == [] then o.outcome == None
            else o.outcome.Some? && IsStrictest(o.outcome.value, multiset(o.reported)))
  {
    RunKeeps(EMPTY, ops);
    var r := Run(EMPTY, ops);
    if id in r.active.values {
      RecordedIsStrictest(r.active.values[id].reported);
      LatestIsMaximum(r.active.values[id].moments);
    }
    if id in r.retained.values {
      RecordedIsStrictest(r.retained.values[id].reported);
    }
  }

  // ---- The registry in place

  class ActivityRegistry {
    var active: Ordered<string, Observation>
    var retained: Ordered<string, Observation>
    var aliases: Ordered<Alias, Bound>

    function Contents(): Registry
      reads this
    {
      Registry(active, retained, aliases)
    }

    constructor ()
      ensures Contents() == EMPTY && Inv(Contents())
    {
      active, retained, aliases := Ordered([], map[]), Ordered([], map[]), Ordered([], map[]);
    }

    method Trim(now: int)
      requires AllTruthful(active) && AllTruthful(retained) && Wellformed(aliases)
      modifies this
      ensures Contents() == Trimmed(old(Contents()), now) && Inv(Contents())
    {
      ghost var before := Contents();
      while |active.keys| > MAX_ACTIVE
        invariant Newest(active, MAX_ACTIVE) == Newest(before.active, MAX_ACTIVE)
        invariant retained == before.retained && aliases == before.aliases
        decreases |active.keys|
      {
        active := WithoutOldest(active);
      }
      while |retained.keys| > MAX_RETAINED
        invariant Newest(retained, MAX_RETAINED) == Newest(before.retained, MAX_RETAINED)
        invariant active == Newest(before.active, MAX_ACTIVE) && aliases == before.aliases
        decreases |retained.keys|
      {
        retained := WithoutOldest(retained);
      }
      TrimAliases(now - ALIAS_RETENTION_SECONDS);
      TrimmedFits(before, now);
    }

    method TrimAliases(cutoff: int)
      modifies this`aliases
      ensures aliases == Newest(Unexpired(old(aliases), cutoff), MAX_ALIASES)
    {
      ghost var before := aliases;
      var stale, dropped := OlderThan(aliases, cutoff), {};
      DroppingNone(before);
      while dropped != stale
        invariant dropped <= stale && aliases == Dropping(before, dropped)
        decreases stale - dropped
      {
        var key := AnyOf(stale - dropped);
        DroppingTwice(before, dropped, {key});
        aliases, dropped := Pop(aliases, key), dropped + {key};
      }
      while |aliases.keys| > MAX_ALIASES
        invariant Newest(aliases, MAX_ALIASES) == Newest(Unexpired(before, cutoff), MAX_ALIASES)
        decreases |aliases.keys|
      {
        aliases := WithoutOldest(aliases);
      }
    }

    method RegisterActivity(id: string, ttl: Option<int>, now: int)
      requires Inv(Contents())
      modifies this
      ensures Contents() == Next(old(Contents()), Register(id, ttl), now) && Inv(Contents())
    {
      StepKeeps(Contents(), Register(id, ttl), now);
      if id == "" {
        return;
      }
      var o := Refreshed(active, id, ttl, now);
      PutTruthful(active, id, o);
      active := Put(active, id, o);
      Trim(now);
    }

    method NoteMeasured(id: string, percent: bool, value: Option<int>, total: Option<int>, now: int)
      requires Inv(Contents())
      modifies this
      ensures Contents() == Next(old(Contents()), NoteProgress(id, percent, value, total), now) && Inv(Contents())
    {
      StepKeeps(Contents(), NoteProgress(id, percent, value, total), now);
      if id in active.values {
        active := Put(active, id, Progressed(active.values[id], percent, value, total));
      }
    }

    method NoteRemoteSubmission(id: string, service: string, job: string, now: int)
      requires Inv(Contents())
      modifies this
      ensures Contents() == Next(old(Contents()), NoteSubmission(id, service, job), now) && Inv(Contents())
    {
      StepKeeps(Contents(), NoteSubmission(id, service, job), now);
      if id == "" || service == "" || job == "" || id !in active.values {
        return;
      }
      var o := Submitted(active.values[id], service, job);
      PutTruthful(active, id, o);
      PutKeeps(aliases, Alias(service, job), Bound(id, now));
      active := Put(active, id, o);
      aliases := Put(aliases, Alias(service, job), Bound(id, now));
      Trim(now);
    }

    method NoteRemotePhase(id: Option<string>, service: string, job: string, phase: string,
                           progress: Number, total: Number, moment: int, now: int)
      requires Inv(Contents())
      modifies this
      ensures Contents() == Next(old(Contents()), NotePhase(id, service, job, phase, progress, total, moment), now)
      ensures Inv(Contents())
    {
      StepKeeps(Contents(), NotePhase(id, service, job, phase, progress, total, moment), now);
      var target := id;
      if target.None? && service != "" && job != "" && Alias(service, job) in aliases.values {
        target := Some(aliases.values[Alias(service, job)].activity);
      }
      if target.None? || target.value !in active.values {
        return;
      }
      active := Put(active, target.value, Phased(active.values[target.value], phase, progress, total, moment));
    }

    method NoteOutcome(id: string, outcome: Option<Outcome>, now: int)
      requires Inv(Contents())
      modifies this
      ensures Contents() == Next(old(Contents()), NotePublication(id, outcome), now) && Inv(Contents())
    {
      StepKeeps(Contents(), NotePublication(id, outcome), now);
      if outcome.None? {
        return;
      }
      if id in active.values {
        active := Put(active, id, Reported(active.values[id], outcome));
      } else if id in retained.values {
        retained := Put(retained, id, Reported(retained.values[id], outcome));
      }
    }

    method FinishActivity(id: string, outcome: Option<Outcome>, now: int)
      requires Inv(Contents())
      modifies this
      ensures Contents() == Next(old(Contents()), Finish(id, outcome), now) && Inv(Contents())
    {
      if id !in active.values {
        return;
      }
      FinishTrims(Contents(), id, outcome, now);
      ReportedIsTruthful(active.values[id], outcome);
      Retire(id, Reported(active.values[id], outcome));
      Trim(now);
    }

    method Retire(id: string, o: Observation)
      requires Inv(Contents()) && Truthful(o)
      modifies this`active, this`retained
      ensures Contents() == Retired(old(Contents()), id, o)
      ensures AllTruthful(active) && AllTruthful(retained) && Wellformed(aliases)
    {
      PopTruthful(active, id);
      PutTruthful(retained, id, o);
      active := Pop(active, id);
      if o.outcome.Some? {
        retained := Put(retained, id, o);
      }
    }

    method PruneExpired(now: int)
      requires Inv(Contents())
      modifies this
      ensures Contents() == Next(old(Contents()), Snapshot, now) && Inv(Contents())
    {
      StepKeeps(Contents(), Snapshot, now);
      DropExpired(now);
    }

    method DropExpired(now: int)
      modifies this`active
      ensures active == Expired(old(active), now)
    {
      var gone, dropped := AllGone(active, now), {};
      DroppingNone(active);
      while dropped != gone
        invariant dropped <= gone && active == Dropping(old(active), dropped)
        decreases gone - dropped
      {
        var key := AnyOf(gone - dropped);
        DroppingTwice(old(active), dropped, {key});
        active, dropped := Pop(active, key), dropped + {key};
      }
    }
  }
}
