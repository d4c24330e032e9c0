/**
 Histories, retries, capacity, order and progress of the jobs queue.
 */
module JobsProgress {
  import opened JobsModel
  import opened JobsTheorems

  // ---- The two history queues

  function Newest(log: seq<Job>): seq<Job> {
    if |log| > HISTORY then log[|log| - HISTORY..] else log
  }

  ghost predicate HistoriesExact(q: Queue) {
    q.failed == Newest(q.failedLog) && q.completed == Newest(q.completedLog)
  }

  lemma RememberIsNewest(log: seq<Job>, job: Job)
    ensures Remember(Newest(log), job) == Newest(log + [job])
  {
  }

  lemma RecordedExact(q: Queue, id: nat)
    requires HistoriesExact(q)
    ensures HistoriesExact(Recorded(q, id))
  {
    if IndexOf(q.finishing, id) < |q.finishing| {
      var job := q.finishing[IndexOf(q.finishing, id)];
      RememberIsNewest(q.failedLog, job);
      RememberIsNewest(q.completedLog, job);
    }
  }

  lemma StepExact(q: Queue, limits: Limits, step: Step)
    requires HistoriesExact(q)
    ensures HistoriesExact(Next(q, limits, step))
  {
    match step
    case Record(id) => RecordedExact(q, id);
    case _ =>
  }

  /** Over every run the history queues are the newest ten finishes since the
      last clear, in the order they finished. */
  lemma {:induction false} HistoriesAreTheNewest(q: Queue, limits: Limits, steps: seq<Step>)
    requires HistoriesExact(q)
    ensures HistoriesExact(Run(q, limits, steps))
    decreases |steps|
  {
    if steps != [] {
      StepExact(q, limits, steps[0]);
      HistoriesAreTheNewest(Next(q, limits, steps[0]), limits, steps[1..]);
    }
  }

  // ---- Retries

  /** A job issued, retrying only what was issued before it. */
  predicate Descends(job: Job, currentId: nat) {
    1 <= job.id <= currentId && (job.retryOf.Some? ==> job.retryOf.value < job.id)
  }

  predicate AllIn(jobs: seq<Job>, currentId: nat) {
    forall i | 0 <= i < |jobs| :: Descends(jobs[i], currentId)
  }

  predicate AllDescend(q: Queue) {
    && AllIn(q.pending, q.currentId) && AllIn(q.running, q.currentId) && AllIn(q.finishing, q.currentId)
    && AllIn(q.failed, q.currentId) && AllIn(q.completed, q.currentId)
    && (forall job | job in q.lookedUp :: Descends(job, q.currentId))
  }

  lemma FedDescends(q: Queue, r: Request)
    requires AllDescend(q) && (r.retryOf.Some? ==> r.retryOf.value <= q.currentId)
    ensures AllDescend(Fed(q, r))
  {
  }

  lemma AllInWithout(jobs: seq<Job>, i: nat, currentId: nat)
    requires i < |jobs| && AllIn(jobs, currentId)
    ensures AllIn(Without(jobs, i), currentId) && Descends(jobs[i], currentId)
  {
  }

  lemma AllInAppended(jobs: seq<Job>, job: Job, currentId: nat)
    requires AllIn(jobs, currentId) && Descends(job, currentId)
    ensures AllIn(jobs + [job], currentId) && AllIn([job] + jobs, currentId)
  {
  }

  lemma PendingDescends(q: Queue, limits: Limits, step: Step)
    requires AllDescend(q) && (step.Reserve? || step.Force? || step.Remove? || step.Move?)
    ensures AllDescend(Next(q, limits, step))
  {
    var i := if step.Reserve? then 0 else IndexOf(q.pending, step.id);
    if i < |q.pending| {
      AllInWithout(q.pending, i, q.currentId);
      AllInAppended(q.running, q.pending[i], q.currentId);
      AllInAppended(Without(q.pending, i), q.pending[i], q.currentId);
      assert step.Reserve? ==> Without(q.pending, i) == q.pending[1..];
    }
  }

  lemma RecordedDescends(q: Queue, id: nat)
    requires AllDescend(q)
    ensures AllDescend(Recorded(q, id))
  {
    var i := IndexOf(q.finishing, id);
    if i < |q.finishing| {
      assert Descends(q.finishing[i], q.currentId);
      assert AllIn(Without(q.finishing, i), q.currentId);
    }
  }

  lemma StartDescends(q: Queue, limits: Limits, id: nat)
    requires AllDescend(q)
    ensures AllDescend(Next(q, limits, Start(id)))
  {
    var i := IndexOf(q.running, id);
    if i < |q.running| {
      assert Descends(q.running[i], q.currentId);
    }
  }

  lemma FinishDescends(q: Queue, limits: Limits, id: nat, outcome: Outcome)
    requires AllDescend(q)
    ensures AllDescend(Next(q, limits, Finish(id, outcome)))
  {
    var i := IndexOf(q.running, id);
    if i < |q.running| {
      AllInWithout(q.running, i, q.currentId);
      AllInAppended(q.finishing, Ended(q.running[i], outcome), q.currentId);
    }
  }

  lemma AsideDescends(q: Queue, limits: Limits, step: Step)
    requires AllDescend(q)
    requires step.LookUpFailed? || step.Clear? || step.ClaimInline? || step.Release?
    ensures AllDescend(Next(q, limits, step))
  {
  }

  lemma StepDescends(q: Queue, limits: Limits, step: Step)
    requires AllDescend(q)
    ensures AllDescend(Next(q, limits, step))
  {
    match step
    case Feed(r) =>
      if r.retryOf.None? {
        FedDescends(q, r);
      }
    case Retry(job) =>
      if job in q.lookedUp {
        FedDescends(q, RetryRequest(job));
      }
    case Reserve => PendingDescends(q, limits, step);
    case Force(_) => PendingDescends(q, limits, step);
    case Remove(_) => PendingDescends(q, limits, step);
    case Move(_, _) => PendingDescends(q, limits, step);
    case Record(id) => RecordedDescends(q, id);
    case Start(id) => StartDescends(q, limits, id);
    case Finish(id, outcome) => FinishDescends(q, limits, id, outcome);
    case _ => AsideDescends(q, limits, step);
  }

  /** Over every run each retry is younger than what it retries, so no chain of
      retries ever comes back. */
  lemma {:induction false} RetriesDescend(q: Queue, limits: Limits, steps: seq<Step>)
    requires AllDescend(q)
    ensures AllDescend(Run(q, limits, steps))
    decreases |steps|
  {
    if steps != [] {
      StepDescends(q, limits, steps[0]);
      RetriesDescend(Next(q, limits, steps[0]), limits, steps[1..]);
    }
  }

  // ---- Capacity

  function Unforced(jobs: seq<Job>, forced: set<nat>): nat
    decreases |jobs|
  {
    if jobs == [] then 0
    else Unforced(jobs[..|jobs| - 1], forced) + if jobs[|jobs| - 1].id in forced then 0 else 1
  }

  function UnforcedTranslations(jobs: seq<Job>, forced: set<nat>): nat
    decreases |jobs|
  {
    if jobs == [] then 0
    else
      var last := jobs[|jobs| - 1];
      UnforcedTranslations(jobs[..|jobs| - 1], forced) + if IsTranslation(last) && last.id !in forced then 1 else 0
  }

  function AtLeastZero(n: int): int {
    if n < 0 then 0 else n
  }

  ghost predicate WithinLimits(q: Queue, limits: Limits) {
    && Unforced(q.running, q.forced) <= AtLeastZero(limits.general)
    && UnforcedTranslations(q.running, q.forced) <= AtLeastZero(limits.lane)
  }

  lemma CountsAppended(jobs: seq<Job>, job: Job, forced: set<nat>)
    ensures Unforced(jobs + [job], forced) == Unforced(jobs, forced) + if job.id in forced then 0 else 1
    ensures UnforcedTranslations(jobs + [job], forced)
         == UnforcedTranslations(jobs, forced) + if IsTranslation(job) && job.id !in forced then 1 else 0
  {
    assert (jobs + [job])[..|jobs|] == jobs;
  }

  lemma {:induction false} CountsBounded(jobs: seq<Job>, forced: set<nat>, more: set<nat>)
    requires forced <= more
    ensures Unforced(jobs, more) <= Unforced(jobs, forced) <= |jobs|
    ensures UnforcedTranslations(jobs, more) <= UnforcedTranslations(jobs, forced) <= Translations(jobs)
    decreases |jobs|
  {
    if jobs != [] {
      CountsBounded(jobs[..|jobs| - 1], forced, more);
    }
  }

  lemma {:induction false} CountsWithout(jobs: seq<Job>, i: nat, forced: set<nat>)
    requires i < |jobs|
    ensures Unforced(Without(jobs, i), forced) <= Unforced(jobs, forced)
    ensures UnforcedTranslations(Without(jobs, i), forced) <= UnforcedTranslations(jobs, forced)
    decreases |jobs|
  {
    var init, last := jobs[..|jobs| - 1], jobs[|jobs| - 1];
    if i == |jobs| - 1 {
      assert Without(jobs, i) == init;
    } else {
      CountsWithout(init, i, forced);
      assert Without(jobs, i) == Without(init, i) + [last];
      CountsAppended(Without(init, i), last, forced);
    }
  }

  lemma {:induction false} CountsRestarted(jobs: seq<Job>, i: nat, forced: set<nat>)
    requires i < |jobs|
    ensures Unforced(jobs[i := Started(jobs[i])], forced) == Unforced(jobs, forced)
    ensures UnforcedTranslations(jobs[i := Started(jobs[i])], forced) == UnforcedTranslations(jobs, forced)
    decreases |jobs|
  {
    var init, last := jobs[..|jobs| - 1], jobs[|jobs| - 1];
    var after := jobs[i := Started(jobs[i])];
    if i == |jobs| - 1 {
      assert after[..|jobs| - 1] == init;
    } else {
      CountsRestarted(init, i, forced);
      assert after[..|jobs| - 1] == init[i := Started(init[i])];
    }
  }

  lemma ReserveWithinLimits(q: Queue, limits: Limits)
    requires WithinLimits(q, limits)
    ensures WithinLimits(Reserved(q, limits), limits)
  {
    if Reserved(q, limits) != q {
      CountsAppended(q.running, q.pending[0], q.forced);
      CountsBounded(q.running, q.forced, q.forced);
    }
  }

  lemma ForceWithinLimits(q: Queue, limits: Limits, id: nat)
    requires WithinLimits(q, limits)
    ensures WithinLimits(Forced(q, id), limits)
  {
    var i := IndexOf(q.pending, id);
    if i < |q.pending| {
      CountsAppended(q.running, q.pending[i], q.forced + {id});
      CountsBounded(q.running, q.forced, q.forced + {id});
    }
  }

  lemma StartWithinLimits(q: Queue, limits: Limits, id: nat)
    requires WithinLimits(q, limits)
    ensures WithinLimits(Next(q, limits, Start(id)), limits)
  {
    if IndexOf(q.running, id) < |q.running| {
      CountsRestarted(q.running, IndexOf(q.running, id), q.forced);
    }
  }

  lemma FinishWithinLimits(q: Queue, limits: Limits, id: nat, outcome: Outcome)
    requires WithinLimits(q, limits)
    ensures WithinLimits(Next(q, limits, Finish(id, outcome)), limits)
  {
    if IndexOf(q.running, id) < |q.running| {
      CountsWithout(q.running, IndexOf(q.running, id), q.forced);
    }
  }

  lemma AsideWithinLimits(q: Queue, limits: Limits, step: Step)
    requires WithinLimits(q, limits) && !step.Reserve? && !step.Force? && !step.Start? && !step.Finish?
    ensures WithinLimits(Next(q, limits, step), limits)
  {
    var after := Next(q, limits, step);
    assert after.running == q.running && after.forced == q.forced;
  }

  lemma StepWithinLimits(q: Queue, limits: Limits, step: Step)
    requires WithinLimits(q, limits)
    ensures WithinLimits(Next(q, limits, step), limits)
  {
    match step
    case Reserve => ReserveWithinLimits(q, limits);
    case Force(id) => ForceWithinLimits(q, limits, id);
    case Start(id) => StartWithinLimits(q, limits, id);
    case Finish(id, outcome) => FinishWithinLimits(q, limits, id, outcome);
    case _ => AsideWithinLimits(q, limits, step);
  }

  /** Over every run under fixed limits, whatever is forced past them, the
      running jobs nobody forced stay within the general limit and the
      translations among them within the lane. */
  lemma {:induction false} CapacityHolds(q: Queue, limits: Limits, steps: seq<Step>)
    requires WithinLimits(q, limits)
    ensures WithinLimits(Run(q, limits, steps), limits)
    decreases |steps|
  {
    if steps != [] {
      StepWithinLimits(q, limits, steps[0]);
      CapacityHolds(Next(q, limits, steps[0]), limits, steps[1..]);
    }
  }

  // ---- Order

  predicate Ordered(step: Step) {
    !step.Move? && !step.Force?
  }

  predicate Increasing(ids: seq<nat>) {
    forall i, j | 0 <= i < j < |ids| :: ids[i] < ids[j]
  }

  /** Reserved ids in order, then the pending ones in order, up to the newest. */
  ghost predicate InIdOrder(q: Queue) {
    InOrderUpTo(q.reserved + Ids(q.pending), q.currentId)
  }

  ghost predicate InOrderUpTo(ids: seq<nat>, last: nat) {
    Increasing(ids) && forall id | id in ids :: id <= last
  }

  lemma IncreasingWithout(ids: seq<nat>, i: nat, last: nat)
    requires i < |ids| && InOrderUpTo(ids, last)
    ensures InOrderUpTo(Without(ids, i), last)
  {
    forall id | id in Without(ids, i) ensures id in ids {
    }
  }

  lemma FedInOrder(q: Queue, r: Request)
    requires InIdOrder(q)
    ensures InIdOrder(Fed(q, r))
  {
    var after := Fed(q, r);
    if after != q {
      var ids := q.reserved + Ids(q.pending);
      assert after.reserved + Ids(after.pending) == ids + [q.currentId + 1];
      forall i | 0 <= i < |ids| ensures ids[i] <= q.currentId {
        assert ids[i] in ids;
      }
    }
  }

  lemma RemovedInOrder(q: Queue, id: nat)
    requires InIdOrder(q)
    ensures InIdOrder(Removed(q, id))
  {
    var i, after := IndexOf(q.pending, id), Removed(q, id);
    if i < |q.pending| && after != q {
      WithoutInOrder(q, i, after);
    }
  }

  lemma WithoutInOrder(q: Queue, i: nat, after: Queue)
    requires InIdOrder(q) && i < |q.pending| && after.reserved == q.reserved && after.currentId == q.currentId
    requires after.pending == Without(q.pending, i)
    ensures InIdOrder(after)
  {
    IncreasingWithout(q.reserved + Ids(q.pending), |q.reserved| + i, q.currentId);
    ReservedWithout(q.reserved, q.pending, i);
  }

  lemma ReservedWithout(reserved: seq<nat>, pending: seq<Job>, i: nat)
    requires i < |pending|
    ensures reserved + Ids(Without(pending, i)) == Without(reserved + Ids(pending), |reserved| + i)
  {
  }

  lemma StepInOrder(q: Queue, limits: Limits, step: Step)
    requires InIdOrder(q) && Ordered(step)
    ensures InIdOrder(Next(q, limits, step))
  {
    var after := Next(q, limits, step);
    match step
    case Feed(r) => FedInOrder(q, r);
    case Retry(job) => FedInOrder(q, RetryRequest(job));
    case Remove(id) => RemovedInOrder(q, id);
    case Reserve =>
      if after != q {
        assert after.reserved + Ids(after.pending) == q.reserved + Ids(q.pending);
      }
    case Clear(PendingList) =>
      var ids := q.reserved + Ids(q.pending);
      assert after.reserved + Ids(after.pending) == ids[..|q.reserved|];
      forall id | id in ids[..|q.reserved|] ensures id in ids {
      }
    case _ =>
  }

  /** Over every run with no move and no forced start, jobs are reserved in the
      order of their ids. */
  lemma {:induction false} ReservedInIdOrder(q: Queue, limits: Limits, steps: seq<Step>)
    requires InIdOrder(q) && forall step | step in steps :: Ordered(step)
    ensures InIdOrder(Run(q, limits, steps)) && Increasing(Run(q, limits, steps).reserved)
    decreases |steps|
  {
    if steps != [] {
      StepInOrder(q, limits, steps[0]);
      ReservedInIdOrder(Next(q, limits, steps[0]), limits, steps[1..]);
    } else {
      forall i, j | 0 <= i < j < |q.reserved| ensures q.reserved[i] < q.reserved[j] {
        var ids := q.reserved + Ids(q.pending);
        assert ids[i] == q.reserved[i] && ids[j] == q.reserved[j];
      }
    }
  }

  // ---- Progress

  function Measure(q: Queue): nat {
    2 * |q.pending| + |q.running|
  }

  /** The consumer reserves the head, or a worker finishes a running job. */
  predicate Advances(q: Queue, limits: Limits, step: Step) {
    || (step.Reserve? && q.pending != [] && HasCapacity(q, limits, q.pending[0]))
    || (step.Finish? && IndexOf(q.running, step.id) < |q.running|)
  }

  predicate Advancing(q: Queue, limits: Limits, steps: seq<Step>)
    decreases |steps|
  {
    steps == [] || (Advances(q, limits, steps[0]) && Advancing(Next(q, limits, steps[0]), limits, steps[1..]))
  }

  lemma {:induction false} SomeTranslationRuns(jobs: seq<Job>)
    ensures Translations(jobs) > 0 ==> jobs != []
  {
  }

  /** A head that may not start waits for a job that runs. */
  lemma BlockedHeadWaitsForARunningJob(q: Queue, limits: Limits)
    requires limits.general >= 1 && limits.lane >= 1
    requires q.pending != [] && !HasCapacity(q, limits, q.pending[0])
    ensures q.running != []
    ensures forall outcome :: Advances(q, limits, Finish(q.running[0].id, outcome))
  {
    SomeTranslationRuns(q.running);
    assert IndexOf(q.running, q.running[0].id) == 0;
  }

  /** With both limits at least 1, a queue in which no one can go on is empty. */
  lemma StuckIsEmpty(q: Queue, limits: Limits)
    requires limits.general >= 1 && limits.lane >= 1
    ensures (forall step :: !Advances(q, limits, step)) <==> q.pending == [] && q.running == []
  {
    if q.running != [] {
      assert IndexOf(q.running, q.running[0].id) == 0;
      assert Advances(q, limits, Finish(q.running[0].id, Succeeded));
    } else if q.pending != [] {
      SomeTranslationRuns(q.running);
      assert Advances(q, limits, Reserve);
    }
  }

  /** A run of advances is exactly as long as the measure it uses up. */
  lemma {:induction false} AdvancesUseTheMeasure(q: Queue, limits: Limits, steps: seq<Step>)
    requires Advancing(q, limits, steps)
    ensures Measure(Run(q, limits, steps)) + |steps| == Measure(q)
    decreases |steps|
  {
    if steps != [] {
      AdvancesUseTheMeasure(Next(q, limits, steps[0]), limits, steps[1..]);
    }
  }

  /** Every step that may bring new work into the queue. */
  predicate Brings(step: Step) {
    step.Feed? || step.Retry?
  }

  /** What takes a job on: out of the pending ones, or out of the running ones. */
  predicate TakesOn(q: Queue, limits: Limits, step: Step) {
    match step
    case Force(id) => Forced(q, id) != q
    case Remove(id) => Removed(q, id) != q
    case Move(id, Elsewhere) => Moved(q, id, Elsewhere) != q
    case Clear(PendingList) => q.pending != []
    case _ => Advances(q, limits, step)
  }

  lemma StepDrains(q: Queue, limits: Limits, step: Step)
    requires !Brings(step)
    ensures Measure(Next(q, limits, step)) <= Measure(q)
    ensures TakesOn(q, limits, step) ==> Measure(Next(q, limits, step)) < Measure(q)
  {
  }

  /** How many steps of the run take a job on. */
  function TakenOn(q: Queue, limits: Limits, steps: seq<Step>): nat
    decreases |steps|
  {
    if steps == [] then 0
    else (if TakesOn(q, limits, steps[0]) then 1 else 0) + TakenOn(Next(q, limits, steps[0]), limits, steps[1..])
  }

  /** Over every run with nothing new fed, whatever else is done, the measure never
      rises, and each reserve, finish, forced start and removal lowers it; with both
      limits at least 1, a queue that cannot go on has emptied. */
  lemma {:induction false} QueueDrains(q: Queue, limits: Limits, steps: seq<Step>)
    requires forall step | step in steps :: !Brings(step)
    ensures
      var end := Run(q, limits, steps);
      && Measure(end) + TakenOn(q, limits, steps) <= Measure(q)
      && (limits.general >= 1 && limits.lane >= 1 ==>
            ((forall step :: !Advances(end, limits, step)) <==> end.pending == [] && end.running == []))
    decreases |steps|
  {
    if steps == [] {
      if limits.general >= 1 && limits.lane >= 1 {
        StuckIsEmpty(q, limits);
      }
    } else {
      StepDrains(q, limits, steps[0]);
      QueueDrains(Next(q, limits, steps[0]), limits, steps[1..]);
    }
  }

  // ---- Where a move and a finish put a job

  /** A job moved to the top is the next one reserved, and no other goes missing. */
  lemma MovedToTheTopRunsNext(q: Queue, limits: Limits, id: nat)
    requires IndexOf(q.pending, id) < |q.pending| && q.pending[IndexOf(q.pending, id)].status == Pending
    ensures
      var job, moved := q.pending[IndexOf(q.pending, id)], Moved(q, id, Top);
      && (HasCapacity(q, limits, job) ==> Reserved(moved, limits).running == q.running + [job])
      && forall k: nat :: Times(Ids(moved.pending), k) == Times(Ids(q.pending), k)
  {
    var i, moved := IndexOf(q.pending, id), Moved(q, id, Top);
    forall k: nat ensures Times(Ids(moved.pending), k) == Times(Ids(q.pending), k) {
      IdsWithout(q.pending, i, k);
      IdsAppended(Without(q.pending, i), q.pending[i], k);
    }
  }

  /** One moved to the bottom stays last while another is reserved. */
  lemma MovedToTheBottomRunsLast(q: Queue, limits: Limits, id: nat)
    requires IndexOf(q.pending, id) < |q.pending| && q.pending[IndexOf(q.pending, id)].status == Pending
    requires |q.pending| > 1
    ensures
      var job, moved := q.pending[IndexOf(q.pending, id)], Moved(q, id, Bottom);
      var after := Reserved(moved, limits).pending;
      && after != [] && after[|after| - 1] == job
      && forall k: nat :: Times(Ids(moved.pending), k) == Times(Ids(q.pending), k)
  {
    var i, moved := IndexOf(q.pending, id), Moved(q, id, Bottom);
    assert |moved.pending| > 1;
    forall k: nat ensures Times(Ids(moved.pending), k) == Times(Ids(q.pending), k) {
      IdsWithout(q.pending, i, k);
      IdsAppended(Without(q.pending, i), q.pending[i], k);
    }
  }

  lemma NotListed(jobs: seq<Job>, id: nat)
    requires Times(Ids(jobs), id) == 0
    ensures IndexOf(jobs, id) == |jobs|
  {
    if IndexOf(jobs, id) < |jobs| {
      Counted(jobs, IndexOf(jobs, id));
    }
  }

  lemma RunningIsNowhereElse(q: Queue, id: nat)
    requires Conserved(q) && IndexOf(q.running, id) < |q.running|
    ensures IndexOf(q.finishing, id) == |q.finishing|
    ensures
      var rest := Without(q.running, IndexOf(q.running, id));
      IndexOf(rest, id) == |rest|
  {
    var i := IndexOf(q.running, id);
    OncePlacedId(q, id);
    IdsWithout(q.running, i, id);
    NotListed(q.finishing, id);
    NotListed(Without(q.running, i), id);
  }

  /** A running job ends as the newest failed one if it broke, and as the newest
      completed one otherwise, cancelled ones included; it no longer runs. */
  lemma FinishedJobsLandByOutcome(q: Queue, limits: Limits, id: nat, outcome: Outcome)
    requires Conserved(q) && IndexOf(q.running, id) < |q.running|
    ensures
      var after := Next(Next(q, limits, Finish(id, outcome)), limits, Record(id));
      && IndexOf(after.running, id) == |after.running|
      && after.finishing == q.finishing
      && if outcome.Broke? then
           after.completed == q.completed && after.failed != [] && after.failed[|after.failed| - 1].id == id
         else
           after.failed == q.failed && after.completed != [] && after.completed[|after.completed| - 1].id == id
  {
    var job := Ended(q.running[IndexOf(q.running, id)], outcome);
    RunningIsNowhereElse(q, id);
    FinishEnds(q, limits, id, outcome);
    LastIsFound(q.finishing, job);
    FinishedIsRecorded(Next(q, limits, Finish(id, outcome)), limits, q.finishing, job);
  }

  lemma FinishEnds(q: Queue, limits: Limits, id: nat, outcome: Outcome)
    requires IndexOf(q.running, id) < |q.running|
    ensures
      var at, ended := IndexOf(q.running, id), Next(q, limits, Finish(id, outcome));
      var job := Ended(q.running[at], outcome);
      && job.id == id && (job.status == Failed <==> outcome.Broke?)
      && ended.finishing == q.finishing + [job] && ended.running == Without(q.running, at)
      && ended.completed == q.completed && ended.failed == q.failed
  {
  }

  lemma LastIsFound(jobs: seq<Job>, job: Job)
    requires IndexOf(jobs, job.id) == |jobs|
    ensures IndexOf(jobs + [job], job.id) == |jobs| && Without(jobs + [job], |jobs|) == jobs
  {
    assert (jobs + [job])[|jobs|] == job;
    assert forall k | 0 <= k < |jobs| :: (jobs + [job])[k] == jobs[k];
  }

  lemma FinishedIsRecorded(q: Queue, limits: Limits, before: seq<Job>, job: Job)
    requires q.finishing == before + [job] && IndexOf(q.finishing, job.id) == |before|
    requires Without(q.finishing, |before|) == before
    ensures
      var after := Next(q, limits, Record(job.id));
      && after.finishing == before && after.running == q.running
      && if job.status == Failed then
           after.completed == q.completed && after.failed != [] && after.failed[|after.failed| - 1] == job
         else
           after.failed == q.failed && after.completed != [] && after.completed[|after.completed| - 1] == job
  {
  }
}
