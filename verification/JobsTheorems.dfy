/**
 What every run of the jobs queue keeps: each job stays somewhere, once, and each piece
 of work has at most one owner.
 */
module JobsTheorems {
  import opened Common
  import opened JobsModel

  // ---- Counting

  function One<T(==)>(x: T, y: T): nat {
    if x == y then 1 else 0
  }

  /** How often `x` stands in `s`. */
  function Times<T(==)>(s: seq<T>, x: T): nat
    decreases |s|
  {
    if s == [] then 0 else Times(s[..|s| - 1], x) + One(s[|s| - 1], x)
  }

  lemma TimesAppended<T>(s: seq<T>, y: T, x: T)
    ensures Times(s + [y], x) == Times(s, x) + One(y, x)
  {
    assert (s + [y])[..|s|] == s;
  }

  lemma {:induction false} TimesSum<T>(a: seq<T>, b: seq<T>, x: T)
    ensures Times(a + b, x) == Times(a, x) + Times(b, x)
    decreases |b|
  {
    if b == [] {
      assert a + b == a;
    } else {
      var init, last := b[..|b| - 1], b[|b| - 1];
      TimesSum(a, init, x);
      assert a + b == (a + init) + [last];
      TimesAppended(a + init, last, x);
    }
  }

  lemma TimesPrepended<T>(s: seq<T>, y: T, x: T)
    ensures Times([y] + s, x) == Times(s, x) + One(y, x)
  {
    TimesSum([y], s, x);
    assert [y] == [] + [y];
    TimesAppended([], y, x);
  }

  lemma TimesBetween<T>(front: seq<T>, y: T, back: seq<T>, x: T)
    ensures Times(front + [y] + back, x) == Times(front + back, x) + One(y, x)
  {
    TimesSum(front, back, x);
    TimesSum(front + [y], back, x);
    TimesAppended(front, y, x);
  }

  lemma SplitAt<T>(s: seq<T>, i: nat)
    requires i < |s|
    ensures s[..i] + [s[i]] + s[i + 1..] == s
  {
  }

  lemma TimesWithout<T>(s: seq<T>, i: nat, x: T)
    requires i < |s|
    ensures Times(s, x) == Times(Without(s, i), x) + One(s[i], x)
  {
    SplitAt(s, i);
    TimesBetween(s[..i], s[i], s[i + 1..], x);
  }

  lemma {:induction false} TimesOfNone<T>(s: seq<T>, x: T)
    ensures Times(s, x) == 0 <==> x !in s
    decreases |s|
  {
    if s != [] {
      TimesOfNone(s[..|s| - 1], x);
      assert s == s[..|s| - 1] + [s[|s| - 1]];
    }
  }

  lemma StaysIn<T>(s: seq<T>, i: nat, j: nat)
    requires i < |s| && j < |s| && i != j
    ensures s[j] in Without(s, i)
  {
    assert Without(s, i)[if j < i then j else j - 1] == s[j];
  }

  /** What stands once stands at one place. */
  lemma OncePlaced<T>(s: seq<T>, i: nat, j: nat)
    requires i < |s| && j < |s| && s[i] == s[j] && Times(s, s[i]) <= 1
    ensures i == j
  {
    TimesWithout(s, i, s[i]);
    TimesOfNone(Without(s, i), s[i]);
    if i != j {
      StaysIn(s, i, j);
    }
  }

  // ---- Jobs by their ids and by their work

  function Ids(jobs: seq<Job>): seq<nat> {
    seq(|jobs|, i requires 0 <= i < |jobs| => jobs[i].id)
  }

  function Works(jobs: seq<Job>): seq<Work> {
    seq(|jobs|, i requires 0 <= i < |jobs| => WorkOf(jobs[i]))
  }

  function ClaimWorks(claims: seq<Claim>): seq<Work> {
    seq(|claims|, i requires 0 <= i < |claims| => claims[i].work)
  }

  lemma IdsWithout(jobs: seq<Job>, i: nat, id: nat)
    requires i < |jobs|
    ensures Times(Ids(jobs), id) == Times(Ids(Without(jobs, i)), id) + One(jobs[i].id, id)
  {
    assert Ids(Without(jobs, i)) == Without(Ids(jobs), i);
    TimesWithout(Ids(jobs), i, id);
  }

  lemma IdsAppended(jobs: seq<Job>, job: Job, id: nat)
    ensures Times(Ids(jobs + [job]), id) == Times(Ids(jobs), id) + One(job.id, id)
    ensures Times(Ids([job] + jobs), id) == Times(Ids(jobs), id) + One(job.id, id)
  {
    assert Ids(jobs + [job]) == Ids(jobs) + [job.id];
    TimesAppended(Ids(jobs), job.id, id);
    assert Ids([job] + jobs) == [job.id] + Ids(jobs);
    TimesPrepended(Ids(jobs), job.id, id);
  }

  lemma WorksWithout(jobs: seq<Job>, i: nat, w: Work)
    requires i < |jobs|
    ensures Times(Works(jobs), w) == Times(Works(Without(jobs, i)), w) + One(WorkOf(jobs[i]), w)
  {
    assert Works(Without(jobs, i)) == Without(Works(jobs), i);
    TimesWithout(Works(jobs), i, w);
  }

  lemma WorksAppended(jobs: seq<Job>, job: Job, w: Work)
    ensures Times(Works(jobs + [job]), w) == Times(Works(jobs), w) + One(WorkOf(job), w)
    ensures Times(Works([job] + jobs), w) == Times(Works(jobs), w) + One(WorkOf(job), w)
  {
    assert Works(jobs + [job]) == Works(jobs) + [WorkOf(job)];
    TimesAppended(Works(jobs), WorkOf(job), w);
    assert Works([job] + jobs) == [WorkOf(job)] + Works(jobs);
    TimesPrepended(Works(jobs), WorkOf(job), w);
  }

  /** The job at `i` is counted. */
  lemma Counted(jobs: seq<Job>, i: nat)
    requires i < |jobs|
    ensures Times(Ids(jobs), jobs[i].id) >= 1
  {
    IdsWithout(jobs, i, jobs[i].id);
  }

  // ---- Conservation of jobs

  /** In how many places the id is. */
  function Places(q: Queue, id: nat): nat {
    Times(Ids(q.pending), id) + Times(Ids(q.running), id) + Times(Ids(q.finishing), id)
    + Times(Ids(q.failed), id) + Times(Ids(q.completed), id) + (if id in q.dropped then 1 else 0)
  }

  /** Every id ever issued is in exactly one place, once, and no other id anywhere. */
  ghost predicate Conserved(q: Queue) {
    forall id: nat :: Places(q, id) == if 1 <= id <= q.currentId then 1 else 0
  }

  ghost predicate ShortHistories(q: Queue) {
    |q.failed| <= HISTORY && |q.completed| <= HISTORY
  }

  lemma SamePlaces(q: Queue, after: Queue)
    requires Conserved(q) && after.currentId == q.currentId
    requires forall id: nat :: Places(after, id) == Places(q, id)
    ensures Conserved(after)
  {
  }

  lemma OncePlacedId(q: Queue, id: nat)
    requires Conserved(q)
    ensures Places(q, id) <= 1
  {
  }

  lemma FedConserves(q: Queue, r: Request)
    requires Conserved(q)
    ensures Conserved(Fed(q, r))
  {
    var after := Fed(q, r);
    if after != q {
      forall id: nat ensures Places(after, id) == Places(q, id) + One(q.currentId + 1, id) {
        IdsAppended(q.pending, NewJob(q.currentId + 1, r), id);
      }
      forall id: nat ensures Places(after, id) == if 1 <= id <= after.currentId then 1 else 0 {
        OncePlacedId(q, id);
        assert Places(q, id) == if 1 <= id <= q.currentId then 1 else 0;
      }
    }
  }

  lemma ReservedConserves(q: Queue, limits: Limits)
    requires Conserved(q)
    ensures Conserved(Reserved(q, limits))
  {
    var after := Reserved(q, limits);
    if after != q {
      assert Without(q.pending, 0) == q.pending[1..];
      forall id: nat ensures Places(after, id) == Places(q, id) {
        IdsWithout(q.pending, 0, id);
        IdsAppended(q.running, q.pending[0], id);
      }
      SamePlaces(q, after);
    }
  }

  lemma ForcedConserves(q: Queue, id: nat)
    requires Conserved(q)
    ensures Conserved(Forced(q, id))
  {
    var i, after := IndexOf(q.pending, id), Forced(q, id);
    if after != q {
      forall k: nat ensures Places(after, k) == Places(q, k) {
        IdsWithout(q.pending, i, k);
        IdsAppended(q.running, q.pending[i], k);
      }
      SamePlaces(q, after);
    }
  }

  /** A pending job taken away is dropped, and was not dropped before. */
  lemma DroppedConserves(q: Queue, i: nat, after: Queue)
    requires Conserved(q) && i < |q.pending|
    requires after == q.(pending := Without(q.pending, i), dropped := q.dropped + {q.pending[i].id})
    ensures Conserved(after)
  {
    Counted(q.pending, i);
    OncePlacedId(q, q.pending[i].id);
    forall k: nat ensures Places(after, k) == Places(q, k) {
      IdsWithout(q.pending, i, k);
    }
    SamePlaces(q, after);
  }

  lemma RemovedConserves(q: Queue, id: nat)
    requires Conserved(q)
    ensures Conserved(Removed(q, id))
  {
    if Removed(q, id) != q {
      DroppedConserves(q, IndexOf(q.pending, id), Removed(q, id));
    }
  }

  lemma MovedConserves(q: Queue, id: nat, destination: Destination)
    requires Conserved(q)
    ensures Conserved(Moved(q, id, destination))
  {
    var i, after := IndexOf(q.pending, id), Moved(q, id, destination);
    if i == |q.pending| || q.pending[i].status != Pending {
      assert after == q;
    } else if destination.Elsewhere? {
      DroppedConserves(q, i, after);
    } else {
      forall k: nat ensures Places(after, k) == Places(q, k) {
        IdsWithout(q.pending, i, k);
        IdsAppended(Without(q.pending, i), q.pending[i], k);
      }
      SamePlaces(q, after);
    }
  }

  lemma StartConserves(q: Queue, limits: Limits, id: nat)
    requires Conserved(q)
    ensures Conserved(Next(q, limits, Start(id)))
  {
    var after := Next(q, limits, Start(id));
    assert Ids(after.running) == Ids(q.running);
    SamePlaces(q, after);
  }

  lemma FinishedConserves(q: Queue, id: nat, outcome: Outcome)
    requires Conserved(q)
    ensures Conserved(Finished(q, id, outcome))
  {
    var i, after := IndexOf(q.running, id), Finished(q, id, outcome);
    if i < |q.running| {
      forall k: nat ensures Places(after, k) == Places(q, k) {
        IdsWithout(q.running, i, k);
        IdsAppended(q.finishing, Ended(q.running[i], outcome), k);
      }
      SamePlaces(q, after);
    }
  }

  /** A history queue that takes one more pushes out the oldest when it is full. */
  lemma RememberMoves(history: seq<Job>, job: Job, id: nat)
    requires |history| <= HISTORY
    ensures
      Times(Ids(Remember(history, job)), id) + (if id in PushedOut(history) then 1 else 0)
      == Times(Ids(history), id) + One(job.id, id)
    ensures |Remember(history, job)| <= HISTORY
    ensures forall k | k in PushedOut(history) :: Times(Ids(history), k) >= 1
  {
    IdsAppended(history, job, id);
    if |history| == HISTORY {
      assert PushedOut(history) == {history[0].id};
      assert Without(history + [job], 0) == Remember(history, job);
      IdsWithout(history + [job], 0, id);
      Counted(history, 0);
    }
  }

  lemma RecordedConserves(q: Queue, id: nat)
    requires Conserved(q) && ShortHistories(q)
    ensures Conserved(Recorded(q, id))
  {
    var i, after := IndexOf(q.finishing, id), Recorded(q, id);
    if i < |q.finishing| {
      var job := q.finishing[i];
      forall k: nat ensures Places(after, k) == Places(q, k) {
        IdsWithout(q.finishing, i, k);
        OncePlacedId(q, k);
        RememberMoves(if job.status == Failed then q.failed else q.completed, job, k);
      }
      SamePlaces(q, after);
    }
  }

  lemma InIds(jobs: seq<Job>, i: nat)
    requires i < |jobs|
    ensures jobs[i].id in Ids(jobs)
  {
    assert Ids(jobs)[i] == jobs[i].id;
  }

  /** Clearing a list drops exactly its ids. */
  lemma ListedOnce(jobs: seq<Job>, id: nat)
    ensures Times(Ids(jobs), id) == 0 <==> id !in IdSet(jobs)
  {
    TimesOfNone(Ids(jobs), id);
    if id in Ids(jobs) {
      var i :| 0 <= i < |jobs| && Ids(jobs)[i] == id;
      assert jobs[i].id in IdSet(jobs);
    }
    if id in IdSet(jobs) {
      var i :| 0 <= i < |jobs| && jobs[i].id == id;
      InIds(jobs, i);
    }
  }

  lemma ClearedConserves(q: Queue, list: List)
    requires Conserved(q)
    ensures Conserved(Cleared(q, list))
  {
    var after := Cleared(q, list);
    var jobs := match list
      case PendingList => q.pending
      case FailedList => q.failed
      case CompletedList => q.completed;
    assert Ids([]) == [];
    forall k: nat ensures Places(after, k) == Places(q, k) {
      OncePlacedId(q, k);
      ListedOnce(jobs, k);
    }
    SamePlaces(q, after);
  }

  lemma HistoriesStayShort(q: Queue, limits: Limits, step: Step)
    requires ShortHistories(q)
    ensures ShortHistories(Next(q, limits, step))
  {
  }

  /** Steps that touch no job. */
  lemma AsideConserves(q: Queue, limits: Limits, step: Step)
    requires Conserved(q) && (step.LookUpFailed? || step.ClaimInline? || step.Release?)
    ensures Conserved(Next(q, limits, step))
  {
    SamePlaces(q, Next(q, limits, step));
  }

  lemma StepConserves(q: Queue, limits: Limits, step: Step)
    requires Conserved(q) && ShortHistories(q)
    ensures Conserved(Next(q, limits, step))
  {
    match step
    case Feed(r) => FedConserves(q, r);
    case Retry(job) => FedConserves(q, RetryRequest(job));
    case Reserve => ReservedConserves(q, limits);
    case Force(id) => ForcedConserves(q, id);
    case Remove(id) => RemovedConserves(q, id);
    case Move(id, destination) => MovedConserves(q, id, destination);
    case Start(id) => StartConserves(q, limits, id);
    case Finish(id, outcome) => FinishedConserves(q, id, outcome);
    case Record(id) => RecordedConserves(q, id);
    case Clear(list) => ClearedConserves(q, list);
    case _ => AsideConserves(q, limits, step);
  }

  lemma {:induction false} JobsAreConserved(q: Queue, limits: Limits, steps: seq<Step>)
    requires Conserved(q) && ShortHistories(q)
    ensures Conserved(Run(q, limits, steps)) && ShortHistories(Run(q, limits, steps))
    decreases |steps|
  {
    if steps != [] {
      StepConserves(q, limits, steps[0]);
      HistoriesStayShort(q, limits, steps[0]);
      JobsAreConserved(Next(q, limits, steps[0]), limits, steps[1..]);
    }
  }

  /** Over every run from the empty queue, an id is in exactly one place if it
      was issued and in none if it was not. */
  lemma EveryJobIsSomewhereOnce(limits: Limits, steps: seq<Step>, id: nat)
    ensures Places(Run(EMPTY, limits, steps), id)
         == if 1 <= id <= Run(EMPTY, limits, steps).currentId then 1 else 0
  {
    assert Ids([]) == [];
    JobsAreConserved(EMPTY, limits, steps);
    assert Conserved(Run(EMPTY, limits, steps));
  }

  // ---- One owner for each piece of work

  /** How many pending jobs, running jobs and inline claims own the work. */
  function Owners(q: Queue, w: Work): nat {
    Times(Works(q.pending), w) + Times(Works(q.running), w) + Times(ClaimWorks(q.claims), w)
  }

  /** No two owners share their work. */
  ghost predicate OneOwnerEach(q: Queue) {
    forall w :: Owners(q, w) <= 1
  }

  /** Fewer owners, or the same ones elsewhere. */
  lemma FewerOwners(q: Queue, after: Queue)
    requires OneOwnerEach(q) && forall w :: Owners(after, w) <= Owners(q, w)
    ensures OneOwnerEach(after)
  {
    forall w ensures Owners(after, w) <= 1 {
      assert Owners(q, w) <= 1;
    }
  }

  lemma NoOwner(q: Queue, work: Work)
    requires Owner(q, work).None?
    ensures Owners(q, work) == 0
  {
    var jobs := q.pending + q.running;
    forall k | 0 <= k < |q.pending| ensures Works(q.pending)[k] != work {
      assert jobs[k] == q.pending[k];
    }
    forall k | 0 <= k < |q.running| ensures Works(q.running)[k] != work {
      assert jobs[|q.pending| + k] == q.running[k];
    }
    TimesOfNone(Works(q.pending), work);
    TimesOfNone(Works(q.running), work);
    TimesOfNone(ClaimWorks(q.claims), work);
  }

  /** One owner more, of work that had none. */
  lemma OneOwnerMore(q: Queue, after: Queue, work: Work)
    requires OneOwnerEach(q) && Owner(q, work).None?
    requires forall w :: Owners(after, w) == Owners(q, w) + One(work, w)
    ensures OneOwnerEach(after)
  {
    NoOwner(q, work);
    forall w ensures Owners(after, w) <= 1 {
      assert Owners(q, w) <= 1;
    }
  }

  lemma FedKeepsOwners(q: Queue, r: Request)
    requires OneOwnerEach(q)
    ensures OneOwnerEach(Fed(q, r))
  {
    var after := Fed(q, r);
    if Owner(q, Requested(r)).None? {
      var job := NewJob(q.currentId + 1, r);
      assert WorkOf(job) == Requested(r);
      forall w ensures Owners(after, w) == Owners(q, w) + One(Requested(r), w) {
        WorksAppended(q.pending, job, w);
      }
      OneOwnerMore(q, after, Requested(r));
    }
  }

  lemma ReservedKeepsOwners(q: Queue, limits: Limits)
    requires OneOwnerEach(q)
    ensures OneOwnerEach(Reserved(q, limits))
  {
    var after := Reserved(q, limits);
    if after != q {
      assert Without(q.pending, 0) == q.pending[1..];
      forall w ensures Owners(after, w) <= Owners(q, w) {
        WorksWithout(q.pending, 0, w);
        WorksAppended(q.running, q.pending[0], w);
      }
      FewerOwners(q, after);
    }
  }

  lemma ForcedKeepsOwners(q: Queue, id: nat)
    requires OneOwnerEach(q)
    ensures OneOwnerEach(Forced(q, id))
  {
    var i, after := IndexOf(q.pending, id), Forced(q, id);
    if after != q {
      forall w ensures Owners(after, w) <= Owners(q, w) {
        WorksWithout(q.pending, i, w);
        WorksAppended(q.running, q.pending[i], w);
      }
      FewerOwners(q, after);
    }
  }

  lemma RemovedKeepsOwners(q: Queue, id: nat)
    requires OneOwnerEach(q)
    ensures OneOwnerEach(Removed(q, id))
  {
    var i, after := IndexOf(q.pending, id), Removed(q, id);
    if after != q {
      forall w ensures Owners(after, w) <= Owners(q, w) {
        WorksWithout(q.pending, i, w);
      }
      FewerOwners(q, after);
    }
  }

  lemma MovedKeepsOwners(q: Queue, id: nat, destination: Destination)
    requires OneOwnerEach(q)
    ensures OneOwnerEach(Moved(q, id, destination))
  {
    var i, after := IndexOf(q.pending, id), Moved(q, id, destination);
    if i < |q.pending| && q.pending[i].status == Pending {
      forall w ensures Owners(after, w) <= Owners(q, w) {
        WorksWithout(q.pending, i, w);
        WorksAppended(Without(q.pending, i), q.pending[i], w);
      }
      FewerOwners(q, after);
    }
  }

  lemma StartKeepsOwners(q: Queue, limits: Limits, id: nat)
    requires OneOwnerEach(q)
    ensures OneOwnerEach(Next(q, limits, Start(id)))
  {
    var i, after := IndexOf(q.running, id), Next(q, limits, Start(id));
    if i < |q.running| {
      assert Cleaned(Started(q.running[i]).kwargs) == Cleaned(q.running[i].kwargs);
    }
    assert Works(after.running) == Works(q.running);
    FewerOwners(q, after);
  }

  lemma FinishedKeepsOwners(q: Queue, id: nat, outcome: Outcome)
    requires OneOwnerEach(q)
    ensures OneOwnerEach(Finished(q, id, outcome))
  {
    var i, after := IndexOf(q.running, id), Finished(q, id, outcome);
    if i < |q.running| {
      forall w ensures Owners(after, w) <= Owners(q, w) {
        WorksWithout(q.running, i, w);
      }
      FewerOwners(q, after);
    }
  }

  lemma ClearedKeepsOwners(q: Queue, list: List)
    requires OneOwnerEach(q)
    ensures OneOwnerEach(Cleared(q, list))
  {
    assert Works([]) == [];
    FewerOwners(q, Cleared(q, list));
  }

  lemma ClaimedKeepsOwners(q: Queue, work: Work, owner: Option<nat>)
    requires OneOwnerEach(q)
    ensures OneOwnerEach(Claimed(q, work, owner))
  {
    var after := Claimed(q, work, owner);
    if Owner(q, work).None? {
      assert ClaimWorks(after.claims) == ClaimWorks(q.claims) + [work];
      forall w ensures Owners(after, w) == Owners(q, w) + One(work, w) {
        TimesAppended(ClaimWorks(q.claims), work, w);
      }
      OneOwnerMore(q, after, work);
    }
  }

  lemma ReleasedKeepsOwners(q: Queue, limits: Limits, work: Work)
    requires OneOwnerEach(q)
    ensures OneOwnerEach(Next(q, limits, Release(work)))
  {
    var c, after := ClaimIndex(q.claims, work), Next(q, limits, Release(work));
    if c < |q.claims| {
      assert ClaimWorks(after.claims) == Without(ClaimWorks(q.claims), c);
      forall w ensures Owners(after, w) <= Owners(q, w) {
        TimesWithout(ClaimWorks(q.claims), c, w);
      }
      FewerOwners(q, after);
    }
  }

  /** Steps that touch neither the jobs that own work nor the claims. */
  lemma AsideKeepsOwners(q: Queue, limits: Limits, step: Step)
    requires OneOwnerEach(q) && (step.LookUpFailed? || step.Record?)
    ensures OneOwnerEach(Next(q, limits, step))
  {
    FewerOwners(q, Next(q, limits, step));
  }

  lemma StepKeepsOwners(q: Queue, limits: Limits, step: Step)
    requires OneOwnerEach(q)
    ensures OneOwnerEach(Next(q, limits, step))
  {
    match step
    case Feed(r) => FedKeepsOwners(q, r);
    case Retry(job) => FedKeepsOwners(q, RetryRequest(job));
    case Reserve => ReservedKeepsOwners(q, limits);
    case Force(id) => ForcedKeepsOwners(q, id);
    case Remove(id) => RemovedKeepsOwners(q, id);
    case Move(id, destination) => MovedKeepsOwners(q, id, destination);
    case Start(id) => StartKeepsOwners(q, limits, id);
    case Finish(id, outcome) => FinishedKeepsOwners(q, id, outcome);
    case Clear(list) => ClearedKeepsOwners(q, list);
    case ClaimInline(work, owner) => ClaimedKeepsOwners(q, work, owner);
    case Release(work) => ReleasedKeepsOwners(q, limits, work);
    case _ => AsideKeepsOwners(q, limits, step);
  }

  lemma {:induction false} OwnersStayUnique(q: Queue, limits: Limits, steps: seq<Step>)
    requires OneOwnerEach(q)
    ensures OneOwnerEach(Run(q, limits, steps))
    decreases |steps|
  {
    if steps != [] {
      StepKeepsOwners(q, limits, steps[0]);
      OwnersStayUnique(Next(q, limits, steps[0]), limits, steps[1..]);
    }
  }

  // ---- The owner a feed follows

  /** The entry is an owner of the work, under this id. */
  ghost predicate Owns(q: Queue, work: Work, id: Option<nat>) {
    || (exists job | job in q.pending + q.running :: WorkOf(job) == work && id == Some(job.id))
    || (exists claim | claim in q.claims :: claim.work == work && id == claim.owner)
  }

  /** Over every run: a feed queues its work exactly when nothing owns it, and
      otherwise follows the one owner there is. */
  lemma FeedFollowsTheOwner(limits: Limits, steps: seq<Step>, r: Request)
    requires r.retryOf.None?
    ensures
      var q := Run(EMPTY, limits, steps);
      && (forall id :: Owns(q, Requested(r), id) ==>
            FeedAnswer(q, r, true) == Follow(id) && FeedAnswer(q, r, false) == Refused && Next(q, limits, Feed(r)) == q)
      && ((forall id :: !Owns(q, Requested(r), id)) ==>
            && FeedAnswer(q, r, false) == Follow(Some(q.currentId + 1))
            && Next(q, limits, Feed(r)).pending == q.pending + [NewJob(q.currentId + 1, r)])
  {
    assert Works([]) == [] && ClaimWorks([]) == [];
    OwnersStayUnique(EMPTY, limits, steps);
    var q := Run(EMPTY, limits, steps);
    FirstOwner(q, Requested(r));
    forall id | Owns(q, Requested(r), id) ensures Owner(q, Requested(r)) == Some(id) {
      TheOwner(q, Requested(r), id);
    }
  }

  lemma FirstOwner(q: Queue, work: Work)
    ensures Owner(q, work).Some? ==> Owns(q, work, Owner(q, work).value)
  {
    var jobs := q.pending + q.running;
    var i, c := ExistingIndex(jobs, work), ClaimIndex(q.claims, work);
    if i < |jobs| {
      assert jobs[i] in jobs;
    } else if c < |q.claims| {
      assert q.claims[c] in q.claims;
    }
  }

  /** All the work that is owned, jobs before claims. */
  function OwnedWork(q: Queue): seq<Work> {
    Works(q.pending + q.running) + ClaimWorks(q.claims)
  }

  lemma OwnedOnce(q: Queue, work: Work)
    requires OneOwnerEach(q)
    ensures Times(OwnedWork(q), work) <= 1
  {
    assert Works(q.pending + q.running) == Works(q.pending) + Works(q.running);
    TimesSum(Works(q.pending + q.running), ClaimWorks(q.claims), work);
    TimesSum(Works(q.pending), Works(q.running), work);
    assert Owners(q, work) <= 1;
  }

  /** The first place of the work among all that is owned. */
  lemma FirstOwned(q: Queue, work: Work)
    ensures
      var jobs := q.pending + q.running;
      var i, c := ExistingIndex(jobs, work), ClaimIndex(q.claims, work);
      && (i < |jobs| ==> OwnedWork(q)[i] == work)
      && (c < |q.claims| ==> |jobs| + c < |OwnedWork(q)| && OwnedWork(q)[|jobs| + c] == work)
  {
  }

  lemma OwningJob(q: Queue, work: Work, k: nat)
    requires OneOwnerEach(q) && k < |q.pending + q.running| && WorkOf((q.pending + q.running)[k]) == work
    ensures Owner(q, work) == Some(Some((q.pending + q.running)[k].id))
  {
    var jobs := q.pending + q.running;
    OwnedOnce(q, work);
    FirstOwned(q, work);
    assert OwnedWork(q)[k] == work;
    OncePlaced(OwnedWork(q), ExistingIndex(jobs, work), k);
  }

  lemma OwningClaim(q: Queue, work: Work, k: nat)
    requires OneOwnerEach(q) && k < |q.claims| && q.claims[k].work == work
    ensures Owner(q, work) == Some(q.claims[k].owner)
  {
    var jobs := q.pending + q.running;
    var i, c := ExistingIndex(jobs, work), ClaimIndex(q.claims, work);
    OwnedOnce(q, work);
    FirstOwned(q, work);
    assert OwnedWork(q)[|jobs| + k] == work;
    OncePlaced(OwnedWork(q), if i < |jobs| then i else |jobs| + c, |jobs| + k);
  }

  lemma TheOwner(q: Queue, work: Work, id: Option<nat>)
    requires OneOwnerEach(q) && Owns(q, work, id)
    ensures Owner(q, work) == Some(id)
  {
    var jobs := q.pending + q.running;
    if exists job | job in jobs :: WorkOf(job) == work && id == Some(job.id) {
      var k: nat :| k < |jobs| && WorkOf(jobs[k]) == work && id == Some(jobs[k].id);
      OwningJob(q, work, k);
    } else {
      var k: nat :| k < |q.claims| && q.claims[k].work == work && id == q.claims[k].owner;
      OwningClaim(q, work, k);
    }
  }
}
