/**
 What the steps of the jobs queue bring about: which step moves which job and exactly
 when, and that a job runs what was asked under its id, however it gets there.
 */
module JobsEffects {
  import opened Common
  import opened JobsModel
  import opened JobsTheorems

  // ---- Reserving

  /** The modules and functions of the translation lane. */
  const TRANSLATIONS: set<(string, string)> := {
    ("subtitles.tools.translate.main", "translate_subtitles_file"),
    ("subtitles.tools.translate.editor", "translate_editor_lines")}

  predicate InLane(job: Job) {
    (job.mod, job.func) in TRANSLATIONS
  }

  /** Where translations stand in the list. */
  function TranslationPlaces(jobs: seq<Job>): set<nat> {
    set i: nat | i < |jobs| && InLane(jobs[i])
  }

  lemma {:induction false} TranslationsAreCounted(jobs: seq<Job>)
    ensures Translations(jobs) == |TranslationPlaces(jobs)|
    decreases |jobs|
  {
    if jobs != [] {
      var n := |jobs| - 1;
      TranslationsAreCounted(jobs[..n]);
      var earlier := TranslationPlaces(jobs[..n]);
      assert TranslationPlaces(jobs) == earlier + if InLane(jobs[n]) then {n} else {};
      assert n !in earlier;
    }
  }

  /** The head is reserved if and only if fewer jobs than the general limit are running
      and, when it is a translation, fewer translations than its lane takes. Nothing else
      in the queue counts, and nothing else moves. */
  lemma ReservesExactly(q: Queue, limits: Limits)
    requires q.pending != []
    ensures
      var after, head := Next(q, limits, Reserve), q.pending[0];
      if |q.running| < limits.general && (InLane(head) ==> |TranslationPlaces(q.running)| < limits.lane) then
        && after.pending == q.pending[1..] && after.running == q.running + [head]
        && after == q.(pending := after.pending, running := after.running, reserved := q.reserved + [head.id])
      else after == q
  {
    TranslationsAreCounted(q.running);
  }

  // ---- Jobs found by their id

  lemma FoundAt(jobs: seq<Job>, i: nat)
    requires i < |jobs| && Times(Ids(jobs), jobs[i].id) <= 1
    ensures IndexOf(jobs, jobs[i].id) == i
  {
    var found := IndexOf(jobs, jobs[i].id);
    if found < |jobs| {
      OncePlaced(Ids(jobs), found, i);
    }
  }

  lemma PendingFound(q: Queue, i: nat)
    requires Conserved(q) && i < |q.pending|
    ensures IndexOf(q.pending, q.pending[i].id) == i
  {
    OncePlacedId(q, q.pending[i].id);
    FoundAt(q.pending, i);
  }

  /** A forced start takes exactly the named job, wherever it waits and whatever runs. A
      removal, and a move to neither end, drop exactly that job. */
  lemma PendingJobIsTaken(q: Queue, limits: Limits, i: nat)
    requires Conserved(q) && i < |q.pending| && q.pending[i].status == Pending
    ensures
      var id, rest := q.pending[i].id, q.pending[..i] + q.pending[i + 1..];
      var forced := Next(q, limits, Force(id));
      && forced.pending == rest && forced.running == q.running + [q.pending[i]] && forced.dropped == q.dropped
      && (forall step | step in {Remove(id), Move(id, Elsewhere)} ::
            Next(q, limits, step) == q.(pending := rest, dropped := q.dropped + {id}))
      && Next(q, limits, Move(id, Top)) == q.(pending := [q.pending[i]] + rest)
      && Next(q, limits, Move(id, Bottom)) == q.(pending := rest + [q.pending[i]])
  {
    PendingFound(q, i);
  }

  /** An id that waits nowhere is not forced, removed or moved. */
  lemma NoPendingJobIsTaken(q: Queue, limits: Limits, id: nat, destination: Destination)
    requires forall i | 0 <= i < |q.pending| :: q.pending[i].id != id
    ensures Next(q, limits, Force(id)) == Next(q, limits, Remove(id)) == Next(q, limits, Move(id, destination)) == q
  {
  }

  /** Clearing a list empties it, drops its jobs, and touches no other list. */
  lemma ClearingEmpties(q: Queue, limits: Limits)
    ensures
      var after := Next(q, limits, Clear(PendingList));
      && after.pending == [] && (forall job | job in q.pending :: job.id in after.dropped)
      && after == q.(pending := [], dropped := after.dropped)
    ensures
      var after := Next(q, limits, Clear(FailedList));
      && after.failed == [] && (forall job | job in q.failed :: job.id in after.dropped)
      && after == q.(failed := [], failedLog := [], dropped := after.dropped)
    ensures
      var after := Next(q, limits, Clear(CompletedList));
      && after.completed == [] && (forall job | job in q.completed :: job.id in after.dropped)
      && after == q.(completed := [], completedLog := [], dropped := after.dropped)
  {
  }

  lemma RunningFound(q: Queue, i: nat)
    requires Conserved(q) && i < |q.running|
    ensures IndexOf(q.running, q.running[i].id) == i
  {
    OncePlacedId(q, q.running[i].id);
    FoundAt(q.running, i);
  }

  /** A job that starts is marked as running and has its own id where the caller left it
      out; nothing else changes. */
  lemma StartMarksTheJob(q: Queue, limits: Limits, i: nat)
    requires Conserved(q) && i < |q.running|
    ensures
      var job := q.running[i];
      var after := Next(q, limits, Start(job.id));
      && |after.running| == |q.running| && after == q.(running := q.running[i := after.running[i]])
      && after.running[i] == job.(status := Running, kwargs := after.running[i].kwargs)
      && WithOwnId(after.running[i].kwargs, job.kwargs, job.id)
  {
    RunningFound(q, i);
    assert Started(q.running[i]).kwargs - {"job_id"} == q.running[i].kwargs - {"job_id"};
  }

  /** A job that ends leaves the running ones as it was but for its status, and but for
      whether it may be retried, where its failure says so. */
  lemma FinishMarksTheJob(q: Queue, limits: Limits, i: nat, outcome: Outcome)
    requires Conserved(q) && i < |q.running|
    ensures
      var job := q.running[i];
      var after := Next(q, limits, Finish(job.id, outcome));
      && after.running == q.running[..i] + q.running[i + 1..] && |after.finishing| == |q.finishing| + 1
      && after == q.(running := after.running, finishing := q.finishing + [after.finishing[|q.finishing|]])
      && after.finishing[|q.finishing|]
         == match outcome
            case Broke(retryable) =>
              if retryable.Some? then job.(status := Failed, retryable := retryable.value) else job.(status := Failed)
            case _ => job.(status := Completed)
  {
    RunningFound(q, i);
  }

  // ---- Inline claims

  /** Nothing owns the work any more: the next feed of it is queued. */
  predicate IsFree(q: Queue, work: Work) {
    && (forall i | 0 <= i < |q.pending| :: WorkOf(q.pending[i]) != work)
    && (forall i | 0 <= i < |q.running| :: WorkOf(q.running[i]) != work)
    && (forall i | 0 <= i < |q.claims| :: q.claims[i].work != work)
  }

  lemma FreeHasNoOwner(q: Queue, work: Work)
    ensures IsFree(q, work) <==> Owner(q, work).None?
  {
    var jobs := q.pending + q.running;
    assert forall i | 0 <= i < |q.pending| :: jobs[i] == q.pending[i];
    assert forall i | 0 <= i < |q.running| :: jobs[|q.pending| + i] == q.running[i];
  }

  /** A claim takes free work, and no other; whoever feeds it then follows the claim. */
  lemma ClaimingOwns(q: Queue, limits: Limits, work: Work, owner: Option<nat>)
    requires "job_id" !in work.kwargs
    ensures
      var after := Next(q, limits, ClaimInline(work, owner));
      if IsFree(q, work) then
        after == q.(claims := q.claims + [Claim(work, owner)]) && Owner(after, work) == Some(owner)
      else after == q
  {
    FreeHasNoOwner(q, work);
    if IsFree(q, work) {
      ClaimedLast(q, q.claims + [Claim(work, owner)], work);
    }
  }

  lemma ClaimedLast(q: Queue, claims: seq<Claim>, work: Work)
    requires IsFree(q, work) && claims != [] && claims[..|claims| - 1] == q.claims
    requires claims[|claims| - 1].work == work
    ensures Owner(q.(claims := claims), work) == Some(claims[|claims| - 1].owner)
  {
    FreeHasNoOwner(q, work);
    assert forall i | 0 <= i < |q.claims| :: claims[i] == q.claims[i];
  }

  /** A release gives up the one claim of the work, which is free from then on: the next
      feed of it is queued. Without a claim of it a release changes nothing. */
  lemma ReleasedWorkIsFree(q: Queue, limits: Limits, work: Work)
    requires OneOwnerEach(q)
    ensures
      var after := Next(q, limits, Release(work));
      if exists claim | claim in q.claims :: claim.work == work then
        && IsFree(after, work) && after == q.(claims := after.claims)
        && (forall claim :: claim in after.claims <==> claim in q.claims && claim.work != work)
        && forall r: Request | Requested(r) == work && r.retryOf.None? ::
             Next(after, limits, Feed(r)).pending == q.pending + [NewJob(q.currentId + 1, r)]
      else after == q
  {
    if exists claim | claim in q.claims :: claim.work == work {
      var c: nat :| c < |q.claims| && q.claims[c].work == work;
      TheClaim(q, work, c);
      var after := Next(q, limits, Release(work));
      FreeHasNoOwner(after, work);
    } else {
      assert forall i | 0 <= i < |q.claims| :: q.claims[i] in q.claims;
    }
  }

  lemma TheClaim(q: Queue, work: Work, c: nat)
    requires OneOwnerEach(q) && c < |q.claims| && q.claims[c].work == work
    ensures ClaimIndex(q.claims, work) == c
    ensures IsFree(q.(claims := Without(q.claims, c)), work)
    ensures forall claim :: claim in Without(q.claims, c) <==> claim in q.claims && claim.work != work
  {
    OnlyOwner(q, work, c);
    forall claim ensures claim in Without(q.claims, c) <==> claim in q.claims && claim.work != work {
      if claim in q.claims && claim.work != work {
        var i: nat :| i < |q.claims| && q.claims[i] == claim;
        StaysIn(q.claims, c, i);
      }
    }
  }

  /** With one owner each, nothing but the claim owns its work. */
  lemma OnlyOwner(q: Queue, work: Work, c: nat)
    requires OneOwnerEach(q) && c < |q.claims| && q.claims[c].work == work
    ensures forall i | 0 <= i < |q.claims| && i != c :: q.claims[i].work != work
    ensures forall i | 0 <= i < |q.pending| :: WorkOf(q.pending[i]) != work
    ensures forall i | 0 <= i < |q.running| :: WorkOf(q.running[i]) != work
  {
    assert Owners(q, work) <= 1;
    var works := ClaimWorks(q.claims);
    TimesWithout(works, c, work);
    TimesOfNone(Works(q.pending), work);
    TimesOfNone(Works(q.running), work);
    TimesOfNone(Without(works, c), work);
    forall i | 0 <= i < |q.claims| && i != c ensures q.claims[i].work != work {
      StaysIn(works, c, i);
    }
    forall i | 0 <= i < |q.pending| ensures WorkOf(q.pending[i]) != work {
      assert Works(q.pending)[i] != work;
    }
    forall i | 0 <= i < |q.running| ensures WorkOf(q.running[i]) != work {
      assert Works(q.running)[i] != work;
    }
  }

  // ---- Retries

  /** A failed job can be retried exactly when it is retryable; the retry asks for the
      same work, under a new id and naming the failed job, and is queued when nothing
      owns that work. */
  lemma RetryAsksForTheSameWork(q: Queue, limits: Limits, i: nat)
    requires Conserved(q) && i < |q.failed|
    ensures
      var failed := q.failed[i];
      var looked := Next(q, limits, LookUpFailed(failed.id));
      var after := Next(looked, limits, Retry(failed));
      && looked == q.(lookedUp := if failed.retryable then q.lookedUp + {failed} else q.lookedUp)
      && (failed.retryable && IsFree(q, WorkOf(failed)) ==>
            && |after.pending| == |q.pending| + 1 && after.pending[..|q.pending|] == q.pending
            && var retry := after.pending[|q.pending|];
               && WorkOf(retry) == WorkOf(failed) && retry.id == q.currentId + 1 == after.currentId
               && retry.status == Pending && retry.retryable && retry.retryOf == Some(failed.id)
               && "job_id" !in retry.kwargs)
      && (failed !in q.lookedUp && (!failed.retryable || !IsFree(q, WorkOf(failed))) ==>
            after.pending == q.pending && after.currentId == q.currentId)
  {
    var failed := q.failed[i];
    OncePlacedId(q, failed.id);
    FoundAt(q.failed, i);
    var looked := Next(q, limits, LookUpFailed(failed.id));
    var request := RetryRequest(failed);
    assert Cleaned(Cleaned(failed.kwargs)) == Cleaned(failed.kwargs);
    assert Requested(request) == WorkOf(failed);
    FreeHasNoOwner(looked, WorkOf(failed));
  }

  // ---- What runs is what was asked

  /** The requests that were queued, by the ids they got. */
  type Asked = map<nat, Request>

  datatype Place = InPending | InRunning | InFinishing | InFailed | InCompleted

  /** The caller's arguments, with the job's own id where the caller left it out. */
  predicate WithOwnId(kwargs: Kwargs, asked: Kwargs, id: nat) {
    && "job_id" in kwargs && kwargs - {"job_id"} == asked - {"job_id"}
    && kwargs["job_id"]
       == if "job_id" in asked && asked["job_id"] != Number(0) && asked["job_id"] != Text("") then asked["job_id"]
          else Number(id)
  }

  predicate FitsPlace(job: Job, r: Request, place: Place) {
    match place
    case InPending => job.status == Pending && job.kwargs == r.kwargs
    case InRunning =>
      || (job.status == Pending && job.kwargs == r.kwargs)
      || (job.status == Running && WithOwnId(job.kwargs, r.kwargs, job.id))
    case InFinishing => job.status == Failed || job.status == Completed
    case InFailed => job.status == Failed
    case InCompleted => job.status == Completed
  }

  /** The job is the one asked for under its id. */
  predicate Fits(job: Job, asked: Asked, place: Place) {
    && job.id in asked
    && var r := asked[job.id];
       && job.mod == r.mod && job.func == r.func && job.args == r.args && job.retryOf == r.retryOf
       && (job.kwargs == r.kwargs || WithOwnId(job.kwargs, r.kwargs, job.id))
       && (job.status == Failed || job.retryable == r.retryable)
       && FitsPlace(job, r, place)
  }

  ghost predicate AllFit(jobs: seq<Job>, asked: Asked, place: Place) {
    forall i | 0 <= i < |jobs| :: Fits(jobs[i], asked, place)
  }

  ghost predicate LookedUpFit(q: Queue, asked: Asked) {
    forall job | job in q.lookedUp :: Fits(job, asked, InFailed) && job.retryable
  }

  ghost predicate IdsAreAsked(q: Queue, asked: Asked) {
    forall id :: id in asked <==> 1 <= id <= q.currentId
  }

  /** A retry asks for what was asked under the id it retries. */
  ghost predicate RetriesRepeat(asked: Asked) {
    forall id | id in asked && asked[id].retryOf.Some? ::
      asked[id].retryOf.value in asked && Requested(asked[id]) == Requested(asked[asked[id].retryOf.value])
  }

  ghost predicate JobsFit(q: Queue, asked: Asked) {
    && AllFit(q.pending, asked, InPending) && AllFit(q.running, asked, InRunning)
    && AllFit(q.finishing, asked, InFinishing)
    && AllFit(q.failed, asked, InFailed) && AllFit(q.completed, asked, InCompleted)
  }

  ghost predicate AllAsFed(q: Queue, asked: Asked) {
    JobsFit(q, asked) && LookedUpFit(q, asked) && IdsAreAsked(q, asked) && RetriesRepeat(asked)
  }

  /** The request a step queues. */
  function RequestOf(step: Step): Option<Request> {
    match step
    case Feed(r) => Some(r)
    case Retry(job) => Some(RetryRequest(job))
    case _ => None
  }

  /** The requests queued after the step: a new id stands for the request of the step. */
  function AskedNext(q: Queue, limits: Limits, step: Step, asked: Asked): Asked {
    var after := Next(q, limits, step);
    if after.currentId != q.currentId && RequestOf(step).Some? then asked[after.currentId := RequestOf(step).value]
    else asked
  }

  function AskedFed(q: Queue, r: Request, asked: Asked): Asked {
    if Fed(q, r).currentId != q.currentId then asked[Fed(q, r).currentId := r] else asked
  }

  function AskedOver(q: Queue, limits: Limits, steps: seq<Step>, asked: Asked): Asked
    decreases |steps|
  {
    if steps == [] then asked
    else AskedOver(Next(q, limits, steps[0]), limits, steps[1..], AskedNext(q, limits, steps[0], asked))
  }

  ghost predicate StaysFit(q: Queue, limits: Limits, step: Step, asked: Asked) {
    AllAsFed(Next(q, limits, step), AskedNext(q, limits, step, asked))
  }

  /** A step that queues nothing. */
  lemma SameAsked(q: Queue, limits: Limits, step: Step, asked: Asked)
    requires !step.Feed? && !step.Retry? && AllAsFed(Next(q, limits, step), asked)
    ensures StaysFit(q, limits, step, asked)
  {
  }

  lemma FitWithout(jobs: seq<Job>, i: nat, asked: Asked, place: Place)
    requires i < |jobs| && AllFit(jobs, asked, place)
    ensures AllFit(Without(jobs, i), asked, place) && Fits(jobs[i], asked, place)
  {
  }

  lemma FitAppended(jobs: seq<Job>, job: Job, asked: Asked, place: Place)
    requires AllFit(jobs, asked, place) && Fits(job, asked, place)
    ensures AllFit(jobs + [job], asked, place) && AllFit([job] + jobs, asked, place)
  {
  }

  lemma FitWithMore(jobs: seq<Job>, asked: Asked, id: nat, r: Request, place: Place)
    requires AllFit(jobs, asked, place) && id !in asked
    ensures AllFit(jobs, asked[id := r], place)
  {
  }

  lemma QueuedFits(q: Queue, asked: Asked, r: Request)
    requires AllAsFed(q, asked)
    requires r.retryOf.Some? ==> r.retryOf.value in asked && Requested(r) == Requested(asked[r.retryOf.value])
    ensures AllAsFed(Fed(q, r), AskedFed(q, r, asked))
  {
    var after, id := Fed(q, r), q.currentId + 1;
    if after.currentId != q.currentId {
      assert id !in asked;
      FitsWithMore(q, asked, id, r);
      RetriesRepeatWithMore(asked, id, r);
      FitAppended(q.pending, NewJob(id, r), asked[id := r], InPending);
    }
  }

  lemma FitsWithMore(q: Queue, asked: Asked, id: nat, r: Request)
    requires JobsFit(q, asked) && LookedUpFit(q, asked) && id !in asked
    ensures JobsFit(q, asked[id := r]) && LookedUpFit(q, asked[id := r])
  {
    FitWithMore(q.pending, asked, id, r, InPending);
    FitWithMore(q.running, asked, id, r, InRunning);
    FitWithMore(q.finishing, asked, id, r, InFinishing);
    FitWithMore(q.failed, asked, id, r, InFailed);
    FitWithMore(q.completed, asked, id, r, InCompleted);
  }

  lemma RetriesRepeatWithMore(asked: Asked, id: nat, r: Request)
    requires RetriesRepeat(asked) && id !in asked
    requires r.retryOf.Some? ==> r.retryOf.value in asked && Requested(r) == Requested(asked[r.retryOf.value])
    ensures RetriesRepeat(asked[id := r])
  {
  }

  lemma FeedFits(q: Queue, limits: Limits, r: Request, asked: Asked)
    requires AllAsFed(q, asked)
    ensures StaysFit(q, limits, Feed(r), asked)
  {
    if r.retryOf.None? {
      QueuedFits(q, asked, r);
      assert Next(q, limits, Feed(r)) == Fed(q, r) && AskedNext(q, limits, Feed(r), asked) == AskedFed(q, r, asked);
    }
  }

  lemma RetryFits(q: Queue, limits: Limits, job: Job, asked: Asked)
    requires AllAsFed(q, asked)
    ensures StaysFit(q, limits, Retry(job), asked)
  {
    if job in q.lookedUp {
      assert Fits(job, asked, InFailed);
      assert Cleaned(Cleaned(job.kwargs)) == Cleaned(job.kwargs) == Cleaned(asked[job.id].kwargs);
      QueuedFits(q, asked, RetryRequest(job));
    }
  }

  lemma TakenFits(q: Queue, limits: Limits, step: Step, asked: Asked)
    requires AllAsFed(q, asked) && (step.Reserve? || step.Force? || step.Remove? || step.Move?)
    ensures AllAsFed(Next(q, limits, step), asked)
  {
    var i := if step.Reserve? then 0 else IndexOf(q.pending, step.id);
    if i < |q.pending| {
      FitWithout(q.pending, i, asked, InPending);
      FitAppended(q.running, q.pending[i], asked, InRunning);
      FitAppended(Without(q.pending, i), q.pending[i], asked, InPending);
      assert step.Reserve? ==> Without(q.pending, i) == q.pending[1..];
    }
  }

  lemma StartedFits(job: Job, asked: Asked)
    requires Fits(job, asked, InRunning)
    ensures Fits(Started(job), asked, InRunning)
  {
    var kwargs, r := Started(job).kwargs, asked[job.id];
    assert kwargs - {"job_id"} == job.kwargs - {"job_id"};
    assert WithOwnId(kwargs, r.kwargs, job.id);
  }

  lemma StartFits(q: Queue, limits: Limits, id: nat, asked: Asked)
    requires AllAsFed(q, asked)
    ensures AllAsFed(Next(q, limits, Start(id)), asked)
  {
    var i := IndexOf(q.running, id);
    if i < |q.running| {
      StartedFits(q.running[i], asked);
    }
  }

  lemma EndedFits(q: Queue, limits: Limits, step: Step, asked: Asked)
    requires AllAsFed(q, asked) && (step.Finish? || step.Record?)
    ensures AllAsFed(Next(q, limits, step), asked)
  {
    if step.Finish? {
      var i := IndexOf(q.running, step.id);
      if i < |q.running| {
        FitWithout(q.running, i, asked, InRunning);
        FitAppended(q.finishing, Ended(q.running[i], step.outcome), asked, InFinishing);
      }
    } else {
      RecordedFits(q, step.id, asked);
    }
  }

  lemma RecordedFits(q: Queue, id: nat, asked: Asked)
    requires AllAsFed(q, asked)
    ensures AllAsFed(Recorded(q, id), asked)
  {
    var i := IndexOf(q.finishing, id);
    if i < |q.finishing| {
      FitWithout(q.finishing, i, asked, InFinishing);
      if q.finishing[i].status == Failed {
        FitAppended(q.failed, q.finishing[i], asked, InFailed);
      } else {
        FitAppended(q.completed, q.finishing[i], asked, InCompleted);
      }
    }
  }

  lemma OtherStepFits(q: Queue, limits: Limits, step: Step, asked: Asked)
    requires AllAsFed(q, asked) && !step.Feed? && !step.Retry?
    ensures AllAsFed(Next(q, limits, step), asked)
  {
    if step.Reserve? || step.Force? || step.Remove? || step.Move? {
      TakenFits(q, limits, step, asked);
    } else if step.Start? {
      StartFits(q, limits, step.id, asked);
    } else if step.Finish? || step.Record? {
      EndedFits(q, limits, step, asked);
    } else {
      AsideFits(q, limits, step, asked);
    }
  }

  lemma StepFits(q: Queue, limits: Limits, step: Step, asked: Asked)
    requires AllAsFed(q, asked)
    ensures StaysFit(q, limits, step, asked)
  {
    match step
    case Feed(r) => FeedFits(q, limits, r, asked);
    case Retry(job) => RetryFits(q, limits, job, asked);
    case _ =>
      OtherStepFits(q, limits, step, asked);
      SameAsked(q, limits, step, asked);
  }

  lemma AsideFits(q: Queue, limits: Limits, step: Step, asked: Asked)
    requires AllAsFed(q, asked) && (step.LookUpFailed? || step.Clear? || step.ClaimInline? || step.Release?)
    ensures AllAsFed(Next(q, limits, step), asked)
  {
  }

  lemma {:induction false} RunFits(q: Queue, limits: Limits, steps: seq<Step>, asked: Asked)
    requires AllAsFed(q, asked)
    ensures AllAsFed(Run(q, limits, steps), AskedOver(q, limits, steps, asked))
    decreases |steps|
  {
    if steps != [] {
      StepFits(q, limits, steps[0], asked);
      RunFits(Next(q, limits, steps[0]), limits, steps[1..], AskedNext(q, limits, steps[0], asked));
    }
  }

  /** Main theorem: over every run from the empty queue each job, wherever it is, is the
      module, function and arguments asked for under its id, with its own id filled in only
      once it started and only where the caller left it out, in the status of its place;
      and what a retry asks for is what was asked under the id it retries. */
  lemma JobsRunWhatWasAsked(limits: Limits, steps: seq<Step>)
    ensures AllAsFed(Run(EMPTY, limits, steps), AskedOver(EMPTY, limits, steps, map[]))
  {
    RunFits(EMPTY, limits, steps, map[]);
  }
}
