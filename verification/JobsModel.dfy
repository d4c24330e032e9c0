/**
 The jobs queue as a state machine: one step for each locked section, with the
 gap between leaving the running queue and entering a history queue kept as a
 place of its own.
 */
module JobsModel {
  import opened Common

  datatype Value = Number(n: int) | Text(t: string)

  type Kwargs = map<string, Value>

  datatype Status = Pending | Running | Failed | Completed

  datatype Job = Job(id: nat, mod: string, func: string, args: seq<Value>, kwargs: Kwargs,
                     status: Status, retryable: bool, retryOf: Option<nat>)

  /** What the queue refuses to duplicate. */
  datatype Work = Work(mod: string, func: string, args: seq<Value>, kwargs: Kwargs)

  datatype Claim = Claim(work: Work, owner: Option<nat>)

  datatype Request = Request(mod: string, func: string, args: seq<Value>, kwargs: Kwargs,
                             retryable: bool, retryOf: Option<nat>)

  function Cleaned(kwargs: Kwargs): Kwargs {
    kwargs - {"job_id"}
  }

  function WorkOf(job: Job): Work {
    Work(job.mod, job.func, job.args, Cleaned(job.kwargs))
  }

  function Requested(r: Request): Work {
    Work(r.mod, r.func, r.args, Cleaned(r.kwargs))
  }

  predicate IsTranslation(job: Job) {
    || (job.mod == "subtitles.tools.translate.main" && job.func == "translate_subtitles_file")
    || (job.mod == "subtitles.tools.translate.editor" && job.func == "translate_editor_lines")
  }

  /** The last four fields are history the code does not keep: the ids that left
      for good, the ids forced past the capacity check, everything either history
      queue received since it was last cleared, and the ids in the order they were
      reserved. */
  datatype Queue = Queue(
    pending: seq<Job>, running: seq<Job>, finishing: seq<Job>, failed: seq<Job>, completed: seq<Job>,
    currentId: nat, claims: seq<Claim>, lookedUp: set<Job>,
    dropped: set<nat>, forced: set<nat>, failedLog: seq<Job>, completedLog: seq<Job>, reserved: seq<nat>)

  const EMPTY: Queue := Queue([], [], [], [], [], 0, [], {}, {}, {}, [], [], [])

  datatype Limits = Limits(general: int, lane: int)

  const HISTORY: nat := 10

  // ---- Searches

  function IndexOf(jobs: seq<Job>, id: nat): (i: nat)
    ensures i <= |jobs|
    ensures i < |jobs| ==> jobs[i].id == id
    ensures forall k | 0 <= k < i :: jobs[k].id != id
    decreases |jobs|
  {
    if jobs == [] then 0 else if jobs[0].id == id then 0 else 1 + IndexOf(jobs[1..], id)
  }

  /** The first pending or running job with this work. */
  function ExistingIndex(jobs: seq<Job>, work: Work): (i: nat)
    ensures i <= |jobs|
    ensures i < |jobs| ==> WorkOf(jobs[i]) == work
    ensures forall k | 0 <= k < i :: WorkOf(jobs[k]) != work
    decreases |jobs|
  {
    if jobs == [] then 0 else if WorkOf(jobs[0]) == work then 0 else 1 + ExistingIndex(jobs[1..], work)
  }

  function ClaimIndex(claims: seq<Claim>, work: Work): (i: nat)
    ensures i <= |claims|
    ensures i < |claims| ==> claims[i].work == work
    ensures forall k | 0 <= k < i :: claims[k].work != work
    decreases |claims|
  {
    if claims == [] then 0 else if claims[0].work == work then 0 else 1 + ClaimIndex(claims[1..], work)
  }

  function Without<T>(s: seq<T>, i: nat): seq<T>
    requires i < |s|
  {
    s[..i] + s[i + 1..]
  }

  function Translations(jobs: seq<Job>): nat
    decreases |jobs|
  {
    if jobs == [] then 0
    else Translations(jobs[..|jobs| - 1]) + if IsTranslation(jobs[|jobs| - 1]) then 1 else 0
  }

  predicate HasCapacity(q: Queue, limits: Limits, job: Job) {
    && |q.running| < limits.general
    && (IsTranslation(job) ==> Translations(q.running) < limits.lane)
  }

  /** A deque of at most HISTORY entries takes one more. */
  function Remember(history: seq<Job>, job: Job): seq<Job> {
    var longer := history + [job];
    if |longer| > HISTORY then longer[|longer| - HISTORY..] else longer
  }

  function PushedOut(history: seq<Job>): set<nat> {
    if |history| >= HISTORY then set i | 0 <= i <= |history| - HISTORY :: history[i].id else {}
  }

  function IdSet(jobs: seq<Job>): set<nat> {
    set i | 0 <= i < |jobs| :: jobs[i].id
  }

  // ---- Steps

  datatype Answer = Refused | Follow(id: Option<nat>)

  datatype Destination = Top | Bottom | Elsewhere

  datatype Outcome = Succeeded | Cancelled | Broke(retryable: Option<bool>)

  datatype List = PendingList | FailedList | CompletedList

  datatype Step =
    | Feed(request: Request)
    | LookUpFailed(id: nat)
    | Retry(job: Job)
    | Reserve
    | Force(id: nat)
    | Remove(id: nat)
    | Move(id: nat, destination: Destination)
    | Start(id: nat)
    | Finish(id: nat, outcome: Outcome)
    | Record(id: nat)
    | Clear(list: List)
    | ClaimInline(work: Work, owner: Option<nat>)
    | Release(work: Work)

  function NewJob(id: nat, r: Request): Job {
    Job(id, r.mod, r.func, r.args, r.kwargs, Pending, r.retryable, r.retryOf)
  }

  /** The job or claim that owns the work, and whose id a follower gets. */
  function Owner(q: Queue, work: Work): Option<Option<nat>> {
    var jobs := q.pending + q.running;
    var i, c := ExistingIndex(jobs, work), ClaimIndex(q.claims, work);
    if i < |jobs| then Some(Some(jobs[i].id))
    else if c < |q.claims| then Some(q.claims[c].owner)
    else None
  }

  function Fed(q: Queue, r: Request): Queue {
    if Owner(q, Requested(r)).Some? then q
    else q.(currentId := q.currentId + 1, pending := q.pending + [NewJob(q.currentId + 1, r)])
  }

  function FeedAnswer(q: Queue, r: Request, returnExisting: bool): Answer {
    match Owner(q, Requested(r))
    case Some(id) => if returnExisting then Follow(id) else Refused
    case None => Follow(Some(q.currentId + 1))
  }

  /** The request a retry makes with the job it found in the failed queue. */
  function RetryRequest(job: Job): Request {
    Request(job.mod, job.func, job.args, Cleaned(job.kwargs), true, Some(job.id))
  }

  /** The worker's job gets its own id where the caller left none. */
  function Started(job: Job): Job {
    var unset := "job_id" !in job.kwargs || job.kwargs["job_id"] in {Number(0), Text("")};
    job.(status := Running, kwargs := if unset then job.kwargs["job_id" := Number(job.id)] else job.kwargs)
  }

  function Ended(job: Job, outcome: Outcome): Job {
    match outcome
    case Broke(retryable) =>
      job.(status := Failed, retryable := if retryable.Some? then retryable.value else job.retryable)
    case _ => job.(status := Completed)
  }

  function Forced(q: Queue, id: nat): Queue {
    var i := IndexOf(q.pending, id);
    if i == |q.pending| || q.pending[i].status != Pending then q
    else q.(pending := Without(q.pending, i), running := q.running + [q.pending[i]], forced := q.forced + {id},
            reserved := q.reserved + [id])
  }

  function Reserved(q: Queue, limits: Limits): Queue {
    if q.pending == [] || !HasCapacity(q, limits, q.pending[0]) then q
    else q.(pending := q.pending[1..], running := q.running + [q.pending[0]],
            reserved := q.reserved + [q.pending[0].id])
  }

  function Removed(q: Queue, id: nat): Queue {
    var i := IndexOf(q.pending, id);
    if i == |q.pending| || q.pending[i].status != Pending then q
    else q.(pending := Without(q.pending, i), dropped := q.dropped + {id})
  }

  function Moved(q: Queue, id: nat, destination: Destination): Queue {
    var i := IndexOf(q.pending, id);
    if i == |q.pending| || q.pending[i].status != Pending then q
    else
      var rest := Without(q.pending, i);
      match destination
      case Top => q.(pending := [q.pending[i]] + rest)
      case Bottom => q.(pending := rest + [q.pending[i]])
      case Elsewhere => q.(pending := rest, dropped := q.dropped + {id})
  }

  function Finished(q: Queue, id: nat, outcome: Outcome): Queue {
    var i := IndexOf(q.running, id);
    if i == |q.running| then q
    else q.(running := Without(q.running, i), finishing := q.finishing + [Ended(q.running[i], outcome)])
  }

  function Recorded(q: Queue, id: nat): Queue {
    var i := IndexOf(q.finishing, id);
    if i == |q.finishing| then q
    else
      var job, rest := q.finishing[i], Without(q.finishing, i);
      if job.status == Failed then
        q.(finishing := rest, failed := Remember(q.failed, job), failedLog := q.failedLog + [job],
           dropped := q.dropped + PushedOut(q.failed))
      else
        q.(finishing := rest, completed := Remember(q.completed, job), completedLog := q.completedLog + [job],
           dropped := q.dropped + PushedOut(q.completed))
  }

  function Cleared(q: Queue, list: List): Queue {
    match list
    case PendingList => q.(pending := [], dropped := q.dropped + IdSet(q.pending))
    case FailedList => q.(failed := [], failedLog := [], dropped := q.dropped + IdSet(q.failed))
    case CompletedList => q.(completed := [], completedLog := [], dropped := q.dropped + IdSet(q.completed))
  }

  function Claimed(q: Queue, work: Work, owner: Option<nat>): Queue {
    if Owner(q, work).Some? then q else q.(claims := q.claims + [Claim(work, owner)])
  }

  function Next(q: Queue, limits: Limits, step: Step): Queue {
    match step
    case Feed(r) => if r.retryOf.None? then Fed(q, r) else q
    case LookUpFailed(id) =>
      var i := IndexOf(q.failed, id);
      if i < |q.failed| && q.failed[i].retryable then q.(lookedUp := q.lookedUp + {q.failed[i]}) else q
    case Retry(job) => if job in q.lookedUp then Fed(q, RetryRequest(job)) else q
    case Reserve => Reserved(q, limits)
    case Force(id) => Forced(q, id)
    case Remove(id) => Removed(q, id)
    case Move(id, destination) => Moved(q, id, destination)
    case Start(id) =>
      var i := IndexOf(q.running, id);
      if i < |q.running| then q.(running := q.running[i := Started(q.running[i])]) else q
    case Finish(id, outcome) => Finished(q, id, outcome)
    case Record(id) => Recorded(q, id)
    case Clear(list) => Cleared(q, list)
    case ClaimInline(work, owner) => if "job_id" in work.kwargs then q else Claimed(q, work, owner)
    case Release(work) =>
      var c := ClaimIndex(q.claims, work);
      if c < |q.claims| then q.(claims := Without(q.claims, c)) else q
  }

  function Run(q: Queue, limits: Limits, steps: seq<Step>): Queue
    decreases |steps|
  {
    if steps == [] then q else Run(Next(q, limits, steps[0]), limits, steps[1..])
  }
}
