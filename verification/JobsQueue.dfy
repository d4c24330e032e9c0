/**
 The queue object and its locked sections, in place. Every method is one step of
 the state machine, whose history fields are the ghost fields here.
 */
module JobsQueue {
  import opened Common
  import opened JobsModel

  class Queues {
    var pending: seq<Job>
    var running: seq<Job>
    var finishing: seq<Job>
    var failed: seq<Job>
    var completed: seq<Job>
    var currentId: nat
    var claims: seq<Claim>
    ghost var lookedUp: set<Job>
    ghost var dropped: set<nat>
    ghost var forced: set<nat>
    ghost var failedLog: seq<Job>
    ghost var completedLog: seq<Job>
    ghost var reserved: seq<nat>

    ghost function State(): Queue
      reads this
    {
      Queue(pending, running, finishing, failed, completed, currentId, claims, lookedUp,
            dropped, forced, failedLog, completedLog, reserved)
    }

    constructor ()
      ensures State() == EMPTY
    {
      pending, running, finishing, failed, completed := [], [], [], [], [];
      currentId, claims, lookedUp := 0, [], {};
      dropped, forced, failedLog, completedLog, reserved := {}, {}, [], [], [];
    }

    static method Locate(jobs: seq<Job>, id: nat) returns (i: nat)
      ensures i == IndexOf(jobs, id)
    {
      i := 0;
      while i < |jobs| && jobs[i].id != id
        invariant i <= |jobs|
        invariant forall k | 0 <= k < i :: jobs[k].id != id
      {
        i := i + 1;
      }
    }

    method FindExistingJob(work: Work) returns (i: nat)
      ensures i == ExistingIndex(pending + running, work)
    {
      var toCheck := pending + running;
      i := 0;
      while i < |toCheck| && WorkOf(toCheck[i]) != work
        invariant i <= |toCheck|
        invariant forall k | 0 <= k < i :: WorkOf(toCheck[k]) != work
      {
        i := i + 1;
      }
    }

    method FindInlineClaim(work: Work) returns (c: nat)
      ensures c == ClaimIndex(claims, work)
    {
      c := 0;
      while c < |claims| && claims[c].work != work
        invariant c <= |claims|
        invariant forall k | 0 <= k < c :: claims[k].work != work
      {
        c := c + 1;
      }
    }

    /** None when nothing owns the work. */
    method FindOwner(work: Work) returns (owner: Option<Option<nat>>)
      ensures owner == Owner(State(), work)
    {
      var i := FindExistingJob(work);
      if i < |pending + running| {
        return Some(Some((pending + running)[i].id));
      }
      var c := FindInlineClaim(work);
      owner := if c < |claims| then Some(claims[c].owner) else None;
    }

    method FeedPending(r: Request, returnExisting: bool) returns (answer: Answer)
      modifies this`pending, this`currentId
      ensures State() == Fed(old(State()), r)
      ensures answer == FeedAnswer(old(State()), r, returnExisting)
    {
      var owner := FindOwner(Requested(r));
      if owner.Some? {
        return if returnExisting then Follow(owner.value) else Refused;
      }
      currentId := currentId + 1;
      pending := pending + [NewJob(currentId, r)];
      answer := Follow(Some(currentId));
    }

    /** The failed job is looked up in one locked section and fed in another. */
    method RetryJob(id: nat, limits: Limits) returns (answer: Answer)
      modifies this`pending, this`currentId, this`lookedUp
      ensures
        var i, q := IndexOf(old(failed), id), old(State());
        if i < |old(failed)| && old(failed)[i].retryable
        then State() == Next(Next(q, limits, LookUpFailed(id)), limits, Retry(old(failed)[i]))
             && answer == FeedAnswer(q, RetryRequest(old(failed)[i]), false)
        else State() == q && answer == Refused
    {
      var i := Locate(failed, id);
      if i == |failed| || !failed[i].retryable {
        return Refused;
      }
      lookedUp := lookedUp + {failed[i]};
      ghost var q := State();
      answer := FeedPending(RetryRequest(failed[i]), false);
      assert Owner(q, Requested(RetryRequest(failed[i]))) == Owner(old(State()), Requested(RetryRequest(failed[i])));
    }

    method HasCapacityFor(job: Job, limits: Limits) returns (ok: bool)
      ensures ok == HasCapacity(State(), limits, job)
    {
      if |running| >= limits.general {
        return false;
      }
      if !IsTranslation(job) {
        return true;
      }
      var translations, i := 0, 0;
      while i < |running|
        invariant 0 <= i <= |running|
        invariant translations == Translations(running[..i])
      {
        assert running[..i + 1][..i] == running[..i];
        if IsTranslation(running[i]) {
          translations := translations + 1;
        }
        i := i + 1;
      }
      assert running[..i] == running;
      ok := translations < limits.lane;
    }

    method ReserveNextJob(limits: Limits) returns (job: Option<Job>)
      modifies this`pending, this`running, this`reserved
      ensures State() == Next(old(State()), limits, Reserve)
      ensures job == if State() == old(State()) then None else Some(old(pending)[0])
    {
      if pending == [] {
        return None;
      }
      var ok := HasCapacityFor(pending[0], limits);
      if !ok {
        return None;
      }
      ghost var before := |pending|;
      job := Some(pending[0]);
      running := running + [pending[0]];
      reserved := reserved + [pending[0].id];
      pending := pending[1..];
      assert |pending| < before;
    }

    method ForceStart(id: nat) returns (ok: bool)
      modifies this`pending, this`running, this`forced, this`reserved
      ensures State() == Forced(old(State()), id)
      ensures ok <==> |running| == |old(running)| + 1
    {
      var i := Locate(pending, id);
      if i == |pending| || pending[i].status != Pending {
        return false;
      }
      running := running + [pending[i]];
      pending := Without(pending, i);
      forced := forced + {id};
      reserved := reserved + [id];
      ok := true;
    }

    method RemoveFromPending(id: nat) returns (ok: bool)
      modifies this`pending, this`dropped
      ensures State() == Removed(old(State()), id)
      ensures ok <==> |pending| == |old(pending)| - 1
    {
      var i := Locate(pending, id);
      if i == |pending| || pending[i].status != Pending {
        return false;
      }
      pending := Without(pending, i);
      dropped := dropped + {id};
      ok := true;
    }

    /** A destination that is neither end drops the job. */
    method MoveInPending(id: nat, destination: Destination) returns (ok: bool)
      modifies this`pending, this`dropped
      ensures State() == Moved(old(State()), id, destination)
      ensures ok == (IndexOf(old(pending), id) < |old(pending)|
                     && old(pending)[IndexOf(old(pending), id)].status == Pending && !destination.Elsewhere?)
    {
      var i := Locate(pending, id);
      if i == |pending| || pending[i].status != Pending {
        return false;
      }
      var job := pending[i];
      pending := Without(pending, i);
      match destination {
        case Top => pending := [job] + pending;
        case Bottom => pending := pending + [job];
        case Elsewhere =>
          dropped := dropped + {id};
          return false;
      }
      ok := true;
    }

    method StartRunning(id: nat, limits: Limits)
      modifies this`running
      ensures State() == Next(old(State()), limits, Start(id))
    {
      var i := Locate(running, id);
      if i < |running| {
        running := running[i := Started(running[i])];
      }
    }

    /** The locked half of a finish. */
    method LeaveRunning(id: nat, outcome: Outcome)
      modifies this`running, this`finishing
      ensures State() == Finished(old(State()), id, outcome)
    {
      var i := Locate(running, id);
      if i < |running| {
        finishing := finishing + [Ended(running[i], outcome)];
        running := Without(running, i);
      }
    }

    /** The half outside the lock. */
    method EnterHistory(id: nat)
      modifies this`finishing, this`failed, this`completed, this`dropped, this`failedLog, this`completedLog
      ensures State() == Recorded(old(State()), id)
    {
      ghost var q := State();
      var i := Locate(finishing, id);
      if i == |finishing| {
        return;
      }
      var job := finishing[i];
      finishing := Without(finishing, i);
      assert State() == q.(finishing := finishing);
      if job.status == Failed {
        EnterFailed(job);
      } else {
        EnterCompleted(job);
      }
    }

    method EnterFailed(job: Job)
      modifies this`failed, this`dropped, this`failedLog
      ensures
        var q := old(State());
        State() == q.(failed := Remember(q.failed, job), failedLog := q.failedLog + [job],
                      dropped := q.dropped + PushedOut(q.failed))
    {
      dropped := dropped + PushedOut(failed);
      failed := Remember(failed, job);
      failedLog := failedLog + [job];
    }

    method EnterCompleted(job: Job)
      modifies this`completed, this`dropped, this`completedLog
      ensures
        var q := old(State());
        State() == q.(completed := Remember(q.completed, job), completedLog := q.completedLog + [job],
                      dropped := q.dropped + PushedOut(q.completed))
    {
      dropped := dropped + PushedOut(completed);
      completed := Remember(completed, job);
      completedLog := completedLog + [job];
    }

    method EmptyQueue(list: List)
      modifies this`pending, this`failed, this`completed, this`dropped, this`failedLog, this`completedLog
      ensures State() == Cleared(old(State()), list)
    {
      match list {
        case PendingList =>
          dropped := dropped + IdSet(pending);
          pending := [];
        case FailedList =>
          dropped := dropped + IdSet(failed);
          failed, failedLog := [], [];
        case CompletedList =>
          dropped := dropped + IdSet(completed);
          completed, completedLog := [], [];
      }
    }

    /** The id of the job that owns the work: the caller's when it claimed it. */
    method ClaimInlineJob(mod: string, func: string, args: seq<Value>, kwargs: Kwargs, owner: Option<nat>)
      returns (id: Option<nat>)
      modifies this`claims
      ensures
        var work := Work(mod, func, args, Cleaned(kwargs));
        && State() == Claimed(old(State()), work, owner)
        && Owner(State(), work) == Some(id)
        && (Owner(old(State()), work).None? ==> id == owner)
    {
      var work := Work(mod, func, args, Cleaned(kwargs));
      var existing := FindOwner(work);
      if existing.Some? {
        return existing.value;
      }
      assert ClaimIndex(claims, work) == |claims|;
      ghost var before := claims;
      claims := claims + [Claim(work, owner)];
      id := owner;
      assert ClaimIndex(claims, work) == |claims| - 1 by {
        forall k | 0 <= k < |before| ensures claims[k].work != work {
          assert claims[k] == before[k];
        }
        assert claims[|before|].work == work;
      }
    }

    method ReleaseInlineJob(mod: string, func: string, args: seq<Value>, kwargs: Kwargs, limits: Limits)
      modifies this`claims
      ensures State() == Next(old(State()), limits, Release(Work(mod, func, args, Cleaned(kwargs))))
    {
      var work := Work(mod, func, args, Cleaned(kwargs));
      var c := FindInlineClaim(work);
      if c < |claims| {
        claims := Without(claims, c);
      }
    }
  }
}
