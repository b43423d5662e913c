/**
 * The story-generation job table (`story_jobs`) and the lifecycle of one job: created
 * `pending` by the create request (backend/routers/story.py), then walked through
 * `processing` to `completed` or `failed` by the background task, and read back by the
 * job-status endpoint (backend/routers/job.py).
 */
module Jobs {
  import opened Wrappers
  import opened Http

  /** An opaque instant, standing for a value of `datetime.now()`. */
  type Tick = int

  datatype Status = Pending | Processing | Completed | Failed

  /** One row of `story_jobs`. */
  datatype Job = Job(
    jobId: string,
    sessionId: string,
    theme: string,
    status: Status,
    storyId: Option<int>,
    createdAt: Tick,
    completedAt: Option<Tick>,
    error: Option<string>)

  /** What the generation step of the background task did: nothing raised, or an exception with its message. */
  datatype TaskOutcome = Generated | Raised(message: string)

  /** The story id the background task records on success; story generation is not implemented yet. */
  const PlaceholderStoryId: int := 1

  /** The string stored in the `status` column for each status. */
  function StatusName(s: Status): string
  {
    match s
    case Pending => "pending"
    case Processing => "processing"
    case Completed => "completed"
    case Failed => "failed"
  }

  /** The status strings the source stores are distinct, so a stored string names one status. */
  lemma StatusNamesDistinct(a: Status, b: Status)
    ensures StatusName(a) == StatusName(b) <==> a == b
  {
  }

  predicate IsTerminal(s: Status) { s == Completed || s == Failed }

  /** The status the background task leaves a job in: completed on success, failed on an exception. */
  function FinalStatus(outcome: TaskOutcome): Status
  {
    match outcome
    case Generated => Completed
    case Raised(_) => Failed
  }

  /** The row `create_story` adds: pending, with no story, completion time or error. */
  function PendingJob(jobId: string, sessionId: string, theme: string, createdAt: Tick): Job
  {
    Job(jobId, sessionId, theme, Pending, None, createdAt, None, None)
  }

  /**
   * The two rows the background task commits for an existing job, in commit order: first the
   * job marked processing, then its terminal state. Success records the placeholder story id
   * and leaves the error alone; an exception records its message and leaves the story id alone.
   * Either way the completion time is set and the job is left in a terminal state.
   */
  function TaskWrites(job: Job, outcome: TaskOutcome, now: Tick): (writes: seq<Job>)
    ensures |writes| == 2
    ensures writes[0] == job.(status := Processing)
    ensures IsTerminal(writes[1].status)
    ensures writes[1].status == Completed <==> outcome.Generated?
    ensures writes[1].completedAt == Some(now)
    ensures outcome.Generated? ==> writes[1].storyId == Some(PlaceholderStoryId) && writes[1].error == job.error
    ensures outcome.Raised? ==> writes[1].error == Some(outcome.message) && writes[1].storyId == job.storyId
    ensures && writes[1].jobId == job.jobId && writes[1].sessionId == job.sessionId
            && writes[1].theme == job.theme && writes[1].createdAt == job.createdAt
  {
    var processing := job.(status := Processing);
    var finished :=
      match outcome
      case Generated => processing.(storyId := Some(PlaceholderStoryId), status := Completed, completedAt := Some(now))
      case Raised(message) => processing.(status := Failed, completedAt := Some(now), error := Some(message));
    [processing, finished]
  }

  /** The rows committed by `generate_story_task(jobId)`: none when no job has that id. */
  function TaskCommits(jobs: map<string, Job>, jobId: string, outcome: TaskOutcome, now: Tick): (commits: seq<Job>)
    ensures jobId !in jobs ==> commits == []
    ensures jobId in jobs ==> commits == TaskWrites(jobs[jobId], outcome, now)
  {
    if jobId in jobs then TaskWrites(jobs[jobId], outcome, now) else []
  }

  /**
   * The table after `generate_story_task(jobId)`: unchanged when the id is unknown; otherwise
   * only that job changes, to the last row the task commits, which is never `processing`.
   */
  function ApplyTask(jobs: map<string, Job>, jobId: string, outcome: TaskOutcome, now: Tick): (after: map<string, Job>)
    ensures after.Keys == jobs.Keys
    ensures jobId !in jobs ==> after == jobs
    ensures forall k :: k in jobs && k != jobId ==> after[k] == jobs[k]
    ensures jobId in jobs ==> after[jobId] == TaskWrites(jobs[jobId], outcome, now)[1]
    ensures jobId in jobs ==> IsTerminal(after[jobId].status)
  {
    if jobId in jobs then jobs[jobId := TaskWrites(jobs[jobId], outcome, now)[1]] else jobs
  }

  /** `get_job_status`: the stored row for a known id, a 404 "Job not found" otherwise. */
  function LookupJob(jobs: map<string, Job>, jobId: string): (r: Result<Job, HttpError>)
    ensures r.Success? <==> jobId in jobs
    ensures r.Success? ==> r.value == jobs[jobId]
    ensures r.Failure? ==> r.error == HttpError(NotFound, "Job not found")
  {
    if jobId in jobs then Success(jobs[jobId]) else Failure(HttpError(NotFound, "Job not found"))
  }

  /** The task for one job never disturbs what a poll of another job returns. */
  lemma {:induction false} PollUnaffectedByOtherTask(jobs: map<string, Job>, polled: string, ran: string, outcome: TaskOutcome, now: Tick)
    requires polled != ran
    ensures LookupJob(ApplyTask(jobs, ran, outcome, now), polled) == LookupJob(jobs, polled)
  {
  }

  // ---- The lifecycle as a sequence of committed statuses ----

  /** The transitions the lifecycle allows: pending to processing, processing to completed or failed. */
  predicate Step(from: Status, to: Status)
  {
    (from == Pending && to == Processing) || (from == Processing && IsTerminal(to))
  }

  /** A history of committed statuses that starts pending and moves by allowed steps only. */
  predicate Lifecycle(h: seq<Status>)
  {
    |h| >= 1 && h[0] == Pending && forall i :: 0 < i < |h| ==> Step(h[i - 1], h[i])
  }

  /**
   * What a lifecycle can look like: at most three states, processing second, a terminal state
   * only third and last, and never pending straight to failed.
   */
  lemma LifecycleShape(h: seq<Status>)
    requires Lifecycle(h)
    ensures |h| <= 3
    ensures |h| >= 2 ==> h[1] == Processing
    ensures |h| == 3 ==> IsTerminal(h[2])
    ensures forall i :: 0 <= i < |h| && IsTerminal(h[i]) ==> i == 2
  {
    if |h| >= 2 { assert Step(h[0], h[1]); }
    if |h| >= 3 { assert Step(h[1], h[2]); }
    assert |h| >= 4 ==> Step(h[2], h[3]);
  }

  /** The statuses committed for one job id, in commit order. */
  function StatusesOf(commits: seq<Job>, jobId: string): seq<Status>
    decreases |commits|
  {
    if commits == [] then []
    else
      var last := commits[|commits| - 1];
      StatusesOf(commits[..|commits| - 1], jobId) + (if last.jobId == jobId then [last.status] else [])
  }

  /** The statuses of two consecutive stretches of commits are those of each, in order. */
  lemma {:induction false} StatusesOfAppend(a: seq<Job>, b: seq<Job>, jobId: string)
    ensures StatusesOf(a + b, jobId) == StatusesOf(a, jobId) + StatusesOf(b, jobId)
    decreases |b|
  {
    if b == [] {
      assert a + b == a;
    } else {
      var front := b[..|b| - 1];
      assert (a + b)[..|a + b| - 1] == a + front;
      assert (a + b)[|a + b| - 1] == b[|b| - 1];
      StatusesOfAppend(a, front, jobId);
    }
  }

  /** The two writes of one task commit processing, then its terminal status. */
  lemma TaskWritesStatuses(job: Job, outcome: TaskOutcome, now: Tick)
    ensures StatusesOf(TaskWrites(job, outcome, now), job.jobId)
         == [Processing, FinalStatus(outcome)]
  {
    var w := TaskWrites(job, outcome, now);
    assert w[..1][..0] == [];
    assert StatusesOf(w[..1], job.jobId) == [Processing];
    assert w[..|w| - 1] == w[..1];
  }

  /** An id no commit carries has an empty history. */
  lemma {:induction false} StatusesOfAbsent(commits: seq<Job>, jobId: string)
    requires forall i :: 0 <= i < |commits| ==> commits[i].jobId != jobId
    ensures StatusesOf(commits, jobId) == []
    decreases |commits|
  {
    if commits != [] {
      var front := commits[..|commits| - 1];
      assert forall i :: 0 <= i < |front| ==> front[i].jobId != jobId by {
        forall i | 0 <= i < |front| ensures front[i].jobId != jobId { assert front[i] == commits[i]; }
      }
      StatusesOfAbsent(front, jobId);
    }
  }

  /** Pending, processing, then a terminal state is a lifecycle. */
  lemma FullLifecycle(terminal: Status)
    requires IsTerminal(terminal)
    ensures Lifecycle([Pending, Processing, terminal])
  {
  }

  /**
   * Committing a job and then running the background task for it adds exactly three statuses
   * to that id's history: the job's own, processing, then completed on success or failed on an
   * exception.
   */
  lemma CreateThenTaskHistory(commits: seq<Job>, job: Job, outcome: TaskOutcome, now: Tick)
    ensures StatusesOf(commits + [job] + TaskWrites(job, outcome, now), job.jobId)
         == StatusesOf(commits, job.jobId) + [job.status, Processing, FinalStatus(outcome)]
  {
    assert (commits + [job])[..|commits|] == commits;
    TaskWritesStatuses(job, outcome, now);
    StatusesOfAppend(commits + [job], TaskWrites(job, outcome, now), job.jobId);
  }

  /**
   * For a job created pending under an id with no history yet, as `create_story` creates it,
   * that history is a lifecycle: pending, processing, then terminal, never pending straight to
   * failed.
   */
  lemma CreateThenTaskLifecycle(commits: seq<Job>, job: Job, outcome: TaskOutcome, now: Tick)
    requires StatusesOf(commits, job.jobId) == []
    requires job.status == Pending
    ensures Lifecycle(StatusesOf(commits + [job] + TaskWrites(job, outcome, now), job.jobId))
  {
    CreateThenTaskHistory(commits, job, outcome, now);
    FullLifecycle(FinalStatus(outcome));
  }

  // ---- The table itself ----

  /** The most recent row committed for `jobId`, if any. */
  function LastCommitted(commits: seq<Job>, jobId: string): Option<Job>
    decreases |commits|
  {
    if commits == [] then None
    else if commits[|commits| - 1].jobId == jobId then Some(commits[|commits| - 1])
    else LastCommitted(commits[..|commits| - 1], jobId)
  }

  lemma {:induction false} LastCommittedAppend(commits: seq<Job>, more: seq<Job>, jobId: string)
    requires forall i :: 0 <= i < |more| ==> more[i].jobId != jobId
    ensures LastCommitted(commits + more, jobId) == LastCommitted(commits, jobId)
    decreases |more|
  {
    if more == [] {
      assert commits + more == commits;
    } else {
      var all := commits + more;
      var front := more[..|more| - 1];
      assert all[|all| - 1] == more[|more| - 1];
      assert all[..|all| - 1] == commits + front;
      assert forall i :: 0 <= i < |front| ==> front[i].jobId != jobId by {
        forall i | 0 <= i < |front| ensures front[i].jobId != jobId { assert front[i] == more[i]; }
      }
      LastCommittedAppend(commits, front, jobId);
    }
  }

  /** An id with no committed row has no commit at all, so StatusesOfAbsent applies to it. */
  lemma {:induction false} NothingCommittedFor(commits: seq<Job>, jobId: string)
    requires LastCommitted(commits, jobId).None?
    ensures forall i :: 0 <= i < |commits| ==> commits[i].jobId != jobId
    decreases |commits|
  {
    if commits != [] {
      var front := commits[..|commits| - 1];
      NothingCommittedFor(front, jobId);
      forall i | 0 <= i < |commits| ensures commits[i].jobId != jobId {
        if i < |front| { assert commits[i] == front[i]; }
      }
    }
  }

  /** An id the table has never committed a row for has no history yet. */
  lemma NoHistoryYet(commits: seq<Job>, jobId: string)
    requires LastCommitted(commits, jobId).None?
    ensures StatusesOf(commits, jobId) == []
  {
    NothingCommittedFor(commits, jobId);
    StatusesOfAbsent(commits, jobId);
  }

  /**
   * `story_jobs`, with the log of committed rows. Every row is stored under its own job id,
   * and the stored row for an id is the last one committed for it.
   */
  class JobTable {
    var jobs: map<string, Job>
    var commits: seq<Job>

    ghost predicate Valid()
      reads this
    {
      && (forall k :: k in jobs ==> jobs[k].jobId == k)
      && (forall k :: LastCommitted(commits, k) == (if k in jobs then Some(jobs[k]) else None))
    }

    constructor ()
      ensures Valid()
      ensures jobs == map[] && commits == []
    {
      jobs := map[];
      commits := [];
    }

    /**
     * `create_story`: adds one pending job under the fresh id `jobId` (standing for
     * `uuid4()`), with the request's theme and the session id, commits it and returns it.
     */
    method Create(jobId: string, theme: string, sessionId: string, now: Tick) returns (job: Job)
      requires Valid()
      requires jobId !in jobs
      modifies this
      ensures Valid()
      ensures job == PendingJob(jobId, sessionId, theme, now)
      ensures jobs == old(jobs)[jobId := job]
      ensures commits == old(commits) + [job]
    {
      job := PendingJob(jobId, sessionId, theme, now);
      LastCommittedAppend(commits, [], jobId);
      jobs := jobs[jobId := job];
      commits := commits + [job];
      forall k ensures LastCommitted(commits, k) == (if k in jobs then Some(jobs[k]) else None) {
        if k != jobId {
          LastCommittedAppend(old(commits), [job], k);
        }
      }
    }

    /**
     * `generate_story_task(jobId)`: nothing at all when no job has that id; otherwise that job
     * is committed as processing and then in its terminal state, and no other job changes.
     */
    method RunTask(jobId: string, outcome: TaskOutcome, now: Tick)
      requires Valid()
      modifies this
      ensures Valid()
      ensures jobs == ApplyTask(old(jobs), jobId, outcome, now)
      ensures commits == old(commits) + TaskCommits(old(jobs), jobId, outcome, now)
    {
      if jobId !in jobs {
        return;
      }
      var job := jobs[jobId];
      var processing := job.(status := Processing);
      jobs := jobs[jobId := processing];
      commits := commits + [processing];
      var finished := TaskWrites(job, outcome, now)[1];
      jobs := jobs[jobId := finished];
      commits := commits + [finished];
      assert commits == old(commits) + [processing, finished];
      forall k ensures LastCommitted(commits, k) == (if k in jobs then Some(jobs[k]) else None) {
        if k != jobId {
          LastCommittedAppend(old(commits), [processing, finished], k);
        }
      }
    }

    /**
     * `create_story` followed, once the response is sent, by its queued background task: the
     * new id's committed history is pending, processing, then completed or failed, which is a
     * lifecycle, and the job ends in that terminal state.
     */
    method CreateThenRun(jobId: string, theme: string, sessionId: string, outcome: TaskOutcome, createdAt: Tick, now: Tick)
      returns (job: Job)
      requires Valid()
      requires jobId !in jobs
      modifies this
      ensures Valid()
      ensures job == PendingJob(jobId, sessionId, theme, createdAt)
      ensures StatusesOf(commits, jobId) == StatusesOf(old(commits), jobId) + [Pending, Processing, FinalStatus(outcome)]
      ensures old(StatusesOf(commits, jobId)) == []
      ensures Lifecycle(StatusesOf(commits, jobId))
      ensures jobId in jobs && jobs[jobId] == TaskWrites(job, outcome, now)[1]
      ensures jobs == old(jobs)[jobId := TaskWrites(job, outcome, now)[1]]
      ensures commits == old(commits) + [job] + TaskWrites(job, outcome, now)
    {
      NoHistoryYet(commits, jobId);
      var before := commits;
      job := Create(jobId, theme, sessionId, createdAt);
      RunTask(jobId, outcome, now);
      CreateThenTaskHistory(before, job, outcome, now);
      CreateThenTaskLifecycle(before, job, outcome, now);
    }

    /** `get_job_status`: reads the table and changes nothing. */
    method Get(jobId: string) returns (r: Result<Job, HttpError>)
      ensures r == LookupJob(jobs, jobId)
    {
      if jobId in jobs {
        r := Success(jobs[jobId]);
      } else {
        r := Failure(HttpError(NotFound, "Job not found"));
      }
    }

    /** Polling twice with no write in between gives the same answer both times. */
    method PollTwice(jobId: string) returns (first: Result<Job, HttpError>, second: Result<Job, HttpError>)
      ensures first == second
    {
      first := Get(jobId);
      second := Get(jobId);
    }
  }
}
