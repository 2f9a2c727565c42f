/**
 * The render queue object: its job map and promise chain are fields updated in
 * place, and every state-changing method performs one transition of Jobs on
 * them, logging to the queue's capped log buffer as it goes.
 */
module RenderQueues {
  import opened Wrappers
  import opened Jobs
  import opened LogEntries
  import opened RecentLogs

  class RenderQueue {
    const port: nat
    /** The module-level log buffer the queue writes to. */
    const recent: RecentLog
    var jobs: map<string, JobState>
    var pending: seq<string>
    var current: Option<string>
    var rejected: bool
    var cancelSignalled: bool

    function State(): Queue
      reads this
    {
      Queue(port, jobs, pending, current, rejected, cancelSignalled)
    }

    ghost predicate Valid()
      reads this, recent
    {
      Inv(State()) && recent.Valid()
    }

    /** `makeRenderQueue({ port })`: no jobs, an already-settled chain. */
    constructor (port: nat, recent: RecentLog)
      requires recent.Valid()
      ensures Valid() && State() == EmptyQueue(port) && this.recent == recent
    {
      this.port := port;
      this.recent := recent;
      jobs := map[];
      pending := [];
      current := None;
      rejected := false;
      cancelSignalled := false;
    }

    /** `queueRender`: store the queued record, chain the render, log it. */
    method QueueRender(jobId: string, data: JobData, ts: string)
      requires Valid() && jobId !in jobs && jobId !in pending
      modifies this, recent
      ensures Valid()
      ensures State() == Created(old(State()), jobId, data)
      ensures recent.entries == Pushed(old(recent.entries), Entry(ts, jobId + " render queued."))
    {
      jobs := jobs[jobId := Queued(data)];
      pending := pending + [jobId];
      recent.Log(ts, jobId + " render queued.");
    }

    /**
     * `createJob`: the id (a fresh UUID, passed in) names a queued record with
     * the given data by the time it is returned.
     */
    method CreateJob(freshId: string, data: JobData, ts: string) returns (jobId: string)
      requires Valid() && freshId !in jobs && freshId !in pending
      modifies this, recent
      ensures Valid()
      ensures jobId == freshId && jobId in jobs && jobs[jobId] == Queued(data)
      ensures State() == Created(old(State()), jobId, data)
      ensures recent.entries == Pushed(old(recent.entries), Entry(ts, jobId + " render queued."))
    {
      jobId := freshId;
      QueueRender(jobId, data, ts);
    }

    /**
     * The chain's next link: when the previous render has settled, take the oldest
     * pending id and run `processRender` up to the render call.
     */
    method Advance()
      requires Valid()
      modifies this
      ensures Valid()
      ensures State() == Advanced(old(State()))
    {
      if current.Some? || pending == [] {
        return;
      }
      var jobId := pending[0];
      pending := pending[1..];
      if rejected {
        // a link on a rejected chain never calls its callback
        return;
      }
      if jobId !in jobs {
        // processRender throws "Render job <id> not found"; nothing handles it
        rejected := true;
        return;
      }
      var data := jobs[jobId].data;
      cancelSignalled := false;
      jobs := jobs[jobId := InProgress(0.0, data)];
      current := Some(jobId);
    }

    /** The render's `onProgress` callback; `shown` is the progress as JavaScript prints it. */
    method OnProgress(progress: real, shown: string, ts: string)
      requires Valid() && current.Some?
      modifies this, recent
      ensures Valid()
      ensures State() == ProgressReported(old(State()), progress)
      ensures recent.entries == Pushed(old(recent.entries), Entry(ts, old(current).value + " render progress: " + shown))
    {
      var jobId := current.value;
      ghost var q0 := State();
      recent.Log(ts, jobId + " render progress: " + shown);
      assert State() == q0;
      jobs := jobs[jobId := InProgress(progress, jobs[jobId].data)];
      assert State() == ProgressReported(q0, progress);
    }

    /** The render call returned or threw: record the outcome and let the chain go on. */
    method Settle(result: RenderResult, ts: string)
      requires Valid() && current.Some?
      modifies this, recent
      ensures Valid()
      ensures State() == Settled(old(State()), result)
      ensures recent.entries == Pushed(old(recent.entries), match result
        case Rendered => Entry(ts, old(current).value + " render completed.")
        case Threw(e) => ErrorEntry(ts, old(current).value + " render failed: " + e.message))
    {
      var jobId := current.value;
      var data := jobs[jobId].data;
      ghost var q0 := State();
      match result {
        case Rendered =>
          jobs := jobs[jobId := Completed(VideoUrl(port, jobId), data)];
          ghost var q1 := State();
          recent.Log(ts, jobId + " render completed.");
          assert State() == q1;
        case Threw(e) =>
          recent.LogError(ts, jobId + " render failed: " + e.message);
          assert State() == q0;
          jobs := jobs[jobId := Failed(e, data)];
      }
      current := None;
      cancelSignalled := false;
      assert State() == Settled(q0, result);
    }

    /**
     * `job.cancel()` on a queued or in-progress record: the queued job's closure
     * deletes the record and logs; the in-progress job's handle fires the
     * render's cancel signal.
     */
    method Cancel(jobId: string, ts: string)
      requires Valid() && jobId in jobs && jobs[jobId].Cancellable()
      modifies this, recent
      ensures Valid()
      ensures State() == Cancelled(old(State()), jobId)
      ensures recent.entries ==
        if old(jobs[jobId]).Queued? then Pushed(old(recent.entries), Entry(ts, jobId + " render cancelled."))
        else old(recent.entries)
    {
      ghost var q0 := State();
      if jobs[jobId].Queued? {
        jobs := jobs - {jobId};
        ghost var q1 := State();
        recent.Log(ts, jobId + " render cancelled.");
        assert State() == q1;
      } else {
        cancelSignalled := true;
      }
      assert State() == Cancelled(q0, jobId);
    }

    /** `jobs.get(jobId)`. */
    method GetJob(jobId: string) returns (job: Option<JobState>)
      ensures job.Some? <==> jobId in jobs
      ensures job.Some? ==> job.value == jobs[jobId]
    {
      job := if jobId in jobs then Some(jobs[jobId]) else None;
    }
  }

  /**
   * One job from submission to completion on an idle queue: queued, started at
   * progress 0, progress 0.5 then 1.0 reported, rendered; the record ends
   * completed at its video URL with the submitted data.
   */
  method RenderOneJob(q: RenderQueue, jobId: string, data: JobData, ts: string)
    requires q.Valid() && !q.rejected && q.current.None? && q.pending == [] && jobId !in q.jobs
    modifies q, q.recent
    ensures q.Valid()
    ensures jobId in q.jobs && q.jobs[jobId] == Completed(VideoUrl(q.port, jobId), data)
    ensures q.current.None? && q.pending == []
  {
    var id := q.CreateJob(jobId, data, ts);
    q.Advance();
    assert q.current == Some(id);
    q.OnProgress(0.5, "0.5", ts);
    q.OnProgress(1.0, "1", ts);
    q.Settle(Rendered, ts);
  }
}
