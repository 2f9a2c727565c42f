/**
 * The /renders routes without Express: each handler's decision as a function
 * of the queue state and the request, and the handler itself as a method that
 * performs the decision on the live queue and logs through the service logger.
 */
module RenderRoutes {
  import opened Wrappers
  import opened Jobs
  import opened LogEntries
  import opened RecentLogs
  import opened RenderQueues
  import opened ServiceLogs
  import opened Webhooks

  datatype Body = Message(text: string) | JobIdBody(jobId: string) | JobBody(job: JobState)

  /** A JSON reply, or an error handed on to the application's error handler (`next(err)`). */
  datatype Response = Reply(status: nat, body: Body) | PassedOn(error: string)

  /** GET /renders/:jobId */
  function GetJob(jobs: map<string, JobState>, jobId: string): (r: Response)
    ensures r.Reply? && (r.status == 404 <==> jobId !in jobs)
    ensures jobId !in jobs ==> r.body == Message("Job not found")
    ensures jobId in jobs ==> r.status == 200 && r.body == JobBody(jobs[jobId])
  {
    if jobId !in jobs then Reply(404, Message("Job not found")) else Reply(200, JobBody(jobs[jobId]))
  }

  datatype CancelDecision = NotFound | NotCancellable | CancelIt

  /** What DELETE /renders/:jobId decides from the record alone. */
  function DeleteDecision(jobs: map<string, JobState>, jobId: string): (d: CancelDecision)
    ensures d == NotFound <==> jobId !in jobs
    ensures d == NotCancellable <==> jobId in jobs && (jobs[jobId].Completed? || jobs[jobId].Failed?)
    ensures d == CancelIt <==> jobId in jobs && (jobs[jobId].Queued? || jobs[jobId].InProgress?)
  {
    if jobId !in jobs then NotFound
    else if !jobs[jobId].Cancellable() then NotCancellable
    else CancelIt
  }

  /** DELETE /renders/:jobId: the reply and the queue afterwards. */
  function Deleted(q: Queue, jobId: string): (r: (Response, Queue))
    requires Inv(q)
    ensures Inv(r.1)
    ensures jobId !in q.jobs ==> r == (Reply(404, Message("Job not found")), q)
    ensures jobId in q.jobs && (q.jobs[jobId].Completed? || q.jobs[jobId].Failed?) ==>
      r == (Reply(400, Message("Job is not cancellable")), q)
    ensures jobId in q.jobs && q.jobs[jobId].Queued? ==>
      r.0 == Reply(200, Message("Job cancelled")) && jobId !in r.1.jobs && OthersUnchanged(q.jobs, r.1.jobs, jobId)
    ensures jobId in q.jobs && q.jobs[jobId].InProgress? ==>
      r.0 == Reply(200, Message("Job cancelled")) && r.1.jobs == q.jobs && r.1.cancelSignalled
    ensures DeleteDecision(q.jobs, jobId) == CancelIt ==>
      && r.1 == Cancelled(q, jobId)
      && r.1.pending == q.pending && r.1.current == q.current
      && r.1.rejected == q.rejected && r.1.port == q.port
  {
    match DeleteDecision(q.jobs, jobId)
    case NotFound => (Reply(404, Message("Job not found")), q)
    case NotCancellable => (Reply(400, Message("Job is not cancellable")), q)
    case CancelIt => (Reply(200, Message("Job cancelled")), Cancelled(q, jobId))
  }

  /**
   * POST /renders: `validated` is what the request-body validator produced (the
   * job data, or the message of the error it threw). Validation comes first, so a
   * rejected body creates no job and its error is handed on.
   */
  function Posted(q: Queue, validated: Result<JobData, string>, freshId: string): (r: (Response, Queue))
    requires Inv(q)
    requires validated.Ok? ==> freshId !in q.jobs && freshId !in q.pending
    ensures Inv(r.1)
    ensures validated.Err? ==> r == (PassedOn(validated.error), q)
    ensures validated.Ok? ==>
      && r.0 == Reply(200, JobIdBody(freshId))
      && r.1 == Created(q, freshId, validated.value)
  {
    match validated
    case Err(message) => (PassedOn(message), q)
    case Ok(data) => (Reply(200, JobIdBody(freshId)), Created(q, freshId, data))
  }

  /** A job is visible as queued to a GET right after the POST that created it returns. */
  lemma PostThenGetSeesQueued(q: Queue, data: JobData, freshId: string)
    requires Inv(q) && freshId !in q.jobs && freshId !in q.pending
    ensures var (resp, q') := Posted(q, Ok(data), freshId);
      resp.body == JobIdBody(freshId) && GetJob(q'.jobs, freshId) == Reply(200, JobBody(Queued(data)))
  {
  }

  /**
   * Cancelling a queued job deletes it: a later GET finds nothing and a second
   * DELETE answers 404, while its link stays on the chain.
   */
  lemma DeleteQueuedForgetsJob(q: Queue, jobId: string)
    requires Inv(q) && jobId in q.jobs && q.jobs[jobId].Queued?
    ensures var q' := Deleted(q, jobId).1;
      && GetJob(q'.jobs, jobId) == Reply(404, Message("Job not found"))
      && Deleted(q', jobId).0 == Reply(404, Message("Job not found"))
      && q'.pending == q.pending
  {
  }

  /**
   * Cancelling an in-progress job answers "Job cancelled" but only signals the
   * render: a GET still shows the job in progress, and it ends failed only if
   * the engine then throws.
   */
  lemma DeleteInProgressOnlySignals(q: Queue, jobId: string, e: EngineError)
    requires Inv(q) && jobId in q.jobs && q.jobs[jobId].InProgress?
    ensures var (resp, q') := Deleted(q, jobId);
      && resp == Reply(200, Message("Job cancelled"))
      && GetJob(q'.jobs, jobId) == Reply(200, JobBody(q.jobs[jobId]))
      && q'.current == Some(jobId)
      && Settled(q', Threw(e)).jobs[jobId] == Failed(e, q.jobs[jobId].data)
  {
  }

  /**
   * The POST handler: validate, create the job, log "Render job created" (or
   * "Render job creation failed" and hand the error on).
   */
  method Post(
    queue: RenderQueue, logger: ServiceLogger, hooks: WebhookRegistry,
    validated: Result<JobData, string>, freshId: string, queueTs: string, ts: string)
    returns (resp: Response, deliveries: seq<Delivery>)
    requires queue.Valid()
    requires validated.Ok? ==> freshId !in queue.jobs && freshId !in queue.pending
    modifies queue, queue.recent, logger
    ensures queue.Valid()
    ensures (resp, queue.State()) == Posted(old(queue.State()), validated, freshId)
    ensures validated.Ok? ==>
      && queue.recent.entries == Pushed(old(queue.recent.entries), Entry(queueTs, freshId + " render queued."))
      && logger.logs == old(logger.logs) + [Entry(ts, "Render job created: " + freshId)]
      && FanOut(deliveries, Entry(ts, "Render job created: " + freshId), hooks.urls)
    ensures validated.Err? ==>
      && queue.recent.entries == old(queue.recent.entries)
      && logger.logs == old(logger.logs) + [ErrorEntry(ts, "Render job creation failed: " + validated.error)]
      && FanOut(deliveries, ErrorEntry(ts, "Render job creation failed: " + validated.error), hooks.urls)
  {
    var live := hooks.GetWebhooks();
    match validated {
      case Ok(data) =>
        var jobId := queue.CreateJob(freshId, data, queueTs);
        deliveries := logger.Log(ts, "Render job created: " + jobId, live.urls);
        resp := Reply(200, JobIdBody(jobId));
      case Err(message) =>
        deliveries := logger.LogError(ts, "Render job creation failed: " + message, live.urls);
        resp := PassedOn(message);
    }
  }

  /** The GET handler. */
  method Get(queue: RenderQueue, jobId: string) returns (resp: Response)
    ensures resp == GetJob(queue.jobs, jobId)
  {
    var job := queue.GetJob(jobId);
    match job {
      case None => resp := Reply(404, Message("Job not found"));
      case Some(state) => resp := Reply(200, JobBody(state));
    }
  }

  /**
   * The DELETE handler: 404 for an unknown job, 400 for a finished one, otherwise
   * call the record's cancel handle once, log "Render job cancelled" and reply.
   */
  method Delete(
    queue: RenderQueue, logger: ServiceLogger, hooks: WebhookRegistry,
    jobId: string, cancelTs: string, ts: string)
    returns (resp: Response, deliveries: seq<Delivery>)
    requires queue.Valid()
    modifies queue, queue.recent, logger
    ensures queue.Valid()
    ensures (resp, queue.State()) == Deleted(old(queue.State()), jobId)
    ensures DeleteDecision(old(queue.jobs), jobId) != CancelIt ==>
      && queue.recent.entries == old(queue.recent.entries)
      && logger.logs == old(logger.logs) && deliveries == []
    ensures DeleteDecision(old(queue.jobs), jobId) == CancelIt ==>
      && queue.recent.entries ==
           (if old(queue.jobs[jobId]).Queued?
            then Pushed(old(queue.recent.entries), Entry(cancelTs, jobId + " render cancelled."))
            else old(queue.recent.entries))
      && logger.logs == old(logger.logs) + [Entry(ts, "Render job cancelled: " + jobId)]
      && FanOut(deliveries, Entry(ts, "Render job cancelled: " + jobId), hooks.urls)
  {
    var job := queue.GetJob(jobId);
    if job.None? {
      return Reply(404, Message("Job not found")), [];
    }
    if !(job.value.Queued? || job.value.InProgress?) {
      return Reply(400, Message("Job is not cancellable")), [];
    }
    queue.Cancel(jobId, cancelTs);
    var live := hooks.GetWebhooks();
    deliveries := logger.Log(ts, "Render job cancelled: " + jobId, live.urls);
    resp := Reply(200, Message("Job cancelled"));
  }
}
