/**
 * Render jobs and the bookkeeping of the render queue, as values: the job
 * record's tagged union, the queue's state (job map, the promise chain of
 * pending job ids, which job is rendering) and one transition function per
 * thing that can happen to it. The class RenderQueues.RenderQueue performs these
 * transitions in place; the lemmas here are about whole runs of them.
 */
module Jobs {
  import opened Wrappers
  import Text

  datatype JobData = JobData(titleText: string, compositionId: string, serveUrl: string)

  /** What the render engine threw; callers only ever look at its message. */
  datatype EngineError = EngineError(message: string)

  /** A job record: its shape depends on its status. */
  datatype JobState =
    | Queued(data: JobData)
    | InProgress(progress: real, data: JobData)
    | Completed(videoUrl: string, data: JobData)
    | Failed(error: EngineError, data: JobData)
  {
    /** The statuses whose record carries a cancel handle. */
    predicate Cancellable() {
      Queued? || InProgress?
    }
  }

  /** How one render (composition selection plus media rendering) settled. */
  datatype RenderResult = Rendered | Threw(error: EngineError)

  function VideoUrlPrefix(port: nat): string {
    "http://localhost:" + Text.Decimal(port) + "/renders/"
  }

  /** Where a completed job's video is served. */
  function VideoUrl(port: nat, jobId: string): (url: string)
    ensures JobIdOfVideoUrl(port, url) == Some(jobId)
  {
    var prefix := VideoUrlPrefix(port);
    var url := prefix + jobId + ".mp4";
    assert url[..|prefix|] == prefix && url[|url| - 4..] == ".mp4";
    assert url[|prefix|..|url| - 4] == jobId;
    url
  }

  /** The job id a video URL of this server names, if it is one. */
  function JobIdOfVideoUrl(port: nat, url: string): Option<string> {
    var prefix := VideoUrlPrefix(port);
    if |url| >= |prefix| + 4 && url[..|prefix|] == prefix && url[|url| - 4..] == ".mp4"
    then Some(url[|prefix|..|url| - 4])
    else None
  }

  /** Distinct jobs never share a video URL. */
  lemma VideoUrlInjective(port: nat, a: string, b: string)
    requires VideoUrl(port, a) == VideoUrl(port, b)
    ensures a == b
  {
    assert JobIdOfVideoUrl(port, VideoUrl(port, a)) == Some(a);
  }

  /**
   * The queue's state. `pending` holds, oldest first, the ids whose link on the
   * promise chain has not run yet; `current` is the job whose render the chain
   * is awaiting; `rejected` says the chain promise has rejected, after which no
   * later link runs; `cancelSignalled` says the running render's cancel signal
   * has fired.
   */
  datatype Queue = Queue(
    port: nat,
    jobs: map<string, JobState>,
    pending: seq<string>,
    current: Option<string>,
    rejected: bool,
    cancelSignalled: bool)

  function EmptyQueue(port: nat): Queue {
    Queue(port, map[], [], None, false, false)
  }

  /** The invariant every reachable queue state keeps. */
  ghost predicate Inv(q: Queue) {
    // the job being rendered has an in-progress record and is no longer pending
    && (q.current.Some? ==>
          q.current.value in q.jobs && q.jobs[q.current.value].InProgress?
          && q.current.value !in q.pending)
    // at most one job renders at a time
    && (forall id :: id in q.jobs && q.jobs[id].InProgress? ==> q.current == Some(id))
    // a pending id has a queued record or none (a cancelled queued job)
    && (forall i :: 0 <= i < |q.pending| && q.pending[i] in q.jobs ==> q.jobs[q.pending[i]].Queued?)
    && (forall i, j :: 0 <= i < j < |q.pending| ==> q.pending[i] != q.pending[j])
    // a queued record is still waiting for its link, unless the chain has rejected
    && (forall id :: id in q.jobs && q.jobs[id].Queued? ==> id in q.pending || q.rejected)
    && (q.rejected ==> q.current.None?)
    && (q.cancelSignalled ==> q.current.Some?)
  }

  lemma EmptyQueueInv(port: nat)
    ensures Inv(EmptyQueue(port))
  {
  }

  /** Records of ids other than `id` are the same in both maps. */
  ghost predicate OthersUnchanged(before: map<string, JobState>, after: map<string, JobState>, id: string) {
    forall k :: k != id ==> (k in before <==> k in after) && (k in before ==> before[k] == after[k])
  }

  /** `createJob` / `queueRender`: a queued record, and a new link at the end of the chain. */
  function Created(q: Queue, id: string, data: JobData): (r: Queue)
    requires Inv(q) && id !in q.jobs && id !in q.pending
    ensures Inv(r)
    ensures id in r.jobs && r.jobs[id] == Queued(data)
    ensures OthersUnchanged(q.jobs, r.jobs, id)
    ensures r.pending == q.pending + [id] && |r.pending| == |q.pending| + 1
    ensures r.current == q.current && r.rejected == q.rejected
    ensures r.port == q.port && r.cancelSignalled == q.cancelSignalled
  {
    q.(jobs := q.jobs[id := Queued(data)], pending := q.pending + [id])
  }

  /**
   * The chain's next link runs (the previous render has settled). If the chain
   * has rejected, the link is skipped. Otherwise `processRender` runs: with no
   * record for the id (the job was cancelled while queued) it throws and the chain
   * rejects; else the record becomes in-progress with progress 0 and the same data.
   */
  function Advanced(q: Queue): (r: Queue)
    requires Inv(q)
    ensures Inv(r)
    ensures q.current.Some? || q.pending == [] ==> r == q
    ensures q.current.None? && q.pending != [] ==> r.pending == q.pending[1..]
    ensures r.current.Some? ==> q.current == r.current || (q.current.None? && r.current == Some(q.pending[0]))
    ensures r.current.Some? && q.current.None? ==>
      var id := q.pending[0];
      id in q.jobs && q.jobs[id].Queued? && r.jobs[id] == InProgress(0.0, q.jobs[id].data)
      && OthersUnchanged(q.jobs, r.jobs, id) && !r.cancelSignalled
    ensures r.current.None? ==> r.jobs == q.jobs
    ensures r.rejected == (q.rejected || (q.current.None? && q.pending != [] && q.pending[0] !in q.jobs))
    ensures r.port == q.port
  {
    if q.current.Some? || q.pending == [] then q
    else
      var id, rest := q.pending[0], q.pending[1..];
      if q.rejected then q.(pending := rest)
      else if id !in q.jobs then q.(pending := rest, rejected := true)
      else q.(jobs := q.jobs[id := InProgress(0.0, q.jobs[id].data)], pending := rest,
              current := Some(id), cancelSignalled := false)
  }

  /** The render engine reports progress: last write wins, status and data stay. */
  function ProgressReported(q: Queue, progress: real): (r: Queue)
    requires Inv(q) && q.current.Some?
    ensures Inv(r)
    ensures var id := q.current.value;
      id in r.jobs && r.jobs[id] == InProgress(progress, q.jobs[id].data) && OthersUnchanged(q.jobs, r.jobs, id)
    ensures r.pending == q.pending && r.current == q.current && r.rejected == q.rejected
    ensures r.port == q.port && r.cancelSignalled == q.cancelSignalled
  {
    var id := q.current.value;
    q.(jobs := q.jobs[id := InProgress(progress, q.jobs[id].data)])
  }

  /**
   * The render settles: completed with the job's video URL, or failed with the
   * thrown error; either way with the job's data, and the chain moves on.
   */
  function Settled(q: Queue, result: RenderResult): (r: Queue)
    requires Inv(q) && q.current.Some?
    ensures Inv(r)
    ensures var id := q.current.value;
      && OthersUnchanged(q.jobs, r.jobs, id)
      && id in r.jobs
      && r.jobs[id] == (match result
         case Rendered => Completed(VideoUrl(q.port, id), q.jobs[id].data)
         case Threw(e) => Failed(e, q.jobs[id].data))
    ensures r.current.None? && !r.cancelSignalled && r.pending == q.pending && r.rejected == q.rejected
    ensures r.port == q.port
  {
    var id := q.current.value;
    var data := q.jobs[id].data;
    var settled := match result
      case Rendered => Completed(VideoUrl(q.port, id), data)
      case Threw(e) => Failed(e, data);
    q.(jobs := q.jobs[id := settled], current := None, cancelSignalled := false)
  }

  /**
   * A record's cancel handle: a queued job's deletes the record (its link stays on
   * the chain); an in-progress job's fires the render's cancel signal and leaves
   * the record as it is.
   */
  function Cancelled(q: Queue, id: string): (r: Queue)
    requires Inv(q) && id in q.jobs && q.jobs[id].Cancellable()
    ensures Inv(r)
    ensures q.jobs[id].Queued? ==> id !in r.jobs && OthersUnchanged(q.jobs, r.jobs, id) && r.cancelSignalled == q.cancelSignalled
    ensures q.jobs[id].InProgress? ==> r.jobs == q.jobs && r.cancelSignalled && r.current == Some(id)
    ensures r.pending == q.pending && r.current == q.current && r.rejected == q.rejected
    ensures r.port == q.port
  {
    if q.jobs[id].Queued? then q.(jobs := q.jobs - {id}) else q.(cancelSignalled := true)
  }

  /** Everything that can happen to the queue. */
  datatype Event =
    | Submit(id: string, data: JobData)
    | Cancel(id: string)
    | ChainStep
    | Report(progress: real)
    | Settle(result: RenderResult)

  /** Whether the event can happen in this state. */
  ghost predicate Enabled(q: Queue, e: Event) {
    match e
    case Submit(id, _) => id !in q.jobs && id !in q.pending
    case Cancel(id) => id in q.jobs && q.jobs[id].Cancellable()
    case ChainStep => true
    case Report(_) => q.current.Some?
    case Settle(_) => q.current.Some?
  }

  function Step(q: Queue, e: Event): (r: Queue)
    requires Inv(q) && Enabled(q, e)
    ensures Inv(r)
  {
    match e
    case Submit(id, data) => Created(q, id, data)
    case Cancel(id) => Cancelled(q, id)
    case ChainStep => Advanced(q)
    case Report(p) => ProgressReported(q, p)
    case Settle(result) => Settled(q, result)
  }

  /** A run of events each enabled where it happens. */
  ghost predicate Admissible(q: Queue, es: seq<Event>)
    decreases |es|
  {
    es == [] || (Inv(q) && Enabled(q, es[0]) && Admissible(Step(q, es[0]), es[1..]))
  }

  function Run(q: Queue, es: seq<Event>): (r: Queue)
    requires Inv(q) && Admissible(q, es)
    ensures Inv(r)
    decreases |es|
  {
    if es == [] then q else Run(Step(q, es[0]), es[1..])
  }

  /** The ids of the jobs submitted during es, in submission order. */
  function Submitted(es: seq<Event>): seq<string> {
    if es == [] then [] else SubmittedBy(es[0]) + Submitted(es[1..])
  }

  /** The ids whose chain link ran during es, in the order the links ran. */
  function Dequeued(q: Queue, es: seq<Event>): seq<string>
    requires Inv(q) && Admissible(q, es)
    decreases |es|
  {
    if es == [] then [] else DequeuedBy(q, es[0]) + Dequeued(Step(q, es[0]), es[1..])
  }

  /** The link an event runs, if any. */
  function DequeuedBy(q: Queue, e: Event): seq<string> {
    if e.ChainStep? && q.current.None? && q.pending != [] then [q.pending[0]] else []
  }

  /** The job an event submits, if any. */
  function SubmittedBy(e: Event): seq<string> {
    if e.Submit? then [e.id] else []
  }

  /** One event takes at most the oldest id off the chain and adds at most the new one at the end. */
  lemma StepPending(q: Queue, e: Event)
    requires Inv(q) && Enabled(q, e)
    ensures DequeuedBy(q, e) + Step(q, e).pending == q.pending + SubmittedBy(e)
  {
    if DequeuedBy(q, e) != [] {
      assert q.pending == [q.pending[0]] + q.pending[1..];
    }
  }

  /**
   * The chain is first-in first-out: the links that have run, followed by those
   * still pending, are exactly the pending ids followed by the submissions, in
   * submission order.
   */
  lemma {:induction false} ChainIsFifo(q: Queue, es: seq<Event>)
    requires Inv(q) && Admissible(q, es)
    ensures Dequeued(q, es) + Run(q, es).pending == q.pending + Submitted(es)
    decreases |es|
  {
    if es != [] {
      var q1 := Step(q, es[0]);
      ChainIsFifo(q1, es[1..]);
      StepPending(q, es[0]);
      assert Dequeued(q, es) == DequeuedBy(q, es[0]) + Dequeued(q1, es[1..]);
      assert Submitted(es) == SubmittedBy(es[0]) + Submitted(es[1..]);
      assert Run(q, es) == Run(q1, es[1..]);
      FifoAlgebra(DequeuedBy(q, es[0]), Dequeued(q1, es[1..]), Run(q1, es[1..]).pending,
                  q1.pending, Submitted(es[1..]), q.pending, SubmittedBy(es[0]));
    }
  }

  /** The sequence arithmetic of one step of ChainIsFifo. */
  lemma FifoAlgebra(x: seq<string>, d: seq<string>, r: seq<string>, p1: seq<string>,
                    s1: seq<string>, p: seq<string>, y: seq<string>)
    requires d + r == p1 + s1
    requires x + p1 == p + y
    ensures (x + d) + r == p + (y + s1)
  {
    calc {
      (x + d) + r;
      x + (d + r);
      x + (p1 + s1);
      (x + p1) + s1;
      (p + y) + s1;
    }
  }

  /** How a record may change in one event: forward along the life cycle, keeping its data. */
  ghost predicate MayBecome(before: JobState, after: JobState) {
    && after.data == before.data
    && (before.Queued? ==> after.Queued? || after == InProgress(0.0, before.data))
    && (before.InProgress? ==> after.InProgress? || after.Completed? || after.Failed?)
    && (before.Completed? || before.Failed? ==> after == before)
  }

  /**
   * Every event moves records forward only: new records are queued, only a queued
   * record is ever deleted, data never changes, and completed or failed records
   * never change again.
   */
  lemma StepFollowsLifeCycle(q: Queue, e: Event, id: string)
    requires Inv(q) && Enabled(q, e)
    ensures var r := Step(q, e);
      && (id in q.jobs && id in r.jobs ==> MayBecome(q.jobs[id], r.jobs[id]))
      && (id !in q.jobs && id in r.jobs ==> r.jobs[id].Queued?)
      && (id in q.jobs && id !in r.jobs ==> q.jobs[id].Queued?)
  {
  }

  /**
   * Over a whole run, a record that exists at both ends (its id never submitted
   * again, as job ids are never reused) kept its data, and one that was already
   * completed or failed is unchanged.
   */
  lemma {:induction false} RunFollowsLifeCycle(q: Queue, es: seq<Event>, id: string)
    requires Inv(q) && Admissible(q, es)
    requires id in q.jobs && id in Run(q, es).jobs && id !in Submitted(es)
    ensures Run(q, es).jobs[id].data == q.jobs[id].data
    ensures q.jobs[id].Completed? || q.jobs[id].Failed? ==> Run(q, es).jobs[id] == q.jobs[id]
    decreases |es|
  {
    if es != [] {
      var q1 := Step(q, es[0]);
      StepFollowsLifeCycle(q, es[0], id);
      assert Submitted(es) == SubmittedBy(es[0]) + Submitted(es[1..]);
      if id !in q1.jobs {
        RecordAppearsOnlyBySubmit(q1, es[1..], id);
        assert false;
      }
      RunFollowsLifeCycle(q1, es[1..], id);
    }
  }

  /** An id without a record gets one during a run only by being submitted. */
  lemma {:induction false} RecordAppearsOnlyBySubmit(q: Queue, es: seq<Event>, id: string)
    requires Inv(q) && Admissible(q, es)
    requires id !in q.jobs && id in Run(q, es).jobs
    ensures id in Submitted(es)
    decreases |es|
  {
    if es != [] {
      var q1 := Step(q, es[0]);
      assert Submitted(es) == SubmittedBy(es[0]) + Submitted(es[1..]);
      if !(es[0].Submit? && es[0].id == id) {
        RecordAppearsOnlyBySubmit(q1, es[1..], id);
      }
    }
  }

  /**
   * Once the chain has rejected it stays rejected and no render ever starts
   * again: nothing becomes in-progress, and every record is still queued or
   * was already there with the same state.
   */
  lemma {:induction false} RejectedChainRunsNothing(q: Queue, es: seq<Event>)
    requires Inv(q) && q.rejected && Admissible(q, es)
    ensures var r := Run(q, es);
      && r.rejected && r.current.None?
      && (forall id :: id in r.jobs ==> r.jobs[id].Queued? || (id in q.jobs && r.jobs[id] == q.jobs[id]))
    decreases |es|
  {
    if es != [] {
      var q1 := Step(q, es[0]);
      assert q1.rejected && q1.current.None?;
      assert forall id :: id in q1.jobs ==> q1.jobs[id].Queued? || (id in q.jobs && q1.jobs[id] == q.jobs[id]);
      RejectedChainRunsNothing(q1, es[1..]);
    }
  }

  /** The events of the stranding scenario below, up to the failing link. */
  function StrandingPrefix(a: string, b: string, c: string, da: JobData, db: JobData, dc: JobData,
                           result: RenderResult): seq<Event> {
    [Submit(a, da), ChainStep] + [Submit(b, db), Submit(c, dc), Cancel(b)] + [Settle(result), ChainStep]
  }

  /** The queue of the stranding scenario while a renders. */
  function StrandingRunning(port: nat, a: string, da: JobData): Queue {
    Queue(port, map[a := InProgress(0.0, da)], [], Some(a), false, false)
  }

  /** The queue of the stranding scenario once b is queued behind a, c behind b, and b cancelled. */
  function StrandingBlocked(port: nat, a: string, b: string, c: string, da: JobData, dc: JobData): Queue {
    Queue(port, map[a := InProgress(0.0, da), c := Queued(dc)], [b, c], Some(a), false, false)
  }

  lemma StrandingPrefixRejects(
    port: nat, a: string, b: string, c: string, da: JobData, db: JobData, dc: JobData, result: RenderResult)
    requires a != b && b != c && a != c
    ensures var pre := StrandingPrefix(a, b, c, da, db, dc, result);
      && Admissible(EmptyQueue(port), pre)
      && Run(EmptyQueue(port), pre).rejected
      && c in Run(EmptyQueue(port), pre).jobs && Run(EmptyQueue(port), pre).jobs[c].Queued?
  {
    var q0 := EmptyQueue(port);
    var q2 := StrandingRunning(port, a, da);
    var q5 := StrandingBlocked(port, a, b, c, da, dc);
    StrandingStart(port, a, da);
    StrandingQueueBehind(port, a, b, c, da, db, dc);
    var q7 := StrandingFail(port, a, b, c, da, dc, result);
    RunThree(q0, q2, q5, q7, [Submit(a, da), ChainStep], [Submit(b, db), Submit(c, dc), Cancel(b)],
             [Settle(result), ChainStep]);
  }

  lemma StrandingStart(port: nat, a: string, da: JobData)
    ensures var q := EmptyQueue(port);
      && Admissible(q, [Submit(a, da), ChainStep])
      && Run(q, [Submit(a, da), ChainStep]) == StrandingRunning(port, a, da)
  {
    var q0 := EmptyQueue(port);
    var q1 := Step(q0, Submit(a, da));
    assert q1 == Queue(port, map[a := Queued(da)], [a], None, false, false);
    var q2 := Step(q1, ChainStep);
    assert q2 == Queue(port, map[a := InProgress(0.0, da)], [], Some(a), false, false);
    RunSteps(q0, Submit(a, da), ChainStep, []);
  }

  lemma StrandingQueueBehind(port: nat, a: string, b: string, c: string, da: JobData, db: JobData, dc: JobData)
    requires a != b && b != c && a != c
    ensures var q := StrandingRunning(port, a, da);
      && Inv(q)
      && Admissible(q, [Submit(b, db), Submit(c, dc), Cancel(b)])
      && Run(q, [Submit(b, db), Submit(c, dc), Cancel(b)])
         == StrandingBlocked(port, a, b, c, da, dc)
  {
    var q2 := Queue(port, map[a := InProgress(0.0, da)], [], Some(a), false, false);
    var q4 := Queue(port, map[a := InProgress(0.0, da), b := Queued(db), c := Queued(dc)], [b, c], Some(a), false, false);
    var q5 := Queue(port, map[a := InProgress(0.0, da), c := Queued(dc)], [b, c], Some(a), false, false);
    StrandingSubmits(port, a, b, c, da, db, dc);
    StrandingCancel(port, a, b, c, da, db, dc);
    RunFirst(q4, Cancel(b), []);
    RunSteps(q2, Submit(b, db), Submit(c, dc), [Cancel(b)]);
  }

  lemma StrandingSubmits(port: nat, a: string, b: string, c: string, da: JobData, db: JobData, dc: JobData)
    requires a != b && b != c && a != c
    ensures var q2 := Queue(port, map[a := InProgress(0.0, da)], [], Some(a), false, false);
      && Inv(q2) && Enabled(q2, Submit(b, db))
      && Step(q2, Submit(b, db)) == Queue(port, map[a := InProgress(0.0, da), b := Queued(db)], [b], Some(a), false, false)
      && Enabled(Step(q2, Submit(b, db)), Submit(c, dc))
      && Step(Step(q2, Submit(b, db)), Submit(c, dc))
         == Queue(port, map[a := InProgress(0.0, da), b := Queued(db), c := Queued(dc)], [b, c], Some(a), false, false)
  {
  }

  lemma StrandingCancel(port: nat, a: string, b: string, c: string, da: JobData, db: JobData, dc: JobData)
    requires a != b && b != c && a != c
    ensures var q4 := Queue(port, map[a := InProgress(0.0, da), b := Queued(db), c := Queued(dc)], [b, c], Some(a), false, false);
      && Inv(q4) && Enabled(q4, Cancel(b))
      && Step(q4, Cancel(b)) == Queue(port, map[a := InProgress(0.0, da), c := Queued(dc)], [b, c], Some(a), false, false)
  {
    var m := map[a := InProgress(0.0, da), b := Queued(db), c := Queued(dc)];
    assert m - {b} == map[a := InProgress(0.0, da), c := Queued(dc)];
  }

  lemma StrandingFail(port: nat, a: string, b: string, c: string, da: JobData, dc: JobData, result: RenderResult)
    returns (q7: Queue)
    requires a != b && b != c && a != c
    ensures var q := StrandingBlocked(port, a, b, c, da, dc);
      && Inv(q)
      && Admissible(q, [Settle(result), ChainStep])
      && Run(q, [Settle(result), ChainStep]) == q7
      && q7.rejected && c in q7.jobs && q7.jobs[c].Queued?
  {
    var q5 := Queue(port, map[a := InProgress(0.0, da), c := Queued(dc)], [b, c], Some(a), false, false);
    var q6 := Step(q5, Settle(result));
    assert q6.pending == [b, c] && q6.current.None? && !q6.rejected && b !in q6.jobs;
    q7 := Step(q6, ChainStep);
    RunSteps(q5, Settle(result), ChainStep, []);
  }

  /** Running two events then more. */
  lemma RunSteps(q: Queue, e1: Event, e2: Event, es: seq<Event>)
    requires Inv(q) && Enabled(q, e1) && Enabled(Step(q, e1), e2)
    requires Admissible(Step(Step(q, e1), e2), es)
    ensures Admissible(q, [e1, e2] + es) && Run(q, [e1, e2] + es) == Run(Step(Step(q, e1), e2), es)
  {
    RunFirst(Step(q, e1), e2, es);
    RunFirst(q, e1, [e2] + es);
    assert [e1, e2] + es == [e1] + ([e2] + es);
  }

  lemma RunThree(q0: Queue, q1: Queue, q2: Queue, q3: Queue, es1: seq<Event>, es2: seq<Event>, es3: seq<Event>)
    requires Inv(q0) && Admissible(q0, es1) && Run(q0, es1) == q1
    requires Inv(q1) && Admissible(q1, es2) && Run(q1, es2) == q2
    requires Inv(q2) && Admissible(q2, es3) && Run(q2, es3) == q3
    ensures Admissible(q0, es1 + es2 + es3) && Run(q0, es1 + es2 + es3) == q3
  {
    ConcatAssoc(es1, es2, es3);
    RunConcat(q1, es2, es3);
    RunConcat(q0, es1, es2 + es3);
  }

  lemma ConcatAssoc(es1: seq<Event>, es2: seq<Event>, es3: seq<Event>)
    ensures es1 + es2 + es3 == es1 + (es2 + es3)
  {
  }

  /** Admissible runs compose. */
  lemma {:induction false} RunConcat(q: Queue, es1: seq<Event>, es2: seq<Event>)
    requires Inv(q) && Admissible(q, es1) && Admissible(Run(q, es1), es2)
    ensures Admissible(q, es1 + es2) && Run(q, es1 + es2) == Run(Run(q, es1), es2)
    decreases |es1|
  {
    if es1 == [] {
      assert es1 + es2 == es2;
    } else {
      RunConcat(Step(q, es1[0]), es1[1..], es2);
      assert (es1 + es2)[0] == es1[0];
      assert (es1 + es2)[1..] == es1[1..] + es2;
    }
  }

  /** Running one event then the rest is running them all. */
  lemma RunFirst(q: Queue, e: Event, es: seq<Event>)
    requires Inv(q) && Enabled(q, e) && Admissible(Step(q, e), es)
    ensures Admissible(q, [e] + es) && Run(q, [e] + es) == Run(Step(q, e), es)
  {
    assert ([e] + es)[0] == e && ([e] + es)[1..] == es;
  }

  /**
   * Cancelling a queued job strands every job queued behind it. While job a
   * renders, b and c are submitted and b is cancelled; when a settles, b's link
   * runs, finds no record and throws, the chain rejects, and from then on no
   * render starts again: c stays queued for as long as its record exists.
   */
  lemma CancelledQueuedJobStrandsLaterJobs(
    port: nat, a: string, b: string, c: string, da: JobData, db: JobData, dc: JobData,
    result: RenderResult, es: seq<Event>)
    requires a != b && b != c && a != c
    requires Admissible(EmptyQueue(port), StrandingPrefix(a, b, c, da, db, dc, result) + es)
    ensures var r := Run(EmptyQueue(port), StrandingPrefix(a, b, c, da, db, dc, result) + es);
      && r.rejected && r.current.None?
      && (c in r.jobs ==> r.jobs[c].Queued?)
  {
    var q0 := EmptyQueue(port);
    var pre := StrandingPrefix(a, b, c, da, db, dc, result);
    StrandingPrefixRejects(port, a, b, c, da, db, dc, result);
    RunAppend(q0, pre, es);
    RejectedChainRunsNothing(Run(q0, pre), es);
  }

  /** A run of es1 + es2 is a run of es1 followed by a run of es2. */
  lemma {:induction false} RunAppend(q: Queue, es1: seq<Event>, es2: seq<Event>)
    requires Inv(q) && Admissible(q, es1 + es2)
    ensures Admissible(q, es1) && Inv(Run(q, es1)) && Admissible(Run(q, es1), es2)
    ensures Run(q, es1 + es2) == Run(Run(q, es1), es2)
    decreases |es1|
  {
    if es1 != [] {
      assert (es1 + es2)[0] == es1[0];
      assert (es1 + es2)[1..] == es1[1..] + es2;
      RunAppend(Step(q, es1[0]), es1[1..], es2);
    } else {
      assert es1 + es2 == es2;
    }
  }

  /** A job submitted to a queue whose chain is healthy and idle starts as soon as its link runs. */
  lemma SubmittedJobStartsWhenIdle(q: Queue, id: string, data: JobData)
    requires Inv(q) && !q.rejected && q.current.None? && q.pending == []
    requires id !in q.jobs
    ensures var r := Advanced(Created(q, id, data));
      r.current == Some(id) && r.jobs[id] == InProgress(0.0, data) && r.pending == []
  {
  }
}
