# Render queue and notification core, in Dafny

This project models the render server's core.

- **Render queue.** A map of job records, each queued, in-progress, completed or failed. A single promise chain runs the renders one at a time, and a capped in-memory log buffer of 200 lines records what happens.
- **Webhook registry.** A live set of subscriber URLs.
- **Service logger.** An unbounded log buffer. Every line it logs is posted as `{"log": <line>}` to every subscriber.
- **`/renders` routes.** POST creates a job, GET reads one, DELETE cancels one.

Data that the engine, the clock and the id generator produce becomes parameters:

- the render engine's outcome (`Rendered` or `Threw(error)`) and its progress reports;
- the timestamps of log lines;
- the fresh UUID of a new job, which must be unused;
- the outcome of request validation.

The queue exists twice in the model:

- The value `Jobs.Queue` has a transition function for each thing that can happen, and the lemmas about whole runs are stated over it.
- The class `RenderQueues.RenderQueue` holds the same state in fields and updates them in place. Each of its state-changing methods is proved to perform exactly one of those transitions.

The promise chain `queue = queue.then(() => processRender(jobId))` becomes three fields:

- `pending`: the ids whose link has not run yet, oldest first;
- `current`: the job whose render the chain is awaiting;
- `rejected`: set once a link has thrown. After that, no later callback runs.

When ids are never reused, the chain is first-in first-out (`Jobs.ChainIsFifo`).

The model also keeps the source's caveat, as written. Cancelling a queued job deletes its record, but its link stays on the chain. When that link runs, `processRender` throws "Render job … not found". Nothing catches the error, so the chain rejects, and no job queued behind the cancelled one ever renders. `Jobs.CancelledQueuedJobStrandsLaterJobs` proves this for every continuation of a concrete scenario, and `Jobs.RejectedChainRunsNothing` proves it for any rejected state.

Some behaviours of the code differ from what a reader might expect, and the model keeps them:

- **No artifact upload.** The code contains no upload step: a finished render's `videoUrl` is always `http://localhost:<port>/renders/<id>.mp4`.
- **A failed link stops the queue.** A cancelled queued job stops the whole queue: after a link throws, no later link runs.
- **Cancelling a running job keeps its record.** Such a cancel only fires the engine's cancel signal. The record stays in-progress, and it ends failed only if the engine then throws. Progress reports that arrive after the signal are still recorded.
- **Repeated cancels are not idempotent.** A second DELETE of an in-progress job calls the cancel handle again and logs "Render job cancelled" again. A second DELETE of a queued job answers 404.

## Model

| member | source | states |
|---|---|---|
| Text.Decimal | server/render-queue.ts:113 | the port's text in a video URL is non-empty, all digits, and has no leading zero (port 0 is written "0") |
| Text.DecimalValueOfDecimal | server/render-queue.ts:113 | the port's decimal text reads back as the port number |
| Json.EscapeChar | server/services/logger.ts:24 | JSON.stringify writes no character below U+0020 raw: a character is copied as it is exactly when it is at or above U+0020 and neither a quote nor a backslash; otherwise it becomes an escape starting with a backslash |
| Json.Escape | server/services/logger.ts:24 | the escaped text contains no raw control character, is at least as long as the string, and is the string itself when nothing in it needs escaping |
| Json.UnescapeEscapeChar | server/services/logger.ts:24 | reading back JSON.stringify's escape of any one character yields that character, whatever follows it |
| Json.UnescapeEscape | server/services/logger.ts:24 | JSON.stringify's string escaping loses nothing: reading the escaped text back gives the original string |
| Json.LogBody | server/services/logger.ts:24 | the body `JSON.stringify({ log: entry })`: a subscriber that decodes `{"log":"…"}` finds exactly the logged line |
| Json.LogBodyInjective | server/services/logger.ts:24 | different log lines are posted as different bodies |
| LogEntries.Entry | server/render-queue.ts:42 | the line `[ts] message` splits back into its timestamp and message when the timestamp has no `]` (ISO-8601 timestamps never have one); the service logger's lines at server/services/logger.ts:30 have the same format |
| LogEntries.ErrorEntry | server/render-queue.ts:48 | the error line `[ts] ERROR: message` splits back into its timestamp and the message prefixed by "ERROR: "; the service logger's error lines at server/services/logger.ts:37 have the same format |
| LogEntries.EntryInjective | server/render-queue.ts:42 | two log lines are equal only when their timestamps and messages are |
| RecentLogs.Pushed | server/render-queue.ts:43-44 | push then shift: the buffer grows by one up to 200 lines, then stays at 200; the new line is last, and the lines before it are the newest of the old ones |
| RecentLogs.MostRecent | server/render-queue.ts:39 | the last 200 lines of a history (all of it if shorter): a suffix whose length is the smaller of the history's length and 200 |
| RecentLogs.PushedMostRecent | server/render-queue.ts:43-44 | one append to the window of the newest 200 lines is the window of the longer history |
| RecentLogs.PushedAllKeepsMostRecent | server/render-queue.ts:39-44 | after any number of appends, the buffer holds exactly the 200 most recent lines, oldest first |
| RecentLogs.RecentLog.constructor | server/render-queue.ts:40 | the buffer starts empty |
| RecentLogs.RecentLog.Append | server/render-queue.ts:43-44 | the buffer becomes `Pushed` of the old buffer and stays within capacity |
| RecentLogs.RecentLog.Log | server/render-queue.ts:41-46 | appends the line `[ts] message` |
| RecentLogs.RecentLog.LogError | server/render-queue.ts:47-52 | appends the line `[ts] ERROR: message` |
| RecentLogs.RecentLog.GetLogs | server/render-queue.ts:53-55 | returns the buffer's contents, oldest first, leaving the buffer unchanged |
| Jobs.VideoUrl | server/render-queue.ts:113 | the video URL names its job: the id can be read back from it |
| Jobs.VideoUrlInjective | server/render-queue.ts:113 | two jobs never share a video URL |
| Jobs.EmptyQueueInv | server/render-queue.ts:64-65 | a new queue (no jobs, a settled chain) satisfies the invariant |
| Jobs.Created | server/render-queue.ts:134-143 | queueRender adds a queued record with the given data and appends one link to the chain; other records are unchanged; the invariant is kept |
| Jobs.Advanced | server/render-queue.ts:67-80 | the next link runs only when no render is running. The chain is rejected afterwards exactly when it was already rejected or the oldest pending id has no record (processRender throws "not found"); a skipped or throwing link leaves the records unchanged. Otherwise the oldest pending job becomes in-progress at progress 0 with its data, and other records stay |
| Jobs.ProgressReported | server/render-queue.ts:99-106 | progress is last-write-wins: the running job stays in-progress with its data and the new progress; the other records, the chain, the cancel signal and the port are unchanged |
| Jobs.Settled | server/render-queue.ts:111-124 | the running job becomes completed at its video URL, or failed with the thrown error, keeping its data; the chain is free again |
| Jobs.Cancelled | server/render-queue.ts:137-140 | a queued job's cancel deletes its record but leaves its link on the chain; an in-progress job's cancel only fires the cancel signal |
| Jobs.Step | server/render-queue.ts:67-145 | every event keeps the queue invariant: one render at a time, and a pending id is queued or deleted |
| Jobs.Run | server/render-queue.ts:143 | any run of enabled events keeps the invariant |
| Jobs.StepPending | server/render-queue.ts:143 | one event takes at most the oldest id off the chain and adds at most the new id at its end |
| Jobs.ChainIsFifo | server/render-queue.ts:143 | links run in submission order: the ids dequeued followed by those still pending are the old pending ids followed by the submissions |
| Jobs.StepFollowsLifeCycle | server/render-queue.ts:15-36 | a record moves only queued → in-progress(0) → completed/failed and keeps its data; a new record is queued; only a queued record is deleted |
| Jobs.RunFollowsLifeCycle | server/render-queue.ts:15-36 | over a run, a record that survives keeps its data, and a completed or failed record never changes |
| Jobs.RecordAppearsOnlyBySubmit | server/render-queue.ts:134 | a record appears only when its id is submitted |
| Jobs.RejectedChainRunsNothing | server/render-queue.ts:143 | once the chain has rejected, it stays rejected, no render ever starts, and every record is queued or unchanged |
| Jobs.StrandingPrefixRejects | server/render-queue.ts:69-71 | while a renders, b and c are queued and b is cancelled; when a settles, b's link throws, the chain rejects, and c is left queued |
| Jobs.CancelledQueuedJobStrandsLaterJobs | server/render-queue.ts:137-143 | after that scenario, whatever happens next, the chain stays rejected, nothing renders, and c never leaves the queued state |
| Jobs.RunConcat | server/render-queue.ts:143 | admissible runs compose |
| Jobs.RunAppend | server/render-queue.ts:143 | a run of two event sequences splits into a run of each |
| Jobs.SubmittedJobStartsWhenIdle | server/render-queue.ts:143 | on an idle, healthy chain, a new job starts as soon as its link runs, at progress 0 with its data |
| RenderQueues.RenderQueue.constructor | server/render-queue.ts:57-65 | makeRenderQueue starts with no jobs and a settled chain |
| RenderQueues.RenderQueue.QueueRender | server/render-queue.ts:127-145 | performs `Created` in place and logs "<id> render queued." |
| RenderQueues.RenderQueue.CreateJob | server/render-queue.ts:147-151 | returns the fresh id, which names a queued record with the given data |
| RenderQueues.RenderQueue.Advance | server/render-queue.ts:67-80 | performs `Advanced` in place |
| RenderQueues.RenderQueue.OnProgress | server/render-queue.ts:99-106 | performs `ProgressReported` and logs "<id> render progress: <p>" |
| RenderQueues.RenderQueue.Settle | server/render-queue.ts:111-124 | performs `Settled`; logs "<id> render completed." or the error line "<id> render failed: <message>" |
| RenderQueues.RenderQueue.Cancel | server/render-queue.ts:137-140 | performs `Cancelled`; only a queued job's cancel logs "<id> render cancelled." |
| RenderQueues.RenderQueue.GetJob | server/render-queue.ts:155 | returns the record when there is one, and none otherwise |
| RenderQueues.RenderOneJob | server/render-queue.ts:67-124 | a job submitted to an idle queue, started, reported at 0.5 and 1 and rendered, ends completed at its video URL with its data |
| Webhooks.WebhookRegistry.constructor | server/services/webhook.ts:1 | the registry starts empty |
| Webhooks.WebhookRegistry.Register | server/services/webhook.ts:3-5 | the url is subscribed and no other membership changes; registering twice changes nothing |
| Webhooks.WebhookRegistry.Unregister | server/services/webhook.ts:7-9 | the url is not subscribed and no other membership changes; removing an absent url changes nothing |
| Webhooks.WebhookRegistry.GetWebhooks | server/services/webhook.ts:11-13 | hands out the live registry itself, not a copy |
| ServiceLogs.PostToWebhooks | server/services/logger.ts:19-27 | exactly one POST per subscribed url, each with the body `{"log": entry}`, and to no other url |
| ServiceLogs.FanOutSize | server/services/logger.ts:20 | a fan-out issues as many deliveries as there are subscribers |
| ServiceLogs.OneDeliveryPerSubscriber | server/services/logger.ts:20 | each subscriber gets exactly one delivery per line, and a non-subscriber gets none |
| ServiceLogs.ServiceLogger.constructor | server/services/logger.ts:17 | the buffer starts empty |
| ServiceLogs.ServiceLogger.Log | server/services/logger.ts:29-34 | appends `[ts] message` to the unbounded buffer and fans it out to the subscribers |
| ServiceLogs.ServiceLogger.LogError | server/services/logger.ts:36-41 | appends `[ts] ERROR: message` and fans it out |
| ServiceLogs.ServiceLogger.GetLogs | server/services/logger.ts:43-45 | returns the whole buffer, oldest first |
| RenderRoutes.GetJob | server/routes/renders.ts:25-30 | 404 "Job not found" exactly when there is no record; otherwise 200 with the record |
| RenderRoutes.DeleteDecision | server/routes/renders.ts:34-40 | not found iff there is no record; not cancellable iff the record is completed or failed; cancel iff it is queued or in-progress |
| RenderRoutes.Deleted | server/routes/renders.ts:32-44 | 404 and 400 leave the queue unchanged; for a queued job, 200 "Job cancelled" and the record is gone; for an in-progress job, 200 with the record kept and the cancel signal fired; an accepted cancel is exactly `Cancelled`, so the chain, the running job, the rejection flag and the port stay as they were |
| RenderRoutes.Posted | server/routes/renders.ts:13-23 | a rejected body hands on the validator's error and creates no job; a valid one creates the queued job and answers its id |
| RenderRoutes.PostThenGetSeesQueued | server/routes/renders.ts:13-30 | right after POST returns, GET of the new id shows a queued record with the submitted data |
| RenderRoutes.DeleteQueuedForgetsJob | server/routes/renders.ts:32-44 | after a queued job is cancelled, GET and a second DELETE answer 404, while its link stays pending |
| RenderRoutes.DeleteInProgressOnlySignals | server/routes/renders.ts:41-43 | cancelling a running job answers "Job cancelled", but GET still shows it in progress; it ends failed only when the engine then throws |
| RenderRoutes.Post | server/routes/renders.ts:13-23 | performs `Posted` on the live queue; logs "Render job created: <id>" or the error line "Render job creation failed: <message>", fanned out to the subscribers |
| RenderRoutes.Get | server/routes/renders.ts:25-30 | answers `GetJob` of the live job map |
| RenderRoutes.Delete | server/routes/renders.ts:32-44 | performs `Deleted` on the live queue; only an accepted cancel logs "Render job cancelled: <id>" and fans it out, and a 404 or 400 logs nothing |

## Left out

- The render engine: composition selection, media encoding, the output file under `rendersDir` and the engine's cancel-signal machinery are not modelled. Their effect is a `Settle` event whose result, `Rendered` or `Threw(error)`, is a parameter, plus `Report(progress)` events.
- RenderQueues.RenderQueue.OnProgress: JavaScript's text for the progress number is a parameter, `shown`, and is not derived from the number.
- `Date().toISOString()` and `randomUUID()`: timestamps and job ids are parameters. Fresh ids are required to be unused, as UUIDs in practice are.
- `Number(PORT)`: the port is a natural number, and non-numeric or fractional ports are not modelled.
- Console output, winston and CloudWatch are not modelled.
- The `fetch` calls themselves are not modelled: the model returns the deliveries rather than sending them. Fire-and-forget delivery, and the swallowing of failures, need nothing further, because no delivery outcome affects the logger.
- ServiceLogs.PostToWebhooks: it allows the deliveries in any order, where a JavaScript Set iterates in insertion order.
- The JSON serialisation of a GET reply is left out. The reply carries the record itself; in the source an `Error` serialises as `{}` and the cancel closure is dropped.
- The cancel closure is not stored in a record. `Cancelled` applies what the closure of the record's status does.
- Json.UnescapeEscape: covers Dafny strings only, which hold no lone surrogates, so JSON.stringify's escaping of lone surrogates is not modelled.
- Event-loop timing is an over-approximation. A chain link (`ChainStep`) may happen after any number of other events, whereas in Node the link of a job submitted to an idle chain runs as a microtask before the next request is handled. The scenario in `StrandingPrefix` uses only orders that Node can produce.
- When its chain rejects, Node reports an unhandled promise rejection. The model keeps the server running with the chain rejected, and does not model process termination under Node's `--unhandled-rejections` setting.
- Express routing, `next(err)`'s error handler, the validation rules in `server/utils/validation.ts`, `server/services/s3.ts`, the logs and webhook routes, and `server/index.ts` are not part of this model. The validator's outcome is a parameter of type `Result`.
