# Rhyme-to-YouTube workflow: a Dafny model

The system is a Next.js dashboard that turns a topic into a published music video.
The page's `startWorkflow` runs six requests strictly in order:

1. generate a rhyme;
2. log the run to a Google Sheet;
3. generate an audio track;
4. generate a video;
5. upload the video to YouTube;
6. log the finished run to the sheet again.

Before each request it merges a partial update into the run's history entry with `updateLog`.
Its `catch` block turns the first not-ok reply among the first five requests, or any rejected request, into a `Failed` entry; the final log's reply is never read.
Its `finally` block ends the run.

The model has one module per source file, plus two shared modules and one composition module.

- `Wrappers` and `Web` hold what the routes and the page share:
  - optional JSON string fields and their JavaScript truthiness;
  - template-literal rendering of an undefined value;
  - the shape of a JSON reply.
- `GenerateRhyme`, `LogToSheet`, `GenerateAudio`, `GenerateVideo` and `UploadYoutube` model the five API routes. `Replicate` holds the output normalisation that the audio and video routes share.
  - Each route is a pure function from the request body and an abstract provider outcome.
  - Its result records the input it passed to the provider (`None` when it never called it) and the reply.
  - The sheet route also returns the table it leaves behind.
  - `LogToSheet.Post` is the same handler over a mutable `Spreadsheet` whose `rows` field it upserts in place.
- `Workflow` models `app/page.tsx`.
  - `Dashboard` is a class holding the component's state: `topic`, `isRunning`, `logs` and `currentLog`.
  - `UpdateLog` is the id-matched merge.
  - `StartWorkflow` is the imperative six-stage method. It is proved against the specification function `Run`, which gives the updates one run merges and the requests it sends.
  - Lemmas about `Run` state the orchestrator's promises: the stage order, a later stage only after ok replies, the error message recorded, artifacts never cleared, and the completed entry.
- `Pipeline` composes the two.
  - `Wired` connects each stage to its route handler.
  - `WiredRoutes` proves what the page can observe of the routes.
  - The remaining lemmas derive, for any services that behave like that, which providers can drive a run to `Failed`, what an all-fallback run ends with, and what the sheet table holds afterwards.

Unlike the audio, video and upload routes, the text route does not substitute a fallback when its provider fails:
- `app/api/generate-rhyme/route.ts` answers 500 when the completion call throws;
- `app/page.tsx` turns that 500 into a `Failed` entry.

The model follows the code; see `GenerateRhyme.ProviderErrorIsFatal` and `Pipeline.RoutedVerdict`.

## Model

| member | source | states |
|---|---|---|
| Web.Or | app/api/generate-audio/route.ts:34 | JavaScript's `or` of two optional strings is `a` when `a` is truthy and `b` otherwise; the result is truthy iff one of them is |
| Web.OrElse | app/api/log-to-sheet/route.ts:29-33 | an optional string `or` a literal is the value when truthy and the literal otherwise; never empty when the literal is not |
| Web.Render | app/api/generate-video/route.ts:38 | interpolating an undefined value spells `undefined`, a defined one is itself; only the empty string renders empty, and an undefined value cannot be told apart from the string "undefined" |
| Replicate.Normalise | app/api/generate-audio/route.ts:34 | a string output is used as is (even empty); otherwise the keyed field when truthy, else element 0; null gives nothing; the result always comes from the output |
| Replicate.Located | app/api/generate-audio/route.ts:34-38 | a locator is kept iff the call resolved and its normalised value is truthy, and is then non-empty |
| GenerateRhyme.Post | app/api/generate-rhyme/route.ts:8-43 | a falsy topic is a 400 "Topic is required" with no provider call; otherwise the provider's user message is the fixed prefix followed by exactly the topic, and the reply is ok iff a first choice exists; an ok reply echoes the topic with a non-empty rhyme; every error is a 400 or 500 with a non-empty message |
| GenerateRhyme.RhymeText | app/api/generate-rhyme/route.ts:33-35 | the rhyme is the first choice's content when non-empty, else "Unable to generate rhyme" |
| GenerateRhyme.ProviderErrorIsFatal | app/api/generate-rhyme/route.ts:36-42 | a provider exception is a 500 with its message or "Failed to generate rhyme"; no rhyme is substituted |
| GenerateAudio.Prompt | app/api/generate-audio/route.ts:23 | the prompt is the fixed prefix followed by the first min(length of text, 200) characters of the text, the whole text when it is short enough (characters counted as code points) |
| GenerateAudio.Post | app/api/generate-audio/route.ts:4-54 | a falsy text is a 400 "Text is required" with no model call; a truthy text is never answered non-ok; a usable locator is echoed with the caller's workflow id, anything else (no locator, exception) gives the SoundHelix demo for workflow 'demo' |
| GenerateVideo.PlaceholderUrl | app/api/generate-video/route.ts:38 | the placeholder starts with the placeholder host and can never equal the demo clip's URL |
| GenerateVideo.Post | app/api/generate-video/route.ts:4-58 | a falsy audio URL or rhyme is a 400 with no model call; otherwise never non-ok; an exception gives the demo clip for 'demo', an output without locator gives this workflow's placeholder, a locator is echoed with the caller's workflow id |
| UploadYoutube.Post | app/api/upload-youtube/route.ts:5-76 | a falsy video URL or title is a 400 with no upload; otherwise never non-ok, and the upload gets the video URL as source, the title and description unchanged, the fixed tags, category '10' and privacy 'public'; an upload answers with the watch URL of the returned id and that id; a failure answers with the `demo_` URL and id of the re-read body's workflow id, and with `demo_demo` for workflow 'demo' when the re-read rejects |
| UploadYoutube.WatchUrlNamesVideo | app/api/upload-youtube/route.ts:54-61 | on upload the URL is exactly the watch prefix followed by the returned id, and `videoId` is that id |
| LogToSheet.RowOf | app/api/log-to-sheet/route.ts:25-34 | the row has 8 cells in the order id, timestamp, topic, rhyme, audio, video, YouTube, status; missing fields are empty cells; a missing status is 'in-progress' |
| LogToSheet.ColumnA | app/api/log-to-sheet/route.ts:37-42 | column A holds each row's first cell, undefined for an empty row |
| LogToSheet.FindIndex | app/api/log-to-sheet/route.ts:43 | the first position holding the id, or -1 when no position holds it |
| LogToSheet.Overwrite | app/api/log-to-sheet/route.ts:45-52 | writing range A:H replaces the first eight cells and keeps any cells after H |
| LogToSheet.Upserted | app/api/log-to-sheet/route.ts:43-61 | the first row keyed by the id takes the new cells and no other row changes; without one the row is appended after all existing rows |
| LogToSheet.Respond | app/api/log-to-sheet/route.ts:4-71 | a missing sheet id is a 500 "Google Sheet ID not configured" that leaves the table alone; the reply is ok iff the store is configured and neither call throws; ok is `{success: true, workflowId}` with the upserted table; every failure is a 500 with a non-empty message and no write |
| LogToSheet.UpsertFinds | app/api/log-to-sheet/route.ts:43-61 | after an upsert the id's first row is where it was, or at the old end |
| LogToSheet.TwoUpserts | app/api/log-to-sheet/route.ts:37-61 | two upserts for an id the table lacks leave exactly one row for it, after the others, holding the second call's cells |
| LogToSheet.Post | app/api/log-to-sheet/route.ts:4-71 | the handler over the mutable table gives `Respond`'s reply and leaves `Respond`'s table |
| Workflow.Merge | app/page.tsx:164 | `{...log, ...updates}` keeps id, timestamp and topic; a key present in the update overwrites, an absent key keeps the entry's value |
| Workflow.ApplyAll | app/page.tsx:45-155 | a sequence of merges keeps the entry's identity |
| Workflow.Untouched | app/page.tsx:45-155 | a field that no update names keeps its value through the whole sequence |
| Workflow.NeverCleared | app/page.tsx:45-155 | from an entry without artifacts, updates that write each artifact at most once never clear or change an artifact once set |
| Workflow.DefaultErrorsDiffer | app/page.tsx:53-128 | no two stages share a default message, so a recorded default names the failing stage; each reads "Failed to ..." |
| Workflow.NewLogIsBare | app/page.tsx:33-38 | a new entry carries the run's id, timestamp and topic with status 'Starting...', and no artifact and no error |
| Workflow.FailureOf | app/page.tsx:53 | a stage's throw carries nothing iff the reply is ok, the reply's `error` or the stage default when not ok, the rejection's message when the fetch or parse throws |
| Workflow.Failure | app/page.tsx:151-155 | the catch block's update sets only status and error, never an artifact |
| Workflow.CallAt | app/page.tsx:46-149 | request k belongs to the k-th stage of the fixed order rhyme, sheet, audio, video, upload, sheet |
| Workflow.UpdateBefore | app/page.tsx:45-133 | the update before request k sets a status and no error; rhyme, audio, video and YouTube URL are written exactly before requests 1, 3, 4 and 5 with the value learnt; only the last sets 'Completed successfully!' |
| Workflow.LearnOwnStage | app/page.tsx:51-133 | a reply teaches only its own stage's artifact, the field read from it when ok and nothing otherwise; the sheet logs teach nothing |
| Workflow.KnownAfterOk | app/page.tsx:51-133 | an artifact is known only once its stage's request was answered ok |
| Workflow.LearnKnown | app/page.tsx:51-133 | learning from one more reply is knowing the replies of one more request |
| Workflow.Caught | app/page.tsx:53-149 | the first five replies must be ok (else the stage's failure message); the final log's reply counts only when the fetch is rejected |
| Workflow.Steps | app/page.tsx:43-155 | each step sends at least one request while any is left, and never more than are left |
| Workflow.Run | app/page.tsx:43-155 | a run sends between one and six requests |
| Workflow.ProgressNext | app/page.tsx:53-133 | a reply that passes the catch block extends a valid run prefix by one request |
| Workflow.FinishedCaught | app/page.tsx:151-155 | a reply caught by the catch block ends the run with the failure update after the request |
| Workflow.StepsFinish | app/page.tsx:43-155 | from any valid prefix the transition yields a finished trace: each request built from earlier replies, every reply but the last passed, and either a failure update or all six requests |
| Workflow.RunFinished | app/page.tsx:43-155 | every run is finished in that sense |
| Workflow.RunOrder | app/page.tsx:46-149 | a run sends a non-empty prefix of the fixed stage order |
| Workflow.RunGate | app/page.tsx:53-128 | a request is sent only after every earlier request was answered ok |
| Workflow.RunRequests | app/page.tsx:46-125 | each request is built from the topic, the id, the title prefix and the artifacts of the stages before it |
| Workflow.UpdateWrites | app/page.tsx:55-133 | the update before request k writes an artifact only when k is that artifact's one writer |
| Workflow.WritersOnce | app/page.tsx:55-155 | updates in which only an artifact's one writer sets it write each artifact at most once |
| Workflow.BuiltWriters | app/page.tsx:55-155 | in a trace of built requests followed at most by an update that keeps every artifact, only an artifact's writer sets it |
| Workflow.FinishedShape | app/page.tsx:151-155 | a finished trace has at most one update more than requests, and that extra update, the catch block's, keeps every artifact |
| Workflow.RunStopsOnFailure | app/page.tsx:53-128 | a run that sends fewer than six requests stops on a reply that was not ok |
| Workflow.RunWritesOnce | app/page.tsx:45-155 | a run's updates, failure included, write each artifact at most once |
| Workflow.ArtifactsNeverCleared | app/page.tsx:45-155 | through a run an artifact of the entry is never cleared or changed once set, failure included |
| Workflow.EntryShowsKnown | app/page.tsx:55-133 | after the update before request j the entry shows exactly the artifacts learnt from the replies before it |
| Workflow.LastMergeDecides | app/page.tsx:151-155 | the failure update decides the entry's status and error |
| Workflow.CompletedEntry | app/page.tsx:130-133 | six built requests leave a 'Completed successfully!' entry with no error, showing all it learnt |
| Workflow.RunVerdict | app/page.tsx:43-155 | a run ends Completed or Failed; Completed iff all six requests were sent and the final log was not rejected; an early stop follows a non-ok reply and records that reply's error or the stage default; a rejected final log records its message; a completed entry has no error and the uploaded video's URL |
| Workflow.CompletedArtifacts | app/page.tsx:55-133 | a completed entry holds the fields read from the rhyme, audio, video and upload replies |
| Workflow.FinalSnapshotMatchesEntry | app/page.tsx:136-149 | on completion the final log request carries exactly the entry's artifacts with status 'completed' |
| Workflow.UpdatedLogs | app/page.tsx:163-165 | the map keeps length, order and ids; entries of other workflows are untouched; entries with the id take the merge |
| Workflow.LogsAfter | app/page.tsx:162-165 | after a sequence of updates, entries with the id hold the merged sequence and the others are untouched |
| Workflow.LogsAfterSnoc | app/page.tsx:162-165 | one more `updateLog` is one more update in the sequence |
| Workflow.TrimStart | app/page.tsx:25 | the string after exactly its longest prefix of ECMAScript white space and line terminators |
| Workflow.BlankIsAllWhitespace | app/page.tsx:25 | a topic is blank, so that the run returns early, iff every character of it is white space |
| Workflow.Dashboard.constructor | app/page.tsx:19-22 | the component starts with an empty topic, not running, no history and nothing on display |
| Workflow.Dashboard.SetTopic | app/page.tsx:188 | editing the input sets the topic state (declared at app/page.tsx:18) and changes nothing else |
| Workflow.Dashboard.UpdateLog | app/page.tsx:162-167 | the history becomes the id-matched merge; the displayed entry changes only when there is one with the id; topic and running flag are kept |
| Workflow.Dashboard.Record | app/page.tsx:162-167 | during a run, `updateLog` adds one update to those merged into every entry with the id; the displayed entry takes the merge when it is this workflow's; topic and running flag are kept |
| Workflow.Dashboard.Stage | app/page.tsx:45-53 | one stage merges its update into the history and, when it is this workflow's, into the displayed entry, sends its request and reports the reply and the catch block's verdict; a caught reply is where `Run` stops, otherwise `Run` continues from the next request |
| Workflow.Dashboard.Conclude | app/page.tsx:151-159 | the catch block records the failure if any; afterwards the run is over and nothing is on display |
| Workflow.Dashboard.StartWorkflow | app/page.tsx:24-160 | a blank topic returns early and changes nothing; otherwise one new 'Starting...' entry is put in front, every entry with the id takes exactly the updates of `Run`, the requests sent are `Run`'s, and the run ends not running with nothing on display |
| Pipeline.Deliver | app/page.tsx:51-53 | a route's reply never makes the page's `fetch` reject; `response.ok` holds iff the reply is a 2xx one, which yields the field the page reads; a non-2xx reply carries its `error` to the page |
| Pipeline.Wired | app/page.tsx:46-128 | with every stage answered by its route handler, no stage's request is ever rejected |
| Pipeline.RhymeOf | app/api/generate-rhyme/route.ts:33-35 | the rhyme answered for a produced first choice is never empty, and is that choice's content when non-empty |
| Pipeline.FirstLogRow | app/page.tsx:61-70 | the first sheet log's row holds the run's id, timestamp, topic and rhyme, no media, and status 'in-progress' |
| Pipeline.SheetTable | app/api/log-to-sheet/route.ts:37-61 | a sequence of requests through the sheet route never removes a row and adds at most one per request |
| Pipeline.SheetReplyIgnoresTable | app/api/log-to-sheet/route.ts:37-63 | the sheet route's reply does not depend on what the table holds |
| Pipeline.WiredRoutes | app/page.tsx:46-128 | through the routes, the text stage is ok iff the topic is non-empty and a first choice exists, with the rhyme of that choice; each sheet log is ok iff the store's answer to that request is healthy; the media stages are ok with a non-empty locator when their inputs are present, and answer with their demo locators when their providers fail; no stage rejects |
| Pipeline.RoutedStops | app/page.tsx:53-128 | over the routes a run stops only at the rhyme or at the first sheet log, or runs all six requests |
| Pipeline.RoutedVerdict | app/page.tsx:43-155 | over the routes a run completes iff the topic is non-empty, the text provider produced a first choice and the sheet store accepts the first log, whatever it answers the final one; a completed entry has no error and all four artifacts set |
| Pipeline.AllFallbacks | app/page.tsx:78-133 | when every media provider fails, a run with a rhyme whose first log the store accepts still completes, with the demo track, the demo clip and the `demo_` watch URL |
| Pipeline.ShortRunTable | app/api/log-to-sheet/route.ts:18-22 | a run cut short at the rhyme, or at a first sheet log the store refuses, leaves the table alone |
| Pipeline.FullRunTable | app/api/log-to-sheet/route.ts:37-61 | a full run's two sheet logs for a new id leave one row for it, after the others, holding the final log's cells when the store accepts the final log and the first log's cells when it refuses it |
| Pipeline.RunTable | app/page.tsx:61-149 | through a run, the table gains exactly one row for the workflow when the run completes, holding the final log's cells (status 'completed') if the final log is accepted and the first log's cells (status 'in-progress') otherwise; it is untouched when the run fails |

## Left out

- The JSX rendering, styling and the status badge (app/page.tsx:169-306) and `alert` are UI only. `Workflow.Label` gives each status its display text.
- `console.error` logging has no observable effect on the state that is modelled.
- `Date.now()` and the `date-fns` format are inputs: `StartWorkflow` takes the id and the timestamp as parameters.
- The network, the `fetch` of each route, OpenAI, Replicate, the googleapis Sheets and YouTube clients and axios streaming are abstract parameters. Each is a function from the input the route builds to an outcome, or a `Backend` record for the sheet store.
- Environment variables are optional inputs or are not modelled. The spreadsheet id is `Backend.sheetId`. Credentials and API tokens matter only through the provider outcomes.
- `encodeURIComponent` of the video stage's image query is not modelled. The provider receives the rendered topic.
- The private-key `\n` replacement, `USER_ENTERED` value parsing and the sheet range strings are not modelled.
- Provider tuning constants (model ids, temperature, token and frame counts, some of them floating point) and the system prompt are fixed parts of the provider input and are not represented.
- Malformed JSON request bodies and non-string JSON values are not modelled. The optional body fields are a string or undefined. The sheet request's `workflowId`, `topic` and `timestamp` are plain strings: the page always sends them, and the route destructures them without validation (app/api/log-to-sheet/route.ts:6, 26-28), so an undefined value there is not modelled.
- For the first five requests a `Threw` outcome is a rejected `fetch` or a rejected `response.json()`. The final log only awaits the `fetch` (app/page.tsx:136-149), so there `Threw` is a rejected fetch only.
- Concurrent runs of `startWorkflow` and React's batched state scheduling are not modelled. One run is a sequential method in which each `setState` takes effect at once.
- Workflow.Dashboard.StartWorkflow: states `currentLog` only at the end of the run, not while the run is in progress.
- Pipeline.Wired: the sheet store answers every request on its own, so the two sheet logs of a run, which always differ, may be answered differently. The sheet stage's reply is computed over an empty table. `Pipeline.SheetReplyIgnoresTable` shows that the reply is the same for every table, and the table itself is followed separately by `Pipeline.SheetTable`.
- Pipeline.RoutedStops, Pipeline.RoutedVerdict, Pipeline.AllFallbacks: stated over any services satisfying the route summaries of `Pipeline.Routes`. They apply to `Wired(p)` through `Pipeline.WiredRoutes`, and are not restated for `Wired(p)` itself.
- The final sheet log is the sixth request. Its reply's body is never read (app/page.tsx:136-149). Only a rejected fetch reaches the catch block, so a non-ok final log does not change a completed entry.
- GenerateAudio.Prompt: the 200-character cut is counted in Unicode code points, not in the UTF-16 code units of `substring`; a cut that falls inside a surrogate pair is not represented.
- UploadYoutube.Post: the fallback re-reads a request body that was already consumed (app/api/upload-youtube/route.ts:7, 66), which a Fetch `Request` rejects, so in practice the placeholder is always `demo_demo` for workflow 'demo'. The model keeps the re-read as an input, `ReRead`, and proves both of its outcomes.
- Every `fetch` and every provider call is assumed to answer: `Services` and `Providers` are total functions. The source awaits each call with no timeout (app/page.tsx:46-149, and the provider calls in each route), so a call that never settles leaves the entry at its in-progress status with `isRunning` true. `Workflow.RunVerdict`'s "ends Completed or Failed" and `Workflow.Dashboard.StartWorkflow`'s "ends not running" hold for runs in which every call returns.
