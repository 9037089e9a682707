/**
 * The page's orchestrator: `startWorkflow` runs the stages rhyme, sheet log, audio,
 * video, YouTube and final sheet log strictly in order, merges each stage's result
 * into the history entry of the run, and turns the first stage that does not answer
 * ok into a `Failed` entry. `updateLog` is the id-matched merge into the history and
 * into the entry on display.
 */
module Workflow {
  import opened Wrappers
  import opened Web
  import opened GenerateRhyme
  import opened LogToSheet
  import opened GenerateAudio
  import opened GenerateVideo
  import opened UploadYoutube

  /** The status line of an entry: the page only ever writes these eight labels. */
  datatype Status = Starting | GeneratingRhyme | RhymeGenerated | LoggedToSheets
                  | AudioGenerated | VideoCreated | Completed | Failed

  /** The text the page shows for a status. */
  function Label(s: Status): string {
    match s
    case Starting => "Starting..."
    case GeneratingRhyme => "Generating rhyme with AI..."
    case RhymeGenerated => "Rhyme generated. Logging to Google Sheets..."
    case LoggedToSheets => "Logged to sheets. Generating audio..."
    case AudioGenerated => "Audio generated. Creating video..."
    case VideoCreated => "Video created. Uploading to YouTube..."
    case Completed => "Completed successfully!"
    case Failed => "Failed"
  }

  /** One history entry. */
  datatype WorkflowLog = WorkflowLog(id: string, timestamp: string, topic: string, status: Status,
                                     rhymeText: Option<string>, audioUrl: Option<string>,
                                     videoUrl: Option<string>, youtubeUrl: Option<string>,
                                     error: Option<string>)

  /** One key of a partial record: absent (Keep), or present with a value that may itself be undefined. */
  datatype Patch<T> = Keep | Put(value: T)

  function Over<T>(p: Patch<T>, v: T): T {
    if p.Put? then p.value else v
  }

  /**
   * A `Partial<WorkflowLog>` as the page passes it to `updateLog`. The page never
   * updates `id`, `timestamp` or `topic`, so an update has no keys for them.
   */
  datatype LogUpdate = LogUpdate(status: Patch<Status>, rhymeText: Patch<Option<string>>,
                                 audioUrl: Patch<Option<string>>, videoUrl: Patch<Option<string>>,
                                 youtubeUrl: Patch<Option<string>>, error: Patch<Option<string>>)

  /** The optional fields of an entry: the four stage artifacts and the error. */
  datatype Slot = RhymeText | AudioUrl | VideoUrl | YoutubeUrl | Error {
    predicate IsArtifact() { !Error? }
  }

  function SlotOf(log: WorkflowLog, s: Slot): Option<string> {
    match s
    case RhymeText => log.rhymeText
    case AudioUrl => log.audioUrl
    case VideoUrl => log.videoUrl
    case YoutubeUrl => log.youtubeUrl
    case Error => log.error
  }

  function PatchOf(u: LogUpdate, s: Slot): Patch<Option<string>> {
    match s
    case RhymeText => u.rhymeText
    case AudioUrl => u.audioUrl
    case VideoUrl => u.videoUrl
    case YoutubeUrl => u.youtubeUrl
    case Error => u.error
  }

  /** `{ ...log, ...updates }` */
  function Merge(log: WorkflowLog, u: LogUpdate): (r: WorkflowLog)
    // the identity of the entry survives every merge
    ensures r.id == log.id && r.timestamp == log.timestamp && r.topic == log.topic
    // a key present in the update overwrites, an absent key keeps the entry's value
    ensures r.status == Over(u.status, log.status)
    ensures forall s :: SlotOf(r, s) == Over(PatchOf(u, s), SlotOf(log, s))
  {
    log.(status := Over(u.status, log.status),
         rhymeText := Over(u.rhymeText, log.rhymeText),
         audioUrl := Over(u.audioUrl, log.audioUrl),
         videoUrl := Over(u.videoUrl, log.videoUrl),
         youtubeUrl := Over(u.youtubeUrl, log.youtubeUrl),
         error := Over(u.error, log.error))
  }

  /** An entry after a sequence of merges, oldest first. */
  function ApplyAll(log: WorkflowLog, us: seq<LogUpdate>): (r: WorkflowLog)
    ensures r.id == log.id && r.timestamp == log.timestamp && r.topic == log.topic
    decreases |us|
  {
    if |us| == 0 then log else Merge(ApplyAll(log, us[..|us| - 1]), us[|us| - 1])
  }

  /** A slot no update names keeps its value through the whole sequence. */
  lemma {:induction false} Untouched(log: WorkflowLog, us: seq<LogUpdate>, s: Slot)
    requires forall k :: 0 <= k < |us| ==> PatchOf(us[k], s).Keep?
    ensures SlotOf(ApplyAll(log, us), s) == SlotOf(log, s)
    decreases |us|
  {
    if |us| > 0 {
      Untouched(log, us[..|us| - 1], s);
    }
  }

  /** Every artifact is written by at most one update of the sequence. */
  ghost predicate WritesOnce(us: seq<LogUpdate>) {
    forall k, m, s: Slot :: 0 <= k < m < |us| && s.IsArtifact() && PatchOf(us[m], s).Put? ==> PatchOf(us[k], s).Keep?
  }

  /** `b` keeps every artifact `a` already has. */
  ghost predicate Extends(a: WorkflowLog, b: WorkflowLog) {
    forall s: Slot :: s.IsArtifact() && SlotOf(a, s).Some? ==> SlotOf(b, s) == SlotOf(a, s)
  }

  /**
   * Starting from an entry without artifacts, merges that write each artifact at
   * most once never clear or change an artifact once it is set.
   */
  lemma {:induction false} NeverCleared(log: WorkflowLog, us: seq<LogUpdate>, i: nat, j: nat)
    requires forall s: Slot :: s.IsArtifact() ==> SlotOf(log, s).None?
    requires WritesOnce(us) && i <= j <= |us|
    ensures Extends(ApplyAll(log, us[..i]), ApplyAll(log, us[..j]))
    decreases j
  {
    if i < j {
      NeverCleared(log, us, i, j - 1);
      var before := ApplyAll(log, us[..j - 1]);
      assert us[..j][..j - 1] == us[..j - 1];
      assert ApplyAll(log, us[..j]) == Merge(before, us[j - 1]);
      forall s: Slot | s.IsArtifact() && SlotOf(ApplyAll(log, us[..i]), s).Some?
        ensures SlotOf(ApplyAll(log, us[..j]), s) == SlotOf(ApplyAll(log, us[..i]), s)
      {
        if PatchOf(us[j - 1], s).Put? {
          assert forall k :: 0 <= k < i ==> us[..i][k] == us[k];
          Untouched(log, us[..i], s);
          assert false;
        }
      }
    }
  }

  // ---------------------------------------------------------------------------
  // The stages as the page sees them

  /**
   * What one stage's `fetch` and `response.json()` gave the page: a 2xx reply with
   * the one field the page reads from it, a non-2xx reply with its `error` field,
   * or a rejection with its message. For the first five requests a rejection is one
   * of the fetch or of the body parse; the final log's body is never parsed, so
   * there it is a rejected fetch only.
   */
  datatype Outcome = Ok(artifact: Option<string>) | NotOk(error: Option<string>) | Threw(message: string)

  /** The five routes as the page reaches them. */
  datatype Services = Services(rhyme: RhymeRequest -> Outcome,
                               sheet: SheetRequest -> Outcome,
                               audio: AudioRequest -> Outcome,
                               video: VideoRequest -> Outcome,
                               upload: UploadRequest -> Outcome)

  /** One request the page sends. */
  datatype Call = RhymeCall(rhymeReq: RhymeRequest)
                | SheetCall(sheetReq: SheetRequest)
                | AudioCall(audioReq: AudioRequest)
                | VideoCall(videoReq: VideoRequest)
                | UploadCall(uploadReq: UploadRequest)

  datatype Stage = TextStage | SheetStage | AudioStage | VideoStage | UploadStage

  function StageOf(c: Call): Stage {
    match c
    case RhymeCall(_) => TextStage
    case SheetCall(_) => SheetStage
    case AudioCall(_) => AudioStage
    case VideoCall(_) => VideoStage
    case UploadCall(_) => UploadStage
  }

  /** The stage of request `k` of a run; the sheet is written twice. */
  function StageAt(k: nat): Stage {
    if k == 0 then TextStage else if k == 1 then SheetStage else if k == 2 then AudioStage
    else if k == 3 then VideoStage else if k == 4 then UploadStage else SheetStage
  }

  /** The number of requests a run sends when nothing fails. */
  const Requests := 6

  function Answer(svc: Services, c: Call): Outcome {
    match c
    case RhymeCall(r) => svc.rhyme(r)
    case SheetCall(r) => svc.sheet(r)
    case AudioCall(r) => svc.audio(r)
    case VideoCall(r) => svc.video(r)
    case UploadCall(r) => svc.upload(r)
  }

  const FailedTo := "Failed to "

  /** The message thrown when a stage's reply is not ok and carries no `error`. */
  function DefaultError(s: Stage): string {
    match s
    case TextStage => "Failed to generate rhyme"
    case SheetStage => "Failed to log to sheets"
    case AudioStage => "Failed to generate audio"
    case VideoStage => "Failed to generate video"
    case UploadStage => "Failed to upload to YouTube"
  }

  /**
   * Every stage has its own default message, each reading "Failed to ...", so a
   * recorded default names the failing stage.
   */
  lemma DefaultErrorsDiffer(s: Stage, t: Stage)
    requires s != t
    ensures DefaultError(s) != DefaultError(t)
    ensures |DefaultError(s)| > |FailedTo| && DefaultError(s)[..|FailedTo|] == FailedTo
  {
  }

  /** The message the catch block records for a stage: none when it answered ok. */
  function FailureOf(o: Outcome, default: string): (f: Option<string>)
    ensures f.None? <==> o.Ok?
    ensures o.NotOk? ==> f == Some(OrElse(o.error, default))
    ensures o.Threw? ==> f == Some(o.message)
  {
    match o
    case Ok(_) => None
    case NotOk(e) => Some(OrElse(e, default))
    case Threw(m) => Some(m)
  }

  const TitlePrefix := "AI Generated Rhyme: "
  const SheetCompleted := "completed"

  function StatusUpdate(status: Status): LogUpdate {
    LogUpdate(Put(status), Keep, Keep, Keep, Keep, Keep)
  }

  /** The catch block's update: status and error only, so no artifact is touched. */
  function Failure(message: string): (u: LogUpdate)
    ensures forall s: Slot :: s.IsArtifact() ==> PatchOf(u, s).Keep?
  {
    LogUpdate(Put(Failed), Keep, Keep, Keep, Keep, Put(Some(message)))
  }

  /** The entry a run starts with. */
  function NewLog(id: string, timestamp: string, topic: string): WorkflowLog {
    WorkflowLog(id, timestamp, topic, Starting, None, None, None, None, None)
  }

  /** A new entry carries the run's identity, the starting status, and nothing learnt or failed yet. */
  lemma NewLogIsBare(id: string, timestamp: string, topic: string)
    ensures var l := NewLog(id, timestamp, topic);
      && l.id == id && l.timestamp == timestamp && l.topic == topic && l.status == Starting
      && forall s: Slot :: SlotOf(l, s) == None
  {
  }

  /** What one run does: the updates it merges into its entry, oldest first, and the requests it sends. */
  datatype Trace = Trace(updates: seq<LogUpdate>, sent: seq<Call>)

  /** The artifacts the page has learnt so far from the stages' replies. */
  datatype Found = Found(rhyme: Option<string>, audio: Option<string>, video: Option<string>, youtube: Option<string>)

  const NothingFound := Found(None, None, None, None)

  /** The field the page reads from a reply that is ok. */
  function Art(o: Outcome): Option<string> {
    if o.Ok? then o.artifact else None
  }

  /** Request `k` of a run (0 to 5), built from the topic, the id and what the page has learnt. */
  function CallAt(k: nat, topic: string, id: string, timestamp: string, a: Found): (c: Call)
    requires k < Requests
    ensures StageOf(c) == StageAt(k)
  {
    if k == 0 then RhymeCall(RhymeRequest(Some(topic)))
    else if k == 1 then SheetCall(SheetRequest(id, topic, a.rhyme, timestamp, None, None, None, None))
    else if k == 2 then AudioCall(AudioRequest(a.rhyme, Some(id)))
    else if k == 3 then VideoCall(VideoRequest(a.audio, a.rhyme, Some(topic), Some(id)))
    else if k == 4 then UploadCall(UploadRequest(a.video, Some(TitlePrefix + topic), a.rhyme, Some(id)))
    else SheetCall(SheetRequest(id, topic, a.rhyme, timestamp, a.audio, a.video, a.youtube, Some(SheetCompleted)))
  }

  /** The update merged just before request `k`: a status, plus the artifact the previous reply carried. */
  function UpdateBefore(k: nat, a: Found): (u: LogUpdate)
    requires k < Requests
    ensures u.status.Put? && u.error.Keep?
    // each artifact is reported by exactly one update, with the value the page learnt
    ensures u.rhymeText.Put? <==> k == 1
    ensures u.audioUrl.Put? <==> k == 3
    ensures u.videoUrl.Put? <==> k == 4
    ensures u.youtubeUrl.Put? <==> k == 5
    ensures u.rhymeText.Put? ==> u.rhymeText.value == a.rhyme
    ensures u.audioUrl.Put? ==> u.audioUrl.value == a.audio
    ensures u.videoUrl.Put? ==> u.videoUrl.value == a.video
    ensures u.youtubeUrl.Put? ==> u.youtubeUrl.value == a.youtube
    ensures k == 5 <==> u.status == Put(Completed)
  {
    if k == 0 then StatusUpdate(GeneratingRhyme)
    else if k == 1 then LogUpdate(Put(RhymeGenerated), Put(a.rhyme), Keep, Keep, Keep, Keep)
    else if k == 2 then StatusUpdate(LoggedToSheets)
    else if k == 3 then LogUpdate(Put(AudioGenerated), Keep, Put(a.audio), Keep, Keep, Keep)
    else if k == 4 then LogUpdate(Put(VideoCreated), Keep, Keep, Put(a.video), Keep, Keep)
    else LogUpdate(Put(Completed), Keep, Keep, Keep, Put(a.youtube), Keep)
  }

  /** What the page learns from the reply to request `k`. */
  function Learn(k: nat, a: Found, o: Outcome): Found {
    if k == 0 then a.(rhyme := Art(o))
    else if k == 2 then a.(audio := Art(o))
    else if k == 3 then a.(video := Art(o))
    else if k == 4 then a.(youtube := Art(o))
    else a
  }

  /** What the page has learnt from the replies to the first `j` requests of `cs`. */
  function Known(svc: Services, cs: seq<Call>, j: nat): Found
    requires j <= |cs|
  {
    Found(if j > 0 then Art(Answer(svc, cs[0])) else None,
          if j > 2 then Art(Answer(svc, cs[2])) else None,
          if j > 3 then Art(Answer(svc, cs[3])) else None,
          if j > 4 then Art(Answer(svc, cs[4])) else None)
  }

  /**
   * A reply teaches only its own stage's artifact, so the sheet logs teach nothing;
   * what it teaches is the reply's field when ok, and nothing otherwise.
   */
  lemma LearnOwnStage(k: nat, a: Found, o: Outcome)
    ensures var r := Learn(k, a, o);
      && (k != 0 ==> r.rhyme == a.rhyme) && (k != 2 ==> r.audio == a.audio)
      && (k != 3 ==> r.video == a.video) && (k != 4 ==> r.youtube == a.youtube)
      && (k == 0 ==> r.rhyme == Art(o)) && (k == 2 ==> r.audio == Art(o))
      && (k == 3 ==> r.video == Art(o)) && (k == 4 ==> r.youtube == Art(o))
  {
  }

  /** An artifact is known only once its stage's request was answered ok. */
  lemma KnownAfterOk(svc: Services, cs: seq<Call>, j: nat)
    requires j <= |cs|
    ensures var r := Known(svc, cs, j);
      && (r.rhyme.Some? ==> j > 0 && Answer(svc, cs[0]).Ok?)
      && (r.audio.Some? ==> j > 2 && Answer(svc, cs[2]).Ok?)
      && (r.video.Some? ==> j > 3 && Answer(svc, cs[3]).Ok?)
      && (r.youtube.Some? ==> j > 4 && Answer(svc, cs[4]).Ok?)
  {
  }

  /** Learning from one more reply is knowing one more request's reply. */
  lemma LearnKnown(svc: Services, cs: seq<Call>, j: nat)
    requires j < |cs|
    ensures Learn(j, Known(svc, cs, j), Answer(svc, cs[j])) == Known(svc, cs, j + 1)
  {
  }

  /**
   * The message the catch block records after the reply to request `k`, if any:
   * the first five requests must be answered ok, the final log only must not be rejected.
   */
  function Caught(k: nat, o: Outcome): (f: Option<string>)
    requires k < Requests
    ensures k < 5 ==> f == FailureOf(o, DefaultError(StageAt(k)))
    ensures k == 5 ==> f == (if o.Threw? then Some(o.message) else None)
  {
    if k < 5 then FailureOf(o, DefaultError(StageAt(k)))
    else if o.Threw? then Some(o.message) else None
  }

  /** The trace so far extended by one update and one request. */
  function Extend(acc: Trace, u: LogUpdate, c: Call): Trace {
    Trace(acc.updates + [u], acc.sent + [c])
  }

  /** The catch block ends the trace with the failure update. */
  function Fail(acc: Trace, message: string): Trace {
    Trace(acc.updates + [Failure(message)], acc.sent)
  }

  /**
   * The run from request `k` on, after the trace `acc`: merge the update, send the
   * request, and either stop at the catch block or go on to the next request.
   */
  function Steps(k: nat, topic: string, id: string, timestamp: string, svc: Services, a: Found, acc: Trace): (t: Trace)
    requires k <= Requests
    // a step sends at least one request if any is left, and never more than are left
    ensures k < Requests ==> |acc.sent| < |t.sent|
    ensures |t.sent| <= |acc.sent| + Requests - k
    decreases Requests - k
  {
    if k == Requests then acc
    else
      var c := CallAt(k, topic, id, timestamp, a);
      var next := Extend(acc, UpdateBefore(k, a), c);
      var f := Caught(k, Answer(svc, c));
      if f.Some? then Fail(next, f.value)
      else Steps(k + 1, topic, id, timestamp, svc, Learn(k, a, Answer(svc, c)), next)
  }

  /** The run of `startWorkflow` for a non-blank topic. */
  function Run(topic: string, id: string, timestamp: string, svc: Services): (t: Trace)
    ensures 1 <= |t.sent| <= Requests
  {
    Steps(0, topic, id, timestamp, svc, NothingFound, Trace([], []))
  }

  /** Request `j` and the update before it are built from what the replies before it taught, for `j < n`. */
  ghost predicate Built(topic: string, id: string, timestamp: string, svc: Services, t: Trace, n: nat) {
    && n <= Requests && n <= |t.sent| && n <= |t.updates|
    && (forall j {:trigger Known(svc, t.sent, j)} :: 0 <= j < n ==>
          t.sent[j] == CallAt(j, topic, id, timestamp, Known(svc, t.sent, j))
          && t.updates[j] == UpdateBefore(j, Known(svc, t.sent, j)))
  }

  /** `Built`, index by index. */
  lemma BuiltEntries(topic: string, id: string, timestamp: string, svc: Services, t: Trace, n: nat)
    requires Built(topic, id, timestamp, svc, t, n)
    ensures forall j :: 0 <= j < n ==> t.sent[j] == CallAt(j, topic, id, timestamp, Known(svc, t.sent, j))
    ensures forall j :: 0 <= j < n ==> t.updates[j] == UpdateBefore(j, Known(svc, t.sent, j))
  {
  }

  /** The replies to the first `n` requests all passed the catch block. */
  ghost predicate Gated(svc: Services, t: Trace, n: nat)
    requires n <= |t.sent| <= Requests
  {
    forall j :: 0 <= j < n ==> Caught(j, Answer(svc, t.sent[j])).None?
  }

  /** A caught last reply adds the failure update; otherwise all six requests were sent. */
  ghost predicate Ends(svc: Services, t: Trace)
    requires 1 <= |t.sent| <= Requests
  {
    var n := |t.sent|;
    var f := Caught(n - 1, Answer(svc, t.sent[n - 1]));
    if f.Some? then |t.updates| == n + 1 && t.updates[n] == Failure(f.value)
    else n == Requests && |t.updates| == n
  }

  /**
   * What a run's trace is: a non-empty prefix of the six requests, each built from
   * what the replies before it taught; every request but the last passed the catch block.
   */
  ghost predicate Finished(topic: string, id: string, timestamp: string, svc: Services, t: Trace) {
    && 1 <= |t.sent| <= Requests
    && Built(topic, id, timestamp, svc, t, |t.sent|) && Gated(svc, t, |t.sent| - 1) && Ends(svc, t)
  }

  /**
   * The first `k` entries of a trace are a run's: each request and the update before it
   * built from what the replies before it taught, each reply passing the catch block.
   */
  ghost predicate Prefix(k: nat, topic: string, id: string, timestamp: string, svc: Services, t: Trace)
    decreases k
  {
    && k <= Requests && k <= |t.sent| && k <= |t.updates|
    && (k > 0 ==>
          var b := Known(svc, t.sent, k - 1);
          && Prefix(k - 1, topic, id, timestamp, svc, t)
          && t.sent[k - 1] == CallAt(k - 1, topic, id, timestamp, b)
          && t.updates[k - 1] == UpdateBefore(k - 1, b)
          && Caught(k - 1, Answer(svc, t.sent[k - 1])).None?)
  }

  /** The trace so far of a run about to send request `k`, having learnt `a`. */
  ghost predicate Progress(k: nat, topic: string, id: string, timestamp: string, svc: Services, a: Found, acc: Trace) {
    && |acc.sent| == k && |acc.updates| == k && a == Known(svc, acc.sent, k)
    && Prefix(k, topic, id, timestamp, svc, acc)
  }

  /** Whether a prefix is a run's depends only on its first `k` entries. */
  lemma {:induction false} PrefixFrame(k: nat, topic: string, id: string, timestamp: string, svc: Services, s: Trace, t: Trace)
    requires Prefix(k, topic, id, timestamp, svc, s) && k <= |t.sent| && k <= |t.updates|
    requires forall j :: 0 <= j < k ==> s.sent[j] == t.sent[j] && s.updates[j] == t.updates[j]
    ensures Prefix(k, topic, id, timestamp, svc, t)
    decreases k
  {
    if k > 0 {
      PrefixFrame(k - 1, topic, id, timestamp, svc, s, t);
      assert Known(svc, s.sent, k - 1) == Known(svc, t.sent, k - 1);
    }
  }

  /** The trace so far, request by request. */
  lemma {:induction false} ProgressBuilt(k: nat, topic: string, id: string, timestamp: string, svc: Services, t: Trace)
    requires Prefix(k, topic, id, timestamp, svc, t) && |t.sent| <= Requests
    ensures Built(topic, id, timestamp, svc, t, k) && Gated(svc, t, k)
    decreases k
  {
    if k > 0 {
      ProgressBuilt(k - 1, topic, id, timestamp, svc, t);
    }
  }

  /** A reply that passes the catch block extends the progress by one request. */
  lemma ProgressNext(k: nat, topic: string, id: string, timestamp: string, svc: Services, a: Found, acc: Trace,
                     u: LogUpdate, c: Call)
    requires k < Requests && Progress(k, topic, id, timestamp, svc, a, acc)
    requires u == UpdateBefore(k, a) && c == CallAt(k, topic, id, timestamp, a) && Caught(k, Answer(svc, c)).None?
    ensures Progress(k + 1, topic, id, timestamp, svc, Learn(k, a, Answer(svc, c)), Extend(acc, u, c))
  {
    var next := Extend(acc, u, c);
    PrefixFrame(k, topic, id, timestamp, svc, acc, next);
    assert Known(svc, next.sent, k) == a;
    LearnKnown(svc, next.sent, k);
  }

  /** A reply caught by the catch block finishes the run. */
  lemma FinishedCaught(k: nat, topic: string, id: string, timestamp: string, svc: Services, a: Found, acc: Trace)
    requires k < Requests && Progress(k, topic, id, timestamp, svc, a, acc)
    requires Caught(k, Answer(svc, CallAt(k, topic, id, timestamp, a))).Some?
    ensures var c := CallAt(k, topic, id, timestamp, a);
      Finished(topic, id, timestamp, svc, Fail(Extend(acc, UpdateBefore(k, a), c), Caught(k, Answer(svc, c)).value))
  {
    var c := CallAt(k, topic, id, timestamp, a);
    var next := Fail(Extend(acc, UpdateBefore(k, a), c), Caught(k, Answer(svc, c)).value);
    PrefixFrame(k, topic, id, timestamp, svc, acc, next);
    ProgressBuilt(k, topic, id, timestamp, svc, next);
    assert Known(svc, next.sent, k) == a;
    assert Built(topic, id, timestamp, svc, next, k + 1);
    assert Gated(svc, next, k);
    assert Ends(svc, next);
  }

  lemma {:induction false} StepsFinish(k: nat, topic: string, id: string, timestamp: string, svc: Services, a: Found, acc: Trace)
    requires 0 < k || |acc.sent| == 0
    requires Progress(k, topic, id, timestamp, svc, a, acc)
    ensures Finished(topic, id, timestamp, svc, Steps(k, topic, id, timestamp, svc, a, acc))
    decreases Requests - k
  {
    if k < Requests {
      var c := CallAt(k, topic, id, timestamp, a);
      if Caught(k, Answer(svc, c)).Some? {
        FinishedCaught(k, topic, id, timestamp, svc, a, acc);
      } else {
        ProgressNext(k, topic, id, timestamp, svc, a, acc, UpdateBefore(k, a), c);
        StepsFinish(k + 1, topic, id, timestamp, svc, Learn(k, a, Answer(svc, c)), Extend(acc, UpdateBefore(k, a), c));
      }
    } else {
      ProgressBuilt(k, topic, id, timestamp, svc, acc);
    }
  }

  /** Every run is finished in the sense above. */
  lemma RunFinished(topic: string, id: string, timestamp: string, svc: Services)
    ensures Finished(topic, id, timestamp, svc, Run(topic, id, timestamp, svc))
  {
    StepsFinish(0, topic, id, timestamp, svc, NothingFound, Trace([], []));
  }

  /** A run that stops short does so on a reply that was not ok. */
  lemma RunStopsOnFailure(topic: string, id: string, timestamp: string, svc: Services)
    ensures var t := Run(topic, id, timestamp, svc);
      |t.sent| < Requests ==> !Answer(svc, t.sent[|t.sent| - 1]).Ok?
  {
    RunFinished(topic, id, timestamp, svc);
  }

  /** The run's own entry once the run is over. */
  function FinalEntry(topic: string, id: string, timestamp: string, svc: Services): WorkflowLog {
    ApplyAll(NewLog(id, timestamp, topic), Run(topic, id, timestamp, svc).updates)
  }

  /** A run sends a non-empty prefix of the fixed stage order. */
  lemma RunOrder(topic: string, id: string, timestamp: string, svc: Services)
    ensures var t := Run(topic, id, timestamp, svc);
      1 <= |t.sent| <= Requests && forall k :: 0 <= k < |t.sent| ==> StageOf(t.sent[k]) == StageAt(k)
  {
    RunFinished(topic, id, timestamp, svc);
    var t := Run(topic, id, timestamp, svc);
    forall k | 0 <= k < |t.sent| ensures StageOf(t.sent[k]) == StageAt(k) {
      assert t.sent[k] == CallAt(k, topic, id, timestamp, Known(svc, t.sent, k));
    }
  }

  /** A request is sent only after every earlier request was answered ok. */
  lemma RunGate(topic: string, id: string, timestamp: string, svc: Services)
    ensures var t := Run(topic, id, timestamp, svc);
      forall k :: 0 <= k < |t.sent| - 1 ==> Answer(svc, t.sent[k]).Ok?
  {
    RunFinished(topic, id, timestamp, svc);
  }

  /** Each request is built from the topic, the id and the artifacts of the stages before it. */
  lemma RunRequests(topic: string, id: string, timestamp: string, svc: Services)
    ensures var t := Run(topic, id, timestamp, svc);
      var s := t.sent;
      var rhyme := Art(Answer(svc, s[0]));
      && s[0] == RhymeCall(RhymeRequest(Some(topic)))
      && (|s| > 1 ==> s[1] == SheetCall(SheetRequest(id, topic, rhyme, timestamp, None, None, None, None)))
      && (|s| > 2 ==> s[2] == AudioCall(AudioRequest(rhyme, Some(id))))
      && (|s| > 3 ==> s[3] == VideoCall(VideoRequest(Art(Answer(svc, s[2])), rhyme, Some(topic), Some(id))))
      && (|s| > 4 ==> s[4] == UploadCall(UploadRequest(Art(Answer(svc, s[3])), Some(TitlePrefix + topic),
                                                       rhyme, Some(id))))
  {
    RunFinished(topic, id, timestamp, svc);
    var t := Run(topic, id, timestamp, svc);
    BuiltEntries(topic, id, timestamp, svc, t, |t.sent|);
    RunGate(topic, id, timestamp, svc);
  }

  /** The stage whose reply carries an artifact; the update before the next request writes it. */
  function Writer(s: Slot): nat {
    match s
    case RhymeText => 1
    case AudioUrl => 3
    case VideoUrl => 4
    case _ => 5
  }

  /** The update before request `k` writes an artifact only when `k` is that artifact's writer. */
  lemma UpdateWrites(k: nat, a: Found, s: Slot)
    requires k < Requests && s.IsArtifact() && PatchOf(UpdateBefore(k, a), s).Put?
    ensures k == Writer(s)
  {
  }

  /** Updates whose artifacts each have one writer write each artifact at most once. */
  lemma WritersOnce(us: seq<LogUpdate>)
    requires forall j, s: Slot :: 0 <= j < |us| && s.IsArtifact() && PatchOf(us[j], s).Put? ==> j == Writer(s)
    ensures WritesOnce(us)
  {
    forall k, m, s: Slot | 0 <= k < m < |us| && s.IsArtifact() && PatchOf(us[m], s).Put?
      ensures PatchOf(us[k], s).Keep?
    {
      assert m == Writer(s);
    }
  }

  /**
   * Each artifact has the one update that may write it, the one before the request
   * that uses it, in a trace whose updates are built and whose one extra update, if
   * any, writes no artifact.
   */
  lemma BuiltWriters(topic: string, id: string, timestamp: string, svc: Services, t: Trace)
    requires Built(topic, id, timestamp, svc, t, |t.sent|) && |t.updates| <= |t.sent| + 1
    requires |t.updates| > |t.sent| ==> forall s: Slot :: s.IsArtifact() ==> PatchOf(t.updates[|t.sent|], s).Keep?
    ensures forall j, s: Slot :: 0 <= j < |t.updates| && s.IsArtifact() && PatchOf(t.updates[j], s).Put? ==> j == Writer(s)
  {
    var us := t.updates;
    forall j, s: Slot | 0 <= j < |us| && s.IsArtifact() && PatchOf(us[j], s).Put?
      ensures j == Writer(s)
    {
      if j < |t.sent| {
        assert us[j] == UpdateBefore(j, Known(svc, t.sent, j));
        UpdateWrites(j, Known(svc, t.sent, j), s);
      } else {
        assert false;
      }
    }
  }

  /** A finished trace's updates are built, and the catch block's update after them, if any, writes no artifact. */
  lemma FinishedShape(topic: string, id: string, timestamp: string, svc: Services, t: Trace)
    requires Finished(topic, id, timestamp, svc, t)
    ensures Built(topic, id, timestamp, svc, t, |t.sent|) && |t.updates| <= |t.sent| + 1
    ensures |t.updates| > |t.sent| ==> forall s: Slot :: s.IsArtifact() ==> PatchOf(t.updates[|t.sent|], s).Keep?
  {
    var n := |t.sent|;
    var f := Caught(n - 1, Answer(svc, t.sent[n - 1]));
    if f.Some? {
      assert t.updates[n] == Failure(f.value);
    } else {
      assert |t.updates| == n;
    }
  }

  /** The updates of a run write each artifact at most once. */
  lemma RunWritesOnce(topic: string, id: string, timestamp: string, svc: Services)
    ensures WritesOnce(Run(topic, id, timestamp, svc).updates)
  {
    RunFinished(topic, id, timestamp, svc);
    FinishedShape(topic, id, timestamp, svc, Run(topic, id, timestamp, svc));
    BuiltWriters(topic, id, timestamp, svc, Run(topic, id, timestamp, svc));
    WritersOnce(Run(topic, id, timestamp, svc).updates);
  }

  /** Through a run, an artifact of the entry is never cleared or changed once set, failure included. */
  lemma ArtifactsNeverCleared(topic: string, id: string, timestamp: string, svc: Services, i: nat, j: nat)
    requires i <= j <= |Run(topic, id, timestamp, svc).updates|
    ensures var us := Run(topic, id, timestamp, svc).updates;
      var start := NewLog(id, timestamp, topic);
      Extends(ApplyAll(start, us[..i]), ApplyAll(start, us[..j]))
  {
    RunWritesOnce(topic, id, timestamp, svc);
    NeverCleared(NewLog(id, timestamp, topic), Run(topic, id, timestamp, svc).updates, i, j);
  }

  /** The entry's artifacts are what the page has learnt. */
  predicate Shows(log: WorkflowLog, a: Found) {
    log.rhymeText == a.rhyme && log.audioUrl == a.audio && log.videoUrl == a.video && log.youtubeUrl == a.youtube
  }

  /** After the update before request `j`, the entry shows everything learnt from the replies before it. */
  lemma {:induction false} EntryShowsKnown(topic: string, id: string, timestamp: string, svc: Services, t: Trace, j: nat)
    requires j < |t.sent| && Built(topic, id, timestamp, svc, t, j + 1)
    ensures Shows(ApplyAll(NewLog(id, timestamp, topic), t.updates[..j + 1]), Known(svc, t.sent, j))
  {
    assert t.updates[..j + 1][..j] == t.updates[..j];
    if j > 0 {
      assert Built(topic, id, timestamp, svc, t, j);
      EntryShowsKnown(topic, id, timestamp, svc, t, j - 1);
    }
  }

  /** The last merge decides the status and the error of an entry whose last update sets both. */
  lemma LastMergeDecides(log: WorkflowLog, us: seq<LogUpdate>)
    requires |us| > 0 && us[|us| - 1].status.Put? && us[|us| - 1].error.Put?
    ensures ApplyAll(log, us).status == us[|us| - 1].status.value
    ensures ApplyAll(log, us).error == us[|us| - 1].error.value
  {
  }

  /** A trace of all six requests, each built from what came before, leaves a completed entry without error, showing all it learnt. */
  lemma CompletedEntry(topic: string, id: string, timestamp: string, svc: Services, t: Trace)
    requires |t.sent| == Requests && |t.updates| == Requests && Built(topic, id, timestamp, svc, t, Requests)
    ensures var f := ApplyAll(NewLog(id, timestamp, topic), t.updates);
      f.status == Completed && f.error == None && Shows(f, Known(svc, t.sent, 5))
  {
    var us := t.updates;
    var log := NewLog(id, timestamp, topic);
    BuiltEntries(topic, id, timestamp, svc, t, Requests);
    forall k | 0 <= k < |us| ensures PatchOf(us[k], Error).Keep? {
      assert us[k] == UpdateBefore(k, Known(svc, t.sent, k));
    }
    Untouched(log, us, Error);
    EntryShowsKnown(topic, id, timestamp, svc, t, 5);
    assert us[..6] == us;
    assert us[5].status == Put(Completed);
    assert ApplyAll(log, us) == Merge(ApplyAll(log, us[..5]), us[5]);
  }

  /**
   * How a run ends: it fails at the first request not answered ok, with that
   * reply's `error` or the stage's default message (or the rejection's message); it
   * completes when the first five are ok, whatever the final log answers unless that
   * request is rejected; a completed entry has no error and the uploaded video's URL.
   */
  lemma RunVerdict(topic: string, id: string, timestamp: string, svc: Services)
    ensures var t := Run(topic, id, timestamp, svc);
      var f := FinalEntry(topic, id, timestamp, svc);
      var last := t.sent[|t.sent| - 1];
      && f.id == id && f.timestamp == timestamp && f.topic == topic
      && (f.status == Completed || f.status == Failed)
      && (f.status == Completed <==> |t.sent| == 6 && !Answer(svc, last).Threw?)
      && (|t.sent| < 6 ==> !Answer(svc, last).Ok? && f.error == FailureOf(Answer(svc, last), DefaultError(StageOf(last))))
      && (|t.sent| == 6 && Answer(svc, last).Threw? ==> f.error == Some(Answer(svc, last).message))
      && (f.status == Completed ==> f.error == None && Answer(svc, t.sent[4]).Ok? && f.youtubeUrl == Answer(svc, t.sent[4]).artifact)
  {
    var t := Run(topic, id, timestamp, svc);
    var n := |t.sent|;
    RunFinished(topic, id, timestamp, svc);
    if Caught(n - 1, Answer(svc, t.sent[n - 1])).Some? {
      LastMergeDecides(NewLog(id, timestamp, topic), t.updates);
      RunOrder(topic, id, timestamp, svc);
    } else {
      CompletedEntry(topic, id, timestamp, svc, t);
      RunGate(topic, id, timestamp, svc);
    }
  }

  /** A completed entry holds the fields the page read from the four generating stages' replies. */
  lemma CompletedArtifacts(topic: string, id: string, timestamp: string, svc: Services)
    requires FinalEntry(topic, id, timestamp, svc).status == Completed
    ensures var t := Run(topic, id, timestamp, svc);
      var f := FinalEntry(topic, id, timestamp, svc);
      && |t.sent| == Requests
      && f.rhymeText == Art(Answer(svc, t.sent[0])) && f.audioUrl == Art(Answer(svc, t.sent[2]))
      && f.videoUrl == Art(Answer(svc, t.sent[3])) && f.youtubeUrl == Art(Answer(svc, t.sent[4]))
  {
    var t := Run(topic, id, timestamp, svc);
    RunVerdict(topic, id, timestamp, svc);
    RunFinished(topic, id, timestamp, svc);
    CompletedEntry(topic, id, timestamp, svc, t);
  }

  /** On completion the final log carries exactly the artifacts of the entry, with status 'completed'. */
  lemma FinalSnapshotMatchesEntry(topic: string, id: string, timestamp: string, svc: Services)
    requires FinalEntry(topic, id, timestamp, svc).status == Completed
    ensures var t := Run(topic, id, timestamp, svc);
      var f := FinalEntry(topic, id, timestamp, svc);
      |t.sent| == 6 && t.sent[5] == SheetCall(SheetRequest(id, topic, f.rhymeText, timestamp, f.audioUrl,
                                                           f.videoUrl, f.youtubeUrl, Some(SheetCompleted)))
  {
    var t := Run(topic, id, timestamp, svc);
    RunVerdict(topic, id, timestamp, svc);
    RunFinished(topic, id, timestamp, svc);
    CompletedEntry(topic, id, timestamp, svc, t);
  }

  // ---------------------------------------------------------------------------
  // The page's state

  /** `s.trimStart()`: the string after its longest prefix of white space. */
  function TrimStart(s: string): (r: string)
    ensures |r| <= |s| && r == s[|s| - |r|..]
    ensures forall i :: 0 <= i < |s| - |r| ==> IsWhitespace(s[i])
    ensures r != "" ==> !IsWhitespace(r[0])
    decreases |s|
  {
    if s != "" && IsWhitespace(s[0]) then TrimStart(s[1..]) else s
  }

  /**
   * `!topic.trim()`: trimming leaves the empty string exactly when nothing is left
   * after the leading white space is stripped.
   */
  predicate IsBlank(s: string) {
    TrimStart(s) == ""
  }

  /** A blank topic is one whose every character is ECMAScript white space or a line terminator. */
  lemma BlankIsAllWhitespace(s: string)
    ensures IsBlank(s) <==> forall i :: 0 <= i < |s| ==> IsWhitespace(s[i])
  {
    var r := TrimStart(s);
    if r != "" {
      assert s[|s| - |r|] == r[0];
    }
  }

  predicate IsWhitespace(c: char) {
    c == '\t' || c == '\n' || c == '\U{B}' || c == '\U{C}' || c == '\r' || c == ' '
    || c == '\U{A0}' || c == '\U{1680}' || ('\U{2000}' <= c <= '\U{200A}')
    || c == '\U{2028}' || c == '\U{2029}' || c == '\U{202F}' || c == '\U{205F}'
    || c == '\U{3000}' || c == '\U{FEFF}'
  }

  /** `prev.map(log => log.id === id ? { ...log, ...u } : log)` */
  function UpdatedLogs(logs: seq<WorkflowLog>, id: string, u: LogUpdate): (r: seq<WorkflowLog>)
    // length and order are kept; entries of other workflows are untouched
    ensures |r| == |logs|
    ensures forall i :: 0 <= i < |logs| ==> r[i].id == logs[i].id
    ensures forall i :: 0 <= i < |logs| && logs[i].id != id ==> r[i] == logs[i]
    ensures forall i :: 0 <= i < |logs| && logs[i].id == id ==> r[i] == Merge(logs[i], u)
  {
    seq(|logs|, i requires 0 <= i < |logs| => if logs[i].id == id then Merge(logs[i], u) else logs[i])
  }

  /** The history after each entry with the id has taken a sequence of updates. */
  function LogsAfter(logs: seq<WorkflowLog>, id: string, us: seq<LogUpdate>): (r: seq<WorkflowLog>)
    ensures |r| == |logs|
    ensures forall i :: 0 <= i < |logs| && logs[i].id != id ==> r[i] == logs[i]
    ensures forall i :: 0 <= i < |logs| && logs[i].id == id ==> r[i] == ApplyAll(logs[i], us)
  {
    seq(|logs|, i requires 0 <= i < |logs| => if logs[i].id == id then ApplyAll(logs[i], us) else logs[i])
  }

  /** One more `updateLog` is one more update in the sequence. */
  lemma LogsAfterSnoc(logs: seq<WorkflowLog>, id: string, us: seq<LogUpdate>, u: LogUpdate)
    ensures UpdatedLogs(LogsAfter(logs, id, us), id, u) == LogsAfter(logs, id, us + [u])
  {
    assert (us + [u])[..|us|] == us;
  }

  /** The `Home` component's state. */
  class Dashboard {
    var topic: string
    var isRunning: bool
    var logs: seq<WorkflowLog>
    var currentLog: Option<WorkflowLog>

    constructor ()
      ensures topic == "" && !isRunning && logs == [] && currentLog == None
    {
      topic := "";
      isRunning := false;
      logs := [];
      currentLog := None;
    }

    /** The input field's `onChange`. */
    method SetTopic(t: string)
      modifies this
      ensures topic == t && isRunning == old(isRunning) && logs == old(logs) && currentLog == old(currentLog)
    {
      topic := t;
    }

    /** `updateLog(id, updates)` */
    method UpdateLog(id: string, u: LogUpdate)
      modifies this
      ensures logs == UpdatedLogs(old(logs), id, u)
      // the displayed entry changes only when there is one and it has the id
      ensures currentLog == (if old(currentLog).Some? && old(currentLog).value.id == id
                             then Some(Merge(old(currentLog).value, u)) else old(currentLog))
      ensures topic == old(topic) && isRunning == old(isRunning)
    {
      logs := UpdatedLogs(logs, id, u);
      if currentLog.Some? && currentLog.value.id == id {
        currentLog := Some(Merge(currentLog.value, u));
      }
    }

    /** `updateLog` during a run, keeping track of the run's updates so far. */
    method Record(id: string, u: LogUpdate, ghost start: seq<WorkflowLog>, ghost done: seq<LogUpdate>)
      requires logs == LogsAfter(start, id, done)
      modifies this
      ensures logs == LogsAfter(start, id, done + [u])
      // the displayed entry takes the merge only when it is this workflow's
      ensures currentLog == (if old(currentLog).Some? && old(currentLog).value.id == id
                             then Some(Merge(old(currentLog).value, u)) else old(currentLog))
      ensures topic == old(topic) && isRunning == old(isRunning)
    {
      LogsAfterSnoc(start, id, done, u);
      UpdateLog(id, u);
    }

    /**
     * One stage of the `try` block: `updateLog` with the update `u`, then the `fetch`
     * of request `c` and the check of its reply; `failure` is what the `throw` carries.
     */
    method Stage(id: string, svc: Services, k: nat, u: LogUpdate, c: Call,
                 ghost runTopic: string, ghost timestamp: string, ghost a: Found,
                 ghost start: seq<WorkflowLog>, ghost acc: Trace)
      returns (response: Outcome, failure: Option<string>)
      requires k < Requests && Run(runTopic, id, timestamp, svc) == Steps(k, runTopic, id, timestamp, svc, a, acc)
      requires u == UpdateBefore(k, a) && c == CallAt(k, runTopic, id, timestamp, a)
      requires logs == LogsAfter(start, id, acc.updates)
      modifies this
      ensures logs == LogsAfter(start, id, acc.updates + [u])
      // the displayed entry takes the merge only when it is this workflow's
      ensures currentLog == (if old(currentLog).Some? && old(currentLog).value.id == id
                             then Some(Merge(old(currentLog).value, u)) else old(currentLog))
      ensures topic == old(topic) && isRunning == old(isRunning)
      ensures response == Answer(svc, c) && failure == Caught(k, response)
      // a caught reply is where the run stops; otherwise the run has progressed by one request
      ensures failure.Some? ==> Run(runTopic, id, timestamp, svc) == Fail(Extend(acc, u, c), failure.value)
      ensures failure.None? ==> Run(runTopic, id, timestamp, svc) == Steps(k + 1, runTopic, id, timestamp, svc, Learn(k, a, response), Extend(acc, u, c))
    {
      Record(id, u, start, acc.updates);
      response := Answer(svc, c);
      failure := Caught(k, response);
    }

    /**
     * The `catch` and `finally` blocks: record the failure, if any, then end the run
     * and clear the display.
     */
    method Conclude(id: string, failure: Option<string>, ghost start: seq<WorkflowLog>, ghost done: seq<LogUpdate>)
      requires logs == LogsAfter(start, id, done)
      modifies this
      ensures logs == LogsAfter(start, id, if failure.Some? then done + [Failure(failure.value)] else done)
      ensures !isRunning && currentLog == None && topic == old(topic)
    {
      if failure.Some? {
        Record(id, Failure(failure.value), start, done);
      }
      isRunning := false;
      currentLog := None;
    }

    /**
     * `startWorkflow`, with the id (`workflow_${Date.now()}`) and the formatted
     * timestamp as inputs; returns the requests it sent, in order.
     */
    method StartWorkflow(id: string, timestamp: string, svc: Services) returns (sent: seq<Call>)
      modifies this
      ensures topic == old(topic)
      // a blank topic returns early and changes nothing
      ensures IsBlank(old(topic)) ==>
        sent == [] && logs == old(logs) && isRunning == old(isRunning) && currentLog == old(currentLog)
      // otherwise one new entry is put in front and every entry with the id takes the run's updates
      ensures !IsBlank(old(topic)) ==>
        var t := Run(old(topic), id, timestamp, svc);
        sent == t.sent && logs == LogsAfter([NewLog(id, timestamp, old(topic))] + old(logs), id, t.updates)
      // whatever happened, the run is over and nothing is on display
      ensures !IsBlank(old(topic)) ==> !isRunning && currentLog == None
    {
      sent := [];
      if IsBlank(topic) {
        return;
      }
      isRunning := true;
      var newLog := NewLog(id, timestamp, topic);
      currentLog := Some(newLog);
      logs := [newLog] + logs;
      // the run so far: `done` is merged into every entry with the id, and `known` is what the replies taught
      ghost var start := logs;
      ghost var done: seq<LogUpdate> := [];
      ghost var known := NothingFound;
      assert logs == LogsAfter(start, id, done);

      // Step 1: generate the rhyme
      var u := StatusUpdate(GeneratingRhyme);
      var rhymeCall := RhymeCall(RhymeRequest(Some(topic)));
      var rhymeResponse, failure := Stage(id, svc, 0, u, rhymeCall, topic, timestamp, known, start, Trace(done, sent));
      done, sent := done + [u], sent + [rhymeCall];
      if failure.Some? {
        Conclude(id, failure, start, done);
        return;
      }
      var rhyme := rhymeResponse.artifact;
      known := Learn(0, known, rhymeResponse);

      // Step 2: log to the sheet
      u := LogUpdate(Put(RhymeGenerated), Put(rhyme), Keep, Keep, Keep, Keep);
      var sheetCall := SheetCall(SheetRequest(id, topic, rhyme, timestamp, None, None, None, None));
      var sheetResponse;
      sheetResponse, failure := Stage(id, svc, 1, u, sheetCall, topic, timestamp, known, start, Trace(done, sent));
      done, sent := done + [u], sent + [sheetCall];
      if failure.Some? {
        Conclude(id, failure, start, done);
        return;
      }
      known := Learn(1, known, sheetResponse);

      // Step 3: generate the audio
      u := StatusUpdate(LoggedToSheets);
      var audioCall := AudioCall(AudioRequest(rhyme, Some(id)));
      var audioResponse;
      audioResponse, failure := Stage(id, svc, 2, u, audioCall, topic, timestamp, known, start, Trace(done, sent));
      done, sent := done + [u], sent + [audioCall];
      if failure.Some? {
        Conclude(id, failure, start, done);
        return;
      }
      var audio := audioResponse.artifact;
      known := Learn(2, known, audioResponse);

      // Step 4: generate the video
      u := LogUpdate(Put(AudioGenerated), Keep, Put(audio), Keep, Keep, Keep);
      var videoCall := VideoCall(VideoRequest(audio, rhyme, Some(topic), Some(id)));
      var videoResponse;
      videoResponse, failure := Stage(id, svc, 3, u, videoCall, topic, timestamp, known, start, Trace(done, sent));
      done, sent := done + [u], sent + [videoCall];
      if failure.Some? {
        Conclude(id, failure, start, done);
        return;
      }
      var video := videoResponse.artifact;
      known := Learn(3, known, videoResponse);

      // Step 5: upload to YouTube
      u := LogUpdate(Put(VideoCreated), Keep, Keep, Put(video), Keep, Keep);
      var uploadCall := UploadCall(UploadRequest(video, Some(TitlePrefix + topic), rhyme, Some(id)));
      var youtubeResponse;
      youtubeResponse, failure := Stage(id, svc, 4, u, uploadCall, topic, timestamp, known, start, Trace(done, sent));
      done, sent := done + [u], sent + [uploadCall];
      if failure.Some? {
        Conclude(id, failure, start, done);
        return;
      }
      var youtube := youtubeResponse.artifact;
      known := Learn(4, known, youtubeResponse);

      // Step 6: the final log, whose reply is only inspected for a throw
      u := LogUpdate(Put(Completed), Keep, Keep, Keep, Put(youtube), Keep);
      var finalCall := SheetCall(SheetRequest(id, topic, rhyme, timestamp, audio, video, youtube, Some(SheetCompleted)));
      var finalResponse;
      finalResponse, failure := Stage(id, svc, 5, u, finalCall, topic, timestamp, known, start, Trace(done, sent));
      done, sent := done + [u], sent + [finalCall];
      Conclude(id, failure, start, done);
    }
  }
}
