/**
 * The publish stage's route: POST /api/upload-youtube. It validates the video locator
 * and title, downloads the clip and inserts it as a public music video, and answers
 * with the watch URL of the new video or, on any failure, a `demo_` placeholder.
 */
module UploadYoutube {
  import opened Wrappers
  import opened Web

  /** The JSON body the route reads. */
  datatype UploadRequest = UploadRequest(videoUrl: Option<string>, title: Option<string>,
                                         description: Option<string>, workflowId: Option<string>)

  /** The JSON body of a 200 reply; `note` is present only on the placeholder reply. */
  datatype UploadBody = UploadBody(youtubeUrl: string, videoId: Option<string>,
                                   workflowId: Option<string>, note: Option<string>)

  /** What the route hands to the platform: the clip to download and the insert's metadata. */
  datatype UploadInput = UploadInput(source: string, title: string, description: Option<string>,
                                     tags: seq<string>, categoryId: string, privacyStatus: string)

  /** The download and insert either give the new video's `data.id` or throw. */
  datatype UploadOutcome = Uploaded(id: Option<string>) | UploadError(message: string)

  /** Reading the request body a second time, in the error handler: the parsed body's workflow id, or a rejection. */
  datatype ReRead = Parsed(workflowId: Option<string>) | Unreadable

  const InputsRequired := "Video URL and title are required"
  const Tags := ["AI Generated", "Poetry", "Rhyme", "Automated"]
  const MusicCategory := "10"
  const Public := "public"
  const WatchPrefix := "https://www.youtube.com/watch?v="
  const DemoWatchPrefix := "https://youtube.com/watch?v=demo_"
  const DemoNote := "YouTube upload requires OAuth configuration - using placeholder URL"

  /** The insert request built from a validated request. */
  function Metadata(source: string, title: string, description: Option<string>): UploadInput {
    UploadInput(source, title, description, Tags, MusicCategory, Public)
  }

  /** The workflow id the error handler names its placeholder after. */
  function FallbackId(reread: ReRead): Option<string> {
    match reread
    case Parsed(w) => w
    case Unreadable => Some("demo")
  }

  function Post(req: UploadRequest, youtube: UploadInput -> UploadOutcome, reread: ReRead): (x: Exchange<UploadInput, UploadBody>)
    // a falsy video locator or title is rejected with 400 before anything is uploaded
    ensures x.sent.None? <==> !Truthy(req.videoUrl) || !Truthy(req.title)
    ensures x.sent.None? ==> x.reply == ErrorJson(400, InputsRequired)
    // with both present the reply is never non-ok, and the platform gets the clip, the title and
    // the description as given, the fixed tags, the music category and public visibility
    ensures x.sent.Some? ==>
      && x.reply.Json? && x.sent.value == Metadata(req.videoUrl.value, req.title.value, req.description)
      && x.sent.value.source == req.videoUrl.value && x.sent.value.title == req.title.value
      && x.sent.value.description == req.description
      && x.sent.value.tags == Tags && x.sent.value.categoryId == MusicCategory && x.sent.value.privacyStatus == Public
    // an upload answers with the watch URL of the id it returned, and that id
    ensures x.sent.Some? && youtube(x.sent.value).Uploaded? ==>
      var id := youtube(x.sent.value).id;
      x.reply == Json(UploadBody(WatchPrefix + Render(id), id, req.workflowId, None))
    // a failed upload answers with the placeholder named after the re-read body's workflow id ...
    ensures x.sent.Some? && youtube(x.sent.value).UploadError? && reread.Parsed? ==>
      var w := reread.workflowId;
      x.reply == Json(UploadBody(DemoWatchPrefix + Render(w), Some("demo_" + Render(w)), w, Some(DemoNote)))
    // ... or, when that re-read rejects, after the workflow 'demo'
    ensures x.sent.Some? && youtube(x.sent.value).UploadError? && reread.Unreadable? ==>
      x.reply == Json(UploadBody(DemoWatchPrefix + "demo", Some("demo_demo"), Some("demo"), Some(DemoNote)))
    ensures x.reply.Json? ==> x.reply.body.youtubeUrl != ""
  {
    if !Truthy(req.videoUrl) || !Truthy(req.title) then
      Exchange(None, ErrorJson(400, InputsRequired))
    else
      var input := Metadata(req.videoUrl.value, req.title.value, req.description);
      match youtube(input)
      case Uploaded(id) =>
        Exchange(Some(input), Json(UploadBody(WatchPrefix + Render(id), id, req.workflowId, None)))
      case UploadError(_) =>
        var w := FallbackId(reread);
        assert reread.Unreadable? ==> "demo_" + Render(w) == "demo_demo";
        Exchange(Some(input), Json(UploadBody(DemoWatchPrefix + Render(w), Some("demo_" + Render(w)), w, Some(DemoNote))))
  }

  /** A successful upload's URL is the watch prefix followed by exactly the returned id. */
  lemma WatchUrlNamesVideo(req: UploadRequest, youtube: UploadInput -> UploadOutcome, reread: ReRead, id: string)
    requires Truthy(req.videoUrl) && Truthy(req.title)
    requires youtube(Metadata(req.videoUrl.value, req.title.value, req.description)) == Uploaded(Some(id))
    ensures var b := Post(req, youtube, reread).reply.body;
      b.videoId == Some(id) && b.youtubeUrl[..|WatchPrefix|] == WatchPrefix && b.youtubeUrl[|WatchPrefix|..] == id
  {
  }
}
