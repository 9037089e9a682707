/**
 * The video stage's route: POST /api/generate-video. It validates the audio locator
 * and the rhyme, asks the video model for a clip, and answers with the model's
 * locator, a per-workflow placeholder when the model returned none, or a fixed demo
 * clip when the call threw.
 */
module GenerateVideo {
  import opened Wrappers
  import opened Web
  import opened Replicate

  /** The JSON body the route reads. */
  datatype VideoRequest = VideoRequest(audioUrl: Option<string>, rhymeText: Option<string>,
                                       topic: Option<string>, workflowId: Option<string>)

  /** The JSON body of a 200 reply; `note` is present only on the two fallback replies. */
  datatype VideoBody = VideoBody(videoUrl: string, workflowId: Option<string>, note: Option<string>)

  /** The image query (the topic) the video model's input image is looked up by; its tuning values are fixed. */
  datatype VideoInput = VideoInput(imageQuery: string)

  const InputsRequired := "Audio URL and rhyme text are required"
  const PlaceholderPrefix := "https://placeholder-video-url.com/"
  const PlaceholderNote := "Video generation requires configuration - using placeholder"
  const DemoVideoUrl := "https://sample-videos.com/" + "video123/mp4/720/big_buck_bunny_720p_1mb.mp4"
  const DemoNote := "Using demo video - configure REPLICATE_API_TOKEN for actual generation"

  /** `https://placeholder-video-url.com/${workflowId}.mp4` */
  function PlaceholderUrl(workflowId: Option<string>): (u: string)
    ensures |u| > |PlaceholderPrefix| && u[..|PlaceholderPrefix|] == PlaceholderPrefix
    // a placeholder can never be mistaken for the demo clip
    ensures u != DemoVideoUrl
  {
    var u := PlaceholderPrefix + (Render(workflowId) + ".mp4");
    assert u[8] == PlaceholderPrefix[8] == 'p';
    assert DemoVideoUrl[8] == 's';
    u
  }

  /** The reply the route gives when the model call threw. */
  const DemoReply := Json(VideoBody(DemoVideoUrl, Some("demo"), Some(DemoNote)))

  function Post(req: VideoRequest, animate: VideoInput -> RunOutcome): (x: Exchange<VideoInput, VideoBody>)
    // a falsy audio locator or rhyme is rejected with 400 before the model is called
    ensures x.sent.None? <==> !Truthy(req.audioUrl) || !Truthy(req.rhymeText)
    ensures x.sent.None? ==> x.reply == ErrorJson(400, InputsRequired)
    // with both present the reply is never non-ok
    ensures x.sent.Some? ==> x.reply.Json? && x.sent == Some(VideoInput(Render(req.topic)))
    // a thrown call yields the demo clip for the 'demo' workflow
    ensures x.sent.Some? && animate(x.sent.value).RunError? ==> x.reply == DemoReply
    // an output without a usable locator yields this workflow's placeholder
    ensures x.sent.Some? && animate(x.sent.value).Output? && Located(animate(x.sent.value), "video").None? ==>
      x.reply == Json(VideoBody(PlaceholderUrl(req.workflowId), req.workflowId, Some(PlaceholderNote)))
    // a usable locator is passed on with the caller's workflow id
    ensures x.sent.Some? && Located(animate(x.sent.value), "video").Some? ==>
      x.reply == Json(VideoBody(Located(animate(x.sent.value), "video").value, req.workflowId, None))
    ensures x.reply.Json? ==> x.reply.body.videoUrl != ""
  {
    if !Truthy(req.audioUrl) || !Truthy(req.rhymeText) then
      Exchange(None, ErrorJson(400, InputsRequired))
    else
      var input := VideoInput(Render(req.topic));
      match animate(input)
      case RunError(_) => Exchange(Some(input), DemoReply)
      case Output(out) =>
        var url := Normalise(out, "video");
        if !Truthy(url) then
          Exchange(Some(input), Json(VideoBody(PlaceholderUrl(req.workflowId), req.workflowId, Some(PlaceholderNote))))
        else
          Exchange(Some(input), Json(VideoBody(url.value, req.workflowId, None)))
  }
}
