/**
 * The audio stage's route: POST /api/generate-audio. It validates the text, asks the
 * music model for a track whose prompt quotes at most 200 characters of the text,
 * and answers with the model's locator or, on any failure, a fixed demo track.
 */
module GenerateAudio {
  import opened Wrappers
  import opened Web
  import opened Replicate

  /** The JSON body the route reads. */
  datatype AudioRequest = AudioRequest(text: Option<string>, workflowId: Option<string>)

  /** The JSON body of a 200 reply; `note` is present only on the demo reply. */
  datatype AudioBody = AudioBody(audioUrl: string, workflowId: Option<string>, note: Option<string>)

  /** The prompt passed to the music model; its model version and tuning values are fixed. */
  datatype MusicInput = MusicInput(prompt: string)

  const TextRequired := "Text is required"
  const PromptPrefix := "Create a melodic background music for this poem: "
  const PromptLimit := 200
  const DemoAudioUrl := "https://www.soundhelix.com/examples/mp3/SoundHelix-Song-1.mp3"
  const DemoNote := "Using demo audio - configure REPLICATE_API_TOKEN for actual generation"

  function Min(a: int, b: int): int {
    if a < b then a else b
  }

  /** `text.substring(0, 200)` after the fixed prefix. */
  function Prompt(text: string): (p: string)
    ensures |p| == |PromptPrefix| + Min(|text|, PromptLimit)
    ensures p[..|PromptPrefix|] == PromptPrefix
    // the quoted part is a prefix of the text, and the whole text when it is short enough
    ensures p[|PromptPrefix|..] <= text
    ensures |text| <= PromptLimit ==> p[|PromptPrefix|..] == text
  {
    PromptPrefix + text[..Min(|text|, PromptLimit)]
  }

  /** The reply the route falls back to when no usable locator came back. */
  const DemoReply := Json(AudioBody(DemoAudioUrl, Some("demo"), Some(DemoNote)))

  function Post(req: AudioRequest, music: MusicInput -> RunOutcome): (x: Exchange<MusicInput, AudioBody>)
    // a falsy text is rejected with 400 before the model is called
    ensures x.sent.None? <==> !Truthy(req.text)
    ensures !Truthy(req.text) ==> x.reply == ErrorJson(400, TextRequired)
    // a truthy text is never answered with a non-ok reply, and the model saw its prompt
    ensures Truthy(req.text) ==> x.reply.Json? && x.sent == Some(MusicInput(Prompt(req.text.value)))
    // the model's locator is passed on with the caller's workflow id ...
    ensures Truthy(req.text) && Located(music(MusicInput(Prompt(req.text.value))), "audio").Some? ==>
      x.reply == Json(AudioBody(Located(music(MusicInput(Prompt(req.text.value))), "audio").value, req.workflowId, None))
    // ... and anything else yields the demo track for the 'demo' workflow
    ensures Truthy(req.text) && Located(music(MusicInput(Prompt(req.text.value))), "audio").None? ==>
      x.reply == DemoReply
    // whatever a 200 reply carries is a non-empty locator
    ensures x.reply.Json? ==> x.reply.body.audioUrl != ""
  {
    if !Truthy(req.text) then
      Exchange(None, ErrorJson(400, TextRequired))
    else
      var input := MusicInput(Prompt(req.text.value));
      var url := Located(music(input), "audio");
      if url.Some? then Exchange(Some(input), Json(AudioBody(url.value, req.workflowId, None)))
      else Exchange(Some(input), DemoReply)
  }
}
