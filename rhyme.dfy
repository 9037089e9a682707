/**
 * The text stage's route: POST /api/generate-rhyme. It validates the topic, asks the
 * chat-completion provider for a rhyme, substitutes a default text when the first
 * choice has no content, and answers 500 (never a placeholder) when the provider fails.
 */
module GenerateRhyme {
  import opened Wrappers
  import opened Web

  /** The JSON body the route reads. */
  datatype RhymeRequest = RhymeRequest(topic: Option<string>)

  /** The JSON body of a 200 reply. */
  datatype RhymeBody = RhymeBody(rhyme: string, topic: string)

  /** The user message of the completion request; the system prompt, model and sampling settings are fixed. */
  datatype ChatInput = ChatInput(userMessage: string)

  /** What the completion call gave: the `message.content` of each choice, or a thrown error's message. */
  datatype ChatOutcome = Choices(contents: seq<Option<string>>) | ChatError(message: string)

  const TopicRequired := "Topic is required"
  const NoRhyme := "Unable to generate rhyme"
  const RhymeFailed := "Failed to generate rhyme"
  const UserPrefix := "Write a creative rhyme about: "
  /** The TypeError message of reading `.message` of an absent first choice. */
  const NoFirstChoice := "Cannot read properties of undefined (reading 'message')"

  /** The provider produced a first choice (its content may still be empty). */
  predicate Produced(o: ChatOutcome) {
    o.Choices? && |o.contents| > 0
  }

  /** The completion input asked for a topic. */
  function Ask(topic: string): ChatInput {
    ChatInput(UserPrefix + topic)
  }

  function Post(req: RhymeRequest, chat: ChatInput -> ChatOutcome): (x: Exchange<ChatInput, RhymeBody>)
    // a falsy topic is rejected with 400 before the provider is called
    ensures x.sent.None? <==> !Truthy(req.topic)
    ensures !Truthy(req.topic) ==> x.reply == ErrorJson(400, TopicRequired)
    // otherwise the provider is asked about exactly that topic, quoted whole after the fixed prefix
    ensures Truthy(req.topic) ==> x.sent == Some(Ask(req.topic.value))
    ensures x.sent.Some? ==>
      var m := x.sent.value.userMessage;
      |m| == |UserPrefix| + |req.topic.value| && m[..|UserPrefix|] == UserPrefix && m[|UserPrefix|..] == req.topic.value
    // the reply is ok exactly when the provider produced a first choice
    ensures Truthy(req.topic) ==> (x.reply.Json? <==> Produced(chat(Ask(req.topic.value))))
    // a 200 reply echoes the topic and always carries a non-empty rhyme
    ensures x.reply.Json? ==> x.reply.body.topic == req.topic.value && x.reply.body.rhyme != ""
    // every error reply has a non-empty message, with status 400 or 500
    ensures x.reply.ErrorJson? ==> x.reply.error != "" && (x.reply.status == 400 || x.reply.status == 500)
  {
    if !Truthy(req.topic) then
      Exchange(None, ErrorJson(400, TopicRequired))
    else
      var input := Ask(req.topic.value);
      match chat(input)
      case ChatError(m) =>
        Exchange(Some(input), ErrorJson(500, OrElse(Some(m), RhymeFailed)))
      case Choices(cs) =>
        if |cs| == 0 then Exchange(Some(input), ErrorJson(500, NoFirstChoice))
        else Exchange(Some(input), Json(RhymeBody(OrElse(cs[0], NoRhyme), req.topic.value)))
  }

  /** The rhyme is the first choice's content when that is non-empty, and the default text otherwise. */
  lemma RhymeText(topic: string, chat: ChatInput -> ChatOutcome)
    requires topic != "" && Produced(chat(Ask(topic)))
    ensures var c := chat(Ask(topic)).contents[0];
      Post(RhymeRequest(Some(topic)), chat).reply
        == Json(RhymeBody(if Truthy(c) then c.value else NoRhyme, topic))
  {
  }

  /** A provider exception becomes a 500 carrying its message (or the default); no rhyme is substituted. */
  lemma ProviderErrorIsFatal(topic: string, chat: ChatInput -> ChatOutcome)
    requires topic != "" && chat(Ask(topic)).ChatError?
    ensures var m := chat(Ask(topic)).message;
      Post(RhymeRequest(Some(topic)), chat).reply
        == ErrorJson(500, if m != "" then m else RhymeFailed)
  {
  }
}
