/** The backend's two Express handlers (backend/src/controllers/debateController.ts):
    request validation, the message list sent to the Anthropic messages API,
    extraction of the reply text, and the 200/400/500 outcomes. The SDK call
    is the `reply` input. */
module DebateController {
  import opened Types
  import opened Strings
  import Sdk

  const Model := "claude-3-7-sonnet-20250219"
  const MaxTokens: nat := 300

  /** Request bodies as parsed JSON; an absent field is `None`. */
  datatype OpeningBody = OpeningBody(topic: Option<string>, aiSide: Option<string>)

  datatype GenerateBody = GenerateBody(
    topic: Option<string>,
    aiSide: Option<string>,
    conversationHistory: Option<seq<ConversationMessage>>,
    userMessage: Option<string>)

  /** A string field passes `if (!field)` when it is present and non-empty. */
  predicate Truthy(field: Option<string>) {
    field.Some? && field.value != ""
  }

  /** The argument of `anthropic.messages.create`. */
  datatype MessagesRequest = MessagesRequest(
    model: string,
    maxTokens: nat,
    system: string,
    messages: seq<ConversationMessage>)

  datatype ReplyBody = ResponseBody(response: string) | ErrorBody(error: string)

  datatype HttpReply = HttpReply(status: nat, body: ReplyBody)

  const OpeningRequired := "Topic and aiSide are required"
  const MissingFields := "Missing required fields"
  const OpeningFailed := "Failed to generate opening statement"
  const DebateFailed := "Failed to generate debate response"
  const OpeningSeed := "Please provide your opening statement."

  const FramingHead := "You are a skilled debater participating in a formal debate. You are arguing "
  const FramingMiddle := " the following topic: \""

  /** The first sentence of both system prompts, which places the AI's side and
      the topic. */
  function Framing(topic: string, aiSide: string): string {
    FramingHead + aiSide + FramingMiddle + topic + "\"."
  }

  /** The system prompt of the opening request. */
  function OpeningSystemPrompt(topic: string, aiSide: string): string {
    Framing(topic, aiSide) + "\n\nGive a concise opening statement (under 200 words)."
  }

  /** The system prompt of the rebuttal request. */
  function RebuttalSystemPrompt(topic: string, aiSide: string): string {
    Framing(topic, aiSide) + "\n\nRespond directly to your opponent's points (under 200 words)."
  }

  /** Both prompts name the side right after the fixed head and the topic
      right after the side. */
  lemma PromptsEmbedSideAndTopic(topic: string, aiSide: string)
    ensures OccursAt(OpeningSystemPrompt(topic, aiSide), aiSide, |FramingHead|)
    ensures OccursAt(RebuttalSystemPrompt(topic, aiSide), aiSide, |FramingHead|)
    ensures OccursAt(OpeningSystemPrompt(topic, aiSide), topic, |FramingHead| + |aiSide| + |FramingMiddle|)
    ensures OccursAt(RebuttalSystemPrompt(topic, aiSide), topic, |FramingHead| + |aiSide| + |FramingMiddle|)
  {
    var f := Framing(topic, aiSide);
    var k := |FramingHead| + |aiSide| + |FramingMiddle|;
    assert f[|FramingHead|..|FramingHead| + |aiSide|] == aiSide;
    assert f[k..k + |topic|] == topic;
    var o := OpeningSystemPrompt(topic, aiSide);
    var r := RebuttalSystemPrompt(topic, aiSide);
    assert o[..|f|] == f && r[..|f|] == f;
    assert o[|FramingHead|..|FramingHead| + |aiSide|] == f[|FramingHead|..|FramingHead| + |aiSide|];
    assert r[|FramingHead|..|FramingHead| + |aiSide|] == f[|FramingHead|..|FramingHead| + |aiSide|];
    assert o[k..k + |topic|] == f[k..k + |topic|];
    assert r[k..k + |topic|] == f[k..k + |topic|];
  }

  /** The reply to the client once the SDK call settled: the first block's
      text with status 200, or status 500 with the endpoint's fixed error when
      the call threw or the reply had no first block. */
  function Respond(reply: Sdk.AnthropicReply, failure: string): (r: HttpReply)
    ensures r.status == 200 || r.status == 500
    ensures r.status == 500 <==> reply.AnthropicThrew? || reply.content == []
    ensures r.status == 500 ==> r.body == ErrorBody(failure)
    ensures r.status == 200 ==> r.body == ResponseBody(Sdk.FirstBlockText(reply.content).value)
  {
    match reply
    case AnthropicThrew(_) => HttpReply(500, ErrorBody(failure))
    case AnthropicMessage(_, _, content, _) =>
      match Sdk.FirstBlockText(content)
      case None => HttpReply(500, ErrorBody(failure))
      case Some(text) => HttpReply(200, ResponseBody(text))
  }

  /** `generateOpeningStatement`: the reply, and the request sent to the model
      (`None` when validation stopped the handler before any call). */
  function GenerateOpeningStatement(body: OpeningBody, reply: Sdk.AnthropicReply): (r: (HttpReply, Option<MessagesRequest>))
    ensures r.1.None? <==> !Truthy(body.topic) || !Truthy(body.aiSide)
    ensures r.1.None? ==> r.0 == HttpReply(400, ErrorBody(OpeningRequired))
    ensures r.1.Some? ==> r.1.value.messages == [ConversationMessage(UserRole, OpeningSeed)]
    ensures r.1.Some? ==> r.1.value.model == Model && r.1.value.maxTokens == MaxTokens
    ensures r.1.Some? ==> r.1.value.system == OpeningSystemPrompt(body.topic.value, body.aiSide.value)
    ensures r.1.Some? ==> r.0 == Respond(reply, OpeningFailed)
  {
    if !Truthy(body.topic) || !Truthy(body.aiSide) then
      (HttpReply(400, ErrorBody(OpeningRequired)), None)
    else
      var request := MessagesRequest(Model, MaxTokens, OpeningSystemPrompt(body.topic.value, body.aiSide.value),
                                     [ConversationMessage(UserRole, OpeningSeed)]);
      (Respond(reply, OpeningFailed), Some(request))
  }

  function HistoryOrEmpty(history: Option<seq<ConversationMessage>>): seq<ConversationMessage> {
    if history.Some? then history.value else []
  }

  /** The rebuttal message list: the history entries in order, then the user message. */
  function ConversationFor(history: Option<seq<ConversationMessage>>, userMessage: string): (r: seq<ConversationMessage>)
    ensures |r| == |HistoryOrEmpty(history)| + 1
    ensures r[..|r| - 1] == HistoryOrEmpty(history)
    ensures r[|r| - 1] == ConversationMessage(UserRole, userMessage)
  {
    HistoryOrEmpty(history) + [ConversationMessage(UserRole, userMessage)]
  }

  /** The `forEach`/`push` loop that copies the history, then the final push. */
  method BuildConversation(history: Option<seq<ConversationMessage>>, userMessage: string)
    returns (messages: seq<ConversationMessage>)
    ensures |messages| == |HistoryOrEmpty(history)| + 1
    ensures forall i :: 0 <= i < |HistoryOrEmpty(history)| ==> messages[i] == HistoryOrEmpty(history)[i]
    ensures messages[|messages| - 1] == ConversationMessage(UserRole, userMessage)
    ensures messages == ConversationFor(history, userMessage)
  {
    messages := [];
    if history.Some? && |history.value| > 0 {
      var h := history.value;
      var i := 0;
      while i < |h|
        invariant 0 <= i <= |h|
        invariant messages == h[..i]
      {
        messages := messages + [ConversationMessage(h[i].role, h[i].content)];
        i := i + 1;
      }
      assert h[..|h|] == h;
    }
    messages := messages + [ConversationMessage(UserRole, userMessage)];
  }

  /** `generateDebateResponse`: the reply, and the request sent to the model
      (`None` when validation stopped the handler before any call). */
  method GenerateDebateResponse(body: GenerateBody, reply: Sdk.AnthropicReply)
    returns (response: HttpReply, sent: Option<MessagesRequest>)
    ensures sent.None? <==> !Truthy(body.topic) || !Truthy(body.aiSide) || !Truthy(body.userMessage)
    ensures sent.None? ==> response == HttpReply(400, ErrorBody(MissingFields))
    ensures sent.Some? ==> sent.value.model == Model && sent.value.maxTokens == MaxTokens
    ensures sent.Some? ==> sent.value.system == RebuttalSystemPrompt(body.topic.value, body.aiSide.value)
    ensures sent.Some? ==> sent.value.messages == ConversationFor(body.conversationHistory, body.userMessage.value)
    ensures sent.Some? ==> response == Respond(reply, DebateFailed)
  {
    if !Truthy(body.topic) || !Truthy(body.aiSide) || !Truthy(body.userMessage) {
      return HttpReply(400, ErrorBody(MissingFields)), None;
    }
    var messages := BuildConversation(body.conversationHistory, body.userMessage.value);
    var request := MessagesRequest(Model, MaxTokens, RebuttalSystemPrompt(body.topic.value, body.aiSide.value), messages);
    response := Respond(reply, DebateFailed);
    sent := Some(request);
  }
}
