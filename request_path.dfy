/** The path of one request across the two halves of the app: the payload the
    debate screen posts (src/screens/DebateScreen.tsx, src/services/api.ts),
    read as the JSON body the backend handlers receive
    (backend/src/controllers/debateController.ts). */
module RequestPath {
  import opened Types
  import opened Strings
  import Api
  import Debate
  import DebateController
  import TopicSelection

  /** The generate payload as the handler's parsed `req.body`: every field is
      present, and the side travels as its text. */
  function GenerateBodyOf(p: Api.GeneratePayload): (b: DebateController.GenerateBody)
    ensures b.topic == Some(p.topic) && b.aiSide == Some(SideText(p.aiSide))
    ensures b.conversationHistory == Some(p.conversationHistory) && b.userMessage == Some(p.userMessage)
  {
    DebateController.GenerateBody(Some(p.topic), Some(SideText(p.aiSide)), Some(p.conversationHistory), Some(p.userMessage))
  }

  /** The opening payload as the handler's parsed `req.body`. */
  function OpeningBodyOf(p: Api.OpeningPayload): (b: DebateController.OpeningBody)
    ensures b.topic == Some(p.topic) && b.aiSide == Some(SideText(p.aiSide))
  {
    DebateController.OpeningBody(Some(p.topic), Some(SideText(p.aiSide)))
  }

  lemma SideTextTruthy(side: DebateSide)
    ensures DebateController.Truthy(Some(SideText(side)))
  {
  }

  /** The opening request of a debate with a non-empty topic passes the
      handler's validation. */
  lemma OpeningRequestAccepted(s: Types.DebateSession, topic: string, aiSide: DebateSide,
                               thinkingAt: int, replyAt: int, t: Api.Transport)
    requires topic != ""
    ensures var b := OpeningBodyOf(Debate.Opening(s, topic, aiSide, thinkingAt, replyAt, t).1);
      DebateController.Truthy(b.topic) && DebateController.Truthy(b.aiSide)
  {
    SideTextTruthy(aiSide);
  }

  /** The handler's message list for a posted history that ends with the
      human's message: the earlier messages, then that message twice. */
  lemma {:induction false} HistoryThenUserMessage(ms: seq<DebateMessage>, user: DebateMessage)
    requires user.sender == User
    ensures var conv := DebateController.ConversationFor(Some(Api.ToConversation(ms + [user])), user.content);
      && |conv| == |ms| + 2
      && (forall i :: 0 <= i < |ms| ==> conv[i] == ConversationMessage(Api.RoleOf(ms[i].sender), ms[i].content))
      && conv[|ms|] == ConversationMessage(UserRole, user.content)
      && conv[|ms| + 1] == ConversationMessage(UserRole, user.content)
  {
    var history := ms + [user];
    var posted := Api.ToConversation(history);
    var conv := DebateController.ConversationFor(Some(posted), user.content);
    assert conv == posted + [ConversationMessage(UserRole, user.content)];
    assert posted[|ms|] == ConversationMessage(UserRole, user.content) by {
      assert history[|ms|] == user;
    }
    forall i | 0 <= i < |ms| ensures conv[i] == ConversationMessage(Api.RoleOf(ms[i].sender), ms[i].content) {
      assert history[i] == ms[i];
      assert conv[i] == posted[i];
    }
  }

  /** A message the screen accepts reaches the model twice. The history the
      screen posts already ends with the new message, and the handler then
      appends `userMessage` once more. So the model sees the earlier
      messages in order, then two identical user turns holding the trimmed
      input. The request also passes the handler's validation whenever the
      topic is not empty. */
  lemma UserMessageSentTwice(s: DebateSession, input: string, topic: string, aiSide: DebateSide,
                             userAt: int, thinkingAt: int, replyAt: int, t: Api.Transport)
    requires Debate.Accepts(s, input)
    ensures Debate.Send(s, input, topic, aiSide, userAt, thinkingAt, replyAt, t).1.Some?
    ensures var b := GenerateBodyOf(Debate.Send(s, input, topic, aiSide, userAt, thinkingAt, replyAt, t).1.value);
      topic != "" ==>
        DebateController.Truthy(b.topic) && DebateController.Truthy(b.aiSide) && DebateController.Truthy(b.userMessage)
    ensures var b := GenerateBodyOf(Debate.Send(s, input, topic, aiSide, userAt, thinkingAt, replyAt, t).1.value);
      var conv := DebateController.ConversationFor(b.conversationHistory, b.userMessage.value);
      && |conv| == |s.messages| + 2
      && (forall i :: 0 <= i < |s.messages| ==>
            conv[i] == ConversationMessage(Api.RoleOf(s.messages[i].sender), s.messages[i].content))
      && conv[|s.messages|] == ConversationMessage(UserRole, Trim(input))
      && conv[|s.messages| + 1] == ConversationMessage(UserRole, Trim(input))
  {
    var user := Debate.UserMessage(input, userAt);
    var p := Debate.Send(s, input, topic, aiSide, userAt, thinkingAt, replyAt, t).1.value;
    assert p == Api.GeneratePayload(topic, aiSide, Api.ToConversation(s.messages + [user]), user.content);
    HistoryThenUserMessage(s.messages, user);
    SideTextTruthy(aiSide);
  }

  /** A debate started from a valid topic form has a non-empty topic, so its
      opening request passes the handler's validation, and so does every
      message the screen accepts. */
  lemma StartedDebateRequestsAccepted(text: string, side: Option<DebateSide>, s: DebateSession, input: string,
                                      userAt: int, thinkingAt: int, replyAt: int, t: Api.Transport)
    requires TopicSelection.FormValid(text, side) && Debate.Accepts(s, input)
    ensures var params := TopicSelection.StartParams(text, side).value;
      var b := OpeningBodyOf(Debate.Opening(s, params.topic, Opposite(params.userSide), thinkingAt, replyAt, t).1);
      DebateController.Truthy(b.topic) && DebateController.Truthy(b.aiSide)
    ensures var params := TopicSelection.StartParams(text, side).value;
      var b := GenerateBodyOf(Debate.Send(s, input, params.topic, Opposite(params.userSide), userAt, thinkingAt, replyAt, t).1.value);
      DebateController.Truthy(b.topic) && DebateController.Truthy(b.aiSide) && DebateController.Truthy(b.userMessage)
  {
    var params := TopicSelection.StartParams(text, side).value;
    OpeningRequestAccepted(s, params.topic, Opposite(params.userSide), thinkingAt, replyAt, t);
    UserMessageSentTwice(s, input, params.topic, Opposite(params.userSide), userAt, thinkingAt, replyAt, t);
  }
}
