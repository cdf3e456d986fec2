/** The debate turn controller (src/screens/DebateScreen.tsx). Each `setSession`
    updater is a function on the session record. `Opening` and `Send` chain
    the updaters one handler run applies, in order, with the reply of the
    backend as input. The class `DebateScreen` holds the component state and
    its handlers change it step by step. Clock readings are explicit inputs:
    one reading gives a message both its id and its timestamp. */
module Debate {
  import opened Types
  import opened Strings
  import WordCounter
  import Api
  import Storage

  // ---------------------------------------------------------------- ids

  const ThinkingPrefix := "thinking-"

  /** The id of a placeholder starts with `thinking-`. */
  predicate IsPlaceholderId(id: string) {
    StartsWith(id, ThinkingPrefix)
  }

  /** `Date.now().toString()`: never mistaken for a placeholder id, since it
      starts with a digit or a minus sign. */
  function StampId(t: int): (id: string)
    ensures !IsPlaceholderId(id)
  {
    var id := IntToString(t);
    assert |id| >= |ThinkingPrefix| ==> id[..|ThinkingPrefix|][0] == id[0];
    id
  }

  /** `'thinking-' + Date.now()`. */
  function ThinkingId(t: int): (id: string)
    ensures IsPlaceholderId(id)
  {
    assert (ThinkingPrefix + IntToString(t))[..|ThinkingPrefix|] == ThinkingPrefix;
    ThinkingPrefix + IntToString(t)
  }

  lemma PlaceholderIdsDiffer(a: string, b: string)
    requires !IsPlaceholderId(a) && IsPlaceholderId(b)
    ensures a != b
  {
  }

  predicate NoPlaceholder(ms: seq<DebateMessage>) {
    forall i :: 0 <= i < |ms| ==> !IsPlaceholderId(ms[i].id)
  }

  // ---------------------------------------------------------------- texts

  const OpeningThinkingText := "\U{1F914} Thinking about my opening statement..."
  const RebuttalThinkingText := "\U{1F914} Thinking about my response..."
  const ErrorReplyText := "I apologize, but I encountered an error generating my response. Please try again."
  const OpeningAlert := "Failed to generate AI opening statement. Using fallback."
  const RebuttalAlert := "Failed to generate AI response. Please try again."
  const SavedAlert := "Debate transcript saved!"
  const SaveFailedAlert := "Failed to save transcript, but you can still review it."

  const FallbackHead := "I'm here to debate the "
  const FallbackMiddle := " side of: \""
  const FallbackTail := "\". Let me start by presenting my opening argument."

  /** The opening used when the opening request failed. */
  function OpeningFallback(aiSide: DebateSide, topic: string): string {
    FallbackHead + SideText(aiSide) + FallbackMiddle + topic + FallbackTail
  }

  /** The fallback names the AI's side right after its fixed head, and the
      topic right after the side. */
  lemma FallbackNamesSideAndTopic(aiSide: DebateSide, topic: string)
    ensures OccursAt(OpeningFallback(aiSide, topic), SideText(aiSide), |FallbackHead|)
    ensures OccursAt(OpeningFallback(aiSide, topic), topic, |FallbackHead| + |SideText(aiSide)| + |FallbackMiddle|)
  {
    var f := OpeningFallback(aiSide, topic);
    var side := SideText(aiSide);
    var k := |FallbackHead| + |side| + |FallbackMiddle|;
    assert f == FallbackHead + side + (FallbackMiddle + topic + FallbackTail);
    assert f[|FallbackHead|..|FallbackHead| + |side|] == side;
    assert f == (FallbackHead + side + FallbackMiddle) + topic + FallbackTail;
    assert f[k..k + |topic|] == topic;
  }

  // ---------------------------------------------------------------- messages

  /** The placeholder shown while a reply is pending. */
  function ThinkingMessage(content: string, t: int): (m: DebateMessage)
    ensures IsPlaceholderId(m.id) && m.sender == Ai && m.wordCount == 0
  {
    DebateMessage(ThinkingId(t), Ai, content, t, 0)
  }

  /** The human's message: the trimmed input, counted as typed. The count
      is also the count of what is stored, since trimming keeps the words. */
  function UserMessage(input: string, t: int): (m: DebateMessage)
    ensures m.sender == User && !IsPlaceholderId(m.id)
    ensures m.content == Trim(input)
    ensures m.wordCount == WordCounter.CountWords(m.content)
  {
    WordCounter.CountWordsTrimInvariant(input);
    DebateMessage(StampId(t), User, Trim(input), t, WordCounter.CountWords(input))
  }

  /** The AI message that replaces the opening placeholder: the reply, or the
      fallback when the request failed; either way counted. */
  function OpeningReply(result: Result<string, string>, topic: string, aiSide: DebateSide, t: int): (m: DebateMessage)
    ensures m.sender == Ai && !IsPlaceholderId(m.id)
    ensures result.Success? ==> m.content == result.value
    ensures result.Failure? ==> m.content == OpeningFallback(aiSide, topic)
    ensures m.wordCount == WordCounter.CountWords(m.content)
  {
    var content := if result.Success? then result.value else OpeningFallback(aiSide, topic);
    DebateMessage(StampId(t), Ai, content, t, WordCounter.CountWords(content))
  }

  /** The AI message that replaces the rebuttal placeholder: the reply,
      counted, or the fixed apology, whose count is 0. */
  function RebuttalReply(result: Result<string, string>, t: int): (m: DebateMessage)
    ensures m.sender == Ai && !IsPlaceholderId(m.id)
    ensures result.Success? ==> m.content == result.value && m.wordCount == WordCounter.CountWords(result.value)
    ensures result.Failure? ==> m.content == ErrorReplyText && m.wordCount == 0
  {
    if result.Success? then DebateMessage(StampId(t), Ai, result.value, t, WordCounter.CountWords(result.value))
    else DebateMessage(StampId(t), Ai, ErrorReplyText, t, 0)
  }

  // ---------------------------------------------------------------- updaters

  /** `messages.map(msg => msg.id === id ? m : msg)`. */
  function ReplaceById(ms: seq<DebateMessage>, id: string, m: DebateMessage): (r: seq<DebateMessage>)
    ensures |r| == |ms|
    ensures forall i :: 0 <= i < |ms| ==> r[i] == (if ms[i].id == id then m else ms[i])
  {
    if ms == [] then []
    else [if ms[0].id == id then m else ms[0]] + ReplaceById(ms[1..], id, m)
  }

  /** Replacing a freshly appended placeholder whose id no earlier message
      carries swaps exactly that last message. */
  lemma ReplaceLast(ms: seq<DebateMessage>, p: DebateMessage, m: DebateMessage)
    requires forall i :: 0 <= i < |ms| ==> ms[i].id != p.id
    ensures ReplaceById(ms + [p], p.id, m) == ms + [m]
  {
    var r := ReplaceById(ms + [p], p.id, m);
    forall i | 0 <= i < |ms| + 1 ensures r[i] == (ms + [m])[i] {
      if i < |ms| {
        assert (ms + [p])[i] == ms[i];
      }
    }
  }

  /** The opening updater that appends the placeholder. */
  function WithOpeningThinking(prev: DebateSession, thinking: DebateMessage): DebateSession {
    prev.(messages := prev.messages + [thinking], currentTurn := Ai)
  }

  /** The send updater that appends the human's message. */
  function WithUserMessage(prev: DebateSession, m: DebateMessage): DebateSession {
    prev.(messages := prev.messages + [m], currentTurn := Ai)
  }

  /** The send updater that appends the placeholder. */
  function WithThinking(prev: DebateSession, thinking: DebateMessage): DebateSession {
    prev.(messages := prev.messages + [thinking])
  }

  /** The updater that replaces a placeholder and hands the turn back. */
  function WithReply(prev: DebateSession, id: string, reply: DebateMessage): DebateSession {
    prev.(messages := ReplaceById(prev.messages, id, reply), currentTurn := User)
  }

  // ---------------------------------------------------------------- sessions

  /** The session the screen starts with. */
  function InitialSession(topic: string, userSide: DebateSide, now: int): (s: DebateSession)
    ensures s.topic == topic && s.userSide == userSide
    ensures s.aiSide == Opposite(userSide) && s.aiSide != userSide
    ensures s.messages == [] && s.currentTurn == Ai && s.isActive && s.endTime.None?
  {
    DebateSession(StampId(now), topic, userSide, Opposite(userSide), [], Ai, now, None, true)
  }

  /** `generateAIOpening` as one transition: the session after both updaters,
      and the payload posted. */
  function Opening(s: DebateSession, topic: string, aiSide: DebateSide, thinkingAt: int, replyAt: int,
                   t: Api.Transport): (r: (DebateSession, Api.OpeningPayload))
    ensures |r.0.messages| == |s.messages| + 1
    ensures r.0.messages[|s.messages|] == OpeningReply(Api.Settle(t), topic, aiSide, replyAt)
    ensures forall i :: 0 <= i < |s.messages| && s.messages[i].id != ThinkingId(thinkingAt) ==>
      r.0.messages[i] == s.messages[i]
    ensures r.0.currentTurn == User
    ensures r.0 == s.(messages := r.0.messages, currentTurn := User)
    ensures r.1 == Api.OpeningPayload(topic, aiSide)
  {
    var thinking := ThinkingMessage(OpeningThinkingText, thinkingAt);
    var pending := WithOpeningThinking(s, thinking);
    var call := Api.GenerateOpeningStatement(topic, aiSide, t);
    (WithReply(pending, thinking.id, OpeningReply(call.1, topic, aiSide, replyAt)), call.0)
  }

  /** The guard of `handleSendMessage`. */
  predicate Accepts(s: DebateSession, input: string) {
    Trim(input) != [] && s.currentTurn == User
  }

  /** What the handler posts: the history as the screen last rendered it,
      then the new message. */
  function SendParams(s: DebateSession, input: string, topic: string, aiSide: DebateSide, userAt: int)
    : Api.GenerateResponseParams
  {
    var user := UserMessage(input, userAt);
    Api.GenerateResponseParams(topic, aiSide, s.messages + [user], user.content)
  }

  /** `handleSendMessage` as one transition: the session after its three
      updaters, and the payload posted (`None` when the guard returned). */
  function Send(s: DebateSession, input: string, topic: string, aiSide: DebateSide,
                userAt: int, thinkingAt: int, replyAt: int, t: Api.Transport)
    : (r: (DebateSession, Option<Api.GeneratePayload>))
    ensures !Accepts(s, input) ==> r == (s, None)
    ensures Accepts(s, input) ==>
      r.1 == Some(Api.GenerateAIResponse(SendParams(s, input, topic, aiSide, userAt), t).0)
    ensures Accepts(s, input) ==> |r.0.messages| == |s.messages| + 2
    ensures Accepts(s, input) ==> r.0.messages[|s.messages|] == UserMessage(input, userAt)
    ensures Accepts(s, input) ==> r.0.messages[|s.messages| + 1] == RebuttalReply(Api.Settle(t), replyAt)
    ensures Accepts(s, input) ==> forall i :: 0 <= i < |s.messages| && s.messages[i].id != ThinkingId(thinkingAt) ==>
      r.0.messages[i] == s.messages[i]
    ensures Accepts(s, input) ==> r.0 == s.(messages := r.0.messages, currentTurn := User)
  {
    if !Accepts(s, input) then (s, None)
    else
      var user := UserMessage(input, userAt);
      var withUser := WithUserMessage(s, user);
      var thinking := ThinkingMessage(RebuttalThinkingText, thinkingAt);
      var pending := WithThinking(withUser, thinking);
      var call := Api.GenerateAIResponse(SendParams(s, input, topic, aiSide, userAt), t);
      (WithReply(pending, thinking.id, RebuttalReply(call.1, replyAt)), Some(call.0))
  }

  /** An accepted send is its three updaters, in order. */
  lemma SendUnfolds(s: DebateSession, input: string, topic: string, aiSide: DebateSide,
                    userAt: int, thinkingAt: int, replyAt: int, t: Api.Transport)
    requires Accepts(s, input)
    ensures Send(s, input, topic, aiSide, userAt, thinkingAt, replyAt, t)
      == (WithReply(WithThinking(WithUserMessage(s, UserMessage(input, userAt)), ThinkingMessage(RebuttalThinkingText, thinkingAt)),
                    ThinkingId(thinkingAt), RebuttalReply(Api.Settle(t), replyAt)),
          Some(Api.GenerateAIResponse(SendParams(s, input, topic, aiSide, userAt), t).0))
  {
  }

  /** The two opening updaters in a row append the reply, when the
      placeholder's id is fresh. */
  lemma OpeningUpdatersAppend(s: DebateSession, thinking: DebateMessage, reply: DebateMessage)
    requires NoPlaceholder(s.messages) && IsPlaceholderId(thinking.id) && !IsPlaceholderId(reply.id)
    ensures WithReply(WithOpeningThinking(s, thinking), thinking.id, reply).messages == s.messages + [reply]
    ensures NoPlaceholder(s.messages + [reply])
  {
    forall i | 0 <= i < |s.messages| ensures s.messages[i].id != thinking.id {
      PlaceholderIdsDiffer(s.messages[i].id, thinking.id);
    }
    ReplaceLast(s.messages, thinking, reply);
    var after := s.messages + [reply];
    forall i | 0 <= i < |after| ensures !IsPlaceholderId(after[i].id) {
      if i < |s.messages| {
        assert after[i] == s.messages[i];
      }
    }
  }

  /** Opening a debate whose earlier messages hold no placeholder appends
      exactly the reply, and leaves no placeholder behind. */
  lemma OpeningAppendsReply(s: DebateSession, topic: string, aiSide: DebateSide, thinkingAt: int, replyAt: int,
                            t: Api.Transport)
    requires NoPlaceholder(s.messages)
    ensures Opening(s, topic, aiSide, thinkingAt, replyAt, t).0.messages
      == s.messages + [OpeningReply(Api.Settle(t), topic, aiSide, replyAt)]
    ensures NoPlaceholder(Opening(s, topic, aiSide, thinkingAt, replyAt, t).0.messages)
  {
    var thinking := ThinkingMessage(OpeningThinkingText, thinkingAt);
    var reply := OpeningReply(Api.Settle(t), topic, aiSide, replyAt);
    assert Opening(s, topic, aiSide, thinkingAt, replyAt, t).0 == WithReply(WithOpeningThinking(s, thinking), thinking.id, reply);
    OpeningUpdatersAppend(s, thinking, reply);
  }

  /** The three send updaters in a row append the human's message and the
      reply, when the placeholder's id is fresh. */
  lemma UpdatersAppendPair(s: DebateSession, user: DebateMessage, thinking: DebateMessage, reply: DebateMessage)
    requires NoPlaceholder(s.messages) && !IsPlaceholderId(user.id) && IsPlaceholderId(thinking.id)
    requires !IsPlaceholderId(reply.id)
    ensures WithReply(WithThinking(WithUserMessage(s, user), thinking), thinking.id, reply).messages
      == s.messages + [user, reply]
    ensures NoPlaceholder(s.messages + [user, reply])
  {
    var before := s.messages + [user];
    forall i | 0 <= i < |before| ensures before[i].id != thinking.id {
      if i < |s.messages| {
        assert before[i] == s.messages[i];
      }
      PlaceholderIdsDiffer(before[i].id, thinking.id);
    }
    ReplaceLast(before, thinking, reply);
    var after := s.messages + [user, reply];
    assert before + [reply] == after;
    forall i | 0 <= i < |after| ensures !IsPlaceholderId(after[i].id) {
      if i < |s.messages| {
        assert after[i] == s.messages[i];
      }
    }
  }

  /** An accepted send whose earlier messages hold no placeholder appends
      exactly the human's message and the reply, and leaves no placeholder
      behind. */
  lemma SendAppendsPair(s: DebateSession, input: string, topic: string, aiSide: DebateSide,
                        userAt: int, thinkingAt: int, replyAt: int, t: Api.Transport)
    requires Accepts(s, input) && NoPlaceholder(s.messages)
    ensures Send(s, input, topic, aiSide, userAt, thinkingAt, replyAt, t).0.messages
      == s.messages + [UserMessage(input, userAt), RebuttalReply(Api.Settle(t), replyAt)]
    ensures NoPlaceholder(Send(s, input, topic, aiSide, userAt, thinkingAt, replyAt, t).0.messages)
  {
    var user := UserMessage(input, userAt);
    var thinking := ThinkingMessage(RebuttalThinkingText, thinkingAt);
    var reply := RebuttalReply(Api.Settle(t), replyAt);
    assert Send(s, input, topic, aiSide, userAt, thinkingAt, replyAt, t).0
      == WithReply(WithThinking(WithUserMessage(s, user), thinking), thinking.id, reply);
    UpdatersAppendPair(s, user, thinking, reply);
  }

  // ---------------------------------------------------------------- runs

  predicate Alternates(ms: seq<DebateMessage>) {
    forall i :: 0 <= i < |ms| ==> ms[i].sender == (if i % 2 == 0 then Ai else User)
  }

  /** The state between exchanges: the human's turn, no pending placeholder,
      and the AI's opening followed by human/AI pairs. */
  predicate Settled(s: DebateSession) {
    s.currentTurn == User && NoPlaceholder(s.messages) && |s.messages| % 2 == 1 && Alternates(s.messages)
  }

  /** Before the opening it is not the human's turn, so a send does nothing. */
  lemma SendBeforeOpeningIsIgnored(topic: string, userSide: DebateSide, now: int, input: string,
                                   userAt: int, thinkingAt: int, replyAt: int, t: Api.Transport)
    ensures var s := InitialSession(topic, userSide, now);
      Send(s, input, topic, Opposite(userSide), userAt, thinkingAt, replyAt, t) == (s, None)
  {
  }

  /** The opening of a fresh session settles it. */
  lemma OpeningSettles(topic: string, userSide: DebateSide, now: int, thinkingAt: int, replyAt: int,
                       t: Api.Transport)
    ensures Settled(Opening(InitialSession(topic, userSide, now), topic, Opposite(userSide), thinkingAt, replyAt, t).0)
  {
    var s := InitialSession(topic, userSide, now);
    OpeningAppendsReply(s, topic, Opposite(userSide), thinkingAt, replyAt, t);
    var o := Opening(s, topic, Opposite(userSide), thinkingAt, replyAt, t).0;
    var reply := OpeningReply(Api.Settle(t), topic, Opposite(userSide), replyAt);
    assert o.messages == [reply];
    assert o.currentTurn == User;
    SingleAiMessageAlternates(reply);
  }

  lemma SingleAiMessageAlternates(m: DebateMessage)
    requires m.sender == Ai
    ensures Alternates([m])
  {
    assert [m][0] == m;
  }

  /** A human message and an AI reply after an odd, alternating,
      placeholder-free history keep it so. */
  lemma AppendPairKeepsShape(ms: seq<DebateMessage>, user: DebateMessage, reply: DebateMessage)
    requires |ms| % 2 == 1 && Alternates(ms) && NoPlaceholder(ms)
    requires user.sender == User && reply.sender == Ai
    requires !IsPlaceholderId(user.id) && !IsPlaceholderId(reply.id)
    ensures var r := ms + [user, reply]; |r| % 2 == 1 && Alternates(r) && NoPlaceholder(r)
  {
    var r := ms + [user, reply];
    forall i | 0 <= i < |r| ensures r[i].sender == (if i % 2 == 0 then Ai else User) && !IsPlaceholderId(r[i].id) {
      if i < |ms| {
        assert r[i] == ms[i];
      }
    }
  }

  /** A send keeps a settled session settled: a blank input changes nothing,
      otherwise one human/AI pair is added. */
  lemma SendKeepsSettled(s: DebateSession, input: string, topic: string, aiSide: DebateSide,
                         userAt: int, thinkingAt: int, replyAt: int, t: Api.Transport)
    requires Settled(s)
    ensures Settled(Send(s, input, topic, aiSide, userAt, thinkingAt, replyAt, t).0)
    ensures |Send(s, input, topic, aiSide, userAt, thinkingAt, replyAt, t).0.messages|
      == |s.messages| + (if Trim(input) == [] then 0 else 2)
  {
    if Accepts(s, input) {
      SendAppendsPair(s, input, topic, aiSide, userAt, thinkingAt, replyAt, t);
      AppendPairKeepsShape(s.messages, UserMessage(input, userAt), RebuttalReply(Api.Settle(t), replyAt));
    }
  }

  /** The inputs of one exchange: what was typed, the three clock readings
      and how the request settled. */
  datatype Exchange = Exchange(input: string, userAt: int, thinkingAt: int, replyAt: int, transport: Api.Transport)

  /** A run of sends, each on the session the previous one left. */
  function Play(s: DebateSession, topic: string, aiSide: DebateSide, xs: seq<Exchange>): DebateSession
    decreases |xs|
  {
    if xs == [] then s
    else
      var x := xs[0];
      Play(Send(s, x.input, topic, aiSide, x.userAt, x.thinkingAt, x.replyAt, x.transport).0, topic, aiSide, xs[1..])
  }

  /** The number of exchanges whose input was not blank. */
  function Answered(xs: seq<Exchange>): nat {
    if xs == [] then 0 else (if Trim(xs[0].input) == [] then 0 else 1) + Answered(xs[1..])
  }

  lemma {:induction false} PlayKeepsSettled(s: DebateSession, topic: string, aiSide: DebateSide, xs: seq<Exchange>)
    requires Settled(s)
    ensures Settled(Play(s, topic, aiSide, xs))
    ensures |Play(s, topic, aiSide, xs).messages| == |s.messages| + 2 * Answered(xs)
    decreases |xs|
  {
    if xs != [] {
      var x := xs[0];
      SendKeepsSettled(s, x.input, topic, aiSide, x.userAt, x.thinkingAt, x.replyAt, x.transport);
      PlayKeepsSettled(Send(s, x.input, topic, aiSide, x.userAt, x.thinkingAt, x.replyAt, x.transport).0,
                       topic, aiSide, xs[1..]);
    }
  }

  /** A whole debate: a fresh session, its opening, then the exchanges. */
  function RunDebate(topic: string, userSide: DebateSide, now: int, thinkingAt: int, replyAt: int,
                     opening: Api.Transport, xs: seq<Exchange>): DebateSession
  {
    var aiSide := Opposite(userSide);
    Play(Opening(InitialSession(topic, userSide, now), topic, aiSide, thinkingAt, replyAt, opening).0, topic, aiSide, xs)
  }

  /** After N answered exchanges the debate holds 2N+1 messages alternating
      AI, human, ..., AI; it is the human's turn and no placeholder survives,
      whichever requests failed. */
  lemma DebateShape(topic: string, userSide: DebateSide, now: int, thinkingAt: int, replyAt: int,
                    opening: Api.Transport, xs: seq<Exchange>)
    ensures Settled(RunDebate(topic, userSide, now, thinkingAt, replyAt, opening, xs))
    ensures |RunDebate(topic, userSide, now, thinkingAt, replyAt, opening, xs).messages| == 2 * Answered(xs) + 1
  {
    OpeningSettles(topic, userSide, now, thinkingAt, replyAt, opening);
    var aiSide := Opposite(userSide);
    PlayKeepsSettled(Opening(InitialSession(topic, userSide, now), topic, aiSide, thinkingAt, replyAt, opening).0,
                     topic, aiSide, xs);
  }

  /** The copy handed to the transcript when the debate ends. */
  function EndedSession(s: DebateSession, t: int): (e: DebateSession)
    ensures e.endTime == Some(t) && !e.isActive
    ensures e.messages == s.messages && e.currentTurn == s.currentTurn
    ensures e.id == s.id && e.topic == s.topic && e.userSide == s.userSide && e.aiSide == s.aiSide
    ensures e.startTime == s.startTime
  {
    s.(endTime := Some(t), isActive := false)
  }

  // ---------------------------------------------------------------- screen

  /** The component: its route parameters and its three pieces of state. */
  class DebateScreen {
    const topic: string
    const userSide: DebateSide
    const aiSide: DebateSide
    var session: DebateSession
    var currentInput: string
    var isLoading: bool

    /** The session always belongs to this screen's topic and sides. */
    predicate Valid()
      reads this
    {
      session.topic == topic && session.userSide == userSide && session.aiSide == aiSide && aiSide == Opposite(userSide)
    }

    constructor(topic: string, userSide: DebateSide, now: int)
      ensures Valid()
      ensures this.topic == topic && this.userSide == userSide && aiSide == Opposite(userSide)
      ensures session == InitialSession(topic, userSide, now)
      ensures currentInput == "" && !isLoading
    {
      this.topic := topic;
      this.userSide := userSide;
      aiSide := Opposite(userSide);
      session := InitialSession(topic, userSide, now);
      currentInput := "";
      isLoading := false;
    }

    /** The text field's `onChangeText`. */
    method SetCurrentInput(text: string)
      modifies this
      ensures currentInput == text
      ensures session == old(session) && isLoading == old(isLoading)
    {
      currentInput := text;
    }

    /** `generateAIOpening`: the payload posted and the alert shown, if any. */
    method GenerateAIOpening(thinkingAt: int, replyAt: int, t: Api.Transport)
      returns (sent: Api.OpeningPayload, alert: Option<string>)
      requires Valid()
      modifies this
      ensures Valid()
      ensures session == Opening(old(session), topic, aiSide, thinkingAt, replyAt, t).0
      ensures sent == Opening(old(session), topic, aiSide, thinkingAt, replyAt, t).1
      ensures alert.Some? <==> Api.Settle(t).Failure?
      ensures alert.Some? ==> alert.value == OpeningAlert
      ensures !isLoading && currentInput == old(currentInput)
    {
      isLoading := true;
      var thinking := ThinkingMessage(OpeningThinkingText, thinkingAt);
      session := WithOpeningThinking(session, thinking);
      var call := Api.GenerateOpeningStatement(topic, aiSide, t);
      sent := call.0;
      var reply := OpeningReply(call.1, topic, aiSide, replyAt);
      session := WithReply(session, thinking.id, reply);
      alert := if call.1.Failure? then Some(OpeningAlert) else None;
      isLoading := false;
    }

    /** `handleSendMessage`: the payload posted (`None` when the guard
        returned) and the alert shown, if any. */
    method HandleSendMessage(userAt: int, thinkingAt: int, replyAt: int, t: Api.Transport)
      returns (sent: Option<Api.GeneratePayload>, alert: Option<string>)
      requires Valid()
      modifies this
      ensures Valid()
      ensures session == Send(old(session), old(currentInput), topic, aiSide, userAt, thinkingAt, replyAt, t).0
      ensures sent == Send(old(session), old(currentInput), topic, aiSide, userAt, thinkingAt, replyAt, t).1
      ensures !Accepts(old(session), old(currentInput)) ==>
        alert.None? && currentInput == old(currentInput) && isLoading == old(isLoading)
      ensures Accepts(old(session), old(currentInput)) ==>
        currentInput == "" && !isLoading && (alert.Some? <==> Api.Settle(t).Failure?)
      ensures alert.Some? ==> alert.value == RebuttalAlert
    {
      if !Accepts(session, currentInput) {
        return None, None;
      }
      SendUnfolds(session, currentInput, topic, aiSide, userAt, thinkingAt, replyAt, t);
      var payload, result := PostMessage(userAt, thinkingAt, t);
      sent := Some(payload);
      alert := ReceiveReply(ThinkingId(thinkingAt), replyAt, result);
    }

    /** The part of `handleSendMessage` before the `await`: the human's
        message and the placeholder are appended, the input is cleared, and
        the request is posted. */
    method PostMessage(userAt: int, thinkingAt: int, t: Api.Transport)
      returns (payload: Api.GeneratePayload, result: Result<string, string>)
      requires Valid() && Accepts(session, currentInput)
      modifies this
      ensures Valid()
      ensures session == WithThinking(WithUserMessage(old(session), UserMessage(old(currentInput), userAt)),
                                      ThinkingMessage(RebuttalThinkingText, thinkingAt))
      ensures (payload, result) == Api.GenerateAIResponse(SendParams(old(session), old(currentInput), topic, aiSide, userAt), t)
      ensures currentInput == "" && isLoading
    {
      var user := UserMessage(currentInput, userAt);
      var history := session.messages + [user];
      session := WithUserMessage(session, user);
      currentInput := "";
      isLoading := true;
      var thinking := ThinkingMessage(RebuttalThinkingText, thinkingAt);
      session := WithThinking(session, thinking);
      payload, result := Api.GenerateAIResponse(Api.GenerateResponseParams(topic, aiSide, history, user.content), t).0,
                         Api.GenerateAIResponse(Api.GenerateResponseParams(topic, aiSide, history, user.content), t).1;
    }

    /** The part of `handleSendMessage` after the `await`: the placeholder
        is replaced by the reply or the apology and the turn goes back to the
        human. */
    method ReceiveReply(thinkingId: string, replyAt: int, result: Result<string, string>)
      returns (alert: Option<string>)
      requires Valid()
      modifies this
      ensures Valid()
      ensures session == WithReply(old(session), thinkingId, RebuttalReply(result, replyAt))
      ensures alert.Some? <==> result.Failure?
      ensures alert.Some? ==> alert.value == RebuttalAlert
      ensures !isLoading && currentInput == old(currentInput)
    {
      var reply := RebuttalReply(result, replyAt);
      session := WithReply(session, thinkingId, reply);
      alert := if result.Failure? then Some(RebuttalAlert) else None;
      isLoading := false;
    }

    /** `handleEndDebate` with the confirmation answered: the session handed
        to the transcript screen (`None` when cancelled) and the alert shown.
        The component state is left as it is, so a reply still pending will
        land in it. */
    method HandleEndDebate(confirmed: bool, endAt: int, savedAt: int, dir: string, writeOk: bool)
      returns (transcript: Option<DebateSession>, alert: Option<string>)
      ensures transcript.Some? <==> confirmed
      ensures alert.Some? <==> confirmed
      ensures confirmed ==> transcript.value == EndedSession(session, endAt)
      ensures confirmed ==> (alert.value == SavedAlert <==>
        Storage.SaveTranscript(dir, EndedSession(session, endAt), savedAt, writeOk).Success?)
      ensures confirmed ==> (alert.value == SaveFailedAlert <==>
        Storage.SaveTranscript(dir, EndedSession(session, endAt), savedAt, writeOk).Failure?)
    {
      if !confirmed {
        return None, None;
      }
      var ended := EndedSession(session, endAt);
      var saved := Storage.SaveTranscript(dir, ended, savedAt, writeOk);
      if saved.Success? {
        alert := Some(SavedAlert);
      } else {
        alert := Some(SaveFailedAlert);
      }
      transcript := Some(ended);
    }
  }
}
