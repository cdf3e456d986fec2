/** The client's HTTP service (src/services/api.ts): request payloads for the
    two backend endpoints and the classification of a failed request into one
    of four error messages. The HTTP call itself is an input: the transport
    either delivers the `response` field of the reply or rejects with an
    error object. */
module Api {
  import opened Types
  import opened Strings

  /** The role a stored message is sent under. */
  function RoleOf(sender: MessageSender): (role: Role)
    ensures role == AssistantRole <==> sender == Ai
  {
    if sender == Ai then AssistantRole else UserRole
  }

  /** `conversationHistory.map(msg => ({role, content}))`. */
  function ToConversation(history: seq<DebateMessage>): (r: seq<ConversationMessage>)
    ensures |r| == |history|
    ensures forall i :: 0 <= i < |history| ==>
      r[i].role == RoleOf(history[i].sender) && r[i].content == history[i].content
  {
    if history == [] then []
    else [ConversationMessage(RoleOf(history[0].sender), history[0].content)] + ToConversation(history[1..])
  }

  /** The mapping keeps order: it distributes over concatenation. */
  lemma {:induction false} ToConversationAppend(a: seq<DebateMessage>, b: seq<DebateMessage>)
    ensures ToConversation(a + b) == ToConversation(a) + ToConversation(b)
  {
    if a != [] {
      assert (a + b)[1..] == a[1..] + b;
      ToConversationAppend(a[1..], b);
    }
  }

  datatype GenerateResponseParams = GenerateResponseParams(
    topic: string,
    aiSide: DebateSide,
    conversationHistory: seq<DebateMessage>,
    userMessage: string)

  /** Body of `POST /api/debate/generate`. */
  datatype GeneratePayload = GeneratePayload(
    topic: string,
    aiSide: DebateSide,
    conversationHistory: seq<ConversationMessage>,
    userMessage: string)

  /** Body of `POST /api/debate/opening`. */
  datatype OpeningPayload = OpeningPayload(topic: string, aiSide: DebateSide)

  /** What a rejected request throws: an object that may carry a `code` and a
      `response.status`, or something that is not an object at all. */
  datatype RequestError =
    | ErrorObject(code: Option<string>, responseStatus: Option<int>)
    | NotAnObject

  /** Outcome of one HTTP post. */
  datatype Transport = Delivered(response: string) | Rejected(error: RequestError)

  /** The four kinds a failure is sorted into. */
  datatype ErrorKind = TimedOut | Refused | ServerStatus(status: int) | NetworkFailure

  // The two longer messages are each written as two literals: the verifier
  // does not read single characters out of a literal this long, and
  // `MessageInjective` needs their first characters.
  const TimeoutMessage := "Request timed out" + " - AI response took too long"
  const RefusedMessage := "Cannot connect to server" + " - make sure backend is running"
  const ServerPrefix := "Server error: "
  const NetworkMessage := "Network error occurred"

  /** The `catch` chain: the two connection codes are looked at first, then a
      response status, and everything else is a network error. */
  function KindOf(e: RequestError): (k: ErrorKind)
    ensures e.ErrorObject? && e.code == Some("ECONNABORTED") ==> k == TimedOut
    ensures e.ErrorObject? && e.code == Some("ECONNREFUSED") ==> k == Refused
    ensures k.ServerStatus? <==>
      e.ErrorObject? && e.responseStatus.Some?
      && e.code != Some("ECONNABORTED") && e.code != Some("ECONNREFUSED")
    ensures k.ServerStatus? ==> k.status == e.responseStatus.value
    ensures k == NetworkFailure <==>
      e.NotAnObject? || (e.responseStatus.None? && e.code != Some("ECONNABORTED") && e.code != Some("ECONNREFUSED"))
  {
    match e
    case NotAnObject => NetworkFailure
    case ErrorObject(code, status) =>
      if code == Some("ECONNABORTED") then TimedOut
      else if code == Some("ECONNREFUSED") then Refused
      else if status.Some? then ServerStatus(status.value)
      else NetworkFailure
  }

  /** The message thrown for each kind. */
  function Message(k: ErrorKind): string {
    match k
    case TimedOut => TimeoutMessage
    case Refused => RefusedMessage
    case ServerStatus(n) => ServerPrefix + IntToString(n)
    case NetworkFailure => NetworkMessage
  }

  /** The error message a caller sees for a rejected request. */
  function ClassifyError(e: RequestError): string {
    Message(KindOf(e))
  }

  /** The four messages are told apart, and a server error names its status:
      two kinds give the same message exactly when they are the same kind. */
  lemma MessageInjective(k1: ErrorKind, k2: ErrorKind)
    ensures Message(k1) == Message(k2) <==> k1 == k2
  {
    if Message(k1) == Message(k2) {
      var m := Message(k1);
      assert m[0] == Message(k2)[0];
      assert TimeoutMessage[0] == 'R' && RefusedMessage[0] == 'C';
      assert ServerPrefix[0] == 'S' && NetworkMessage[0] == 'N';
      assert k1.ServerStatus? ==> m[0] == 'S';
      assert k2.ServerStatus? ==> Message(k2)[0] == 'S';
      if k1.ServerStatus? && k2.ServerStatus? {
        assert m[|ServerPrefix|..] == IntToString(k1.status);
        assert Message(k2)[|ServerPrefix|..] == IntToString(k2.status);
        IntToStringInjective(k1.status, k2.status);
      }
    }
  }

  /** The result a request promise settles to: the reply text, or the
      classified error message. */
  function Settle(t: Transport): (r: Result<string, string>)
    ensures r.Success? <==> t.Delivered?
    ensures t.Delivered? ==> r.value == t.response
    ensures t.Rejected? ==> r.error == ClassifyError(t.error)
  {
    match t
    case Delivered(text) => Success(text)
    case Rejected(e) => Failure(ClassifyError(e))
  }

  /** `generateAIResponse`: the payload it posts and what its promise settles to. */
  function GenerateAIResponse(params: GenerateResponseParams, t: Transport): (r: (GeneratePayload, Result<string, string>))
    ensures r.0.topic == params.topic && r.0.aiSide == params.aiSide
    ensures r.0.userMessage == params.userMessage
    ensures |r.0.conversationHistory| == |params.conversationHistory|
    ensures forall i :: 0 <= i < |params.conversationHistory| ==>
      r.0.conversationHistory[i]
        == ConversationMessage(RoleOf(params.conversationHistory[i].sender), params.conversationHistory[i].content)
    ensures r.1 == Settle(t)
  {
    var payload := GeneratePayload(params.topic, params.aiSide, ToConversation(params.conversationHistory), params.userMessage);
    (payload, Settle(t))
  }

  /** `generateOpeningStatement`: posts exactly `{topic, aiSide}` and settles
      through the same classification as `generateAIResponse`. */
  function GenerateOpeningStatement(topic: string, aiSide: DebateSide, t: Transport): (r: (OpeningPayload, Result<string, string>))
    ensures r.0.topic == topic && r.0.aiSide == aiSide
    ensures r.1 == Settle(t)
  {
    (OpeningPayload(topic, aiSide), Settle(t))
  }
}
