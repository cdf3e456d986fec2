/** The records the app passes around (src/types/index.ts), the wire shape of a
    conversation entry, and the Option/Result wrappers used for absent values
    and for calls that can throw. */
module Types {

  datatype Option<T> = None | Some(value: T)

  datatype Result<T, E> = Success(value: T) | Failure(error: E)

  datatype DebateSide = For | Against

  /** The text of a side, as it is interpolated and sent over the wire. */
  function SideText(side: DebateSide): string {
    match side
    case For => "for"
    case Against => "against"
  }

  /** The side the AI argues, given the human's side. */
  function Opposite(side: DebateSide): (other: DebateSide)
    ensures other != side
  {
    if side == For then Against else For
  }

  /** Flipping one side flips the other: `Opposite` is its own inverse. */
  lemma OppositeInvolution(side: DebateSide)
    ensures Opposite(Opposite(side)) == side
  {
  }

  datatype MessageSender = User | Ai

  /** A chat message; `timestamp` is the instant in epoch milliseconds. */
  datatype DebateMessage = DebateMessage(
    id: string,
    sender: MessageSender,
    content: string,
    timestamp: int,
    wordCount: nat)

  /** The live debate record; `startTime` and `endTime` are epoch milliseconds. */
  datatype DebateSession = DebateSession(
    id: string,
    topic: string,
    userSide: DebateSide,
    aiSide: DebateSide,
    messages: seq<DebateMessage>,
    currentTurn: MessageSender,
    startTime: int,
    endTime: Option<int>,
    isActive: bool)

  /** Route parameters handed from the topic screen to the debate screen. */
  datatype DebateParams = DebateParams(topic: string, userSide: DebateSide)

  datatype Role = UserRole | AssistantRole

  /** One `{role, content}` entry as the client sends it and the backend reads it. */
  datatype ConversationMessage = ConversationMessage(role: Role, content: string)
}
