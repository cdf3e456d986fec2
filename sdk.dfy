/** The reply shapes of the two provider SDKs the backend calls, and the
    expressions the backend uses to pull text out of them. The SDK calls
    themselves are inputs: each either resolves with one of these records or
    throws. */
module Sdk {
  import opened Types

  datatype ContentBlock = TextBlock(text: string) | NonTextBlock(kind: string)

  datatype Usage = Usage(inputTokens: Option<nat>, outputTokens: Option<nat>, totalTokens: Option<nat>)

  /** What `anthropic.messages.create` settles to. */
  datatype AnthropicReply =
    | AnthropicThrew(message: string)
    | AnthropicMessage(id: string, model: string, content: seq<ContentBlock>, usage: Usage)

  /** What `openai.chat.completions.create` settles to; a choice is the
      `message.content` of that choice, `None` when the message or its content
      is missing or null. */
  datatype OpenAIReply =
    | OpenAIThrew(message: string)
    | ChatCompletion(id: string, model: string, choices: seq<Option<string>>, usage: Option<Usage>)

  /** `content[0].type === 'text' ? content[0].text : ''`. With no first block
      the property read throws a TypeError, given here as `None`. */
  function FirstBlockText(content: seq<ContentBlock>): (r: Option<string>)
    ensures r.None? <==> content == []
    ensures r.Some? && content[0].TextBlock? ==> r.value == content[0].text
    ensures r.Some? && content[0].NonTextBlock? ==> r.value == ""
  {
    if content == [] then None
    else match content[0]
      case TextBlock(t) => Some(t)
      case NonTextBlock(_) => Some("")
  }

  /** `choices[0]?.message?.content || ''`: never null, empty when absent. */
  function FirstChoiceText(choices: seq<Option<string>>): (r: string)
    ensures choices != [] && choices[0].Some? ==> r == choices[0].value
    ensures choices == [] || choices[0].None? ==> r == ""
  {
    if choices != [] && choices[0].Some? && choices[0].value != "" then choices[0].value else ""
  }
}
