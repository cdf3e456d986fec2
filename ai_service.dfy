/** The provider gateway (backend/src/services/aiService.ts): configuration
    read once from the environment, dispatch on the configured provider, the
    Anthropic and OpenAI request adapters, the missing-key checks and the
    extraction of the reply text. The environment is a map from variable name
    to value; the SDK calls are the `anthropic` and `openai` inputs. */
module AiService {
  import opened Types
  import opened Strings
  import Sdk

  datatype AIConfig = AIConfig(provider: string, model: string, maxTokens: JsNumber)

  const DefaultProvider := "anthropic"
  const DefaultModel := "claude-3-7-sonnet-20250219"
  const DefaultMaxTokens := "1000"

  /** `process.env[name] || fallback`: an unset or empty variable gives the fallback. */
  function EnvOr(env: map<string, string>, name: string, fallback: string): (v: string)
    ensures name in env && env[name] != "" ==> v == env[name]
    ensures name !in env || env[name] == "" ==> v == fallback
  {
    if name in env && env[name] != "" then env[name] else fallback
  }

  /** `AI_CONFIG`, resolved once at start-up. */
  function LoadConfig(env: map<string, string>): AIConfig {
    AIConfig(
      EnvOr(env, "AI_PROVIDER", DefaultProvider),
      EnvOr(env, "AI_MODEL", DefaultModel),
      ParseInt(EnvOr(env, "AI_MAX_TOKENS", DefaultMaxTokens)))
  }

  /** With none of the three variables set, the gateway talks to Anthropic's
      default model with a budget of 1000 tokens. */
  lemma DefaultConfig(env: map<string, string>)
    requires "AI_PROVIDER" !in env && "AI_MODEL" !in env && "AI_MAX_TOKENS" !in env
    ensures LoadConfig(env) == AIConfig("anthropic", "claude-3-7-sonnet-20250219", Num(1000))
  {
    assert NatToString(1000) == DefaultMaxTokens by {
      assert NatToString(1) == "1";
      assert NatToString(10) == "10";
      assert NatToString(100) == "100";
    }
    ParseIntOfNatToString(1000);
  }

  /** A numeric `AI_MAX_TOKENS` is read as that number. */
  lemma MaxTokensFromEnv(env: map<string, string>, n: nat)
    requires "AI_MAX_TOKENS" in env && env["AI_MAX_TOKENS"] == NatToString(n)
    ensures LoadConfig(env).maxTokens == Num(n)
  {
    ParseIntOfNatToString(n);
  }

  datatype AIMessage = AIMessage(role: Role, content: string)

  datatype OpenAIRole = SystemRole | OpenAIUser | OpenAIAssistant

  datatype OpenAIMessage = OpenAIMessage(role: OpenAIRole, content: string)

  /** The payload handed to the selected SDK. */
  datatype ProviderRequest =
    | AnthropicRequest(model: string, maxTokens: JsNumber, system: string, messages: seq<AIMessage>)
    | OpenAIRequest(model: string, maxTokens: JsNumber, chat: seq<OpenAIMessage>)

  datatype AIResponse = AIResponse(content: string, usage: Option<Sdk.Usage>, model: string, id: string)

  datatype ServiceError =
    | MissingApiKey(variable: string)
    | UnsupportedProvider(provider: string)
    | ProviderFailed(message: string)
    | NoContentBlock

  /** The text of the error each failure throws. A missing first Anthropic
      block is a TypeError raised by the runtime; its message depends on the
      JavaScript engine, so it is given only by the error's name. */
  function ErrorMessage(e: ServiceError): string {
    match e
    case MissingApiKey(v) => v + " is not set"
    case UnsupportedProvider(p) => "Unsupported AI provider: " + p
    case ProviderFailed(m) => m
    case NoContentBlock => "TypeError"
  }

  predicate HasKey(env: map<string, string>, name: string) {
    name in env && env[name] != ""
  }

  /** `anthropicMessages`: the messages one for one in order. */
  function ToAnthropicMessages(messages: seq<AIMessage>): (r: seq<AIMessage>)
    ensures |r| == |messages|
    ensures forall i :: 0 <= i < |messages| ==> r[i] == messages[i]
  {
    if messages == [] then [] else [AIMessage(messages[0].role, messages[0].content)] + ToAnthropicMessages(messages[1..])
  }

  function ToOpenAIRole(role: Role): OpenAIRole {
    if role == UserRole then OpenAIUser else OpenAIAssistant
  }

  /** `openaiMessages`: the system prompt as the first message, then the
      messages one for one in order. */
  function ToOpenAIMessages(systemPrompt: string, messages: seq<AIMessage>): (r: seq<OpenAIMessage>)
    ensures |r| == |messages| + 1
    ensures r[0] == OpenAIMessage(SystemRole, systemPrompt)
    ensures forall i :: 0 <= i < |messages| ==>
      r[i + 1] == OpenAIMessage(ToOpenAIRole(messages[i].role), messages[i].content)
  {
    [OpenAIMessage(SystemRole, systemPrompt)] + ToOpenAIChat(messages)
  }

  function ToOpenAIChat(messages: seq<AIMessage>): (r: seq<OpenAIMessage>)
    ensures |r| == |messages|
    ensures forall i :: 0 <= i < |messages| ==>
      r[i] == OpenAIMessage(ToOpenAIRole(messages[i].role), messages[i].content)
  {
    if messages == [] then []
    else [OpenAIMessage(ToOpenAIRole(messages[0].role), messages[0].content)] + ToOpenAIChat(messages[1..])
  }

  /** Only the system role is new: every OpenAI message after the first
      carries a conversation role. */
  lemma OpenAIRolesAfterFirst(systemPrompt: string, messages: seq<AIMessage>)
    ensures forall i :: 1 <= i < |messages| + 1 ==> ToOpenAIMessages(systemPrompt, messages)[i].role != SystemRole
  {
    var r := ToOpenAIMessages(systemPrompt, messages);
    forall i | 1 <= i < |messages| + 1 ensures r[i].role != SystemRole {
      assert r[(i - 1) + 1].role == ToOpenAIRole(messages[i - 1].role);
    }
  }

  /** `generateAnthropicResponse`: the result and the payload sent (`None` when
      the key check threw before the call). */
  function GenerateAnthropicResponse(config: AIConfig, env: map<string, string>, systemPrompt: string,
                                     messages: seq<AIMessage>, reply: Sdk.AnthropicReply)
    : (r: (Result<AIResponse, ServiceError>, Option<ProviderRequest>))
    ensures !HasKey(env, "ANTHROPIC_API_KEY") <==> r.1.None?
    ensures r.1.None? ==> r.0 == Failure(MissingApiKey("ANTHROPIC_API_KEY"))
    ensures r.1.Some? ==> r.1.value == AnthropicRequest(config.model, config.maxTokens, systemPrompt, messages)
    ensures r.1.Some? && reply.AnthropicThrew? ==> r.0 == Failure(ProviderFailed(reply.message))
    ensures r.1.Some? && reply.AnthropicMessage? && reply.content != [] ==>
      r.0 == Success(AIResponse(Sdk.FirstBlockText(reply.content).value, Some(reply.usage), reply.model, reply.id))
    ensures r.1.Some? && reply.AnthropicMessage? && reply.content == [] ==> r.0 == Failure(NoContentBlock)
  {
    if !HasKey(env, "ANTHROPIC_API_KEY") then (Failure(MissingApiKey("ANTHROPIC_API_KEY")), None)
    else
      var request := AnthropicRequest(config.model, config.maxTokens, systemPrompt, ToAnthropicMessages(messages));
      assert ToAnthropicMessages(messages) == messages;
      var result :=
        match reply
        case AnthropicThrew(m) => Failure(ProviderFailed(m))
        case AnthropicMessage(id, model, content, usage) =>
          match Sdk.FirstBlockText(content)
          case None => Failure(NoContentBlock)
          case Some(text) => Success(AIResponse(text, Some(usage), model, id));
      (result, Some(request))
  }

  /** `generateOpenAIResponse`: the result and the payload sent (`None` when
      the key check threw before the call). */
  function GenerateOpenAIResponse(config: AIConfig, env: map<string, string>, systemPrompt: string,
                                  messages: seq<AIMessage>, reply: Sdk.OpenAIReply)
    : (r: (Result<AIResponse, ServiceError>, Option<ProviderRequest>))
    ensures !HasKey(env, "OPENAI_API_KEY") <==> r.1.None?
    ensures r.1.None? ==> r.0 == Failure(MissingApiKey("OPENAI_API_KEY"))
    ensures r.1.Some? ==> r.1.value == OpenAIRequest(config.model, config.maxTokens, ToOpenAIMessages(systemPrompt, messages))
    ensures r.1.Some? && reply.OpenAIThrew? ==> r.0 == Failure(ProviderFailed(reply.message))
    ensures r.1.Some? && reply.ChatCompletion? ==>
      r.0 == Success(AIResponse(Sdk.FirstChoiceText(reply.choices), reply.usage, reply.model, reply.id))
  {
    if !HasKey(env, "OPENAI_API_KEY") then (Failure(MissingApiKey("OPENAI_API_KEY")), None)
    else
      var request := OpenAIRequest(config.model, config.maxTokens, ToOpenAIMessages(systemPrompt, messages));
      var result :=
        match reply
        case OpenAIThrew(m) => Failure(ProviderFailed(m))
        case ChatCompletion(id, model, choices, usage) =>
          Success(AIResponse(Sdk.FirstChoiceText(choices), usage, model, id));
      (result, Some(request))
  }

  /** `generateAIResponse`: dispatch on the configured provider. Each input
      reply is what that provider's SDK would settle to. */
  function GenerateAIResponse(config: AIConfig, env: map<string, string>, systemPrompt: string,
                              messages: seq<AIMessage>, anthropic: Sdk.AnthropicReply, openai: Sdk.OpenAIReply)
    : (r: (Result<AIResponse, ServiceError>, Option<ProviderRequest>))
    ensures config.provider == "anthropic" ==> r == GenerateAnthropicResponse(config, env, systemPrompt, messages, anthropic)
    ensures config.provider == "openai" ==> r == GenerateOpenAIResponse(config, env, systemPrompt, messages, openai)
    ensures config.provider != "anthropic" && config.provider != "openai" ==>
      r == (Failure(UnsupportedProvider(config.provider)), None)
  {
    if config.provider == "anthropic" then GenerateAnthropicResponse(config, env, systemPrompt, messages, anthropic)
    else if config.provider == "openai" then GenerateOpenAIResponse(config, env, systemPrompt, messages, openai)
    else (Failure(UnsupportedProvider(config.provider)), None)
  }

  /** Whatever the provider, a request that is sent carries the configured
      model and token budget, the system prompt and every message. */
  lemma SentRequestUsesConfig(config: AIConfig, env: map<string, string>, systemPrompt: string,
                              messages: seq<AIMessage>, anthropic: Sdk.AnthropicReply, openai: Sdk.OpenAIReply)
    ensures var r := GenerateAIResponse(config, env, systemPrompt, messages, anthropic, openai);
      r.1.Some? ==> r.1.value.model == config.model && r.1.value.maxTokens == config.maxTokens
    ensures var r := GenerateAIResponse(config, env, systemPrompt, messages, anthropic, openai);
      r.1.Some? && r.1.value.AnthropicRequest? ==> r.1.value.system == systemPrompt && r.1.value.messages == messages
    ensures var r := GenerateAIResponse(config, env, systemPrompt, messages, anthropic, openai);
      r.1.Some? && r.1.value.OpenAIRequest? ==> |r.1.value.chat| == |messages| + 1 && r.1.value.chat[0].content == systemPrompt
  {
  }
}
