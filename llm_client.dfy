/**
 * Request assembly of src/utils/llmClient.ts: which provider a configuration is sent to, the
 * message list the chat providers receive, the prompt text the Anthropic completion endpoint
 * receives, the Azure deployment URL and the defaults for unset parameters.
 *
 * A request is the value `fetch` would be given; sending it, the HTTP status and the parsing of
 * the reply are not part of this model.
 */
module LlmClient {
  import opened Common
  import Text

  datatype Role = User | Assistant

  /** One turn of a conversation. */
  datatype Message = Message(role: Role, content: string)

  /**
   * A configuration. The provider tag is a string, since a stored configuration is only checked
   * when it is used; the fields a provider does not use are ignored by its builder.
   */
  datatype Config = Config(
    provider: string, apiKey: string, model: string,
    endpoint: string, deploymentName: string, apiVersion: Option<string>,
    temperature: Option<real>, maxTokens: Option<int>)

  /**
   * The JSON body of a request: a chat body (OpenAI, Azure; Azure names no model, as its
   * deployment does) or a completion body (Anthropic).
   */
  datatype Body =
    | ChatBody(chatModel: Option<string>, messages: seq<Message>, temperature: real, maxTokens: int)
    | CompletionBody(model: string, prompt: string, temperature: real, maxTokensToSample: int,
                     stopSequences: seq<string>)

  datatype Request = Request(url: string, headers: seq<(string, string)>, body: Body)

  const Providers: set<string> := {"openai", "azure", "anthropic"}
  const DefaultTemperature: real := 0.7
  const DefaultMaxTokens: int := 1000
  const DefaultApiVersion: string := "2023-05-15"
  const AnthropicVersion: string := "2023-06-01"
  const OpenAIUrl: string := "https://api.openai.com/v1/chat/completions"
  const AnthropicUrl: string := "https://api.anthropic.com/v1/complete"
  const HumanCue: string := "\n\nHuman: "
  const AssistantCue: string := "\n\nAssistant: "
  /** The prompt's closing cue, the assistant's label without the trailing space. */
  const PromptEnd: string := "\n\nAssistant:"
  const StopSequence: string := "\n\nHuman:"

  // ---------------------------------------------------------------------------------------------
  // Parameters

  /** `config.temperature ?? 0.7`: only a missing value is replaced, so an explicit 0 is kept. */
  function Temperature(c: Config): (t: real)
    ensures c.temperature.Some? ==> t == c.temperature.value
    ensures c.temperature.None? ==> t == DefaultTemperature
  {
    c.temperature.GetOr(DefaultTemperature)
  }

  /** `config.maxTokens ?? 1000`. */
  function MaxTokens(c: Config): (n: int)
    ensures c.maxTokens.Some? ==> n == c.maxTokens.value
    ensures c.maxTokens.None? ==> n == DefaultMaxTokens
  {
    c.maxTokens.GetOr(DefaultMaxTokens)
  }

  /** `config.apiVersion || '2023-05-15'`: unlike `??`, an empty version is replaced too. */
  function ApiVersion(c: Config): (v: string)
    ensures v != ""
    ensures v == DefaultApiVersion <==> c.apiVersion.None? || c.apiVersion.value in {"", DefaultApiVersion}
    ensures c.apiVersion.Some? && c.apiVersion.value != "" ==> v == c.apiVersion.value
  {
    if c.apiVersion.None? || c.apiVersion.value == "" then DefaultApiVersion else c.apiVersion.value
  }

  /** The Azure deployment URL. */
  function AzureUrl(c: Config): (u: string)
    ensures c.endpoint <= u
    ensures var q := "?api-version=" + ApiVersion(c); |q| <= |u| && u[|u| - |q|..] == q
  {
    var head := c.endpoint + "/openai/deployments/" + c.deploymentName + "/chat/completions";
    var q := "?api-version=" + ApiVersion(c);
    assert head + q == c.endpoint + (head + q)[|c.endpoint|..];
    head + q
  }

  // ---------------------------------------------------------------------------------------------
  // Messages and prompt

  /** The chat providers' message list: the history, in order, then the new user message. */
  function Messages(history: seq<Message>, message: string): (r: seq<Message>)
    ensures |r| == |history| + 1
    ensures r[..|history|] == history
    ensures r[|history|] == Message(User, message)
  {
    history + [Message(User, message)]
  }

  /** One history entry of the Anthropic prompt: user turns as Human, every other as Assistant. */
  function Turn(m: Message): string {
    (if m.role == User then HumanCue else AssistantCue) + m.content
  }

  /** The history part of the Anthropic prompt, entry by entry. */
  function HistoryPrompt(history: seq<Message>): string
    decreases |history|
  {
    if history == [] then "" else HistoryPrompt(history[..|history| - 1]) + Turn(history[|history| - 1])
  }

  /** The Anthropic prompt: the history, then the new message as a Human turn, then the cue. */
  function AnthropicPrompt(history: seq<Message>, message: string): (p: string)
    ensures HistoryPrompt(history) <= p
    ensures var tail := HumanCue + message + PromptEnd;
      |tail| <= |p| && p[|p| - |tail|..] == tail && p[|p| - 12..] == "\n\nAssistant:"
  {
    var tail := HumanCue + message + PromptEnd;
    assert tail[|tail| - 12..] == PromptEnd;
    HistoryPrompt(history) + tail
  }

  /** The prompt loop of `sendToAnthropic` (lines 133-143). */
  method BuildAnthropicPrompt(history: seq<Message>, message: string) returns (prompt: string)
    ensures prompt == AnthropicPrompt(history, message)
  {
    prompt := "";
    for i := 0 to |history|
      invariant prompt == HistoryPrompt(history[..i])
    {
      assert history[..i + 1][..i] == history[..i];
      var msg := history[i];
      if msg.role == User {
        prompt := prompt + HumanCue + msg.content;
      } else {
        prompt := prompt + AssistantCue + msg.content;
      }
    }
    assert history[..|history|] == history;
    prompt := prompt + HumanCue + message + PromptEnd;
  }

  // ---------------------------------------------------------------------------------------------
  // Requests

  const JsonContent: (string, string) := ("Content-Type", "application/json")

  function OpenAIRequest(message: string, c: Config, history: seq<Message>): Request {
    Request(OpenAIUrl, [JsonContent, ("Authorization", "Bearer " + c.apiKey)],
      ChatBody(Some(c.model), Messages(history, message), Temperature(c), MaxTokens(c)))
  }

  function AzureRequest(message: string, c: Config, history: seq<Message>): Request {
    Request(AzureUrl(c), [JsonContent, ("api-key", c.apiKey)],
      ChatBody(None, Messages(history, message), Temperature(c), MaxTokens(c)))
  }

  /** The completion request: it always carries the one stop sequence `\n\nHuman:`. */
  function AnthropicRequest(prompt: string, c: Config): (r: Request)
    ensures r.body.CompletionBody? && r.body.prompt == prompt
    ensures r.body.stopSequences == [StopSequence]
  {
    Request(AnthropicUrl,
      [JsonContent, ("x-api-key", c.apiKey), ("anthropic-version", AnthropicVersion)],
      CompletionBody(c.model, prompt, Temperature(c), MaxTokens(c), [StopSequence]))
  }

  /**
   * The request `sendMessageToLLM` sends: the configured provider's, built from the history as
   * given; any other provider is an error naming it.
   */
  function SendMessageRequest(message: string, c: Config, history: seq<Message>): (r: Result<Request>)
    ensures r.Err? <==> c.provider !in Providers
    ensures r.Err? ==> r.message == "Unsupported provider: " + c.provider
    ensures r.Ok? && c.provider != "anthropic" ==>
      r.value.body.ChatBody? && r.value.body.messages == Messages(history, message)
    ensures r.Ok? && c.provider == "anthropic" ==>
      r.value.body.CompletionBody? && r.value.body.prompt == AnthropicPrompt(history, message)
    ensures c.provider == "azure" ==> r.Ok? && r.value.url == AzureUrl(c)
  {
    match c.provider
    case "openai" => Ok(OpenAIRequest(message, c, history))
    case "azure" => Ok(AzureRequest(message, c, history))
    case "anthropic" => Ok(AnthropicRequest(AnthropicPrompt(history, message), c))
    case _ => Err("Unsupported provider: " + c.provider)
  }

  /** `sendMessageToLLM`: dispatches on the provider; the Anthropic prompt is built by its loop. */
  method SendMessageToLLM(message: string, c: Config, history: seq<Message>) returns (r: Result<Request>)
    ensures r == SendMessageRequest(message, c, history)
  {
    match c.provider
    case "openai" =>
      r := Ok(OpenAIRequest(message, c, history));
    case "azure" =>
      r := Ok(AzureRequest(message, c, history));
    case "anthropic" =>
      var prompt := BuildAnthropicPrompt(history, message);
      r := Ok(AnthropicRequest(prompt, c));
    case _ =>
      r := Err("Unsupported provider: " + c.provider);
  }

  // ---------------------------------------------------------------------------------------------
  // Properties

  /** The prompt of a concatenated history is the concatenation of the prompts. */
  lemma {:induction false} HistoryPromptAppend(a: seq<Message>, b: seq<Message>)
    ensures HistoryPrompt(a + b) == HistoryPrompt(a) + HistoryPrompt(b)
    decreases |b|
  {
    if b == [] {
      assert a + b == a;
    } else {
      var init, x := b[..|b| - 1], b[|b| - 1];
      calc {
        HistoryPrompt(a + b);
        == { assert (a + b)[..|a + b| - 1] == a + init && (a + b)[|a + b| - 1] == x; }
        HistoryPrompt(a + init) + Turn(x);
        == { HistoryPromptAppend(a, init); }
        (HistoryPrompt(a) + HistoryPrompt(init)) + Turn(x);
        == { Text.ConcatAssociative(HistoryPrompt(a), HistoryPrompt(init), Turn(x)); }
        HistoryPrompt(a) + (HistoryPrompt(init) + Turn(x));
        HistoryPrompt(a) + HistoryPrompt(b);
      }
    }
  }

  /**
   * Every history entry is rendered in place and in order: the prompt of the entries before it,
   * then its own turn, then the prompt of the entries after it.
   */
  lemma HistoryPromptAt(history: seq<Message>, i: nat)
    requires i < |history|
    ensures HistoryPrompt(history) ==
      HistoryPrompt(history[..i]) + Turn(history[i]) + HistoryPrompt(history[i + 1..])
  {
    var before, x, after := history[..i], history[i], history[i + 1..];
    calc {
      HistoryPrompt(history);
      == { Text.SplitAround(history, i); }
      HistoryPrompt((before + [x]) + after);
      == { HistoryPromptAppend(before + [x], after); }
      HistoryPrompt(before + [x]) + HistoryPrompt(after);
      == { assert (before + [x])[..|before + [x]| - 1] == before; }
      HistoryPrompt(before) + Turn(x) + HistoryPrompt(after);
    }
  }
}
