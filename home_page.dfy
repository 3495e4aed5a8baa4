/**
 * The home page of app/page.tsx: the keyword classifier `determineExpression` (lines 42-61),
 * the mock reply (lines 86-95), `handleSendMessage` (lines 64-120) and the `chatResponse`
 * listener (lines 124-135).
 *
 * The page's state is a class; the reply of the configured LLM, which the page awaits, is a
 * parameter, and the `setSpeaking(false)` timers are the list of their delays.
 */
module HomePage {
  import opened Common
  import opened Text
  import opened Playback
  import LlmClient

  const HappyCues: seq<string> := ["hello", "hi", "great", "happy", "thank"]
  const SadCues: seq<string> := ["sad", "sorry", "error", "fail"]
  const ThinkingCues: seq<string> := ["?", "think", "consider", "maybe"]
  const SurprisedCues: seq<string> := ["wow", "amazing", "incredible", "surprise"]

  /**
   * `determineExpression`: substring cues in the lower-cased message, happy cues first, then sad,
   * thinking and surprised; neutral when none matches.
   */
  function DetermineExpression(message: string): (r: Expression)
    ensures r != Angry
  {
    var lower := ToLower(message);
    if ContainsAny(lower, HappyCues) then Happy
    else if ContainsAny(lower, SadCues) then Sad
    else if ContainsAny(lower, ThinkingCues) then Thinking
    else if ContainsAny(lower, SurprisedCues) then Surprised
    else Neutral
  }

  const Greeting: string := "Hello there! How can I help you today?"
  const WellBeing: string := "I'm doing well, thank you for asking! How about you?"
  const QuestionReply: string := "That's an interesting question. Let me think about it..."
  const Apology: string :=
    "Sorry, there was an error processing your request. Please check your API configuration."

  /** The echo reply, quoting the message. */
  function Echo(message: string): string {
    "I received your message: \"" + message + "\". How can I assist you further?"
  }

  /**
   * The reply when no LLM is configured: a greeting for hello or hi, the well-being reply for
   * "how are you", the question reply for a `?`, and otherwise an echo of the message.
   */
  function MockReply(message: string): (r: string)
    ensures r in {Greeting, WellBeing, QuestionReply, Echo(message)}
    ensures Contains(ToLower(message), "hello") || Contains(ToLower(message), "hi") ==>
      r == Greeting
    ensures (!Contains(ToLower(message), "hello") && !Contains(ToLower(message), "hi")
      && Contains(ToLower(message), "how are you")) ==> r == WellBeing
  {
    var lower := ToLower(message);
    if Contains(lower, "hello") || Contains(lower, "hi") then Greeting
    else if Contains(lower, "how are you") then WellBeing
    else if Contains(lower, "?") then QuestionReply
    else Echo(message)
  }

  /** How long the page lets the head speak a response: 50 ms a character. */
  function SpeakingTime(response: string): nat {
    |response| * 50
  }

  // ---------------------------------------------------------------------------------------------
  // The page

  class Home {
    var speaking: bool
    /** The page's expression; its type has no angry. */
    var expression: Expression
    var history: seq<LlmClient.Message>
    var isConfigured: bool
    var config: Option<LlmClient.Config>
    /** The delays of the `setSpeaking(false)` timers set, in the order they were set. */
    var stopTimers: seq<nat>

    ghost predicate Valid()
      reads this
    {
      expression != Angry
    }

    constructor ()
      ensures Valid() && !speaking && expression == Neutral
      ensures history == [] && !isConfigured && config.None? && stopTimers == []
    {
      speaking := false;
      expression := Neutral;
      history := [];
      isConfigured := false;
      config := None;
      stopTimers := [];
    }

    /** `handleSaveConfig`, without the copy kept in local storage. */
    method SaveConfig(c: LlmClient.Config)
      requires Valid()
      modifies this
      ensures Valid() && isConfigured && config == Some(c)
      ensures speaking == old(speaking) && expression == old(expression)
      ensures history == old(history) && stopTimers == old(stopTimers)
    {
      config := Some(c);
      isConfigured := true;
    }

    /**
     * `handleSendMessage`. With an LLM configured the request is built from the history as it
     * was before the message, and `llmReply` is what the LLM answers; an unsupported provider or
     * a failed call ends in the apology, a sad face, no speaking and a history that keeps only
     * the user's message. Otherwise the reply (mocked when no LLM is configured) sets the
     * expression, both turns join the history, and the head speaks for 50 ms a character.
     */
    method HandleSendMessage(message: string, llmReply: Result<string>)
      returns (response: string, sent: Option<LlmClient.Request>)
      requires Valid()
      modifies this
      ensures Valid()
      ensures isConfigured == old(isConfigured) && config == old(config)
      ensures var configured := old(isConfigured) && old(config).Some?;
        var request := if configured
          then LlmClient.SendMessageRequest(message, old(config).value, old(history))
          else Err("");
        var failed := configured && (request.Err? || llmReply.Err?);
        var user := LlmClient.Message(LlmClient.User, message);
        && sent == (if request.Ok? then Some(request.value) else None)
        && (failed ==>
              && response == Apology && history == old(history) + [user]
              && expression == Sad && !speaking && stopTimers == old(stopTimers))
        && (!failed ==>
              && response == (if configured then llmReply.value else MockReply(message))
              && history == old(history) + [user, LlmClient.Message(LlmClient.Assistant, response)]
              && expression == DetermineExpression(response) && speaking
              && stopTimers == old(stopTimers) + [SpeakingTime(response)])
    {
      expression := Thinking;
      speaking := true;
      sent := None;
      if isConfigured && config.Some? {
        var request := LlmClient.SendMessageToLLM(message, config.value, history);
        if request.Err? || llmReply.Err? {
          if request.Ok? {
            sent := Some(request.value);
          }
          response := Fail(message);
          return;
        }
        sent := Some(request.value);
        response := llmReply.value;
      } else {
        response := MockReply(message);
      }
      Succeed(message, response);
    }

    /**
     * The catch branch of `handleSendMessage`: the user's message stays in the history, the
     * apology is the response, the face is sad and the head does not speak.
     */
    method Fail(message: string) returns (response: string)
      requires Valid()
      modifies this
      ensures Valid() && response == Apology && expression == Sad && !speaking
      ensures history == old(history) + [LlmClient.Message(LlmClient.User, message)]
      ensures stopTimers == old(stopTimers)
      ensures config == old(config) && isConfigured == old(isConfigured)
    {
      history := history + [LlmClient.Message(LlmClient.User, message)];
      expression := Sad;
      speaking := false;
      response := Apology;
    }

    /**
     * The end of a successful `handleSendMessage`: both turns join the history, the response
     * sets the expression, and the head speaks for 50 ms a character.
     */
    method Succeed(message: string, response: string)
      requires Valid()
      modifies this
      ensures Valid() && expression == DetermineExpression(response) && speaking
      ensures history == old(history)
        + [LlmClient.Message(LlmClient.User, message), LlmClient.Message(LlmClient.Assistant, response)]
      ensures stopTimers == old(stopTimers) + [SpeakingTime(response)]
      ensures config == old(config) && isConfigured == old(isConfigured)
    {
      history := history + [LlmClient.Message(LlmClient.User, message)];
      expression := DetermineExpression(response);
      speaking := true;
      history := history + [LlmClient.Message(LlmClient.Assistant, response)];
      stopTimers := stopTimers + [SpeakingTime(response)];
    }

    /** The `chatResponse` listener: the message's expression, and speaking for 50 ms a character. */
    method OnChatResponse(message: string)
      requires Valid()
      modifies this
      ensures Valid() && speaking && expression == DetermineExpression(message)
      ensures stopTimers == old(stopTimers) + [SpeakingTime(message)]
      ensures history == old(history) && config == old(config) && isConfigured == old(isConfigured)
    {
      expression := DetermineExpression(message);
      speaking := true;
      stopTimers := stopTimers + [SpeakingTime(message)];
    }
  }

  // ---------------------------------------------------------------------------------------------
  // Properties

  /**
   * The order of the cues decides: a happy cue wins over every other, a sad cue over thinking and
   * surprised ones, a thinking cue over surprised ones, and a message with no cue at all is
   * neutral.
   */
  lemma DeterminePrecedence(message: string)
    ensures var lower := ToLower(message);
      && (DetermineExpression(message) == Happy <==> Mentions(lower, HappyCues))
      && (DetermineExpression(message) == Sad <==>
            !Mentions(lower, HappyCues) && Mentions(lower, SadCues))
      && (DetermineExpression(message) == Thinking <==>
            !Mentions(lower, HappyCues + SadCues) && Mentions(lower, ThinkingCues))
      && (DetermineExpression(message) == Surprised <==>
            !Mentions(lower, HappyCues + SadCues + ThinkingCues) && Mentions(lower, SurprisedCues))
      && (DetermineExpression(message) == Neutral <==>
            !Mentions(lower, HappyCues + SadCues + ThinkingCues + SurprisedCues))
  {
    var lower := ToLower(message);
    ContainsAnyMentions(lower, HappyCues);
    ContainsAnyMentions(lower, SadCues);
    ContainsAnyMentions(lower, ThinkingCues);
    ContainsAnyMentions(lower, SurprisedCues);
    MentionsConcat(lower, HappyCues, SadCues);
    MentionsConcat(lower, HappyCues + SadCues, ThinkingCues);
    MentionsConcat(lower, HappyCues + SadCues + ThinkingCues, SurprisedCues);
  }

  /** A message holding k, where k holds `hi`, is happy: the cue is a bare substring. */
  lemma HiQuirk(message: string, k: string)
    requires Contains(ToLower(message), k) && Contains(k, "hi")
    ensures DetermineExpression(message) == Happy
  {
    var lower := ToLower(message);
    ContainsTransitive(lower, k, "hi");
    ContainsAnyIff(lower, HappyCues);
    assert HappyCues[1] == "hi";
  }

  /**
   * So "think", "this" and "which" all make a message happy, and the `think` cue can never
   * make it thinking.
   */
  lemma ThinkIsHappy(message: string)
    requires Contains(ToLower(message), "think") || Contains(ToLower(message), "this")
          || Contains(ToLower(message), "which")
    ensures DetermineExpression(message) == Happy
  {
    if Contains(ToLower(message), "think") {
      ContainsAt("think", "hi", 1);
      HiQuirk(message, "think");
    } else if Contains(ToLower(message), "this") {
      ContainsAt("this", "hi", 1);
      HiQuirk(message, "this");
    } else {
      ContainsAt("which", "hi", 1);
      HiQuirk(message, "which");
    }
  }

  /**
   * The greeting test is a bare substring test too: a message saying "this", such as
   * "is this ok?", gets the greeting rather than the question reply.
   */
  lemma ThisIsAGreeting(message: string)
    requires Contains(ToLower(message), "this")
    ensures MockReply(message) == Greeting
  {
    ContainsAt("this", "hi", 1);
    ContainsTransitive(ToLower(message), "this", "hi");
  }

  /** Letter case does not matter. */
  lemma DetermineIgnoresCase(message: string)
    ensures DetermineExpression(ToUpper(message)) == DetermineExpression(message)
  {
    ToLowerToUpper(message);
  }

  /**
   * A message that is not a greeting and has no `?` and no "how are you" is echoed, quoted.
   */
  lemma EchoWhenPlain(message: string)
    requires !Contains(ToLower(message), "hello") && !Contains(ToLower(message), "hi")
    requires !Contains(ToLower(message), "how are you") && '?' !in message
    ensures MockReply(message) == Echo(message)
  {
    ToLowerKeeps(message, '?');
    ContainsChar(ToLower(message), '?');
  }

  /** A message with a `?` that is not a greeting nor asks how the head is gets the question reply. */
  lemma QuestionWhenAsked(message: string)
    requires !Contains(ToLower(message), "hello") && !Contains(ToLower(message), "hi")
    requires !Contains(ToLower(message), "how are you") && '?' in message
    ensures MockReply(message) == QuestionReply
  {
    ToLowerKeeps(message, '?');
    ContainsChar(ToLower(message), '?');
  }
}
