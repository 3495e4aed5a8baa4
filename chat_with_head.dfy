/**
 * The logic of src/components/ChatWithHead/index.tsx: the keyword classifier `analyzeMessage`
 * (lines 22-38), the reaction to a `chatResponse` event (lines 42-56) and the mock reply of
 * `sendMessage` (lines 66-88).
 */
module ChatWithHead {
  import opened Common
  import opened Text
  import opened Playback

  const SadCues: seq<string> := ["error", "sorry", "cannot"]
  const HappyCues: seq<string> := ["great", "happy", "excellent"]
  const ThinkingCues: seq<string> := ["hmm", "let me think", "interesting"]
  const SurprisedCues: seq<string> := ["wow", "amazing", "incredible"]

  /**
   * `analyzeMessage`: substring cues in the lower-cased message, sad cues first, then happy,
   * thinking and surprised; neutral when none matches.
   */
  function AnalyzeMessage(message: string): (r: Expression)
    ensures r != Angry
  {
    var lower := ToLower(message);
    if ContainsAny(lower, SadCues) then Sad
    else if ContainsAny(lower, HappyCues) then Happy
    else if ContainsAny(lower, ThinkingCues) then Thinking
    else if ContainsAny(lower, SurprisedCues) then Surprised
    else Neutral
  }

  function Min(a: int, b: int): int { if a <= b then a else b }
  function Max(a: int, b: int): int { if a >= b then a else b }

  /**
   * How long the head speaks for a message of `length` characters: 50 ms a character, but never
   * under a second and never over five.
   */
  function SpeakingDuration(length: nat): (d: int)
    ensures 1000 <= d <= 5000
    ensures d == 50 * length <==> 20 <= length <= 100
    ensures length < 20 ==> d == 1000
    ensures length > 100 ==> d == 5000
  {
    Min(Max(length * 50, 1000), 5000)
  }

  /** What a `chatResponse` event makes the head do. */
  datatype Reaction = Reaction(expression: Expression, speaking: bool, stopAfter: int)

  /**
   * The `chatResponse` listener: a missing message counts as the empty one; the head takes the
   * message's expression and speaks, and a timer ends the speaking after the duration.
   */
  function HandleChatResponse(message: Option<string>): (r: Reaction)
    ensures r.speaking && 1000 <= r.stopAfter <= 5000
    ensures r.stopAfter == SpeakingDuration(|message.GetOr("")|)
    ensures r.expression == AnalyzeMessage(message.GetOr(""))
  {
    var text := message.GetOr("");
    Reaction(AnalyzeMessage(text), true, SpeakingDuration(|text|))
  }

  /** A message in double quotes, as the templates embed it. */
  function Quoted(message: string): string {
    "\"" + message + "\""
  }

  /** The four reply templates of `sendMessage`, each quoting the message. */
  function Templates(message: string): seq<string> {
    [ "I understand you're saying: " + Quoted(message) + ". How can I help you further?",
      "That's an interesting point about " + Quoted(message) + ". Let me elaborate...",
      "Thanks for sharing your thoughts on " + Quoted(message) + ". Here's what I think...",
      "I'm processing your message about " + Quoted(message) + ". Let me respond..." ]
  }

  /**
   * `sendMessage`: the head thinks, and the reply is one of the templates; the index drawn with
   * `Math.random` is any of the four.
   */
  method SendMessage(message: string) returns (expression: Expression, reply: string)
    ensures expression == Thinking
    ensures reply in Templates(message)
    ensures Contains(reply, Quoted(message))
  {
    expression := Thinking;
    var responses := Templates(message);
    var pick :| 0 <= pick < |responses|;
    reply := responses[pick];
    TemplateQuotes(message, pick);
  }

  // ---------------------------------------------------------------------------------------------
  // Properties

  /** Every template holds the quoted message. */
  lemma TemplateQuotes(message: string, i: nat)
    requires i < 4
    ensures Contains(Templates(message)[i], Quoted(message))
  {
    var q := Quoted(message);
    var prefix := match i
      case 0 => "I understand you're saying: "
      case 1 => "That's an interesting point about "
      case 2 => "Thanks for sharing your thoughts on "
      case _ => "I'm processing your message about ";
    var t := Templates(message)[i];
    assert t[|prefix|..|prefix| + |q|] == q;
    ContainsAt(t, q, |prefix|);
  }

  /**
   * The order of the cues decides: a sad cue wins over every other, a happy cue over thinking and
   * surprised ones, a thinking cue over surprised ones, and a message with no cue at all is
   * neutral.
   */
  lemma AnalyzePrecedence(message: string)
    ensures var lower := ToLower(message);
      && (AnalyzeMessage(message) == Sad <==> Mentions(lower, SadCues))
      && (AnalyzeMessage(message) == Happy <==>
            !Mentions(lower, SadCues) && Mentions(lower, HappyCues))
      && (AnalyzeMessage(message) == Thinking <==>
            !Mentions(lower, SadCues + HappyCues) && Mentions(lower, ThinkingCues))
      && (AnalyzeMessage(message) == Surprised <==>
            !Mentions(lower, SadCues + HappyCues + ThinkingCues) && Mentions(lower, SurprisedCues))
      && (AnalyzeMessage(message) == Neutral <==>
            !Mentions(lower, SadCues + HappyCues + ThinkingCues + SurprisedCues))
  {
    var lower := ToLower(message);
    ContainsAnyMentions(lower, SadCues);
    ContainsAnyMentions(lower, HappyCues);
    ContainsAnyMentions(lower, ThinkingCues);
    ContainsAnyMentions(lower, SurprisedCues);
    MentionsConcat(lower, SadCues, HappyCues);
    MentionsConcat(lower, SadCues + HappyCues, ThinkingCues);
    MentionsConcat(lower, SadCues + HappyCues + ThinkingCues, SurprisedCues);
  }

  /** Letter case does not matter. */
  lemma AnalyzeIgnoresCase(message: string)
    ensures AnalyzeMessage(ToUpper(message)) == AnalyzeMessage(message)
  {
    ToLowerToUpper(message);
  }

  /** A message that says sorry is sad, whatever happy words it also holds. */
  lemma SorryIsSad(message: string)
    requires Contains(ToLower(message), "sorry")
    ensures AnalyzeMessage(message) == Sad
  {
    ContainsAnyIff(ToLower(message), SadCues);
    assert SadCues[1] == "sorry";
  }

  /** A response event without a message leaves the head neutral for one second. */
  lemma MissingMessage()
    ensures HandleChatResponse(None) == Reaction(Neutral, true, 1000)
  {
    assert ToLower("") == "";
  }
}
