/**
 * `detectEmotion` of src/components/GameBuddyHead/index.tsx (lines 313-348): an ordered
 * classifier over the text of an utterance, and the rule that picks the expression an utterance
 * is spoken with (line 373).
 */
module Emotion {
  import opened Text
  import opened Playback

  /** Words that make an exclamation happy. */
  const ExclaimHappy: seq<string> :=
    ["great", "awesome", "excellent", "amazing", "wonderful", "fantastic", "good", "nice", "love",
     "happy", "glad", "joy", "yay", "hurray"]

  /** Words that make an exclamation angry. */
  const ExclaimAngry: seq<string> :=
    ["terrible", "awful", "bad", "hate", "angry", "mad", "furious", "upset", "annoyed",
     "frustrated", "stupid", "idiot", "fool"]

  const HappyWords: seq<string> :=
    ["happy", "joy", "glad", "delighted", "pleased", "cheerful", "content", "satisfied",
     "thrilled", "excited"]

  const SadWords: seq<string> :=
    ["sad", "unhappy", "depressed", "miserable", "gloomy", "disappointed", "upset", "heartbroken",
     "grief", "sorrow"]

  const AngryWords: seq<string> :=
    ["angry", "mad", "furious", "outraged", "enraged", "irritated", "annoyed", "frustrated",
     "hostile", "resentful"]

  const SurprisedWords: seq<string> :=
    ["surprised", "amazed", "astonished", "shocked", "startled", "stunned", "astounded",
     "dumbfounded", "flabbergasted", "wonder"]

  const ThinkingWords: seq<string> :=
    ["think", "consider", "ponder", "contemplate", "reflect", "meditate", "deliberate", "analyze",
     "evaluate", "assess"]

  /**
   * The expression a text suggests. `?` and `!` are looked for in the text as given; the word
   * lists are matched as substrings of the lower-cased text, first list first.
   */
  function DetectEmotion(text: string): (r: Expression)
    ensures '?' in text ==> r == Thinking
    ensures '?' !in text && '!' in text ==> r in {Happy, Angry, Surprised}
    ensures r in {Sad, Neutral} ==> '?' !in text && '!' !in text
  {
    ContainsChar(text, '?');
    ContainsChar(text, '!');
    Classify(Contains(text, "?"), Contains(text, "!"), ToLower(text))
  }

  /** The classifier, given whether the text holds `?` and `!`, and the lower-cased text. */
  function Classify(question: bool, exclamation: bool, lower: string): Expression {
    if question then Thinking
    else if exclamation then
      if ContainsAny(lower, ExclaimHappy) then Happy
      else if ContainsAny(lower, ExclaimAngry) then Angry
      else Surprised
    else
      FirstMatch(ContainsAny(lower, HappyWords), ContainsAny(lower, SadWords),
        ContainsAny(lower, AngryWords), ContainsAny(lower, SurprisedWords),
        ContainsAny(lower, ThinkingWords))
  }

  /** The word-list tests without marks, in the order they are tried. */
  function FirstMatch(happy: bool, sad: bool, angry: bool, surprised: bool, thinking: bool)
    : Expression
  {
    if happy then Happy
    else if sad then Sad
    else if angry then Angry
    else if surprised then Surprised
    else if thinking then Thinking
    else Neutral
  }

  /** The expression an utterance is spoken with: the detected one unless another was asked for. */
  function FinalExpression(requested: Expression, text: string): (e: Expression)
    ensures requested != Neutral ==> e == requested
    ensures requested == Neutral ==> e == DetectEmotion(text)
  {
    if requested == Neutral then DetectEmotion(text) else requested
  }

  // ---------------------------------------------------------------------------------------------
  // Properties

  /** An exclamation without a question mark is surprised exactly when it has no happy or angry word. */
  lemma ExclamationOutcomes(text: string)
    requires '!' in text && '?' !in text
    ensures DetectEmotion(text) == Surprised <==>
      !ContainsAny(ToLower(text), ExclaimHappy) && !ContainsAny(ToLower(text), ExclaimAngry)
  {
    ContainsChar(text, '?');
    ContainsChar(text, '!');
  }

  /**
   * Classification ignores letter case: upper-casing a text keeps its `?` and `!` and its
   * lower-cased form.
   */
  lemma IgnoresCase(text: string)
    ensures DetectEmotion(ToUpper(text)) == DetectEmotion(text)
  {
    ToLowerToUpper(text);
    ToUpperKeeps(text, '?');
    ToUpperKeeps(text, '!');
    ContainsChar(text, '?');
    ContainsChar(text, '!');
    ContainsChar(ToUpper(text), '?');
    ContainsChar(ToUpper(text), '!');
    assert Contains(ToUpper(text), "?") == Contains(text, "?");
    assert Contains(ToUpper(text), "!") == Contains(text, "!");
  }

  /** A text holding k holds every list entry that k holds. */
  lemma ContainsAnyVia(s: string, k: string, keys: seq<string>, i: nat)
    requires Contains(s, k) && i < |keys| && Contains(k, keys[i])
    ensures ContainsAny(s, keys)
  {
    ContainsTransitive(s, k, keys[i]);
    ContainsAnyIff(s, keys);
  }

  /**
   * The substring match makes `unhappy` a happy word: a text without `?` and `!` that says
   * unhappy, in any case, is classified happy and never sad.
   */
  lemma UnhappyIsHappy(text: string)
    requires '?' !in text && '!' !in text
    requires Contains(ToLower(text), "unhappy")
    ensures DetectEmotion(text) == Happy
  {
    ContainsChar(text, '?');
    ContainsChar(text, '!');
    ContainsAt("unhappy", HappyWords[0], 2);
    ContainsAnyVia(ToLower(text), "unhappy", HappyWords, 0);
  }

  /** An exclamation that holds a happy word is happy, whatever angry words it also holds. */
  lemma HappyExclamationWins(text: string, i: nat)
    requires '!' in text && '?' !in text
    requires i < |ExclaimHappy| && Contains(ToLower(text), ExclaimHappy[i])
    ensures DetectEmotion(text) == Happy
  {
    ContainsChar(text, '?');
    ContainsChar(text, '!');
    ContainsAnyIff(ToLower(text), ExclaimHappy);
  }

  /**
   * The order of the tests decides. A `?` wins over everything. Under a `!`, happy exclamation
   * words beat angry ones, and with neither the text is surprised. Without marks, the lists are
   * tried happy, sad, angry, surprised, thinking; each expression is reached exactly when its list
   * matches and no earlier one does, and neutral exactly when none matches.
   */
  lemma EmotionPrecedence(text: string)
    ensures '?' in text ==> DetectEmotion(text) == Thinking
    ensures '?' !in text && '!' in text ==> ExclaimOrder(ToLower(text), DetectEmotion(text))
    ensures '?' !in text && '!' !in text ==> PlainOrder(ToLower(text), DetectEmotion(text))
  {
    ContainsChar(text, '?');
    ContainsChar(text, '!');
    ExclaimPrecedence(ToLower(text));
    PlainPrecedence(ToLower(text));
  }

  /** Under a `!`: happy exclamation words first, then angry ones, else surprised. */
  predicate ExclaimOrder(lower: string, e: Expression) {
    && (e == Happy <==> ContainsAny(lower, ExclaimHappy))
    && (e == Angry <==> !ContainsAny(lower, ExclaimHappy) && ContainsAny(lower, ExclaimAngry))
    && (e == Surprised <==> !ContainsAny(lower, ExclaimHappy) && !ContainsAny(lower, ExclaimAngry))
  }

  /** Without marks: happy, sad, angry, surprised and thinking words in that order, else neutral. */
  predicate PlainOrder(lower: string, e: Expression) {
    PlainRank(e, ContainsAny(lower, HappyWords), ContainsAny(lower, SadWords),
      ContainsAny(lower, AngryWords), ContainsAny(lower, SurprisedWords),
      ContainsAny(lower, ThinkingWords))
  }

  /** e is the first expression whose list matched, or neutral when none did. */
  predicate PlainRank(e: Expression, happy: bool, sad: bool, angry: bool, surprised: bool,
                      thinking: bool) {
    && (e == Happy <==> happy)
    && (e == Sad <==> !happy && sad)
    && (e == Angry <==> !happy && !sad && angry)
    && (e == Surprised <==> !happy && !sad && !angry && surprised)
    && (e == Thinking <==> !happy && !sad && !angry && !surprised && thinking)
    && (e == Neutral <==> !happy && !sad && !angry && !surprised && !thinking)
  }

  lemma ExclaimPrecedence(lower: string)
    ensures ExclaimOrder(lower, Classify(false, true, lower))
  {
  }

  lemma PlainPrecedence(lower: string)
    ensures PlainOrder(lower, Classify(false, false, lower))
  {
    var happy, sad := ContainsAny(lower, HappyWords), ContainsAny(lower, SadWords);
    var angry, surprised := ContainsAny(lower, AngryWords), ContainsAny(lower, SurprisedWords);
    var thinking := ContainsAny(lower, ThinkingWords);
    FirstMatchRank(happy, sad, angry, surprised, thinking);
  }

  lemma FirstMatchRank(happy: bool, sad: bool, angry: bool, surprised: bool, thinking: bool)
    ensures PlainRank(FirstMatch(happy, sad, angry, surprised, thinking),
      happy, sad, angry, surprised, thinking)
  {
  }

  /** Without marks, a text saying it is upset is sad, even when it also says angry. */
  lemma UpsetIsSad(text: string)
    requires '?' !in text && '!' !in text
    requires !ContainsAny(ToLower(text), HappyWords) && Contains(ToLower(text), "upset")
    ensures DetectEmotion(text) == Sad
  {
    EmotionPrecedence(text);
    UpsetMatchesSad(ToLower(text));
  }

  lemma UpsetMatchesSad(lower: string)
    requires Contains(lower, "upset")
    ensures ContainsAny(lower, SadWords)
  {
    ContainsAnyIff(lower, SadWords);
    assert SadWords[6] == "upset";
  }
}
