# Talking head: a verified model of the text-to-mouth-shape engine

The chat UI renders a head that "speaks" a text. Its engine turns the text into a list of
tokens (letters, digraphs, digits and pause marks). It then plays those tokens back one per
timer tick. Each token becomes a mouth pose, and an expression runs alongside. The expression is
chosen from the text's punctuation and keywords, and it changes at `?`, `!` and every twentieth
token.

This project models that engine and the small pieces of logic around it, and proves properties
of the model:

- `Lexicon`, `Sequencer`: the fixed word lexicon and `convertTextToPhonemes`. The function
  `Sequencer.Tokens` specifies the token list. The method `Sequencer.ConvertTextToPhonemes`
  builds the space-joined string with the source's loops. The split back into a list recovers
  `Tokens` exactly.
- `Playback`: the phoneme and expression shape tables, the pose a token resolves to, and each
  token's delay.
- `Emotion`: `detectEmotion` and the rule that picks an utterance's expression.
- `Player`: the player as a class.
  - The fields are the source's state: `isTalking`, the current and final expressions, the
    token list, the index and the timeout ids.
  - The browser's timers are a set of pending ids. The mouth is a log of applied poses.
  - `SpeakPhrase`, `FireStep` (a timer coming due) and `Stop` keep an invariant. It ties the log
    to the specification functions `Poses` and `Utterance`, and ties the scheduled time to
    `TotalDelay`.
- `HomePage`, `ChatWithHead`, `ResizableGrip`, `LlmClient`: the page's keyword classifier, mock
  reply and send handler; the chat component's classifier, speaking duration and reply
  templates; the resize grip's height rule; and the LLM request assembly.
- `Text`, `Common`: ASCII case mapping, whitespace splitting, trimming, substring search, and
  `Option`/`Result`.

Where a plain description of the engine would suggest otherwise, the model follows the code:

- An empty or blank text is not silent. Every whitespace-split word gets a pause group, even an
  empty one, so `""` gives `.` and `"   "` gives `. .` (`Sequencer.ExampleEmpty`,
  `Sequencer.ExampleBlank`).
- The first token of an utterance is shown at once, inside `speakPhrase`; only later steps wait
  for a timer. So when a second utterance supersedes a first, one pose of the first is still
  shown (`Player.Supersede`).
- The stop branch shows the expression the head was given as a prop, not the current one.
- `..` and `...` are never produced, so their 200 and 300 ms delays never occur.

One consequence comes from the model rather than the code. The model's state updates take
effect at once (see "## Left out"), and `setExpressionState` shows a pose only when the head is
not talking. So in the model, `speakPhrase` has already set talking when it sets the utterance's
expression, and no baseline pose is shown when an utterance starts. Likewise the expression
changes at `?`, `!` and every twentieth token are only recorded, and they show when the next `.`
is spoken. In the component itself the setter reads the `isTalking` of the render that created
it, which can still be false, so those poses can appear there.

## Model

| member | source | states |
|---|---|---|
| Lexicon.Entry | src/components/GameBuddyHead/index.tsx:54-208 | every lexicon entry is a non-empty list of single letters or the digraphs TH, CH, SH, and only words ending in a letter are listed, so a word ending in a digit is always spelled |
| Sequencer.Clean | src/components/GameBuddyHead/index.tsx:213 | the cleaned word holds only upper-case letters and digits |
| Sequencer.ConvertTextToPhonemes | src/components/GameBuddyHead/index.tsx:48-255 | the word loop and the trim produce exactly the token list `Tokens(text)` joined by single spaces |
| Sequencer.AppendWord | src/components/GameBuddyHead/index.tsx:210-251 | one word appends its lexicon entry or its spelling, then its pause group, each token followed by one space |
| Sequencer.AppendSpelled | src/components/GameBuddyHead/index.tsx:220-229 | the character loop appends the word's spelling, each token followed by one space |
| Sequencer.AppendPause | src/components/GameBuddyHead/index.tsx:233-251 | the punctuation branch appends the word's pause group, each token followed by one space |
| Sequencer.TokensAlphabet | src/components/GameBuddyHead/index.tsx:54-254 | every token is a letter, digit, TH/CH/SH, `.`, `?` or `!`; there is at least one token per word and never zero |
| Sequencer.WordsTokensAlphabet | src/components/GameBuddyHead/index.tsx:210-252 | the tokens of a word list are all in the alphabet, at least one per word |
| Sequencer.WordTokensAlphabet | src/components/GameBuddyHead/index.tsx:213-251 | a single word yields at least one token, all in the alphabet |
| Sequencer.SpellAlphabet | src/components/GameBuddyHead/index.tsx:220-229 | spelling a cleaned word yields only alphabet tokens |
| Sequencer.TokensSolid | src/components/GameBuddyHead/index.tsx:379 | tokens are non-empty and hold no whitespace |
| Sequencer.TokenizeJoin | src/components/GameBuddyHead/index.tsx:379 | splitting a space-joined list of solid tokens on spaces and dropping blanks gives the list back |
| Sequencer.NonBlankSolid | src/components/GameBuddyHead/index.tsx:379 | the blank filter keeps every solid token |
| Sequencer.PhonemeListIsTokens | src/components/GameBuddyHead/index.tsx:379 | the player's token list is exactly `Tokens(text)`: nothing dropped, merged, reordered or deduplicated |
| Sequencer.WordsTokensAppend | src/components/GameBuddyHead/index.tsx:210-252 | the tokens of two word lists are the first list's tokens followed by the second's |
| Sequencer.TokensAppend | src/components/GameBuddyHead/index.tsx:48-255 | the tokens of two texts joined by a space are the first text's tokens followed by the second's |
| Sequencer.SpellRoundTrip | src/components/GameBuddyHead/index.tsx:220-229 | reading a spelling back (dropping each digit's `N`) gives the cleaned word |
| Sequencer.SpellLength | src/components/GameBuddyHead/index.tsx:220-229 | a spelling has one token per character plus one `N` per digit |
| Sequencer.Spell | src/components/GameBuddyHead/index.tsx:220-229 | every token of a spelling is a single character |
| Sequencer.PauseTokens | src/components/GameBuddyHead/index.tsx:232-251 | every pause group is non-empty and ends in the short pause `.` |
| Sequencer.WordTokens | src/components/GameBuddyHead/index.tsx:210-251 | the tokens of one word are non-empty and end in `.` |
| Sequencer.Tokens | src/components/GameBuddyHead/index.tsx:210-254 | every token list, even that of an empty text, is non-empty and ends in `.` |
| Sequencer.ExampleExclaimed | src/components/GameBuddyHead/index.tsx:210-251 | `Hi!` gives H A I ! . . |
| Sequencer.ExampleSpelled | src/components/GameBuddyHead/index.tsx:210-251 | `r2` gives R N 2 . |
| Sequencer.ExampleEmpty | src/components/GameBuddyHead/index.tsx:48-255 | `""` gives `.` |
| Sequencer.ExampleBlank | src/components/GameBuddyHead/index.tsx:48-255 | `"   "` gives `. .` |
| Sequencer.EmptyWordsPause | src/components/GameBuddyHead/index.tsx:232-251 | a list of n empty words gives n pauses |
| Playback.PhonemeShape | src/components/GameBuddyHead/index.tsx:12-35 | the phoneme table has an entry exactly for the five vowels, fourteen consonants and `rest` |
| Playback.PoseShape | src/components/GameBuddyHead/index.tsx:12-44 | a pose names the table entry whose shape is applied |
| Playback.ResolvePose | src/components/GameBuddyHead/index.tsx:302-310 | a token shows the current expression exactly when it is `.` or a space; a key of the phoneme table shows its own shape; any other token shows `rest` |
| Playback.RestTokens | src/components/GameBuddyHead/index.tsx:302-310 | `?`, `!`, H, W, Y, C, digits and the longer pause tokens show `rest` |
| Playback.SharedShapes | src/components/GameBuddyHead/index.tsx:20-33 | M/B/P, F/V, T/D/S/Z/N and K/G share their shapes |
| Playback.DelayOfLetter | src/components/GameBuddyHead/index.tsx:392-393 | a one-character token waits 180 ms exactly when it is one of AEIOU |
| Playback.DelayOfDigraph | src/components/GameBuddyHead/index.tsx:392-395 | TH, CH and SH are not substrings of AEIOU and wait 120 ms |
| Playback.Delay | src/components/GameBuddyHead/index.tsx:385-399 | every delay is one of 100, 120, 180, 200, 250, 300 ms |
| Playback.TotalDelayAppend | src/components/GameBuddyHead/index.tsx:428-434 | the time of two token lists in a row is the sum of their times |
| Playback.TotalDelay | src/components/GameBuddyHead/index.tsx:385-399 | an utterance of n tokens takes between 100·n and 300·n ms |
| Emotion.FinalExpression | src/components/GameBuddyHead/index.tsx:372-373 | the utterance's expression is the detected one when neutral was requested, the requested one otherwise |
| Emotion.DetectEmotion | src/components/GameBuddyHead/index.tsx:313-348 | a `?` anywhere gives thinking; `!` without `?` gives happy, angry or surprised; so sad and neutral only come from texts with neither mark |
| Emotion.EmotionPrecedence | src/components/GameBuddyHead/index.tsx:313-348 | the full order: `?` first; then with `!` the happy list before the angry list before surprised; without marks happy, sad, angry, surprised and thinking lists in that order, else neutral |
| Emotion.ExclamationOutcomes | src/components/GameBuddyHead/index.tsx:321-331 | an exclamation without `?` is surprised exactly when neither exclamation list matches |
| Emotion.IgnoresCase | src/components/GameBuddyHead/index.tsx:313-348 | upper-casing a text does not change its emotion |
| Emotion.UnhappyIsHappy | src/components/GameBuddyHead/index.tsx:334-337 | without `?` and `!`, a text saying "unhappy" is happy, since the happy list is tried first and matches substrings |
| Emotion.HappyExclamationWins | src/components/GameBuddyHead/index.tsx:323-326 | an exclamation holding a happy word is happy, whatever angry words it also holds |
| Emotion.UpsetIsSad | src/components/GameBuddyHead/index.tsx:334-339 | without marks or happy words, a text saying "upset" is sad even when it also says angry, since the sad list is tried before the angry one |
| Player.StepExpression | src/components/GameBuddyHead/index.tsx:412-422 | a step keeps the expression before it unless its token is `?` or `!` or it is a strictly inner multiple of 20, and is then thinking, surprised or the final expression |
| Player.Poses | src/components/GameBuddyHead/index.tsx:402-435 | the first n steps of an utterance apply n poses |
| Player.Player.constructor | src/components/GameBuddyHead/index.tsx:495-497 | a new head is idle and shows its expression |
| Player.Player.SetExpressionState | src/components/GameBuddyHead/index.tsx:294-299 | records the expression, and applies its pose only when not talking |
| Player.Player.ClearAllTimeouts | src/components/GameBuddyHead/index.tsx:354-357 | every timer in the id list is cancelled and the list is emptied; nothing else changes |
| Player.Player.SpeakPhoneme | src/components/GameBuddyHead/index.tsx:302-310 | appends the pose the token resolves to in the current expression |
| Player.Player.AdjustExpression | src/components/GameBuddyHead/index.tsx:412-422 | `?` thinks, `!` surprises, a strictly inner index divisible by 20 returns to the final expression, otherwise nothing changes |
| Player.Player.ProcessNextPhoneme | src/components/GameBuddyHead/index.tsx:402-435 | past the end: stops talking and shows the final expression, setting no timer; otherwise shows token i in step i's expression, advances, and sets exactly one timer for the token's delay |
| Player.Player.Step | src/components/GameBuddyHead/index.tsx:411-434 | a step shows the next token in the adjusted expression, advances the index and sets one timer whose id joins the id list |
| Player.Player.SpeakPhrase | src/components/GameBuddyHead/index.tsx:360-440 | the token list is `Tokens(text)`, the expression is `FinalExpression`, the first pose is shown at once, and no timer pending before is pending after |
| Player.Player.Prepare | src/components/GameBuddyHead/index.tsx:372-379 | an utterance's expression is `FinalExpression` and its token list is exactly `Tokens(text)`, never empty |
| Player.Player.FireStep | src/components/GameBuddyHead/index.tsx:402-435 | a cancelled or spent timer does nothing; the pending one runs the next step; the last step leaves the log equal to the utterance's poses plus the final expression, with the scheduled time equal to the sum of the delays |
| Player.Player.Stop | src/components/GameBuddyHead/index.tsx:453-461 | cancels every timer, stops talking and shows the prop expression, leaving the current expression alone |
| Player.Player.OnChatResponse | src/components/GameBuddyHead/index.tsx:500-513 | a non-empty message is spoken at once with its own expression or the head's: talking, the token list `Tokens(message)`, index 1, one pose applied and one timer pending; an empty one changes nothing |
| Player.Player.OnSpeakingEffect | src/components/GameBuddyHead/index.tsx:446-462 | a new message while speaking is spoken at once (talking, its tokens, index 1, one pose, one timer) and remembered; a repeated or empty one changes nothing; not speaking stops the head |
| Player.Player.OnMessageEffect | src/components/GameBuddyHead/index.tsx:475-481 | a non-blank message other than the last one spoken is spoken at once (talking, its tokens, index 1, one pose, one timer), without being remembered; otherwise nothing changes |
| Player.ExpressionRange | src/components/GameBuddyHead/index.tsx:412-422 | during an utterance the expression is always the final one, thinking or surprised |
| Player.MarkExpression | src/components/GameBuddyHead/index.tsx:413-416 | the step showing `?` is in thinking and the step showing `!` is in surprised |
| Player.TokenDelay | src/components/GameBuddyHead/index.tsx:385-399 | a token of the alphabet waits 100, 120, 180 or 250 ms, and 180 exactly when it is a single vowel |
| Player.PosesInOrder | src/components/GameBuddyHead/index.tsx:425-434 | pose i is token i resolved in step i's expression, and a shorter run's poses are a prefix of a longer run's |
| Player.RunToEnd | src/components/GameBuddyHead/index.tsx:402-435 | firing the pending timer until idle applies exactly the rest of the utterance and schedules the sum of all delays |
| Player.SpeakToEnd | src/components/GameBuddyHead/index.tsx:360-440 | an utterance run to its end applies exactly its poses and then its final expression, and ends idle |
| Player.Supersede | src/components/GameBuddyHead/index.tsx:360-440 | after a second utterance starts, the first one's pending timer does nothing: only one pose of the first is ever shown |
| LlmClient.Temperature | src/utils/llmClient.ts:76-156 | an explicit temperature is sent unchanged; only a missing one becomes 0.7 |
| LlmClient.MaxTokens | src/utils/llmClient.ts:77-156 | an explicit token limit is sent unchanged; only a missing one becomes 1000 |
| LlmClient.ApiVersion | src/utils/llmClient.ts:101 | the version is never empty; a non-empty configured version is used unchanged; it is 2023-05-15 exactly when none, an empty one or that one was configured |
| LlmClient.Messages | src/utils/llmClient.ts:62-99 | the message list is the history in order followed by the new user message |
| LlmClient.BuildAnthropicPrompt | src/utils/llmClient.ts:133-143 | the prompt loop produces `AnthropicPrompt(history, message)` |
| LlmClient.AnthropicRequest | src/utils/llmClient.ts:145-158 | the completion request carries the prompt and the single stop sequence `\n\nHuman:` |
| LlmClient.SendMessageRequest | src/utils/llmClient.ts:40-48 | an error exactly for a provider other than openai, azure and anthropic, naming it; chat providers get `Messages`, Anthropic gets the prompt, Azure the deployment URL |
| LlmClient.SendMessageToLLM | src/utils/llmClient.ts:34-54 | the dispatch returns the request `SendMessageRequest` describes |
| LlmClient.HistoryPromptAppend | src/utils/llmClient.ts:135-141 | the prompt of two histories in a row is the concatenation of their prompts |
| LlmClient.HistoryPromptAt | src/utils/llmClient.ts:135-141 | each history entry's turn appears between the prompts of the entries before and after it |
| LlmClient.AnthropicPrompt | src/utils/llmClient.ts:133-143 | the prompt starts with the history's prompt and ends with the new message as a Human turn and then `\n\nAssistant:` |
| LlmClient.AzureUrl | src/utils/llmClient.ts:101-102 | the Azure URL starts with the endpoint and ends with the query naming the version |
| HomePage.MockReply | app/page.tsx:86-95 | the mock reply is the greeting, the well-being reply, the question reply or the echo; hello or hi anywhere gives the greeting; otherwise "how are you" gives the well-being reply |
| HomePage.Home.constructor | app/page.tsx:10-15 | a new page is neutral, not speaking, unconfigured, with no history |
| HomePage.Home.SaveConfig | app/page.tsx:18-25 | the configuration is stored and marked configured; nothing else changes |
| HomePage.Home.HandleSendMessage | app/page.tsx:64-120 | the request uses the history from before the message; a failure gives the apology, sad, not speaking, and a history holding the user turn; otherwise both turns are appended, the expression is the reply's, and a stop timer of 50 ms per character is set |
| HomePage.Home.Succeed | app/page.tsx:98-111 | the reply sets the expression, both turns join the history, and a stop timer of 50 ms per character is set |
| HomePage.Home.Fail | app/page.tsx:114-119 | the apology is returned, the face is sad, the head does not speak, and the history keeps the user turn |
| HomePage.Home.OnChatResponse | app/page.tsx:124-135 | the message's expression, speaking, and a stop timer of 50 ms per character |
| HomePage.DetermineExpression | app/page.tsx:42-61 | the page never looks angry |
| HomePage.DeterminePrecedence | app/page.tsx:42-61 | read as sets of cue words: a happy cue beats sad, sad beats thinking, thinking beats surprised; each result exactly when one of its cues occurs and no earlier list's does; neutral exactly when no cue of any list occurs |
| HomePage.HiQuirk | app/page.tsx:45 | any message containing a piece that contains "hi" is happy |
| HomePage.ThinkIsHappy | app/page.tsx:42-61 | "think", "this" and "which" make a message happy, so the think cue can never give thinking |
| HomePage.DetermineIgnoresCase | app/page.tsx:43 | upper-casing a message does not change its expression |
| HomePage.EchoWhenPlain | app/page.tsx:86-95 | a message without a greeting, "how are you" or `?` is echoed |
| HomePage.QuestionWhenAsked | app/page.tsx:86-92 | a message with `?` and no greeting or "how are you" gets the question reply |
| HomePage.ThisIsAGreeting | app/page.tsx:87-88 | a message saying "this" gets the greeting, because "hi" is a bare substring test |
| ChatWithHead.SpeakingDuration | src/components/ChatWithHead/index.tsx:52 | the duration lies in [1000, 5000] and equals 50·length exactly when 20 ≤ length ≤ 100 |
| ChatWithHead.HandleChatResponse | src/components/ChatWithHead/index.tsx:42-56 | the head speaks with the message's expression for `SpeakingDuration` of the message length, so 1 to 5 seconds; a missing message counts as empty |
| ChatWithHead.SendMessage | src/components/ChatWithHead/index.tsx:66-88 | the head thinks, and the reply is one of the four templates and quotes the message |
| ChatWithHead.TemplateQuotes | src/components/ChatWithHead/index.tsx:76-81 | every template holds the message in double quotes |
| ChatWithHead.AnalyzeMessage | src/components/ChatWithHead/index.tsx:22-38 | the chat component never looks angry |
| ChatWithHead.AnalyzePrecedence | src/components/ChatWithHead/index.tsx:22-38 | read as sets of cue words: a sad cue beats happy, happy beats thinking, thinking beats surprised; each result exactly when one of its cues occurs and no earlier list's does; neutral exactly when no cue of any list occurs |
| ChatWithHead.AnalyzeIgnoresCase | src/components/ChatWithHead/index.tsx:25 | upper-casing a message does not change its expression |
| ChatWithHead.SorryIsSad | src/components/ChatWithHead/index.tsx:27-28 | a message saying sorry is sad, whatever else it says |
| ChatWithHead.MissingMessage | src/components/ChatWithHead/index.tsx:43-52 | a response event without a message gives neutral and one second of speaking |
| ResizableGrip.ComputeResize | src/components/ResizableGrip/index.tsx:33-42 | a reported pair respects both minimums and sums to the container height; one is reported exactly when the minimums fit and the pointer leaves room for the chat |
| ResizableGrip.ExactSplit | src/components/ResizableGrip/index.tsx:33-41 | a pointer between the minimums splits the container at the pointer |
| ResizableGrip.ClampedHead | src/components/ResizableGrip/index.tsx:36-41 | a pointer above the head minimum reports the minimum head |
| ResizableGrip.ImpossibleFit | src/components/ResizableGrip/index.tsx:36-41 | a container smaller than both minimums together is never resized |
| ResizableGrip.Grip.constructor | src/components/ResizableGrip/index.tsx:11-17 | unset minimums are 150, and the grip starts not dragging |
| ResizableGrip.Grip.MouseDown | src/components/ResizableGrip/index.tsx:20-23 | starts dragging |
| ResizableGrip.Grip.MouseUp | src/components/ResizableGrip/index.tsx:45-47 | stops dragging |
| ResizableGrip.Grip.MouseMove | src/components/ResizableGrip/index.tsx:26-43 | reports nothing unless dragging with a known container, and then exactly the computed pair when it fits |

## Left out

- Writing shapes to the DOM (`applyMouthShape`): each write is one entry in the player's pose log.
- React's rendering:
  - State setters take effect at once. A real `processNextPhoneme` reads the `isTalking` and
    `currentExpression` of the render that created it. With those stale values, the expression
    changes during an utterance could show poses, and `.` could show an older expression.
  - The clean-up the speaking effect runs before each re-run is not modelled. It clears the
    pending timer of an utterance in progress.
- Browser timers: the player's timers are ids in a set, and the pages' `setSpeaking(false)`
  timers are a list of delays. Nothing models time passing.
- The `chatResponse` event bus: each listener is a method the event calls directly.
- The cleared `phonemeIntervalRef` interval, which nothing in the engine sets.
- `console.log` and `console.error`.
- Unicode: upper- and lower-casing cover ASCII letters only, and whitespace covers ASCII space,
  tab, line feed, vertical tab, form feed and carriage return. String lengths count characters,
  not UTF-16 units.
- `fetch`, HTTP status handling, JSON parsing and the trimming of the reply in the LLM client.
  The model builds the request; the page receives the LLM's answer as a parameter.
- The page's copy of the configuration in local storage, its loading on start-up, and the
  one-second wait before a mock reply in both the page and the chat component.
- The catch branch of `sendMessage` in the chat component: nothing in its body can throw.
- Emotion.DetectEmotion: it is stated through general lemmas, not through worked examples.
  Concrete literal texts through the whole classifier are too costly for the verifier.
- Playback.ResolvePose: the phoneme table is looked up among its own keys only. The source
  indexes an object literal, so an inherited property name such as `constructor` or
  `toString` would count as a key there. The sequencer never emits such a token.
- Fractional pixel coordinates in the resize grip: positions are integers.
- Rendering components (the SVG and 3D heads), the chat form, configuration forms, routing,
  layout and the API route are not part of this model.
