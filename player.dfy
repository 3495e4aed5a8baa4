/**
 * The utterance player of src/components/GameBuddyHead/index.tsx (lines 294-300, 350-440 and
 * 446-462): `speakPhrase` starts an utterance, `processNextPhoneme` shows one token and sets a
 * timer for the next, `clearAllTimeouts` cancels every timer the player has set, and the stop
 * branch of the speaking effect returns the mouth to an expression.
 *
 * The browser's timers are explicit: `pending` holds the ids of the timers that are set and have
 * neither fired nor been cleared, and `FireStep(id)` is the browser running timer `id`; a timer
 * not pending does nothing when "fired". The mouth is the `log` of poses applied, in order.
 * React state is read as plain fields, so a value set is seen by the next statement.
 */
module Player {
  import opened Common
  import opened Text
  import Sequencer
  import opened Playback
  import opened Emotion

  // ---------------------------------------------------------------------------------------------
  // Specification of an utterance

  /** The expression in force while step i of `ts` shows its token, given the one before it. */
  function StepExpression(ts: seq<string>, final: Expression, i: nat, before: Expression): (r: Expression)
    requires i < |ts|
    ensures r in {before, final, Thinking, Surprised}
    ensures r != before ==> ts[i] == "?" || ts[i] == "!" || (0 < i < |ts| - 1 && i % 20 == 0)
  {
    if ts[i] == "?" then Thinking
    else if ts[i] == "!" then Surprised
    else if 0 < i < |ts| - 1 && i % 20 == 0 then final
    else before
  }

  /** The expression in force after the first n steps; an utterance starts in its final expression. */
  function ExpressionAfter(ts: seq<string>, final: Expression, n: nat): Expression
    requires n <= |ts|
  {
    if n == 0 then final else StepExpression(ts, final, n - 1, ExpressionAfter(ts, final, n - 1))
  }

  /** The poses the first n steps apply: each step's token, resolved in that step's expression. */
  function Poses(ts: seq<string>, final: Expression, n: nat): (r: seq<Pose>)
    requires n <= |ts|
    ensures |r| == n
  {
    if n == 0 then [] else Poses(ts, final, n - 1) + [ResolvePose(ts[n - 1], ExpressionAfter(ts, final, n))]
  }

  /** Everything an utterance applies when it runs to its end: its steps, then its final expression. */
  function Utterance(ts: seq<string>, final: Expression): seq<Pose> {
    Poses(ts, final, |ts|) + [ExpressionPose(final)]
  }

  // ---------------------------------------------------------------------------------------------
  // The player

  class Player {
    var isTalking: bool
    var currentExpression: Expression
    /** The utterance in progress: its expression, its tokens and the index of the next token. */
    var finalExpression: Expression
    var phonemeList: seq<string>
    var phonemeIndex: nat
    /** `timeoutIdsRef`: every timer id set since the last `ClearAllTimeouts`. */
    var timeoutIds: seq<nat>
    /** The browser's timers: set and neither fired nor cleared. */
    var pending: set<nat>
    var nextTimerId: nat
    /** Every pose applied to the mouth, oldest first. */
    var log: seq<Pose>
    /** `lastMessageRef`: the last message the speaking effect started. */
    var lastMessage: string
    /** The log as it was when the utterance in progress started. */
    ghost var start: seq<Pose>
    /** The milliseconds of delay the utterance in progress has set timers for. */
    ghost var scheduled: nat

    /** Between steps of an utterance: everything its steps so far applied, and nothing else. */
    ghost predicate InStep()
      reads this
    {
      && phonemeIndex <= |phonemeList|
      && currentExpression == ExpressionAfter(phonemeList, finalExpression, phonemeIndex)
      && log == start + Poses(phonemeList, finalExpression, phonemeIndex)
      && scheduled == TotalDelay(phonemeList[..phonemeIndex])
    }

    /**
     * The player is talking exactly when one timer is pending, the last one set, and then its
     * utterance has applied its first `phonemeIndex` steps; when idle, the mouth shows an
     * expression.
     */
    ghost predicate Valid()
      reads this
    {
      && (forall id :: id in timeoutIds ==> id < nextTimerId)
      && (forall id :: id in pending ==> id in timeoutIds)
      && (isTalking <==> pending != {})
      && (isTalking ==>
            && InStep() && phonemeIndex > 0
            && |timeoutIds| > 0 && pending == {timeoutIds[|timeoutIds| - 1]})
      && (!isTalking ==> |log| > 0 && log[|log| - 1].ExpressionPose?)
    }

    /**
     * The head has just started speaking `text` in expression `final`: the utterance's tokens are
     * `Tokens(text)`, it is talking, its first pose has been applied after `before`, and timer
     * `id` is the only one pending.
     */
    ghost predicate JustStarted(text: string, final: Expression, before: seq<Pose>, id: nat)
      reads this
    {
      && phonemeList == Sequencer.Tokens(text) && finalExpression == final
      && isTalking && phonemeIndex == 1
      && log == before + Poses(phonemeList, final, 1)
      && pending == {id}
    }

    /** A new head shows its expression (the initialising effect, lines 495-497). */
    constructor (expression: Expression)
      ensures Valid()
      ensures !isTalking && currentExpression == expression
      ensures log == [ExpressionPose(expression)] && pending == {}
    {
      isTalking := false;
      currentExpression := expression;
      finalExpression := expression;
      phonemeList := [];
      phonemeIndex := 0;
      timeoutIds := [];
      pending := {};
      nextTimerId := 0;
      log := [ExpressionPose(expression)];
      lastMessage := "";
      start := [];
      scheduled := 0;
    }

    /** `setExpressionState`: records the expression, and shows it only when not talking. */
    method SetExpressionState(e: Expression)
      modifies this
      ensures currentExpression == e
      ensures log == if isTalking then old(log) else old(log) + [ExpressionPose(e)]
      ensures isTalking == old(isTalking) && finalExpression == old(finalExpression)
      ensures phonemeList == old(phonemeList) && phonemeIndex == old(phonemeIndex)
      ensures timeoutIds == old(timeoutIds) && pending == old(pending)
      ensures nextTimerId == old(nextTimerId) && start == old(start) && scheduled == old(scheduled)
      ensures lastMessage == old(lastMessage)
    {
      currentExpression := e;
      if !isTalking {
        log := log + [ExpressionPose(e)];
      }
    }

    /** `clearAllTimeouts`: clears every timer in `timeoutIds` and forgets them all. */
    method ClearAllTimeouts()
      modifies this
      ensures pending == old(pending) - set id | id in old(timeoutIds)
      ensures timeoutIds == []
      ensures isTalking == old(isTalking) && currentExpression == old(currentExpression)
      ensures finalExpression == old(finalExpression) && phonemeList == old(phonemeList)
      ensures phonemeIndex == old(phonemeIndex) && nextTimerId == old(nextTimerId)
      ensures log == old(log) && lastMessage == old(lastMessage)
      ensures start == old(start) && scheduled == old(scheduled)
    {
      var ids := timeoutIds;
      var live := pending;
      for k := 0 to |ids|
        invariant live == pending - set id | id in ids[..k]
      {
        assert ids[..k + 1] == ids[..k] + [ids[k]];
        live := live - {ids[k]};
      }
      assert ids[..|ids|] == ids;
      pending := live;
      timeoutIds := [];
    }

    /** `window.setTimeout`: sets a timer with a fresh id, `delay` milliseconds from now. */
    method SetTimeout(delay: nat) returns (id: nat)
      modifies this
      ensures id == old(nextTimerId) && nextTimerId == id + 1
      ensures pending == old(pending) + {id} && scheduled == old(scheduled) + delay
      ensures isTalking == old(isTalking) && currentExpression == old(currentExpression)
      ensures finalExpression == old(finalExpression) && phonemeList == old(phonemeList)
      ensures phonemeIndex == old(phonemeIndex) && timeoutIds == old(timeoutIds)
      ensures log == old(log) && start == old(start) && lastMessage == old(lastMessage)
    {
      id := nextTimerId;
      nextTimerId := nextTimerId + 1;
      pending := pending + {id};
      scheduled := scheduled + delay;
    }

    /** `speakPhoneme`: shows the pose a token resolves to in the current expression. */
    method SpeakPhoneme(phoneme: string)
      modifies this
      ensures log == old(log) + [ResolvePose(phoneme, currentExpression)]
      ensures isTalking == old(isTalking) && currentExpression == old(currentExpression)
      ensures finalExpression == old(finalExpression) && phonemeList == old(phonemeList)
      ensures phonemeIndex == old(phonemeIndex) && timeoutIds == old(timeoutIds)
      ensures pending == old(pending) && nextTimerId == old(nextTimerId)
      ensures start == old(start) && scheduled == old(scheduled) && lastMessage == old(lastMessage)
    {
      log := log + [ResolvePose(phoneme, currentExpression)];
    }

    /**
     * The expression changes of a step, made while talking and so shown by no pose: `?` makes
     * the head think, `!` surprises it, and every twentieth token strictly inside the utterance
     * returns it to the utterance's expression.
     */
    method AdjustExpression(phoneme: string)
      requires isTalking && phonemeIndex < |phonemeList| && phoneme == phonemeList[phonemeIndex]
      modifies this
      ensures currentExpression ==
        old(StepExpression(phonemeList, finalExpression, phonemeIndex, currentExpression))
      ensures log == old(log) && isTalking == old(isTalking)
      ensures finalExpression == old(finalExpression) && phonemeList == old(phonemeList)
      ensures phonemeIndex == old(phonemeIndex) && timeoutIds == old(timeoutIds)
      ensures pending == old(pending) && nextTimerId == old(nextTimerId)
      ensures start == old(start) && scheduled == old(scheduled) && lastMessage == old(lastMessage)
    {
      if phoneme == "?" {
        SetExpressionState(Thinking);
      } else if phoneme == "!" {
        SetExpressionState(Surprised);
      } else if phonemeIndex > 0 && phonemeIndex < |phonemeList| - 1 {
        if phonemeIndex % 20 == 0 {
          SetExpressionState(finalExpression);
        }
      }
    }

    /**
     * `processNextPhoneme`: past the last token, stops talking and shows the final expression;
     * otherwise adjusts the expression for the token, shows the token's pose, and sets the timer
     * for the next step after the token's delay.
     */
    method ProcessNextPhoneme()
      requires InStep() && isTalking && pending == {}
      requires forall id :: id in timeoutIds ==> id < nextTimerId
      modifies this
      ensures finalExpression == old(finalExpression) && phonemeList == old(phonemeList)
      ensures start == old(start) && lastMessage == old(lastMessage)
      ensures old(phonemeIndex) == |phonemeList| ==>
        && !isTalking && pending == {} && currentExpression == finalExpression
        && log == old(log) + [ExpressionPose(finalExpression)]
        && scheduled == old(scheduled) && phonemeIndex == old(phonemeIndex)
      ensures old(phonemeIndex) < |phonemeList| ==>
        && isTalking && InStep() && phonemeIndex == old(phonemeIndex) + 1
        && log == old(log) + [ResolvePose(phonemeList[old(phonemeIndex)], currentExpression)]
        && pending == {old(nextTimerId)} && timeoutIds == old(timeoutIds) + [old(nextTimerId)]
      ensures forall id :: id in timeoutIds ==> id < nextTimerId
    {
      if phonemeIndex >= |phonemeList| {
        isTalking := false;
        SetExpressionState(finalExpression);
        return;
      }
      Step();
    }

    /** A step of `processNextPhoneme` that has a token to show. */
    method Step()
      requires InStep() && isTalking && pending == {} && phonemeIndex < |phonemeList|
      requires forall id :: id in timeoutIds ==> id < nextTimerId
      modifies this
      ensures finalExpression == old(finalExpression) && phonemeList == old(phonemeList)
      ensures start == old(start) && lastMessage == old(lastMessage)
      ensures isTalking && InStep() && phonemeIndex == old(phonemeIndex) + 1
      ensures log == old(log) + [ResolvePose(phonemeList[old(phonemeIndex)], currentExpression)]
      ensures pending == {old(nextTimerId)} && timeoutIds == old(timeoutIds) + [old(nextTimerId)]
      ensures forall id :: id in timeoutIds ==> id < nextTimerId
    {
      var phoneme := phonemeList[phonemeIndex];
      ghost var i := phonemeIndex;
      StepAdvances(phonemeList, finalExpression, i);
      AdjustExpression(phoneme);
      SpeakPhoneme(phoneme);
      ConcatAssociative(start, Poses(phonemeList, finalExpression, i),
        [ResolvePose(phoneme, currentExpression)]);
      var speed := Delay(phoneme);
      TotalDelayStep(phonemeList, i);
      phonemeIndex := phonemeIndex + 1;
      var timeoutId := SetTimeout(speed);
      timeoutIds := timeoutIds + [timeoutId];
    }

    /**
     * `speakPhrase`: cancels every timer, picks the utterance's expression, tokenizes the text
     * and runs the first step at once. No timer set before the call is pending after it.
     */
    method SpeakPhrase(text: string, requested: Expression)
      requires Valid()
      modifies this
      ensures Valid()
      ensures JustStarted(text, FinalExpression(requested, text), old(log), old(nextTimerId))
      ensures pending !! old(pending)
      ensures start == old(log) && lastMessage == old(lastMessage)
    {
      var final, list := Prepare(text, requested);
      ClearAllTimeouts();
      isTalking := true;
      Start(final, list);
    }

    /** The expression and the token list of an utterance, as `speakPhrase` computes them. */
    static method Prepare(text: string, requested: Expression) returns (final: Expression, list: seq<string>)
      ensures final == FinalExpression(requested, text)
      ensures list == Sequencer.Tokens(text) && |list| > 0
    {
      final := FinalExpression(requested, text);
      var phonemes := Sequencer.ConvertTextToPhonemes(text);
      list := Sequencer.Tokenize(phonemes);
      Sequencer.PhonemeListIsTokens(text);
    }

    /** The rest of `speakPhrase`, once the expression and the tokens are known. */
    method Start(final: Expression, list: seq<string>)
      requires isTalking && |list| > 0 && timeoutIds == [] && pending == {}
      modifies this
      ensures Valid()
      ensures phonemeList == list && finalExpression == final
      ensures isTalking && phonemeIndex == 1
      ensures log == old(log) + Poses(list, final, 1)
      ensures pending == {old(nextTimerId)} && nextTimerId > old(nextTimerId)
      ensures start == old(log) && lastMessage == old(lastMessage)
    {
      finalExpression := final;
      SetExpressionState(final);
      phonemeList := list;
      phonemeIndex := 0;
      start := log;
      scheduled := 0;
      assert phonemeList[..0] == [];
      ProcessNextPhoneme();
    }

    /**
     * The browser runs timer `id`. A timer that was cleared or has already run does nothing; the
     * pending one runs the next step of the utterance in progress.
     */
    method FireStep(id: nat)
      requires Valid()
      modifies this
      ensures Valid()
      ensures id !in old(pending) ==>
        && log == old(log) && pending == old(pending) && isTalking == old(isTalking)
        && phonemeIndex == old(phonemeIndex) && currentExpression == old(currentExpression)
      ensures id in old(pending) && old(phonemeIndex) < |phonemeList| ==>
        && isTalking && phonemeIndex == old(phonemeIndex) + 1
        && log == old(log) + [ResolvePose(phonemeList[old(phonemeIndex)], currentExpression)]
      ensures id in old(pending) && old(phonemeIndex) == |phonemeList| ==>
        && !isTalking && log == old(log) + [ExpressionPose(finalExpression)]
        && log == start + Utterance(phonemeList, finalExpression)
        && scheduled == TotalDelay(phonemeList)
      ensures finalExpression == old(finalExpression) && phonemeList == old(phonemeList)
      ensures start == old(start) && lastMessage == old(lastMessage)
    {
      if id in pending {
        pending := pending - {id};
        assert phonemeList[..|phonemeList|] == phonemeList;
        ProcessNextPhoneme();
      }
    }

    /**
     * The stop branch of the speaking effect: cancels every timer, stops talking and shows the
     * expression the head was given, which need not be the current one.
     */
    method Stop(expression: Expression)
      requires Valid()
      modifies this
      ensures Valid()
      ensures !isTalking && pending == {}
      ensures log == old(log) + [ExpressionPose(expression)]
      ensures currentExpression == old(currentExpression) && lastMessage == old(lastMessage)
    {
      ClearAllTimeouts();
      isTalking := false;
      log := log + [ExpressionPose(expression)];
    }

    /**
     * The `chatResponse` listener: a non-empty message is spoken with the expression it carries,
     * or with the head's own expression when it carries none.
     */
    method OnChatResponse(message: string, carried: Option<Expression>, own: Expression)
      requires Valid()
      modifies this
      ensures Valid()
      ensures message == "" ==> unchanged(this)
      ensures message != "" ==>
        && JustStarted(message, FinalExpression(carried.GetOr(own), message), old(log), old(nextTimerId))
        && pending !! old(pending)
    {
      if message != "" {
        SpeakPhrase(message, carried.GetOr(own));
      }
    }

    /**
     * The speaking effect: while speaking, a message other than the last one it started is
     * spoken and remembered; when not speaking, the head stops.
     */
    method OnSpeakingEffect(speaking: bool, message: string, expression: Expression)
      requires Valid()
      modifies this
      ensures Valid()
      ensures speaking && message != "" && message != old(lastMessage) ==>
        && lastMessage == message
        && JustStarted(message, FinalExpression(expression, message), old(log), old(nextTimerId))
        && pending !! old(pending)
      ensures speaking && (message == "" || message == old(lastMessage)) ==> unchanged(this)
      ensures !speaking ==>
        && !isTalking && pending == {} && log == old(log) + [ExpressionPose(expression)]
        && lastMessage == old(lastMessage)
    {
      if speaking && message != "" && message != lastMessage {
        lastMessage := message;
        SpeakPhrase(message, expression);
      } else if !speaking {
        Stop(expression);
      } else {
        assert message == "" || message == lastMessage;
      }
    }

    /**
     * The message effect: a message that is not blank and is not the last one the speaking effect
     * started is spoken, and is not remembered.
     */
    method OnMessageEffect(message: string, expression: Expression)
      requires Valid()
      modifies this
      ensures Valid() && lastMessage == old(lastMessage)
      ensures Trim(message) != "" && message != lastMessage ==>
        && JustStarted(message, FinalExpression(expression, message), old(log), old(nextTimerId))
        && pending !! old(pending)
      ensures Trim(message) == "" || message == lastMessage ==> unchanged(this)
    {
      if Trim(message) != "" && message != lastMessage {
        SpeakPhrase(message, expression);
      }
    }
  }

  // ---------------------------------------------------------------------------------------------
  // Properties

  /** One step extends the expression and the poses of the steps before it. */
  lemma StepAdvances(ts: seq<string>, final: Expression, i: nat)
    requires i < |ts|
    ensures ExpressionAfter(ts, final, i + 1)
      == StepExpression(ts, final, i, ExpressionAfter(ts, final, i))
    ensures Poses(ts, final, i + 1)
      == Poses(ts, final, i) + [ResolvePose(ts[i], ExpressionAfter(ts, final, i + 1))]
  {
  }

  lemma TotalDelayStep(ts: seq<string>, i: nat)
    requires i < |ts|
    ensures TotalDelay(ts[..i + 1]) == TotalDelay(ts[..i]) + Delay(ts[i])
  {
    assert ts[..i + 1][..i] == ts[..i];
  }

  /**
   * During an utterance the expression is always its final one, thinking (after a `?`) or
   * surprised (after a `!`).
   */
  lemma {:induction false} ExpressionRange(ts: seq<string>, final: Expression, n: nat)
    requires n <= |ts|
    ensures ExpressionAfter(ts, final, n) in {final, Thinking, Surprised}
    decreases n
  {
    if n > 0 {
      ExpressionRange(ts, final, n - 1);
    }
  }

  /** The expression a step shows a `?` or `!` in is fixed by the mark. */
  lemma MarkExpression(ts: seq<string>, final: Expression, i: nat)
    requires i < |ts|
    ensures ts[i] == "?" ==> ExpressionAfter(ts, final, i + 1) == Thinking
    ensures ts[i] == "!" ==> ExpressionAfter(ts, final, i + 1) == Surprised
  {
  }

  /**
   * The delays an utterance has: the sequencer never emits `..` or `...`, so no token waits 200
   * or 300 milliseconds, and a token waits 180 exactly when it is a single vowel.
   */
  lemma TokenDelay(t: string)
    requires Sequencer.IsToken(t)
    ensures Delay(t) in {100, 120, 180, 250}
    ensures Delay(t) == 180 <==> |t| == 1 && t[0] in "AEIOU"
  {
    if |t| == 1 {
      assert t == [t[0]];
      DelayOfLetter(t[0]);
    } else {
      DelayOfDigraph(t);
    }
  }

  /**
   * Tokens are applied strictly in order: pose i of an utterance is token i resolved in the
   * expression of step i, and a shorter run is a prefix of a longer one.
   */
  lemma {:induction false} PosesInOrder(ts: seq<string>, final: Expression, n: nat, i: nat)
    requires i < n <= |ts|
    ensures Poses(ts, final, n)[i] == ResolvePose(ts[i], ExpressionAfter(ts, final, i + 1))
    ensures Poses(ts, final, i + 1) <= Poses(ts, final, n)
    decreases n
  {
    if i < n - 1 {
      PosesInOrder(ts, final, n - 1, i);
    }
  }

  /**
   * The steps of an utterance run to completion (no new utterance and no stop in between): the
   * player applies exactly the utterance's poses and then its final expression, ends idle, and
   * has set timers for exactly the sum of the tokens' delays.
   */
  method SpeakToEnd(p: Player, text: string, requested: Expression)
    requires p.Valid()
    modifies p
    ensures p.Valid() && !p.isTalking && p.pending == {}
    ensures p.log == old(p.log) + Utterance(Sequencer.Tokens(text), FinalExpression(requested, text))
    ensures p.scheduled == TotalDelay(Sequencer.Tokens(text))
  {
    p.SpeakPhrase(text, requested);
    RunToEnd(p);
  }

  /** Fires the pending timer until the utterance in progress ends. */
  method RunToEnd(p: Player)
    requires p.Valid() && p.isTalking
    modifies p
    ensures p.Valid() && !p.isTalking && p.pending == {}
    ensures p.phonemeList == old(p.phonemeList) && p.finalExpression == old(p.finalExpression)
    ensures p.log == old(p.start) + Utterance(p.phonemeList, p.finalExpression)
    ensures p.scheduled == TotalDelay(p.phonemeList)
  {
    while p.isTalking
      invariant p.Valid() && p.start == old(p.start)
      invariant p.phonemeList == old(p.phonemeList) && p.finalExpression == old(p.finalExpression)
      invariant !p.isTalking ==> p.log == p.start + Utterance(p.phonemeList, p.finalExpression)
      invariant !p.isTalking ==> p.scheduled == TotalDelay(p.phonemeList) && p.pending == {}
      decreases if p.isTalking then |p.phonemeList| - p.phonemeIndex + 1 else 0
    {
      var id := p.timeoutIds[|p.timeoutIds| - 1];
      p.FireStep(id);
    }
  }

  /**
   * A second utterance supersedes the first: once `b` starts, the timer `a` left pending does
   * nothing when it comes due, so after `a`'s first step only `b`'s poses are applied.
   */
  method Supersede(p: Player, a: string, b: string, requested: Expression)
    requires p.Valid()
    modifies p
    ensures p.Valid() && p.phonemeList == Sequencer.Tokens(b)
    ensures (Sequencer.TokensSolid(a); Sequencer.TokensSolid(b);
      p.log == old(p.log) + Poses(Sequencer.Tokens(a), FinalExpression(requested, a), 1)
                          + Poses(Sequencer.Tokens(b), FinalExpression(requested, b), 1))
  {
    Sequencer.TokensSolid(a);
    Sequencer.TokensSolid(b);
    ghost var first := Poses(Sequencer.Tokens(a), FinalExpression(requested, a), 1);
    ghost var second := Poses(Sequencer.Tokens(b), FinalExpression(requested, b), 1);
    p.SpeakPhrase(a, requested);
    assert p.log == old(p.log) + first;
    var stale := p.timeoutIds[|p.timeoutIds| - 1];
    p.SpeakPhrase(b, requested);
    assert stale !in p.pending;
    p.FireStep(stale);
    ConcatAssociative(old(p.log), first, second);
  }
}
