/**
 * What the player shows for a token, and for how long, in src/components/GameBuddyHead/index.tsx:
 * the two mouth-shape tables (lines 12-44), the pose a token resolves to (`speakPhoneme`,
 * lines 302-310) and the delay before the next token (`getPhonemeSpeed`, lines 385-399).
 *
 * Applying a shape writes style properties on four DOM nodes; here it is the `Pose` that names
 * the table entry applied, and `PoseShape` gives that entry's numbers.
 */
module Playback {
  import opened Common
  import opened Text

  /** The six expressions the head can take. */
  datatype Expression = Neutral | Happy | Sad | Thinking | Surprised | Angry

  /** One mouth shape: sizes in pixels, and two CSS values kept as their text. */
  datatype Shape = Shape(
    width: int, height: int, borderRadius: string,
    tongueWidth: int, tongueHeight: int, tongueBottom: int,
    teethTopY: int, teethBottomY: int, teethWidth: string)

  /** The entry of one table the mouth is set to: a phoneme shape by key, or an expression shape. */
  datatype Pose = PhonemePose(key: string) | ExpressionPose(expression: Expression)

  /** The keys of the phoneme table: five vowels, fourteen consonants and `rest`. */
  const PhonemeKeys: set<string> :=
    {"A", "E", "I", "O", "U", "M", "B", "P", "F", "V", "L", "T", "D", "S", "Z", "N", "R", "K", "G", "rest"}

  /** The phoneme table. */
  function PhonemeShape(key: string): (r: Option<Shape>)
    ensures r.Some? <==> key in PhonemeKeys
  {
    match key
    case "A" => Some(Shape(50, 35, "40%", 28, 14, -4, -12, 12, "120%"))
    case "E" => Some(Shape(65, 25, "15px", 35, 10, -6, -8, 8, "125%"))
    case "I" => Some(Shape(40, 20, "15px", 20, 8, -4, -6, 6, "115%"))
    case "O" => Some(Shape(40, 40, "50%", 22, 16, -2, -14, 14, "115%"))
    case "U" => Some(Shape(35, 35, "50%", 18, 14, -2, -12, 12, "110%"))
    case "M" => Some(Shape(55, 10, "5px", 0, 0, 0, -4, 4, "110%"))
    case "B" => Some(Shape(55, 10, "5px", 0, 0, 0, -4, 4, "110%"))
    case "P" => Some(Shape(55, 10, "5px", 0, 0, 0, -4, 4, "110%"))
    case "F" => Some(Shape(55, 20, "5px", 0, 0, 0, -8, 8, "120%"))
    case "V" => Some(Shape(55, 20, "5px", 0, 0, 0, -8, 8, "120%"))
    case "L" => Some(Shape(50, 25, "15px", 30, 20, -8, -8, 8, "115%"))
    case "T" => Some(Shape(50, 15, "10px", 25, 8, -6, -6, 6, "115%"))
    case "D" => Some(Shape(50, 15, "10px", 25, 8, -6, -6, 6, "115%"))
    case "S" => Some(Shape(50, 15, "10px", 25, 8, -6, -6, 6, "115%"))
    case "Z" => Some(Shape(50, 15, "10px", 25, 8, -6, -6, 6, "115%"))
    case "N" => Some(Shape(50, 15, "10px", 25, 8, -6, -6, 6, "115%"))
    case "R" => Some(Shape(50, 20, "15px", 30, 12, -6, -8, 8, "115%"))
    case "K" => Some(Shape(50, 20, "15px", 30, 12, -8, -8, 8, "115%"))
    case "G" => Some(Shape(50, 20, "15px", 30, 12, -8, -8, 8, "115%"))
    case "rest" => Some(Shape(30, 10, "5px", 20, 6, -4, -4, 4, "105%"))
    case _ => None
  }

  /** The expression table. */
  function ExpressionShape(e: Expression): Shape {
    match e
    case Neutral => Shape(60, 25, "15px", 30, 12, -4, -6, 6, "110%")
    case Happy => Shape(70, 35, "15px 15px 40px 40px", 35, 16, -2, -10, 10, "115%")
    case Sad => Shape(65, 30, "40px 40px 15px 15px", 25, 10, -6, -8, 8, "115%")
    case Surprised => Shape(45, 45, "50%", 25, 18, 0, -14, 14, "110%")
    case Angry => Shape(60, 25, "5px", 30, 10, -6, -8, 8, "120%")
    case Thinking => Shape(50, 20, "15px", 25, 8, -4, -6, 6, "110%")
  }

  /** A pose names an entry that exists. */
  predicate KnownPose(p: Pose) {
    p.ExpressionPose? || p.key in PhonemeKeys
  }

  /** The shape a known pose applies. */
  function PoseShape(p: Pose): (r: Shape)
    requires KnownPose(p)
    ensures p.ExpressionPose? ==> r == ExpressionShape(p.expression)
    ensures p.PhonemePose? ==> PhonemeShape(p.key) == Some(r)
  {
    match p
    case ExpressionPose(e) => ExpressionShape(e)
    case PhonemePose(k) => PhonemeShape(k).value
  }

  /**
   * `speakPhoneme`: the pause token `.` (and a lone space) shows the current expression, a key of
   * the phoneme table shows that shape, and any other token the sequencer emits shows `rest`.
   * The table lookup is modelled as a lookup among its own keys only.
   */
  function ResolvePose(t: string, current: Expression): (p: Pose)
    ensures KnownPose(p)
    ensures p == ExpressionPose(current) <==> t == "." || t == " "
    ensures p.PhonemePose? && p.key != "rest" ==> p.key == t
    ensures t in PhonemeKeys ==> p == PhonemePose(t)
  {
    if t == "." || t == " " then ExpressionPose(current)
    else if t in PhonemeKeys then PhonemePose(t)
    else PhonemePose("rest")
  }

  /**
   * `getPhonemeSpeed`: milliseconds until the next token. The vowel test is `'AEIOU'.includes`,
   * a substring test, so runs such as `AE` and the empty string count as vowels too.
   */
  function Delay(t: string): (r: nat)
    ensures r in {100, 120, 180, 200, 250, 300}
  {
    if t == "." then 100
    else if t == ".." then 200
    else if t == "..." then 300
    else if t == "?" || t == "!" then 250
    else if Contains("AEIOU", t) then 180
    else 120
  }

  /**
   * The sum of the delays of a token list: an utterance of n tokens takes between 100 and 300
   * milliseconds per token.
   */
  function TotalDelay(ts: seq<string>): (r: nat)
    ensures 100 * |ts| <= r <= 300 * |ts|
    decreases |ts|
  {
    if ts == [] then 0 else TotalDelay(ts[..|ts| - 1]) + Delay(ts[|ts| - 1])
  }

  // ---------------------------------------------------------------------------------------------
  // Properties

  /** The letters that have a shape of their own. */
  const ShapedLetters: string := "AEIOUMBPFVLTDSZNRKG"

  /** Every key of the phoneme table is `rest` or one shaped letter. */
  lemma PhonemeKeysAreLetters(k: string)
    requires k in PhonemeKeys
    ensures k == "rest" || (|k| == 1 && k[0] in ShapedLetters)
  {
  }

  /**
   * The tokens shown as `rest`: any one character that is not a shaped letter, a pause or a
   * space (so `?`, `!`, H, W, Y, C and every digit), and the longer pause tokens; every token
   * the sequencer emits is one of these, a shaped letter, or `.`.
   */
  lemma RestTokens(t: string, current: Expression)
    requires t != "." && t != " " && t != "rest"
    requires |t| != 1 || t[0] !in ShapedLetters
    ensures ResolvePose(t, current) == PhonemePose("rest")
  {
    if t in PhonemeKeys {
      PhonemeKeysAreLetters(t);
    }
  }

  /** Closed-lip consonants share one shape, as do the lip-teeth and the tongue-tip groups. */
  lemma SharedShapes()
    ensures PhonemeShape("M") == PhonemeShape("B") == PhonemeShape("P")
    ensures PhonemeShape("F") == PhonemeShape("V")
    ensures PhonemeShape("T") == PhonemeShape("D") == PhonemeShape("S") == PhonemeShape("Z")
      == PhonemeShape("N")
    ensures PhonemeShape("K") == PhonemeShape("G")
  {
  }

  /** The only substrings of `AEIOU` of length one or two. */
  lemma VowelPieces(t: string)
    requires 1 <= |t| <= 2 && Contains("AEIOU", t)
    ensures t in {"A", "E", "I", "O", "U", "AE", "EI", "IO", "OU"}
  {
    var i := ContainsWitness("AEIOU", t);
    if |t| == 1 {
      assert t == ["AEIOU"[i]];
    } else {
      assert t == ["AEIOU"[i], "AEIOU"[i + 1]];
    }
  }

  /** A one-character token is a vowel for the delay test exactly when it is one of AEIOU. */
  lemma DelayOfLetter(c: char)
    ensures Delay([c]) == 180 <==> c in "AEIOU"
  {
    if c in "AEIOU" {
      var i :| 0 <= i < 5 && "AEIOU"[i] == c;
      ContainsAt("AEIOU", [c], i);
    }
    if Contains("AEIOU", [c]) {
      VowelPieces([c]);
    }
  }

  /** The digraphs TH, CH and SH are not substrings of AEIOU, so they get the consonant delay. */
  lemma DelayOfDigraph(t: string)
    requires t in {"TH", "CH", "SH"}
    ensures Delay(t) == 120
  {
    if Contains("AEIOU", t) {
      VowelPieces(t);
    }
  }

  /** The total is additive over a concatenation of token lists. */
  lemma {:induction false} TotalDelayAppend(a: seq<string>, b: seq<string>)
    ensures TotalDelay(a + b) == TotalDelay(a) + TotalDelay(b)
    decreases |b|
  {
    if b == [] {
      assert a + b == a;
    } else {
      assert (a + b)[..|a + b| - 1] == a + b[..|b| - 1];
      TotalDelayAppend(a, b[..|b| - 1]);
    }
  }
}
