/**
 * The text-to-token sequencer of src/components/GameBuddyHead/index.tsx: `convertTextToPhonemes`
 * (lines 48-255) and the split of its result into the token list (line 379).
 *
 * A text is upper-cased and split on whitespace runs into words. Each word is cleaned to its
 * letters and digits; a cleaned word found in the lexicon yields that entry's tokens, any other
 * is spelled out one token per letter and `N`, digit per digit. Every word, including the empty
 * words that leading or trailing whitespace produces, then gets a pause group chosen by its last
 * raw character.
 */
module Sequencer {
  import opened Common
  import opened Text
  import Lexicon

  // ---------------------------------------------------------------------------------------------
  // Specification of one word

  /** `word.replace(/[^A-Z0-9]/g, '')`: the letters and digits of an upper-cased word, in order. */
  function Clean(word: string): (r: string)
    ensures forall i :: 0 <= i < |r| ==> IsUpperLetter(r[i]) || IsDigit(r[i])
    decreases |word|
  {
    if word == [] then []
    else if IsUpperLetter(word[0]) || IsDigit(word[0]) then [word[0]] + Clean(word[1..])
    else Clean(word[1..])
  }

  predicate IsVowel(c: char) { c in "AEIOU" }

  /** The tokens spoken for one character of a word outside the lexicon. */
  function CharTokens(c: char): seq<string> {
    if IsVowel(c) then [[c]]
    else if IsUpperLetter(c) then [[c]]
    else if IsDigit(c) then ["N", [c]]
    else []
  }

  /** The fallback for a cleaned word outside the lexicon: each character's tokens, in order. */
  function Spell(w: string): (r: seq<string>)
    ensures forall i :: 0 <= i < |r| ==> |r[i]| == 1
    decreases |w|
  {
    if w == [] then [] else Spell(w[..|w| - 1]) + CharTokens(w[|w| - 1])
  }

  /** The pause group for a raw (upper-cased, uncleaned) word, chosen by its last character. */
  function PauseTokens(word: string): (r: seq<string>)
    ensures |r| > 0 && r[|r| - 1] == "."
  {
    if word != [] && word[|word| - 1] in ".!?,;:" then
      var last := word[|word| - 1];
      if last == '?' then ["?", ".", "."]
      else if last == '!' then ["!", ".", "."]
      else if last == ',' then ["."]
      else if last == '.' then [".", ".", "."]
      else if last == ';' then [".", "."]
      else if last == ':' then [".", "."]
      else []
    else ["."]
  }

  /** The tokens one raw word contributes: its lexicon entry or spelling, then its pause group. */
  function WordTokens(word: string): (r: seq<string>)
    ensures |r| > 0 && r[|r| - 1] == "."
  {
    var clean := Clean(word);
    var body := match Lexicon.Entry(clean)
      case Some(entry) => entry
      case None => Spell(clean);
    body + PauseTokens(word)
  }

  /** The tokens of a list of words, word after word. */
  function WordsTokens(words: seq<string>): seq<string>
    decreases |words|
  {
    if words == [] then [] else WordsTokens(words[..|words| - 1]) + WordTokens(words[|words| - 1])
  }

  /** `text.toUpperCase().split(/\s+/)`. */
  function Words(text: string): seq<string> {
    SplitWhitespace(ToUpper(text))
  }

  /** The token list of a text: the specification of the sequencer. */
  function Tokens(text: string): (r: seq<string>)
    ensures |r| > 0 && r[|r| - 1] == "."
  {
    var ws := Words(text);
    WordsTokensEnd(ws);
    WordsTokens(ws)
  }

  /** `.split(' ').filter(p => p.trim() !== '')`: the non-blank pieces between single spaces. */
  function Tokenize(s: string): seq<string> {
    NonBlank(SplitOn(s, ' '))
  }

  function NonBlank(pieces: seq<string>): seq<string>
    decreases |pieces|
  {
    if pieces == [] then []
    else (if Trim(pieces[0]) != "" then [pieces[0]] else []) + NonBlank(pieces[1..])
  }

  // ---------------------------------------------------------------------------------------------
  // The sequencer as the source runs it

  /**
   * `convertTextToPhonemes`: appends each word's tokens, every token followed by one space, to
   * a growing string, and trims the result. The string is the token list joined by single spaces.
   */
  method ConvertTextToPhonemes(text: string) returns (s: string)
    ensures s == JoinSpaced(Tokens(text))
  {
    var words := SplitWhitespace(ToUpper(text));
    var phonemes := "";
    for i := 0 to |words|
      invariant phonemes == Spaced(WordsTokens(words[..i]))
    {
      ghost var before := phonemes;
      phonemes := AppendWord(phonemes, words[i]);
      WordStep(words, i);
      SpacedAppend(WordsTokens(words[..i]), WordTokens(words[i]));
    }
    assert words[..|words|] == words;
    TokensSolid(text);
    TrimSpaced(Tokens(text));
    s := Trim(phonemes);
  }

  /**
   * The body of the word loop of `convertTextToPhonemes`: appends one word's tokens, each
   * followed by a space, to the string built so far.
   */
  method AppendWord(phonemes: string, word: string) returns (r: string)
    ensures r == phonemes + Spaced(WordTokens(word))
  {
    var clean := Clean(word);
    var entry := Lexicon.Entry(clean);
    ghost var bodyTokens := if entry.Some? then entry.value else Spell(clean);
    if entry.Some? {
      r := phonemes + JoinSpaced(entry.value) + " ";
      SpacedIsJoinSpaced(entry.value);
      ConcatAssociative(phonemes, JoinSpaced(entry.value), " ");
    } else {
      r := AppendSpelled(phonemes, clean);
    }
    r := AppendPause(r, word);
    SpacedAppend(bodyTokens, PauseTokens(word));
    ConcatAssociative(phonemes, Spaced(bodyTokens), Spaced(PauseTokens(word)));
  }

  /** The inner loop of the word loop: a word not in the lexicon, spelled character by character. */
  method AppendSpelled(phonemes: string, clean: string) returns (r: string)
    ensures r == phonemes + Spaced(Spell(clean))
  {
    r := phonemes;
    for j := 0 to |clean|
      invariant r == phonemes + Spaced(Spell(clean[..j]))
    {
      var c := clean[j];
      ghost var mid := r;
      if IsVowel(c) {
        r := r + [c] + " ";
      } else if IsUpperLetter(c) {
        r := r + [c] + " ";
      } else if IsDigit(c) {
        r := r + "N " + [c] + " ";
      }
      CharTokensSpaced(mid, c);
      SpellStep(clean, j);
      SpacedAppend(Spell(clean[..j]), CharTokens(c));
      ConcatAssociative(phonemes, Spaced(Spell(clean[..j])), Spaced(CharTokens(c)));
    }
    assert clean[..|clean|] == clean;
  }

  /** The pause the word's last character calls for, appended spaced. */
  method AppendPause(body: string, word: string) returns (r: string)
    ensures r == body + Spaced(PauseTokens(word))
  {
    PauseTokensSpaced();
    if word != [] && word[|word| - 1] in ".!?,;:" {
      var last := word[|word| - 1];
      if last == '?' {
        r := body + "? . . ";
      } else if last == '!' {
        r := body + "! . . ";
      } else if last == ',' {
        r := body + ". ";
      } else if last == '.' {
        r := body + ". . . ";
      } else if last == ';' {
        r := body + ". . ";
      } else {
        r := body + ". . ";
      }
    } else {
      r := body + ". ";
    }
  }

  /** What the inner loop appends for one character is that character's tokens, spaced. */
  lemma CharTokensSpaced(mid: string, c: char)
    ensures IsVowel(c) ==> mid + [c] + " " == mid + Spaced(CharTokens(c))
    ensures !IsVowel(c) && IsUpperLetter(c) ==> mid + [c] + " " == mid + Spaced(CharTokens(c))
    ensures !IsVowel(c) && !IsUpperLetter(c) && IsDigit(c) ==>
      mid + "N " + [c] + " " == mid + Spaced(CharTokens(c))
    ensures !IsVowel(c) && !IsUpperLetter(c) && !IsDigit(c) ==> mid == mid + Spaced(CharTokens(c))
  {
    assert Spaced([[c]]) == [c] + " ";
    assert Spaced(["N", [c]]) == "N " + [c] + " ";
  }

  /** The pause strings the source appends are the pause groups, spaced. */
  lemma PauseTokensSpaced()
    ensures Spaced(["?", ".", "."]) == "? . . "
    ensures Spaced(["!", ".", "."]) == "! . . "
    ensures Spaced([".", ".", "."]) == ". . . "
    ensures Spaced([".", "."]) == ". . "
    ensures Spaced(["."]) == ". "
  {
  }

  lemma SpellStep(w: string, j: nat)
    requires j < |w|
    ensures Spell(w[..j + 1]) == Spell(w[..j]) + CharTokens(w[j])
  {
    assert w[..j + 1][..j] == w[..j];
  }

  lemma WordStep(words: seq<string>, i: nat)
    requires i < |words|
    ensures WordsTokens(words[..i + 1]) == WordsTokens(words[..i]) + WordTokens(words[i])
  {
    assert words[..i + 1][..i] == words[..i];
  }

  // ---------------------------------------------------------------------------------------------
  // Properties

  /**
   * The token alphabet: a single upper-case letter or digit, a lexicon digraph (TH, CH, SH),
   * or one of the pause and emphasis marks `.`, `?` and `!`.
   */
  predicate IsToken(t: string) {
    Lexicon.IsLexiconToken(t) || (|t| == 1 && (IsDigit(t[0]) || t[0] in ".?!"))
  }

  predicate AllTokens(ts: seq<string>) {
    forall i :: 0 <= i < |ts| ==> IsToken(ts[i])
  }

  lemma {:induction false} SpellAlphabet(w: string)
    requires forall i :: 0 <= i < |w| ==> IsUpperLetter(w[i]) || IsDigit(w[i])
    ensures AllTokens(Spell(w))
    decreases |w|
  {
    if w != [] {
      SpellAlphabet(w[..|w| - 1]);
      var last := w[|w| - 1];
      assert AllTokens(CharTokens(last));
    }
  }

  lemma WordTokensAlphabet(word: string)
    ensures AllTokens(WordTokens(word)) && |WordTokens(word)| > 0
  {
    var clean := Clean(word);
    SpellAlphabet(clean);
    var pause := PauseTokens(word);
    assert AllTokens(pause) && |pause| > 0;
  }

  lemma {:induction false} WordsTokensAlphabet(words: seq<string>)
    ensures AllTokens(WordsTokens(words))
    ensures |WordsTokens(words)| >= |words|
    decreases |words|
  {
    if words != [] {
      WordsTokensAlphabet(words[..|words| - 1]);
      WordTokensAlphabet(words[|words| - 1]);
    }
  }

  /**
   * Every token of every text is in the alphabet, and there is at least one token per word,
   * so the list is never empty: even the empty text yields the pause `.`.
   */
  lemma TokensAlphabet(text: string)
    ensures AllTokens(Tokens(text))
    ensures |Tokens(text)| >= |Words(text)| >= 1
  {
    WordsTokensAlphabet(Words(text));
  }

  /** Tokens of the alphabet are non-empty and hold no whitespace. */
  lemma TokensSolid(text: string)
    ensures |Tokens(text)| > 0 && Solid(Tokens(text))
  {
    TokensAlphabet(text);
    AllTokensSolid(Tokens(text));
  }

  lemma AllTokensSolid(ts: seq<string>)
    requires AllTokens(ts)
    ensures Solid(ts)
  {
    forall i | 0 <= i < |ts|
      ensures ts[i] != [] && NoWhitespace(ts[i])
    {
      TokenSolid(ts[i]);
    }
  }

  lemma TokenSolid(t: string)
    requires IsToken(t)
    ensures t != [] && NoWhitespace(t)
  {
  }

  /**
   * The split at line 379 recovers exactly the token list: no token is empty, none is dropped,
   * merged, reordered or deduplicated.
   */
  lemma TokenizeJoin(ts: seq<string>)
    requires |ts| > 0 && Solid(ts)
    ensures Tokenize(JoinSpaced(ts)) == ts
  {
    assert forall i :: 0 <= i < |ts| ==> ' ' !in ts[i];
    SplitOnJoin(ts);
    NonBlankSolid(ts);
  }

  lemma {:induction false} NonBlankSolid(ts: seq<string>)
    requires Solid(ts)
    ensures NonBlank(ts) == ts
    decreases |ts|
  {
    if ts != [] {
      TrimSolid(ts[0]);
      NonBlankSolid(ts[1..]);
      assert [ts[0]] + ts[1..] == ts;
    }
  }

  /** The token list the player speaks for a text is the sequencer's specification. */
  lemma PhonemeListIsTokens(text: string)
    ensures Tokenize(JoinSpaced(Tokens(text))) == Tokens(text)
  {
    TokensSolid(text);
    TokenizeJoin(Tokens(text));
  }

  /** The sequencer works word by word: the tokens of a concatenation are concatenated. */
  lemma {:induction false} WordsTokensAppend(a: seq<string>, b: seq<string>)
    ensures WordsTokens(a + b) == WordsTokens(a) + WordsTokens(b)
    decreases |b|
  {
    if b == [] {
      assert a + b == a;
    } else {
      var b', w := b[..|b| - 1], b[|b| - 1];
      assert b == b' + [w];
      assert a + b == (a + b') + [w];
      WordsTokensSnoc(a + b', w);
      WordsTokensSnoc(b', w);
      WordsTokensAppend(a, b');
      ConcatAssociative(WordsTokens(a), WordsTokens(b'), WordTokens(w));
    }
  }

  lemma WordsTokensSnoc(ws: seq<string>, w: string)
    ensures WordsTokens(ws + [w]) == WordsTokens(ws) + WordTokens(w)
  {
    assert (ws + [w])[..|ws|] == ws;
  }

  /**
   * Word order is kept across a single space: speaking `t1 + " " + t2` speaks t1's tokens then
   * t2's, when t1 does not end and t2 does not start with whitespace.
   */
  lemma TokensAppend(t1: string, t2: string)
    requires t1 == [] || !IsWhitespace(t1[|t1| - 1])
    requires t2 == [] || !IsWhitespace(t2[0])
    ensures Tokens(t1 + " " + t2) == Tokens(t1) + Tokens(t2)
  {
    ToUpperAppend(t1, " " + t2);
    ToUpperAppend(" ", t2);
    var u1, u2 := ToUpper(t1), ToUpper(t2);
    assert ToUpper(t1 + " " + t2) == u1 + " " + u2 by {
      assert t1 + " " + t2 == t1 + (" " + t2);
      assert ToUpper(" ") == " ";
    }
    if t1 != [] {
      ToUpperWhitespace(t1, |t1| - 1);
    }
    if t2 != [] {
      ToUpperWhitespace(t2, 0);
    }
    SplitWhitespaceAppend(u1, u2);
    WordsTokensAppend(SplitWhitespace(u1), SplitWhitespace(u2));
  }

  /** Reads a spelling back: a digit token with its `N` gives the digit, any other token its letter. */
  function Unspell(ts: seq<string>): string
    decreases |ts|
  {
    if ts == [] then []
    else
      var last := ts[|ts| - 1];
      var c := if last == [] then ' ' else last[0];
      if |ts| >= 2 && IsDigit(c) then Unspell(ts[..|ts| - 2]) + [c]
      else Unspell(ts[..|ts| - 1]) + [c]
  }

  /**
   * The fallback spells a cleaned word faithfully: one token per letter, `N` then the digit per
   * digit, in order and with nothing inserted, so the word can be read back from its tokens.
   */
  lemma {:induction false} SpellRoundTrip(w: string)
    requires forall i :: 0 <= i < |w| ==> IsUpperLetter(w[i]) || IsDigit(w[i])
    ensures Unspell(Spell(w)) == w
    decreases |w|
  {
    if w != [] {
      var init := w[..|w| - 1];
      calc {
        Unspell(Spell(w));
        == { UnspellStep(w); }
        Unspell(Spell(init)) + w[|w| - 1..];
        == { SpellRoundTrip(init); }
        init + w[|w| - 1..];
        == { assert init + w[|w| - 1..] == w; }
        w;
      }
    }
  }

  /** Spelling one more character and reading it back yields that character after the rest. */
  lemma UnspellStep(w: string)
    requires w != [] && (IsUpperLetter(w[|w| - 1]) || IsDigit(w[|w| - 1]))
    ensures Unspell(Spell(w)) == Unspell(Spell(w[..|w| - 1])) + w[|w| - 1..]
  {
    var init, c := w[..|w| - 1], w[|w| - 1];
    calc {
      Unspell(Spell(w));
      == { assert Spell(w) == Spell(init) + CharTokens(c); }
      Unspell(Spell(init) + CharTokens(c));
      == { UnspellAppend(Spell(init), c); }
      Unspell(Spell(init)) + [c];
      == { assert w[|w| - 1..] == [c]; }
      Unspell(Spell(init)) + w[|w| - 1..];
    }
  }

  /** Reading back the tokens of one more character yields that character. */
  lemma UnspellAppend(pre: seq<string>, c: char)
    requires IsUpperLetter(c) || IsDigit(c)
    ensures Unspell(pre + CharTokens(c)) == Unspell(pre) + [c]
  {
    var ts := pre + CharTokens(c);
    if IsDigit(c) {
      assert ts == pre + ["N", [c]];
      assert ts[|ts| - 1] == [c] && ts[..|ts| - 2] == pre;
    } else {
      assert ts == pre + [[c]];
      assert ts[|ts| - 1] == [c] && ts[..|ts| - 1] == pre;
    }
  }

  function DigitCount(w: string): nat
    decreases |w|
  {
    if w == [] then 0 else DigitCount(w[..|w| - 1]) + (if IsDigit(w[|w| - 1]) then 1 else 0)
  }

  /** A spelling has one token per character plus one `N` per digit. */
  lemma {:induction false} SpellLength(w: string)
    requires forall i :: 0 <= i < |w| ==> IsUpperLetter(w[i]) || IsDigit(w[i])
    ensures |Spell(w)| == |w| + DigitCount(w)
    decreases |w|
  {
    if w != [] {
      SpellLength(w[..|w| - 1]);
    }
  }

  /** The tokens of a non-empty word list end in the last word's closing pause. */
  lemma WordsTokensEnd(ws: seq<string>)
    requires |ws| > 0
    ensures |WordsTokens(ws)| > 0 && WordsTokens(ws)[|WordsTokens(ws)| - 1] == "."
  {
    var a, b := WordsTokens(ws[..|ws| - 1]), WordTokens(ws[|ws| - 1]);
    assert WordsTokens(ws) == a + b;
    assert (a + b)[|a + b| - 1] == b[|b| - 1];
  }

  /** Worked example: a listed word with an exclamation mark. */
  lemma ExampleExclaimed()
    ensures Tokens("Hi!") == ["H", "A", "I", "!", ".", "."]
  {
    assert Words("Hi!") == ["HI!"] by {
      assert ToUpper("Hi!") == "HI!";
      SplitWhitespaceWord("HI!");
    }
    SingleWord("Hi!", "HI!");
    ExclaimedWord();
  }

  /** A text of one word is spoken as that word. */
  lemma SingleWord(text: string, w: string)
    requires Words(text) == [w]
    ensures Tokens(text) == WordTokens(w)
  {
    WordsTokensSnoc([], w);
    assert [] + [w] == [w];
  }

  /** The tokens of the listed word `HI` with an exclamation mark. */
  lemma ExclaimedWord()
    ensures WordTokens("HI!") == ["H", "A", "I", "!", ".", "."]
  {
    calc {
      WordTokens("HI!");
      == { assert Clean("HI!") == "HI"; ListedHi(); }
      ["H", "A", "I"] + PauseTokens("HI!");
    }
  }

  lemma ListedHi()
    ensures Lexicon.Entry("HI") == Some(["H", "A", "I"])
  {
  }

  /** Worked example: an unlisted word is spelled, a digit after its `N`. */
  lemma ExampleSpelled()
    ensures Tokens("r2") == ["R", "N", "2", "."]
  {
    assert Words("r2") == ["R2"] by {
      assert ToUpper("r2") == "R2";
      SplitWhitespaceWord("R2");
    }
    SingleWord("r2", "R2");
    SpelledWord();
  }

  /** The tokens of the unlisted word `R2`. */
  lemma SpelledWord()
    ensures WordTokens("R2") == ["R", "N", "2", "."]
  {
    calc {
      WordTokens("R2");
      == { assert Clean("R2") == "R2"; UnlistedR2(); }
      Spell("R2") + PauseTokens("R2");
      == { SpellR2(); }
      ["R", "N", "2"] + ["."];
    }
  }

  lemma SpellR2()
    ensures Spell("R2") == ["R", "N", "2"]
  {
    assert "R2"[..1] == "R";
    assert Spell("R") == ["R"];
  }

  /** A word ending in a digit is never listed. */
  lemma UnlistedR2()
    ensures Lexicon.Entry("R2") == None
  {
    assert "R2"[1] == '2';
    assert !Lexicon.EndsInLetter("R2");
  }

  /** Worked example: the empty text is one empty word, spoken as one pause. */
  lemma ExampleEmpty()
    ensures Tokens("") == ["."]
  {
    calc {
      Tokens("");
      WordsTokens(Words(""));
      == { BlankWords(); }
      WordsTokens([""]);
      == { EmptyWordsPause([""]); }
      ["."];
    }
  }

  /** Worked example: blank text is two empty words, spoken as two pauses. */
  lemma ExampleBlank()
    ensures Tokens("   ") == [".", "."]
  {
    calc {
      Tokens("   ");
      WordsTokens(Words("   "));
      == { BlankWords(); }
      WordsTokens(["", ""]);
      == { EmptyWordsPause(["", ""]); }
      [".", "."];
    }
  }

  /** A list of empty words is spoken as one pause per word. */
  lemma {:induction false} EmptyWordsPause(ws: seq<string>)
    requires forall i :: 0 <= i < |ws| ==> ws[i] == ""
    ensures WordsTokens(ws) == seq(|ws|, _ => ".")
    decreases |ws|
  {
    if ws != [] {
      EmptyWordsPause(ws[..|ws| - 1]);
      EmptyWord();
      assert seq(|ws|, _ => ".") == seq(|ws| - 1, _ => ".") + ["."];
    }
  }

  /** The empty word is spoken as one pause. */
  lemma EmptyWord()
    ensures WordTokens("") == ["."]
  {
    assert Clean("") == "";
    assert Spell("") == [];
  }

  /** The empty text is one empty word; blank text is an empty word before and after the run. */
  lemma BlankWords()
    ensures Words("") == [""]
    ensures Words("   ") == ["", ""]
  {
    assert ToUpper("") == "";
    assert SplitWhitespace("") == [""];
    assert ToUpper("   ") == "   ";
    var s := "   ";
    assert FirstWhitespace(s) == 0;
    assert s[1..] == "  ";
    assert TrimStart("") == "";
    assert TrimStart(" ") == "";
    assert TrimStart("  ") == "";
  }
}
