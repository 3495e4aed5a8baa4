/**
 * The string primitives the source relies on, restricted to ASCII:
 * `toUpperCase`/`toLowerCase`, `includes`, `split(/\s+/)`, `split(' ')`,
 * `join(' ')` and `trim`.
 */
module Text {

  /** The ASCII characters matched by the regular-expression class `\s` and removed by `trim`. */
  predicate IsWhitespace(c: char) {
    c == ' ' || c == '\t' || c == '\n' || c == '\r' || c == 11 as char || c == 12 as char
  }

  predicate NoWhitespace(s: string) {
    forall i :: 0 <= i < |s| ==> !IsWhitespace(s[i])
  }

  predicate IsUpperLetter(c: char) { 'A' <= c <= 'Z' }

  predicate IsLowerLetter(c: char) { 'a' <= c <= 'z' }

  predicate IsDigit(c: char) { '0' <= c <= '9' }

  function UpperChar(c: char): char {
    if IsLowerLetter(c) then (c as int - 32) as char else c
  }

  function LowerChar(c: char): char {
    if IsUpperLetter(c) then (c as int + 32) as char else c
  }

  /** `s.toUpperCase()` for ASCII letters; every other character is kept. */
  function ToUpper(s: string): (r: string)
    ensures |r| == |s|
  {
    if s == [] then [] else [UpperChar(s[0])] + ToUpper(s[1..])
  }

  /** `s.toLowerCase()` for ASCII letters; every other character is kept. */
  function ToLower(s: string): (r: string)
    ensures |r| == |s|
  {
    if s == [] then [] else [LowerChar(s[0])] + ToLower(s[1..])
  }

  /** Case conversion leaves every character other than a letter where it was. */
  lemma {:induction false} ToLowerKeeps(s: string, c: char)
    requires !IsUpperLetter(c) && !IsLowerLetter(c)
    ensures c in ToLower(s) <==> c in s
    decreases |s|
  {
    if s != [] {
      ToLowerKeeps(s[1..], c);
      assert ToLower(s) == [LowerChar(s[0])] + ToLower(s[1..]);
      assert s == [s[0]] + s[1..];
    }
  }

  /** Upper-casing keeps every character other than a letter where it was, too. */
  lemma {:induction false} ToUpperKeeps(s: string, c: char)
    requires !IsUpperLetter(c) && !IsLowerLetter(c)
    ensures c in ToUpper(s) <==> c in s
    decreases |s|
  {
    if s != [] {
      ToUpperKeeps(s[1..], c);
      assert ToUpper(s) == [UpperChar(s[0])] + ToUpper(s[1..]);
      assert s == [s[0]] + s[1..];
    }
  }

  /** Lower-casing forgets the case a text was in: upper-casing first changes nothing. */
  lemma {:induction false} ToLowerToUpper(s: string)
    ensures ToLower(ToUpper(s)) == ToLower(s)
    decreases |s|
  {
    if s != [] {
      ToLowerToUpper(s[1..]);
      assert LowerChar(UpperChar(s[0])) == LowerChar(s[0]);
    }
  }

  // ---------------------------------------------------------------------------------------------
  // Substring search

  /** `s.includes(k)`: k occurs in s as a contiguous piece (the empty string occurs everywhere). */
  predicate Contains(s: string, k: string)
    ensures Contains(s, k) ==> |k| <= |s|
    decreases |s|
  {
    k <= s || (|s| > 0 && Contains(s[1..], k))
  }

  /** `/k0|k1|.../.test(s)`: some alternative occurs in s. */
  predicate ContainsAny(s: string, keys: seq<string>)
    decreases |keys|
  {
    |keys| > 0 && (Contains(s, keys[0]) || ContainsAny(s, keys[1..]))
  }

  /** An occurrence at a known position is found by the search. */
  lemma {:induction false} ContainsAt(s: string, k: string, i: nat)
    requires i + |k| <= |s| && s[i..i + |k|] == k
    ensures Contains(s, k)
    decreases i
  {
    if i > 0 {
      assert s[1..][i - 1..i - 1 + |k|] == s[i..i + |k|];
      ContainsAt(s[1..], k, i - 1);
    } else {
      assert s[..|k|] == k;
    }
  }

  /** Every occurrence the search finds sits at some position. */
  lemma {:induction false} ContainsWitness(s: string, k: string) returns (i: nat)
    requires Contains(s, k)
    ensures i + |k| <= |s| && s[i..i + |k|] == k
    decreases |s|
  {
    if k <= s {
      i := 0;
    } else {
      var j := ContainsWitness(s[1..], k);
      assert s[1..][j..j + |k|] == s[j + 1..j + 1 + |k|];
      i := j + 1;
    }
  }

  /** A text that contains k contains every piece of k. */
  lemma ContainsTransitive(s: string, k: string, m: string)
    requires Contains(s, k) && Contains(k, m)
    ensures Contains(s, m)
  {
    var i := ContainsWitness(s, k);
    var j := ContainsWitness(k, m);
    var piece := s[i..i + |k|];
    forall t | 0 <= t < |m|
      ensures s[i + j + t] == m[t]
    {
      assert m[t] == k[j + t] == piece[j + t];
    }
    assert s[i + j..i + j + |m|] == m;
    ContainsAt(s, m, i + j);
  }

  /** A one-character piece occurs exactly when that character does. */
  lemma ContainsChar(s: string, c: char)
    ensures Contains(s, [c]) <==> c in s
  {
    if c in s {
      var i :| 0 <= i < |s| && s[i] == c;
      ContainsAt(s, [c], i);
    }
    if Contains(s, [c]) {
      var i := ContainsWitness(s, [c]);
      assert s[i] == c;
    }
  }

  /** The alternation is the existential over its alternatives. */
  lemma {:induction false} ContainsAnyIff(s: string, keys: seq<string>)
    ensures ContainsAny(s, keys) <==> exists i :: 0 <= i < |keys| && Contains(s, keys[i])
    decreases |keys|
  {
    if |keys| > 0 {
      ContainsAnyIff(s, keys[1..]);
      if exists i :: 0 <= i < |keys| && Contains(s, keys[i]) {
        var i :| 0 <= i < |keys| && Contains(s, keys[i]);
        if i > 0 {
          assert keys[1..][i - 1] == keys[i];
        }
      }
      if exists i :: 0 <= i < |keys| - 1 && Contains(s, keys[1..][i]) {
        var i :| 0 <= i < |keys| - 1 && Contains(s, keys[1..][i]);
        assert Contains(s, keys[i + 1]);
      }
    }
  }

  /** Some key occurs in s: the alternation read as a set of keys, whatever their order. */
  ghost predicate Mentions(s: string, keys: seq<string>) {
    exists k :: k in keys && Contains(s, k)
  }

  /** The alternation holds exactly when s mentions one of its alternatives. */
  lemma ContainsAnyMentions(s: string, keys: seq<string>)
    ensures ContainsAny(s, keys) <==> Mentions(s, keys)
  {
    ContainsAnyIff(s, keys);
    if Mentions(s, keys) {
      var k :| k in keys && Contains(s, k);
      var i :| 0 <= i < |keys| && keys[i] == k;
    }
  }

  /** Mentioning a key of a + b is mentioning one of a or one of b. */
  lemma MentionsConcat(s: string, a: seq<string>, b: seq<string>)
    ensures Mentions(s, a + b) <==> Mentions(s, a) || Mentions(s, b)
  {
    if Mentions(s, a + b) {
      var k :| k in a + b && Contains(s, k);
      assert k in a || k in b;
    }
    if Mentions(s, a) {
      var k :| k in a && Contains(s, k);
      assert k in a + b;
    }
    if Mentions(s, b) {
      var k :| k in b && Contains(s, k);
      assert k in a + b;
    }
  }

  // ---------------------------------------------------------------------------------------------
  // Splitting on whitespace runs and trimming

  /** Index of the first whitespace character of s, or |s| when it has none. */
  function FirstWhitespace(s: string): (i: nat)
    ensures i <= |s|
    ensures NoWhitespace(s[..i])
    ensures i < |s| ==> IsWhitespace(s[i])
    decreases |s|
  {
    if s == [] || IsWhitespace(s[0]) then 0 else 1 + FirstWhitespace(s[1..])
  }

  /** `s.trimStart()`: drops the leading whitespace run. */
  function TrimStart(s: string): (r: string)
    ensures |r| <= |s|
    ensures r == [] || !IsWhitespace(r[0])
    decreases |s|
  {
    if s != [] && IsWhitespace(s[0]) then TrimStart(s[1..]) else s
  }

  /** `s.trimEnd()`: drops the trailing whitespace run. */
  function TrimEnd(s: string): (r: string)
    ensures |r| <= |s|
    ensures r == [] || !IsWhitespace(r[|r| - 1])
    decreases |s|
  {
    if s != [] && IsWhitespace(s[|s| - 1]) then TrimEnd(s[..|s| - 1]) else s
  }

  /** `s.trim()`. */
  function Trim(s: string): string {
    TrimEnd(TrimStart(s))
  }

  /**
   * `s.split(/\s+/)`: the pieces between maximal whitespace runs. A leading or trailing run
   * yields an empty first or last piece, and the empty text yields one empty piece.
   */
  function SplitWhitespace(s: string): (words: seq<string>)
    ensures |words| >= 1
    decreases |s|
  {
    var i := FirstWhitespace(s);
    if i == |s| then [s]
    else [s[..i]] + SplitWhitespace(TrimStart(s[i + 1..]))
  }

  /** `ts.join(' ')`. */
  function JoinSpaced(ts: seq<string>): string
    decreases |ts|
  {
    if |ts| == 0 then "" else if |ts| == 1 then ts[0] else ts[0] + " " + JoinSpaced(ts[1..])
  }

  /** Every piece followed by one space: what repeated `+= piece + ' '` builds. */
  function Spaced(ts: seq<string>): string
    decreases |ts|
  {
    if ts == [] then "" else ts[0] + " " + Spaced(ts[1..])
  }

  /** Index of the first occurrence of c in s. */
  function IndexOf(s: string, c: char): (i: nat)
    requires c in s
    ensures i < |s| && s[i] == c && c !in s[..i]
    decreases |s|
  {
    if s[0] == c then 0 else 1 + IndexOf(s[1..], c)
  }

  /** `s.split(sep)` for a one-character separator. */
  function SplitOn(s: string, sep: char): (pieces: seq<string>)
    ensures |pieces| >= 1
    decreases |s|
  {
    if sep !in s then [s]
    else
      var i := IndexOf(s, sep);
      [s[..i]] + SplitOn(s[i + 1..], sep)
  }

  /** Tokens that are non-empty and hold no whitespace. */
  predicate Solid(ts: seq<string>) {
    forall i :: 0 <= i < |ts| ==> ts[i] != [] && NoWhitespace(ts[i])
  }

  lemma {:induction false} SpacedAppend(a: seq<string>, b: seq<string>)
    ensures Spaced(a + b) == Spaced(a) + Spaced(b)
    decreases |a|
  {
    if a != [] {
      assert (a + b)[1..] == a[1..] + b;
      SpacedAppend(a[1..], b);
    } else {
      assert a + b == b;
    }
  }

  lemma {:induction false} SpacedIsJoinSpaced(ts: seq<string>)
    requires |ts| > 0
    ensures Spaced(ts) == JoinSpaced(ts) + " "
    decreases |ts|
  {
    if |ts| > 1 {
      SpacedIsJoinSpaced(ts[1..]);
    }
  }

  /** The joined text starts with the first token and ends with the last. */
  lemma {:induction false} JoinSpacedEnds(ts: seq<string>)
    requires |ts| > 0 && forall i :: 0 <= i < |ts| ==> ts[i] != []
    ensures |JoinSpaced(ts)| > 0
    ensures JoinSpaced(ts)[0] == ts[0][0]
    ensures JoinSpaced(ts)[|JoinSpaced(ts)| - 1] == ts[|ts| - 1][|ts[|ts| - 1]| - 1]
    decreases |ts|
  {
    if |ts| > 1 {
      JoinSpacedEnds(ts[1..]);
    }
  }

  /** `trim` undoes the trailing space that `Spaced` adds, and nothing else. */
  lemma TrimSpaced(ts: seq<string>)
    requires |ts| > 0 && Solid(ts)
    ensures Trim(Spaced(ts)) == JoinSpaced(ts)
  {
    SpacedIsJoinSpaced(ts);
    JoinSpacedEnds(ts);
    var j := JoinSpaced(ts);
    assert !IsWhitespace(ts[0][0]);
    assert TrimStart(j + " ") == j + " ";
    assert (j + " ")[..|j|] == j;
    assert !IsWhitespace(ts[|ts| - 1][|ts[|ts| - 1]| - 1]);
    assert TrimEnd(j) == j;
  }

  /** The joined text starts with its first token. */
  lemma JoinSpacedPrefix(ts: seq<string>)
    requires |ts| > 0
    ensures ts[0] <= JoinSpaced(ts)
  {
  }

  /** Splitting the text two words were joined into finds the first word first. */
  lemma FirstWhitespaceOfJoin(a: string, b: string)
    requires NoWhitespace(a)
    ensures FirstWhitespace(a + " " + b) == |a|
    decreases |a|
  {
    if a != [] {
      assert (a + " " + b)[1..] == a[1..] + " " + b;
      FirstWhitespaceOfJoin(a[1..], b);
    }
  }

  /** One split step: a word, one space, and a rest that does not start with whitespace. */
  lemma SplitWhitespaceCons(a: string, rest: string)
    requires NoWhitespace(a)
    requires rest == [] || !IsWhitespace(rest[0])
    ensures SplitWhitespace(a + " " + rest) == [a] + SplitWhitespace(rest)
  {
    var s := a + " " + rest;
    FirstWhitespaceOfJoin(a, rest);
    assert s[..|a|] == a;
    assert s[|a| + 1..] == rest;
  }

  /**
   * Splitting on whitespace runs undoes joining with single spaces, provided no word holds
   * whitespace and no inner word is empty (an empty first or last word survives).
   */
  lemma {:induction false} SplitWhitespaceJoin(ws: seq<string>)
    requires |ws| >= 1
    requires forall i :: 0 <= i < |ws| ==> NoWhitespace(ws[i])
    requires forall i :: 0 < i < |ws| - 1 ==> ws[i] != []
    ensures SplitWhitespace(JoinSpaced(ws)) == ws
    decreases |ws|
  {
    SplitWhitespaceWord(ws[0]);
    if |ws| > 1 {
      var rest := JoinSpaced(ws[1..]);
      assert JoinSpaced(ws) == ws[0] + " " + rest;
      JoinSpacedStart(ws[1..]);
      calc {
        SplitWhitespace(ws[0] + " " + rest);
        == { SplitWhitespaceAppend(ws[0], rest); }
        SplitWhitespace(ws[0]) + SplitWhitespace(rest);
        == { SplitWhitespaceJoin(ws[1..]); }
        [ws[0]] + ws[1..];
        == { assert [ws[0]] + ws[1..] == ws; }
        ws;
      }
    }
  }

  /** The joined text starts with a character that is not whitespace, unless it is empty. */
  lemma JoinSpacedStart(ts: seq<string>)
    requires |ts| >= 1 && NoWhitespace(ts[0])
    requires |ts| > 1 ==> ts[0] != []
    ensures JoinSpaced(ts) == [] || !IsWhitespace(JoinSpaced(ts)[0])
  {
    JoinSpacedPrefix(ts);
    if |ts| == 1 {
      assert JoinSpaced(ts) == ts[0];
    } else {
      assert JoinSpaced(ts)[0] == ts[0][0];
    }
  }

  /** A text without whitespace is one word. */
  lemma SplitWhitespaceWord(w: string)
    requires NoWhitespace(w)
    ensures SplitWhitespace(w) == [w]
  {
    assert FirstWhitespace(w) == |w|;
  }

  /** Splitting on the separator undoes joining with it, when no piece holds it. */
  lemma {:induction false} SplitOnJoin(ts: seq<string>)
    requires |ts| >= 1
    requires forall i :: 0 <= i < |ts| ==> ' ' !in ts[i]
    ensures SplitOn(JoinSpaced(ts), ' ') == ts
    decreases |ts|
  {
    if |ts| == 1 {
      assert JoinSpaced(ts) == ts[0];
    } else {
      var rest := JoinSpaced(ts[1..]);
      var s := ts[0] + " " + rest;
      assert JoinSpaced(ts) == s;
      SplitFirst(ts[0], rest);
      SplitOnJoin(ts[1..]);
      assert [ts[0]] + ts[1..] == ts;
    }
  }

  /** The first space of `a + " " + b`, when a holds none, splits off exactly a. */
  lemma SplitFirst(a: string, b: string)
    requires ' ' !in a
    ensures SplitOn(a + " " + b, ' ') == [a] + SplitOn(b, ' ')
  {
    var s := a + " " + b;
    assert s[|a|] == ' ';
    IndexOfUnique(s, ' ', |a|);
    assert s[..|a|] == a && s[|a| + 1..] == b;
  }

  /** The first occurrence is the one with none before it. */
  lemma IndexOfUnique(s: string, c: char, k: nat)
    requires k < |s| && s[k] == c && c !in s[..k]
    ensures IndexOf(s, c) == k
  {
  }

  /** A solid token is not blank: trimming leaves it as it is. */
  lemma TrimSolid(t: string)
    requires t != [] && NoWhitespace(t)
    ensures Trim(t) == t
  {
    assert !IsWhitespace(t[0]);
    assert TrimStart(t) == t;
    assert !IsWhitespace(t[|t| - 1]);
  }
  // ---------------------------------------------------------------------------------------------
  // Splitting a concatenation

  lemma {:induction false} ToUpperAppend(a: string, b: string)
    ensures ToUpper(a + b) == ToUpper(a) + ToUpper(b)
    decreases |a|
  {
    if a != [] {
      assert (a + b)[1..] == a[1..] + b;
      ToUpperAppend(a[1..], b);
    } else {
      assert a + b == b;
    }
  }

  /** Upper-casing changes letters only, so it keeps every whitespace character where it was. */
  lemma {:induction false} ToUpperWhitespace(s: string, i: nat)
    requires i < |s|
    ensures |ToUpper(s)| == |s| && (IsWhitespace(ToUpper(s)[i]) <==> IsWhitespace(s[i]))
    decreases i
  {
    if i > 0 {
      ToUpperWhitespace(s[1..], i - 1);
    }
  }

  /** Trimming the start of a text that ends in a non-whitespace character keeps that end. */
  lemma {:induction false} TrimStartKeepsEnd(x: string)
    requires x != [] && !IsWhitespace(x[|x| - 1])
    ensures TrimStart(x) != [] && TrimStart(x)[|TrimStart(x)| - 1] == x[|x| - 1]
    decreases |x|
  {
    if IsWhitespace(x[0]) {
      TrimStartKeepsEnd(x[1..]);
    }
  }

  /** Leading whitespace of a text with some non-whitespace character is all in its first part. */
  lemma {:induction false} TrimStartAppend(x: string, y: string)
    requires x != [] && !IsWhitespace(x[|x| - 1])
    ensures TrimStart(x + y) == TrimStart(x) + y
    decreases |x|
  {
    if IsWhitespace(x[0]) {
      assert |x| > 1;
      assert (x + y)[1..] == x[1..] + y;
      TrimStartAppend(x[1..], y);
    }
  }

  /**
   * Splitting `a + " " + b` splits a and b separately, when a does not end and b does not start
   * with whitespace: the separator joins the last word of a to the first word of b in no case.
   */
  lemma {:induction false} SplitWhitespaceAppend(a: string, b: string)
    requires a == [] || !IsWhitespace(a[|a| - 1])
    requires b == [] || !IsWhitespace(b[0])
    ensures SplitWhitespace(a + " " + b) == SplitWhitespace(a) + SplitWhitespace(b)
    decreases |a|
  {
    var i := FirstWhitespace(a);
    if i == |a| {
      SplitWhitespaceCons(a, b);
    } else {
      var r := TrimStart(a[i + 1..]);
      SplitWhitespaceAppendStep(a, b, i);
      SplitWhitespaceAppend(r, b);
      ConcatAssociative([a[..i]], SplitWhitespace(r), SplitWhitespace(b));
    }
  }

  /** The inductive step of SplitWhitespaceAppend: the first word of a is split off both sides. */
  lemma SplitWhitespaceAppendStep(a: string, b: string, i: nat)
    requires a == [] || !IsWhitespace(a[|a| - 1])
    requires i == FirstWhitespace(a) && i < |a|
    ensures var r := TrimStart(a[i + 1..]);
      && |r| < |a| && r != [] && !IsWhitespace(r[|r| - 1])
      && SplitWhitespace(a) == [a[..i]] + SplitWhitespace(r)
      && SplitWhitespace(a + " " + b) == [a[..i]] + SplitWhitespace(r + " " + b)
  {
    var s := a + " " + b;
    var rest := a[i + 1..];
    var r := TrimStart(rest);
    assert s[..i] == a[..i];
    FirstWhitespaceUnique(s, i);
    SplitWhitespaceAt(s, i);
    SplitWhitespaceAt(a, i);
    assert s[i + 1..] == rest + (" " + b);
    TrimStartAppend(rest, " " + b);
    TrimStartKeepsEnd(rest);
    assert TrimStart(s[i + 1..]) == r + (" " + b);
    assert r + (" " + b) == r + " " + b;
  }

  /** A sequence is the part before position i, the element at i, and the part after it. */
  lemma SplitAround<T>(s: seq<T>, i: nat)
    requires i < |s|
    ensures s == (s[..i] + [s[i]]) + s[i + 1..]
  {
  }

  lemma ConcatAssociative<T>(w: seq<T>, p: seq<T>, q: seq<T>)
    ensures w + (p + q) == (w + p) + q
  {
  }

  /** One unfolding of the split at a known first whitespace position. */
  lemma SplitWhitespaceAt(s: string, i: nat)
    requires i == FirstWhitespace(s) && i < |s|
    ensures SplitWhitespace(s) == [s[..i]] + SplitWhitespace(TrimStart(s[i + 1..]))
  {
  }

  /** The first whitespace position is determined by the whitespace-free prefix before it. */
  lemma {:induction false} FirstWhitespaceUnique(s: string, i: nat)
    requires i < |s| && NoWhitespace(s[..i]) && IsWhitespace(s[i])
    ensures FirstWhitespace(s) == i
    decreases i
  {
    if i > 0 {
      assert !IsWhitespace(s[..i][0]);
      assert s[1..][..i - 1] == s[..i][1..];
      FirstWhitespaceUnique(s[1..], i - 1);
    }
  }
}
