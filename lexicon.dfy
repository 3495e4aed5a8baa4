/**
 * The fixed word lexicon of the sequencer (src/components/GameBuddyHead/index.tsx, lines 54-208):
 * whole upper-case words mapped to the tokens spoken for them. The source stores each entry as
 * one string of tokens separated by single spaces; here the entry is the list of those tokens,
 * and the sequencer appends `JoinSpaced(entry)`, which is that string.
 *
 * The table is a list of rows in the source's order, read one row at a time by `Lookup`. The
 * source lists THERE twice with the same tokens; an object literal keeps one value for a
 * repeated key, and the row appears once here.
 */
module Lexicon {
  import opened Common

  /** The tokens a lexicon entry may hold: one letter, or one of the digraphs TH, CH and SH. */
  predicate IsLexiconToken(t: string) {
    (|t| == 1 && 'A' <= t[0] <= 'Z') || t == "TH" || t == "CH" || t == "SH"
  }

  /** A well-formed entry: at least one token, each a letter or a digraph. */
  predicate WellFormed(entry: seq<string>) {
    |entry| > 0 && forall i :: 0 <= i < |entry| ==> IsLexiconToken(entry[i])
  }

  /** A word that ends in an upper-case letter, as every listed word does. */
  predicate EndsInLetter(w: string) {
    |w| > 0 && 'A' <= w[|w| - 1] <= 'Z'
  }

  /** A row whose key ends in a letter and whose entry is well-formed. */
  predicate RowSound(row: (string, seq<string>)) {
    EndsInLetter(row.0) && WellFormed(row.1)
  }

  /** The number of rows. */
  const RowCount: nat := 152

  /** Row i of the table; every row is sound. */
  function Row(i: nat): (r: (string, seq<string>))
    requires i < RowCount
    ensures RowSound(r)
  {
    if i < 6 then Rows1(i)
    else if i < 12 then Rows2(i - 6)
    else if i < 18 then Rows3(i - 12)
    else if i < 24 then Rows4(i - 18)
    else if i < 30 then Rows5(i - 24)
    else if i < 36 then Rows6(i - 30)
    else if i < 42 then Rows7(i - 36)
    else if i < 48 then Rows8(i - 42)
    else if i < 54 then Rows9(i - 48)
    else if i < 60 then Rows10(i - 54)
    else if i < 66 then Rows11(i - 60)
    else if i < 72 then Rows12(i - 66)
    else if i < 78 then Rows13(i - 72)
    else if i < 84 then Rows14(i - 78)
    else if i < 90 then Rows15(i - 84)
    else if i < 96 then Rows16(i - 90)
    else if i < 102 then Rows17(i - 96)
    else if i < 108 then Rows18(i - 102)
    else if i < 114 then Rows19(i - 108)
    else if i < 120 then Rows20(i - 114)
    else if i < 126 then Rows21(i - 120)
    else if i < 132 then Rows22(i - 126)
    else if i < 138 then Rows23(i - 132)
    else if i < 144 then Rows24(i - 138)
    else if i < 150 then Rows25(i - 144)
    else Rows26(i - 150)
  }

  /** The entry of the first row from row i on whose key is `word`. */
  function Lookup(word: string, i: nat): (r: Option<seq<string>>)
    requires i <= RowCount
    ensures r.Some? ==> WellFormed(r.value) && EndsInLetter(word)
    decreases RowCount - i
  {
    if i == RowCount then None
    else
      if Row(i).0 == word then Some(Row(i).1) else Lookup(word, i + 1)
  }

  /**
   * The entry for an exact, already upper-cased, cleaned word, or None when the word is not
   * listed. Every entry is well-formed, and a word that does not end in a letter (the empty
   * word, or one ending in a digit) is never listed.
   */
  function Entry(word: string): (r: Option<seq<string>>)
    ensures r.Some? ==> WellFormed(r.value) && EndsInLetter(word)
  {
    if word == [] then None else Lookup(word, 0)
  }

  /** Rows 0 to 5. */
  function Rows1(n: nat): (r: (string, seq<string>))
    requires n < 6
    ensures RowSound(r)
  {
    match n
    case 0 => ("HELLO", ["H", "E", "L", "O"])
    case 1 => ("HI", ["H", "A", "I"])
    case 2 => ("THE", ["TH", "E"])
    case 3 => ("AND", ["A", "N", "D"])
    case 4 => ("TO", ["T", "U"])
    case _ => ("YOU", ["Y", "U"])
  }

  /** Rows 6 to 11. */
  function Rows2(n: nat): (r: (string, seq<string>))
    requires n < 6
    ensures RowSound(r)
  {
    match n
    case 0 => ("IS", ["I", "S"])
    case 1 => ("ARE", ["A", "R"])
    case 2 => ("WHAT", ["W", "A", "T"])
    case 3 => ("HOW", ["H", "A", "U"])
    case 4 => ("WHY", ["W", "A", "I"])
    case _ => ("WHEN", ["W", "E", "N"])
  }

  /** Rows 12 to 17. */
  function Rows3(n: nat): (r: (string, seq<string>))
    requires n < 6
    ensures RowSound(r)
  {
    match n
    case 0 => ("WHERE", ["W", "E", "R"])
    case 1 => ("WHO", ["H", "U"])
    case 2 => ("WHICH", ["W", "I", "CH"])
    case 3 => ("THAT", ["TH", "A", "T"])
    case 4 => ("THIS", ["TH", "I", "S"])
    case _ => ("THESE", ["TH", "E", "S"])
  }

  /** Rows 18 to 23. */
  function Rows4(n: nat): (r: (string, seq<string>))
    requires n < 6
    ensures RowSound(r)
  {
    match n
    case 0 => ("THOSE", ["TH", "O", "S"])
    case 1 => ("THERE", ["TH", "E", "R"])
    case 2 => ("THEIR", ["TH", "E", "R"])
    case 3 => ("THEY", ["TH", "E"])
    case 4 => ("THEM", ["TH", "E", "M"])
    case _ => ("CAN", ["K", "A", "N"])
  }

  /** Rows 24 to 29. */
  function Rows5(n: nat): (r: (string, seq<string>))
    requires n < 6
    ensures RowSound(r)
  {
    match n
    case 0 => ("COULD", ["K", "U", "D"])
    case 1 => ("WOULD", ["W", "U", "D"])
    case 2 => ("SHOULD", ["SH", "U", "D"])
    case 3 => ("WILL", ["W", "I", "L"])
    case 4 => ("SHALL", ["SH", "A", "L"])
    case _ => ("MAY", ["M", "E"])
  }

  /** Rows 30 to 35. */
  function Rows6(n: nat): (r: (string, seq<string>))
    requires n < 6
    ensures RowSound(r)
  {
    match n
    case 0 => ("MIGHT", ["M", "A", "I", "T"])
    case 1 => ("MUST", ["M", "A", "S", "T"])
    case 2 => ("HAVE", ["H", "A", "V"])
    case 3 => ("HAS", ["H", "A", "S"])
    case 4 => ("HAD", ["H", "A", "D"])
    case _ => ("DO", ["D", "U"])
  }

  /** Rows 36 to 41. */
  function Rows7(n: nat): (r: (string, seq<string>))
    requires n < 6
    ensures RowSound(r)
  {
    match n
    case 0 => ("DOES", ["D", "A", "S"])
    case 1 => ("DID", ["D", "I", "D"])
    case 2 => ("DONE", ["D", "A", "N"])
    case 3 => ("BE", ["B", "E"])
    case 4 => ("BEEN", ["B", "I", "N"])
    case _ => ("BEING", ["B", "E", "I", "N", "G"])
  }

  /** Rows 42 to 47. */
  function Rows8(n: nat): (r: (string, seq<string>))
    requires n < 6
    ensures RowSound(r)
  {
    match n
    case 0 => ("WAS", ["W", "A", "S"])
    case 1 => ("WERE", ["W", "E", "R"])
    case 2 => ("AM", ["A", "M"])
    case 3 => ("FOR", ["F", "O", "R"])
    case 4 => ("FROM", ["F", "R", "A", "M"])
    case _ => ("WITH", ["W", "I", "TH"])
  }

  /** Rows 48 to 53. */
  function Rows9(n: nat): (r: (string, seq<string>))
    requires n < 6
    ensures RowSound(r)
  {
    match n
    case 0 => ("WITHOUT", ["W", "I", "TH", "A", "U", "T"])
    case 1 => ("ABOUT", ["A", "B", "A", "U", "T"])
    case 2 => ("ABOVE", ["A", "B", "A", "V"])
    case 3 => ("BELOW", ["B", "E", "L", "O"])
    case 4 => ("UNDER", ["A", "N", "D", "E", "R"])
    case _ => ("OVER", ["O", "V", "E", "R"])
  }

  /** Rows 54 to 59. */
  function Rows10(n: nat): (r: (string, seq<string>))
    requires n < 6
    ensures RowSound(r)
  {
    match n
    case 0 => ("BETWEEN", ["B", "E", "T", "W", "E", "N"])
    case 1 => ("AMONG", ["A", "M", "A", "N", "G"])
    case 2 => ("THROUGH", ["TH", "R", "U"])
    case 3 => ("THROUGHOUT", ["TH", "R", "U", "A", "U", "T"])
    case 4 => ("ACROSS", ["A", "K", "R", "A", "S"])
    case _ => ("ALONG", ["A", "L", "A", "N", "G"])
  }

  /** Rows 60 to 65. */
  function Rows11(n: nat): (r: (string, seq<string>))
    requires n < 6
    ensures RowSound(r)
  {
    match n
    case 0 => ("AROUND", ["A", "R", "A", "U", "N", "D"])
    case 1 => ("AT", ["A", "T"])
    case 2 => ("BY", ["B", "A", "I"])
    case 3 => ("ON", ["A", "N"])
    case 4 => ("IN", ["I", "N"])
    case _ => ("INTO", ["I", "N", "T", "U"])
  }

  /** Rows 66 to 71. */
  function Rows12(n: nat): (r: (string, seq<string>))
    requires n < 6
    ensures RowSound(r)
  {
    match n
    case 0 => ("ONTO", ["A", "N", "T", "U"])
    case 1 => ("OF", ["A", "V"])
    case 2 => ("OFF", ["A", "F"])
    case 3 => ("OUT", ["A", "U", "T"])
    case 4 => ("OUTSIDE", ["A", "U", "T", "S", "A", "I", "D"])
    case _ => ("INSIDE", ["I", "N", "S", "A", "I", "D"])
  }

  /** Rows 72 to 77. */
  function Rows13(n: nat): (r: (string, seq<string>))
    requires n < 6
    ensures RowSound(r)
  {
    match n
    case 0 => ("UP", ["A", "P"])
    case 1 => ("DOWN", ["D", "A", "U", "N"])
    case 2 => ("BEFORE", ["B", "E", "F", "O", "R"])
    case 3 => ("AFTER", ["A", "F", "T", "E", "R"])
    case 4 => ("DURING", ["D", "U", "R", "I", "N", "G"])
    case _ => ("SINCE", ["S", "I", "N", "S"])
  }

  /** Rows 78 to 83. */
  function Rows14(n: nat): (r: (string, seq<string>))
    requires n < 6
    ensures RowSound(r)
  {
    match n
    case 0 => ("UNTIL", ["A", "N", "T", "I", "L"])
    case 1 => ("TILL", ["T", "I", "L"])
    case 2 => ("WHILE", ["W", "A", "I", "L"])
    case 3 => ("BECAUSE", ["B", "E", "K", "A", "S"])
    case 4 => ("THOUGH", ["TH", "O"])
    case _ => ("ALTHOUGH", ["A", "L", "TH", "O"])
  }

  /** Rows 84 to 89. */
  function Rows15(n: nat): (r: (string, seq<string>))
    requires n < 6
    ensures RowSound(r)
  {
    match n
    case 0 => ("IF", ["I", "F"])
    case 1 => ("UNLESS", ["A", "N", "L", "E", "S"])
    case 2 => ("LEST", ["L", "E", "S", "T"])
    case 3 => ("THAN", ["TH", "A", "N"])
    case 4 => ("AS", ["A", "S"])
    case _ => ("SO", ["S", "O"])
  }

  /** Rows 90 to 95. */
  function Rows16(n: nat): (r: (string, seq<string>))
    requires n < 6
    ensures RowSound(r)
  {
    match n
    case 0 => ("SUCH", ["S", "A", "CH"])
    case 1 => ("RATHER", ["R", "A", "TH", "E", "R"])
    case 2 => ("QUITE", ["K", "W", "A", "I", "T"])
    case 3 => ("VERY", ["V", "E", "R", "E"])
    case 4 => ("TOO", ["T", "U"])
    case _ => ("ALSO", ["A", "L", "S", "O"])
  }

  /** Rows 96 to 101. */
  function Rows17(n: nat): (r: (string, seq<string>))
    requires n < 6
    ensures RowSound(r)
  {
    match n
    case 0 => ("ELSE", ["E", "L", "S"])
    case 1 => ("AGAIN", ["A", "G", "E", "N"])
    case 2 => ("ONCE", ["W", "A", "N", "S"])
    case 3 => ("TWICE", ["T", "W", "A", "I", "S"])
    case 4 => ("THRICE", ["TH", "R", "A", "I", "S"])
    case _ => ("FIRST", ["F", "E", "R", "S", "T"])
  }

  /** Rows 102 to 107. */
  function Rows18(n: nat): (r: (string, seq<string>))
    requires n < 6
    ensures RowSound(r)
  {
    match n
    case 0 => ("SECOND", ["S", "E", "K", "A", "N", "D"])
    case 1 => ("THIRD", ["TH", "E", "R", "D"])
    case 2 => ("LAST", ["L", "A", "S", "T"])
    case 3 => ("NEXT", ["N", "E", "K", "S", "T"])
    case 4 => ("PREVIOUS", ["P", "R", "E", "V", "E", "A", "S"])
    case _ => ("NOW", ["N", "A", "U"])
  }

  /** Rows 108 to 113. */
  function Rows19(n: nat): (r: (string, seq<string>))
    requires n < 6
    ensures RowSound(r)
  {
    match n
    case 0 => ("THEN", ["TH", "E", "N"])
    case 1 => ("SOON", ["S", "U", "N"])
    case 2 => ("LATER", ["L", "E", "T", "E", "R"])
    case 3 => ("EARLY", ["E", "R", "L", "E"])
    case 4 => ("LATE", ["L", "E", "T"])
    case _ => ("TODAY", ["T", "U", "D", "E"])
  }

  /** Rows 114 to 119. */
  function Rows20(n: nat): (r: (string, seq<string>))
    requires n < 6
    ensures RowSound(r)
  {
    match n
    case 0 => ("TOMORROW", ["T", "U", "M", "A", "R", "O"])
    case 1 => ("YESTERDAY", ["Y", "E", "S", "T", "E", "R", "D", "E"])
    case 2 => ("HERE", ["H", "E", "R"])
    case 3 => ("EVERYWHERE", ["E", "V", "R", "E", "W", "E", "R"])
    case 4 => ("NOWHERE", ["N", "O", "W", "E", "R"])
    case _ => ("SOMEWHERE", ["S", "A", "M", "W", "E", "R"])
  }

  /** Rows 120 to 125. */
  function Rows21(n: nat): (r: (string, seq<string>))
    requires n < 6
    ensures RowSound(r)
  {
    match n
    case 0 => ("ANYWHERE", ["E", "N", "E", "W", "E", "R"])
    case 1 => ("YES", ["Y", "E", "S"])
    case 2 => ("NO", ["N", "O"])
    case 3 => ("NOT", ["N", "A", "T"])
    case 4 => ("ALL", ["A", "L"])
    case _ => ("ANY", ["E", "N", "E"])
  }

  /** Rows 126 to 131. */
  function Rows22(n: nat): (r: (string, seq<string>))
    requires n < 6
    ensures RowSound(r)
  {
    match n
    case 0 => ("SOME", ["S", "A", "M"])
    case 1 => ("NONE", ["N", "A", "N"])
    case 2 => ("MANY", ["M", "E", "N", "E"])
    case 3 => ("MUCH", ["M", "A", "CH"])
    case 4 => ("MORE", ["M", "O", "R"])
    case _ => ("MOST", ["M", "O", "S", "T"])
  }

  /** Rows 132 to 137. */
  function Rows23(n: nat): (r: (string, seq<string>))
    requires n < 6
    ensures RowSound(r)
  {
    match n
    case 0 => ("LESS", ["L", "E", "S"])
    case 1 => ("LEAST", ["L", "E", "S", "T"])
    case 2 => ("SEVERAL", ["S", "E", "V", "E", "R", "A", "L"])
    case 3 => ("FEW", ["F", "U"])
    case 4 => ("LITTLE", ["L", "I", "T", "L"])
    case _ => ("EACH", ["E", "CH"])
  }

  /** Rows 138 to 143. */
  function Rows24(n: nat): (r: (string, seq<string>))
    requires n < 6
    ensures RowSound(r)
  {
    match n
    case 0 => ("EVERY", ["E", "V", "R", "E"])
    case 1 => ("EITHER", ["E", "TH", "E", "R"])
    case 2 => ("NEITHER", ["N", "E", "TH", "E", "R"])
    case 3 => ("BOTH", ["B", "O", "TH"])
    case 4 => ("ONE", ["W", "A", "N"])
    case _ => ("TWO", ["T", "U"])
  }

  /** Rows 144 to 149. */
  function Rows25(n: nat): (r: (string, seq<string>))
    requires n < 6
    ensures RowSound(r)
  {
    match n
    case 0 => ("THREE", ["TH", "R", "E"])
    case 1 => ("FOUR", ["F", "O", "R"])
    case 2 => ("FIVE", ["F", "A", "I", "V"])
    case 3 => ("SIX", ["S", "I", "K", "S"])
    case 4 => ("SEVEN", ["S", "E", "V", "E", "N"])
    case _ => ("EIGHT", ["E", "T"])
  }

  /** Rows 150 to 151. */
  function Rows26(n: nat): (r: (string, seq<string>))
    requires n < 2
    ensures RowSound(r)
  {
    match n
    case 0 => ("NINE", ["N", "A", "I", "N"])
    case _ => ("TEN", ["T", "E", "N"])
  }
}
