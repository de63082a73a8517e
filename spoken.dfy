/**
  The spoken-digit scanner of the phone extractor (`words_to_digits`,
  app/llm.py:369-393) and its acceptance test (app/llm.py:397).
 */
module SpokenDigits {
  import opened Wrappers
  import opened Text

  /** The scanner's word table: the ten digit words, and the two modifiers,
      which on their own stand for no digit. */
  function WordValue(w: string): Option<string> {
    if w == "zero" then Some("0")
    else if w == "one" then Some("1")
    else if w == "two" then Some("2")
    else if w == "three" then Some("3")
    else if w == "four" then Some("4")
    else if w == "five" then Some("5")
    else if w == "six" then Some("6")
    else if w == "seven" then Some("7")
    else if w == "eight" then Some("8")
    else if w == "nine" then Some("9")
    else if w == "double" then Some("")
    else if w == "triple" then Some("")
    else None
  }

  /** What the scanner emits for the words `ws`, read left to right: a table
      word emits its digit; `double X` / `triple X` with X in the table emit
      X's digit twice / three times and consume X; any other word emits nothing. */
  function Spelled(ws: seq<string>): string
    decreases |ws|
  {
    if ws == [] then ""
    else match WordValue(ws[0])
      case None => Spelled(ws[1..])
      case Some(d) =>
        if ws[0] == "double" && |ws| > 1 && WordValue(ws[1]).Some? then
          Repeat(WordValue(ws[1]).value, 2) + Spelled(ws[2..])
        else if ws[0] == "triple" && |ws| > 1 && WordValue(ws[1]).Some? then
          Repeat(WordValue(ws[1]).value, 3) + Spelled(ws[2..])
        else
          d + Spelled(ws[1..])
  }

  /** A word not followed by a digit word to modify emits its own value, if any. */
  lemma SpelledWord(ws: seq<string>)
    requires ws != []
    requires ws[0] == "double" || ws[0] == "triple" ==> |ws| == 1 || WordValue(ws[1]) == None
    ensures Spelled(ws) == WordValue(ws[0]).GetOr("") + Spelled(ws[1..])
  {
  }

  /** `double X` / `triple X` emit X's value `k` times and consume X. */
  lemma SpelledModifier(ws: seq<string>, k: nat)
    requires |ws| > 1 && WordValue(ws[1]).Some?
    requires (ws[0] == "double" && k == 2) || (ws[0] == "triple" && k == 3)
    ensures Spelled(ws) == Repeat(WordValue(ws[1]).value, k) + Spelled(ws[2..])
  {
  }

  /** Appending the emitted digits to the output keeps output + rest-to-scan fixed. */
  lemma Advance(digits: seq<string>, digit: string, spelledRest: string, tail: string)
    requires spelledRest == digit + tail
    ensures Concat(digits + [digit]) + tail == Concat(digits) + spelledRest
  {
    ConcatAppend(digits, digit);
  }

  /** One step of the scan at word `i`: appends what the word emits (nothing
      for a word outside the table) and moves past the words it used. */
  method ScanStep(words: seq<string>, i: nat, digits: seq<string>) returns (digits': seq<string>, next: nat)
    requires i < |words|
    ensures i < next <= |words|
    ensures Concat(digits') + Spelled(words[next..]) == Concat(digits) + Spelled(words[i..])
  {
    var word := words[i];
    ghost var rest := words[i..];
    assert rest[0] == word && rest[1..] == words[i + 1..];
    digits' := digits;
    next := i + 1;
    var value := WordValue(word);
    if value.Some? {
      var digit := value.value;
      if word == "double" && i + 1 < |words| && WordValue(words[i + 1]).Some? {
        digit := Repeat(WordValue(words[i + 1]).value, 2);
        assert rest[1] == words[i + 1] && rest[2..] == words[i + 2..];
        SpelledModifier(rest, 2);
        next := i + 2;
      } else if word == "triple" && i + 1 < |words| && WordValue(words[i + 1]).Some? {
        digit := Repeat(WordValue(words[i + 1]).value, 3);
        assert rest[1] == words[i + 1] && rest[2..] == words[i + 2..];
        SpelledModifier(rest, 3);
        next := i + 2;
      } else {
        assert |rest| > 1 ==> rest[1] == words[i + 1];
        SpelledWord(rest);
      }
      Advance(digits, digit, Spelled(rest), Spelled(words[next..]));
      digits' := digits + [digit];
    } else {
      SpelledWord(rest);
    }
  }

  /** The scanning loop of `words_to_digits`, over the split words. */
  method DigitsOfWords(words: seq<string>) returns (number: string)
    ensures number == Spelled(words)
  {
    var digits: seq<string> := [];
    var i := 0;
    while i < |words|
      invariant 0 <= i <= |words|
      invariant Concat(digits) + Spelled(words[i..]) == Spelled(words)
      decreases |words| - i
    {
      digits, i := ScanStep(words, i, digits);
    }
    assert words[i..] == [];
    number := Concat(digits);
  }

  /** `words_to_digits(text)`: lower-case, split on whitespace, scan. */
  method WordsToDigits(text: string) returns (number: string)
    ensures number == Spelled(Words(Lower(text)))
  {
    number := DigitsOfWords(Words(Lower(text)));
  }

  /** The acceptance test on the scanned number: exactly ten characters, the
      first one of 6, 7, 8, 9 (an Indian mobile prefix). */
  predicate IsMobileNumber(s: string) {
    |s| == 10 && s[0] in "6789"
  }

  // ---------------------------------------------------------------------
  // An independent description of spoken numbers

  /** One unit of a spoken number: a digit word, `double`/`triple` and a digit
      word, or a word the scanner does not know. */
  datatype Spoken = Digit(d: nat) | Twice(d: nat) | Thrice(d: nat) | Filler(word: string)

  predicate WellFormed(t: Spoken) {
    match t
    case Digit(d) => d < 10
    case Twice(d) => d < 10
    case Thrice(d) => d < 10
    case Filler(w) => WordValue(w) == None
  }

  const DigitWords := ["zero", "one", "two", "three", "four", "five", "six", "seven", "eight", "nine"]

  /** The words spoken for one unit. */
  function UnitWords(t: Spoken): seq<string>
    requires WellFormed(t)
  {
    match t
    case Digit(d) => [DigitWords[d]]
    case Twice(d) => ["double", DigitWords[d]]
    case Thrice(d) => ["triple", DigitWords[d]]
    case Filler(w) => [w]
  }

  /** The digits one unit denotes. */
  function UnitDigits(t: Spoken): string
    requires WellFormed(t)
  {
    match t
    case Digit(d) => [DigitChar(d)]
    case Twice(d) => [DigitChar(d), DigitChar(d)]
    case Thrice(d) => [DigitChar(d), DigitChar(d), DigitChar(d)]
    case Filler(_) => ""
  }

  /** The words spoken for a sequence of units. */
  function Render(ts: seq<Spoken>): seq<string>
    requires forall k :: 0 <= k < |ts| ==> WellFormed(ts[k])
  {
    if ts == [] then [] else UnitWords(ts[0]) + Render(ts[1..])
  }

  /** The number a sequence of units denotes. */
  function Expand(ts: seq<Spoken>): string
    requires forall k :: 0 <= k < |ts| ==> WellFormed(ts[k])
  {
    if ts == [] then "" else UnitDigits(ts[0]) + Expand(ts[1..])
  }

  lemma RepeatDigit(c: char, k: nat)
    requires k == 2 || k == 3
    ensures Repeat([c], k) == if k == 2 then [c, c] else [c, c, c]
  {
    assert Repeat([c], 1) == [c];
  }

  lemma DigitWordValue(d: nat)
    requires d < 10
    ensures WordValue(DigitWords[d]) == Some([DigitChar(d)])
    ensures DigitWords[d] != "double" && DigitWords[d] != "triple"
  {
  }

  /** Scanning the words of any spoken number gives back the number it denotes:
      each digit word yields its digit, each `double X` / `triple X` yields X's
      digit two / three times, and unknown words yield nothing. */
  lemma {:induction false} SpelledRender(ts: seq<Spoken>)
    requires forall k :: 0 <= k < |ts| ==> WellFormed(ts[k])
    ensures Spelled(Render(ts)) == Expand(ts)
    decreases |ts|
  {
    if ts != [] {
      SpelledRender(ts[1..]);
      var ws := Render(ts);
      var tail := Render(ts[1..]);
      match ts[0]
      case Digit(d) =>
        DigitWordValue(d);
        assert ws == [DigitWords[d]] + tail;
        assert ws[0] == DigitWords[d] && ws[1..] == tail;
        SpelledWord(ws);
      case Twice(d) =>
        DigitWordValue(d);
        assert ws == ["double", DigitWords[d]] + tail;
        assert ws[0] == "double" && ws[1] == DigitWords[d] && ws[2..] == tail;
        SpelledModifier(ws, 2);
        RepeatDigit(DigitChar(d), 2);
      case Thrice(d) =>
        DigitWordValue(d);
        assert ws == ["triple", DigitWords[d]] + tail;
        assert ws[0] == "triple" && ws[1] == DigitWords[d] && ws[2..] == tail;
        SpelledModifier(ws, 3);
        RepeatDigit(DigitChar(d), 3);
      case Filler(w) =>
        assert ws == [w] + tail;
        assert ws[0] == w && ws[1..] == tail;
        SpelledWord(ws);
    }
  }
}
