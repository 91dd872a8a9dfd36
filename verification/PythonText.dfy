/** The string operations of Python that the model needs: `str.split()`, `" ".join`, `str.strip()`,
    `str.lower()` and `in`. Characters are code points. */
module PythonText {

  /** `str.isspace` for one code point: the separators of `str.split()` and `str.strip()`. */
  predicate IsSpace(c: char) {
    || '\U{0009}' <= c <= '\U{000D}' || '\U{001C}' <= c <= '\U{0020}'
    || c == '\U{0085}' || c == '\U{00A0}' || c == '\U{1680}' || '\U{2000}' <= c <= '\U{200A}'
    || c == '\U{2028}' || c == '\U{2029}' || c == '\U{202F}' || c == '\U{205F}' || c == '\U{3000}'
  }

  /** Lower-casing of ASCII letters. No other code point lowers to a letter sequence that could complete one of
      the two markers searched for in ErrorMessages, so this agrees with `str.lower()` on every such search. */
  function LowerChar(c: char): char {
    if 'A' <= c <= 'Z' then (c as int - 'A' as int + 'a' as int) as char else c
  }

  function Lower(text: string): (lowered: string) {
    seq(|text|, i requires 0 <= i < |text| => LowerChar(text[i]))
  }

  /** `needle in text` */
  predicate Contains(text: string, needle: string) {
    exists i | 0 <= i <= |text| :: needle <= text[i..]
  }

  /** The length of the longest prefix without white space. */
  function WordEnd(text: string): (n: nat)
    ensures n <= |text|
    ensures forall i | 0 <= i < n :: !IsSpace(text[i])
    ensures n < |text| ==> IsSpace(text[n])
  {
    if text == "" || IsSpace(text[0]) then 0 else 1 + WordEnd(text[1..])
  }

  /** `text.split()` */
  function Split(text: string): (words: seq<string>)
    ensures forall word <- words :: IsWord(word)
    decreases |text|
  {
    if text == "" then []
    else if IsSpace(text[0]) then Split(text[1..])
    else var n := WordEnd(text); [text[..n]] + Split(text[n..])
  }

  /** `" ".join(words)` */
  function Join(words: seq<string>): string {
    if words == [] then "" else if |words| == 1 then words[0] else words[0] + " " + Join(words[1..])
  }

  predicate IsWord(word: string) {
    word != "" && forall i | 0 <= i < |word| :: !IsSpace(word[i])
  }

  /** No leading, trailing or repeated white space, and no white space but the plain blank. */
  predicate Collapsed(text: string) {
    forall i | 0 <= i < |text| && IsSpace(text[i]) :: text[i] == ' ' && 0 < i < |text| - 1 && !IsSpace(text[i + 1])
  }

  lemma {:induction false} JoinIsCollapsed(words: seq<string>)
    requires forall word <- words :: IsWord(word)
    ensures Collapsed(Join(words))
    ensures words != [] ==> Join(words) != "" && !IsSpace(Join(words)[0])
  {
    if words != [] {
      assert IsWord(words[0]);
    }
    if |words| > 1 {
      assert IsWord(words[1]);
      JoinIsCollapsed(words[1..]);
      var rest := Join(words[1..]);
      forall i | 0 <= i < |Join(words)| && IsSpace(Join(words)[i])
        ensures Join(words)[i] == ' ' && 0 < i < |Join(words)| - 1 && !IsSpace(Join(words)[i + 1])
      {
        if i > |words[0]| {
          assert Join(words)[i] == rest[i - |words[0]| - 1];
        }
      }
    }
  }

  /** A collapsed text is a fixed point of splitting and joining. */
  lemma {:induction false} CollapsedIsFixed(text: string)
    requires Collapsed(text)
    ensures Join(Split(text)) == text
    ensures text != "" ==> Split(text) != []
    decreases |text|
  {
    if text != "" {
      var n := WordEnd(text);
      if n == |text| {
        assert text[..n] == text && text[n..] == "";
        assert Split(text) == [text];
      } else {
        var rest := text[n + 1..];
        assert n > 0 && !IsSpace(text[n + 1]);
        forall i | 0 <= i < |rest| && IsSpace(rest[i])
          ensures rest[i] == ' ' && 0 < i < |rest| - 1 && !IsSpace(rest[i + 1])
        {
          assert rest[i] == text[i + n + 1];
          assert rest[0] == text[n + 1];
        }
        CollapsedIsFixed(rest);
        assert text[n..][1..] == rest;
        assert Split(text) == [text[..n]] + Split(rest);
        assert Split(text)[1..] == Split(rest);
        assert text == text[..n] + " " + rest;
      }
    }
  }

  lemma {:induction false} WordEndAfterWord(word: string, rest: string)
    requires forall i | 0 <= i < |word| :: !IsSpace(word[i])
    requires rest != "" && IsSpace(rest[0])
    ensures WordEnd(word + rest) == |word|
  {
    if word == "" {
      assert word + rest == rest;
    } else {
      assert (word + rest)[0] == word[0] && (word + rest)[1..] == word[1..] + rest;
      WordEndAfterWord(word[1..], rest);
    }
  }

  lemma SplitAfterWord(word: string, rest: string)
    requires IsWord(word)
    requires rest != "" && IsSpace(rest[0])
    ensures Split(word + rest) == [word] + Split(rest)
  {
    WordEndAfterWord(word, rest);
    assert (word + rest)[0] == word[0];
    assert (word + rest)[..|word|] == word && (word + rest)[|word|..] == rest;
  }

  lemma SplitIgnoresExtraBlank(word: string, rest: string)
    requires IsWord(word)
    ensures Split(word + "  " + rest) == Split(word + " " + rest)
  {
    var one, two := " " + rest, "  " + rest;
    SplitAfterWord(word, one);
    SplitAfterWord(word, two);
    assert two[1..] == one;
    assert word + "  " + rest == word + two && word + " " + rest == word + one;
  }

  /** Joining loses no word. */
  lemma {:induction false} SplitOfJoin(words: seq<string>)
    requires forall word <- words :: IsWord(word)
    ensures Split(Join(words)) == words
  {
    if words != [] {
      var word, rest := words[0], words[1..];
      assert IsWord(word) && words == [word] + rest;
      if rest == [] {
        assert word[..|word|] == word && word[|word|..] == "";
      } else {
        SplitOfJoin(rest);
        SplitAfterWord(word, " " + Join(rest));
        assert word + " " + Join(rest) == word + (" " + Join(rest));
        assert (" " + Join(rest))[1..] == Join(rest);
      }
    }
  }

  function Concat(words: seq<string>): string {
    if words == [] then "" else words[0] + Concat(words[1..])
  }

  /** The text without its white space. */
  function Visible(text: string): string {
    if text == "" then ""
    else if IsSpace(text[0]) then Visible(text[1..])
    else [text[0]] + Visible(text[1..])
  }

  lemma {:induction false} VisibleWord(word: string, rest: string)
    requires forall i | 0 <= i < |word| :: !IsSpace(word[i])
    ensures Visible(word + rest) == word + Visible(rest)
  {
    if word == "" {
      assert word + rest == rest;
    } else {
      assert (word + rest)[1..] == word[1..] + rest;
      VisibleWord(word[1..], rest);
    }
  }

  /** Splitting drops white space and nothing else, and keeps the order. */
  lemma {:induction false} SplitKeepsVisible(text: string)
    ensures Concat(Split(text)) == Visible(text)
    decreases |text|
  {
    if text != "" {
      if IsSpace(text[0]) {
        SplitKeepsVisible(text[1..]);
      } else {
        var n := WordEnd(text);
        VisibleWord(text[..n], text[n..]);
        SplitKeepsVisible(text[n..]);
        assert text == text[..n] + text[n..];
      }
    }
  }

  lemma AsciiSpaces()
    ensures forall c | c == ' ' || c == '\t' || c == '\n' || c == '\r' :: IsSpace(c)
    ensures forall c | '!' <= c <= '~' :: !IsSpace(c)
  {
  }

  /** Capital ASCII letters become small ones; nothing else changes. */
  lemma LowerLetters(text: string, i: nat)
    requires i < |text|
    ensures |Lower(text)| == |text|
    ensures 'A' <= text[i] <= 'Z' ==> Lower(text)[i] == "abcdefghijklmnopqrstuvwxyz"[text[i] as int - 65]
    ensures !('A' <= text[i] <= 'Z') ==> Lower(text)[i] == text[i]
  {
  }

  /** `text.strip()` */
  function Strip(text: string): (stripped: string)
    ensures stripped != "" ==> !IsSpace(stripped[0]) && !IsSpace(stripped[|stripped| - 1])
    ensures forall c <- stripped :: c in text
    decreases |text|
  {
    if text == "" then ""
    else if IsSpace(text[0]) then Strip(text[1..])
    else if IsSpace(text[|text| - 1]) then Strip(text[..|text| - 1])
    else text
  }

  /** Stripping removes white space at the two ends and nothing else. */
  lemma {:induction false} StripRemovesBlanks(text: string) returns (lead: string, trail: string)
    ensures text == lead + Strip(text) + trail
    ensures (forall c <- lead :: IsSpace(c)) && (forall c <- trail :: IsSpace(c))
    decreases |text|
  {
    if text == "" {
      lead, trail := "", "";
    } else if IsSpace(text[0]) {
      lead, trail := StripRemovesBlanks(text[1..]);
      lead := [text[0]] + lead;
      assert text == [text[0]] + text[1..];
    } else if IsSpace(text[|text| - 1]) {
      var n := |text| - 1;
      lead, trail := StripRemovesBlanks(text[..n]);
      trail := trail + [text[n]];
      assert text == text[..n] + [text[n]];
    } else {
      lead, trail := "", "";
    }
  }
}
