/** The white space that trimming and splitting text go by. */
module Whitespace {
  predicate IsSpace(c: char) {
    var n := c as int;
    || 0x09 <= n <= 0x0D || 0x1C <= n <= 0x20 || n == 0x85 || n == 0xA0 || n == 0x1680
    || 0x2000 <= n <= 0x200A || n == 0x2028 || n == 0x2029 || n == 0x202F || n == 0x205F || n == 0x3000
  }

  /** The twenty-nine of them, one by one. */
  lemma WhichAreSpaces(c: char)
    ensures IsSpace(c) <==>
            c as int in {9, 10, 11, 12, 13, 28, 29, 30, 31, 32, 133, 160, 5760, 8192, 8193, 8194, 8195, 8196, 8197, 8198, 8199,
                         8200, 8201, 8202, 8232, 8233, 8239, 8287, 12288}
  {
  }

  function Strip(s: string): string {
    if s == "" then "" else if IsSpace(s[0]) then Strip(s[1..]) else if IsSpace(s[|s| - 1]) then Strip(s[..|s| - 1]) else s
  }

  /** The words of a text; `word` is what was read of the first. */
  function WordsFrom(word: string, s: string): seq<string>
    decreases |s|
  {
    if s == "" then (if word == "" then [] else [word])
    else if !IsSpace(s[0]) then WordsFrom(word + [s[0]], s[1..])
    else (if word == "" then [] else [word]) + WordsFrom("", s[1..])
  }

  function JoinWords(words: seq<string>): string {
    if words == [] then "" else if |words| == 1 then words[0] else words[0] + (" " + JoinWords(words[1..]))
  }

  /** Words separated by single spaces. */
  function Normalized(s: string): string {
    JoinWords(WordsFrom("", s))
  }

  predicate IsWord(w: string) {
    w != "" && forall i | 0 <= i < |w| :: !IsSpace(w[i])
  }

  lemma {:induction false} WordsAreWords(word: string, s: string)
    requires word == "" || IsWord(word)
    ensures forall i | 0 <= i < |WordsFrom(word, s)| :: IsWord(WordsFrom(word, s)[i])
    decreases |s|
  {
    if s != "" {
      WordsAreWords(if IsSpace(s[0]) then "" else word + [s[0]], s[1..]);
    }
  }

  lemma {:induction false} WordThen(word: string, w: string, s: string)
    requires (w != "" ==> IsWord(w)) && (s != "" ==> IsSpace(s[0]))
    ensures WordsFrom(word, w + s) == WordsFrom(word + w, s)
    decreases |w|
  {
    if w == "" {
      assert w + s == s && word + w == word;
    } else {
      assert (w + s)[1..] == w[1..] + s;
      WordThen(word + [w[0]], w[1..], s);
      assert word + [w[0]] + w[1..] == word + w;
    }
  }

  lemma {:induction false} WordsOfJoined(words: seq<string>)
    requires forall i | 0 <= i < |words| :: IsWord(words[i])
    ensures WordsFrom("", JoinWords(words)) == words
  {
    if words != [] {
      var w, rest := words[0], words[1..];
      var s := if |words| == 1 then "" else " " + JoinWords(rest);
      assert JoinWords(words) == w + s;
      WordThen("", w, s);
      assert "" + w == w;
      if |words| > 1 {
        assert s[1..] == JoinWords(rest);
        WordsOfJoined(rest);
      }
    }
  }

  /** Normalising twice changes nothing more. */
  lemma NormalizedTwice(s: string)
    ensures Normalized(Normalized(s)) == Normalized(s)
  {
    WordsAreWords("", s);
    WordsOfJoined(WordsFrom("", s));
  }

  /** Normalising keeps the words of a text. */
  lemma NormalizedKeepsWords(s: string)
    ensures WordsFrom("", Normalized(s)) == WordsFrom("", s)
  {
    WordsAreWords("", s);
    WordsOfJoined(WordsFrom("", s));
  }

  /** White space separates: the words of two texts with a space between them are the words of both. */
  lemma {:induction false} SpaceSeparates(word: string, a: string, c: char, b: string)
    requires IsSpace(c)
    ensures WordsFrom(word, a + ([c] + b)) == WordsFrom(word, a) + WordsFrom("", b)
    decreases |a|
  {
    var text := a + ([c] + b);
    if a == "" {
      assert text == [c] + b && text[1..] == b;
    } else {
      assert text[1..] == a[1..] + ([c] + b);
      SpaceSeparates(if IsSpace(a[0]) then "" else word + [a[0]], a[1..], c, b);
    }
  }

  /** And nothing else does: a text without white space is one word. */
  lemma WordIsOneWord(w: string)
    requires IsWord(w)
    ensures WordsFrom("", w) == [w] && Normalized(w) == w
  {
    assert JoinWords([w]) == w;
    WordsOfJoined([w]);
  }

  ghost predicate AllSpace(s: string) {
    forall i | 0 <= i < |s| :: IsSpace(s[i])
  }

  /** `core` is what is left of `s` without the white space `before` and `after` it. */
  ghost predicate Trimmed(s: string, before: string, core: string, after: string) {
    && s == before + core + after && AllSpace(before) && AllSpace(after)
    && (core != "" ==> !IsSpace(core[0]) && !IsSpace(core[|core| - 1]))
  }

  lemma TrimFront(c: char, s: string, before: string, core: string, after: string)
    requires IsSpace(c) && Trimmed(s, before, core, after)
    ensures Trimmed([c] + s, [c] + before, core, after)
  {
  }

  lemma TrimBack(s: string, c: char, before: string, core: string, after: string)
    requires IsSpace(c) && Trimmed(s, before, core, after)
    ensures Trimmed(s + [c], before, core, after + [c])
  {
  }

  /** Trimming removes the white space at both ends and nothing else. */
  lemma {:induction false} StripCutsTheEnds(s: string) returns (before: string, after: string)
    ensures Trimmed(s, before, Strip(s), after)
  {
    before, after := "", "";
    if s != "" && IsSpace(s[0]) {
      var b, a := StripCutsTheEnds(s[1..]);
      TrimFront(s[0], s[1..], b, Strip(s), a);
      assert [s[0]] + s[1..] == s;
      before, after := [s[0]] + b, a;
    } else if s != "" && IsSpace(s[|s| - 1]) {
      var b, a := StripCutsTheEnds(s[..|s| - 1]);
      TrimBack(s[..|s| - 1], s[|s| - 1], b, Strip(s), a);
      assert s[..|s| - 1] + [s[|s| - 1]] == s;
      before, after := b, a + [s[|s| - 1]];
    } else {
      assert s == "" + s + "";
    }
  }
}
