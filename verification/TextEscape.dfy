/** TEXT values (section 3.3.11 of RFC 5545): the escaping is a chain of whole-string replacements,
    which is proved to be a one-pass encoder with a decoder. */
module TextEscape {

  // ---------------------------------------------------------------- replacement

  predicate StartsWith(s: string, prefix: string) {
    prefix <= s
  }

  /** Every occurrence of `what`, found from the left without overlaps, replaced by `with_`. */
  function Replace(s: string, what: string, with_: string): string
    requires what != ""
  {
    if s == "" then ""
    else if StartsWith(s, what) then with_ + Replace(s[|what|..], what, with_)
    else [s[0]] + Replace(s[1..], what, with_)
  }

  function Escape(value: string): string {
    Replace(Replace(Replace(Replace(Replace(value, "\\", "\\\\"), "\r\n", "\\n"), "\n", "\\n"), ";", "\\;"), ",", "\\,")
  }

  // ---------------------------------------------------------------- one pass

  /** What one character other than a line break becomes. */
  function Encoded(c: char): string {
    if c == '\\' then "\\\\" else if c == ';' then "\\;" else if c == ',' then "\\," else if c == '\n' then "\\n" else [c]
  }

  function Encode(s: string): string {
    if s == "" then ""
    else if StartsWith(s, "\r\n") then "\\n" + Encode(s[2..])
    else Encoded(s[0]) + Encode(s[1..])
  }

  function Decode(t: string): string {
    if t == "" then ""
    else if t[0] == '\\' && |t| >= 2 then
      (if t[1] == 'n' || t[1] == 'N' then "\n" else [t[1]]) + Decode(t[2..])
    else [t[0]] + Decode(t[1..])
  }

  /** The text with every CRLF turned into LF. */
  function LineFeeds(s: string): string {
    Replace(s, "\r\n", "\n")
  }

  // ---------------------------------------------------------------- the chain is one pass

  lemma ReplaceHit(s: string, what: string, with_: string)
    requires what != ""
    ensures Replace(what + s, what, with_) == with_ + Replace(s, what, with_)
  {
  }

  lemma ReplaceMiss(c: char, s: string, what: string, with_: string)
    requires what != "" && !StartsWith([c] + s, what)
    ensures Replace([c] + s, what, with_) == [c] + Replace(s, what, with_)
  {
  }

  /** Replacing one character acts on each character by itself. */
  function OneChar(c: char, what: char, with_: string): string {
    if c == what then with_ else [c]
  }

  lemma ReplaceChar(c: char, s: string, what: char, with_: string)
    ensures Replace([c] + s, [what], with_) == OneChar(c, what, with_) + Replace(s, [what], with_)
  {
  }

  lemma {:induction false} ReplaceParts(p: string, s: string, what: char, with_: string)
    ensures Replace(p + s, [what], with_) == Replace(p, [what], with_) + Replace(s, [what], with_)
  {
    if p == "" {
      assert p + s == s;
    } else {
      var c, rest := p[0], p[1..];
      assert p == [c] + rest && p + s == [c] + (rest + s);
      ReplaceParts(rest, s, what, with_);
      ReplaceChar(c, rest + s, what, with_);
      ReplaceChar(c, rest, what, with_);
    }
  }

  /** The last three replacements, which look at one character at a time. */
  function Marks(s: string): string {
    Replace(Replace(Replace(s, "\n", "\\n"), ";", "\\;"), ",", "\\,")
  }

  lemma MarksParts(p: string, s: string)
    ensures Marks(p + s) == Marks(p) + Marks(s)
  {
    ReplaceParts(p, s, '\n', "\\n");
    var p1, s1 := Replace(p, "\n", "\\n"), Replace(s, "\n", "\\n");
    ReplaceParts(p1, s1, ';', "\\;");
    ReplaceParts(Replace(p1, ";", "\\;"), Replace(s1, ";", "\\;"), ',', "\\,");
  }

  lemma ReplaceSingle(c: char, what: char, with_: string)
    ensures Replace([c], [what], with_) == OneChar(c, what, with_)
  {
  }

  lemma ReplacePair(a: char, b: char, what: char, with_: string)
    ensures Replace([a, b], [what], with_) == OneChar(a, what, with_) + OneChar(b, what, with_)
  {
    assert [a, b] == [a] + [b];
    ReplaceParts([a], [b], what, with_);
    ReplaceSingle(a, what, with_);
    ReplaceSingle(b, what, with_);
  }

  lemma MarksPair(c: char)
    requires c != '\n' && c != ';' && c != ','
    ensures Marks(['\\', c]) == ['\\', c]
  {
    ReplacePair('\\', c, '\n', "\\n");
    ReplacePair('\\', c, ';', "\\;");
    ReplacePair('\\', c, ',', "\\,");
    assert ['\\'] + [c] == ['\\', c];
  }

  lemma MarksSingle(c: char)
    ensures Marks([c]) == if c == '\\' then [c] else Encoded(c)
  {
    ReplaceSingle(c, '\n', "\\n");
    if c == '\n' {
      ReplacePair('\\', 'n', ';', "\\;");
      ReplacePair('\\', 'n', ',', "\\,");
    } else {
      ReplaceSingle(c, ';', "\\;");
      if c == ';' {
        ReplacePair('\\', ';', ',', "\\,");
      } else {
        ReplaceSingle(c, ',', "\\,");
      }
    }
  }

  /** The first two replacements: backslashes doubled, then CRLF turned into an escaped line feed. */
  function Doubled(s: string): string {
    Replace(s, "\\", "\\\\")
  }

  function Broken(s: string): string {
    Replace(s, "\r\n", "\\n")
  }

  lemma DoubledOne(c: char, s: string)
    ensures Doubled([c] + s) == OneChar(c, '\\', "\\\\") + Doubled(s)
  {
  }

  lemma DoubledBegins(s: string)
    ensures StartsWith(Doubled(s), "\n") <==> StartsWith(s, "\n")
  {
  }

  lemma EscapeBreak(rest: string)
    ensures Escape("\r\n" + rest) == "\\n" + Escape(rest)
  {
    assert "\r\n" + rest == ['\r'] + (['\n'] + rest);
    DoubledOne('\r', ['\n'] + rest);
    DoubledOne('\n', rest);
    assert Doubled("\r\n" + rest) == "\r\n" + Doubled(rest);
    ReplaceHit(Doubled(rest), "\r\n", "\\n");
    MarksParts("\\n", Broken(Doubled(rest)));
    MarksPair('n');
  }

  lemma EscapeBackslash(rest: string)
    ensures Escape("\\" + rest) == "\\\\" + Escape(rest)
  {
    DoubledOne('\\', rest);
    var d := Doubled(rest);
    assert "\\\\" + d == ['\\'] + (['\\'] + d);
    assert (['\\'] + (['\\'] + d))[0] == '\\' && (['\\'] + d)[0] == '\\';
    ReplaceMiss('\\', ['\\'] + d, "\r\n", "\\n");
    ReplaceMiss('\\', d, "\r\n", "\\n");
    assert Broken("\\\\" + d) == "\\\\" + Broken(d);
    MarksParts("\\\\", Broken(d));
    MarksPair('\\');
  }

  lemma EscapePlain(c: char, rest: string)
    requires c != '\\' && !StartsWith([c] + rest, "\r\n")
    ensures Escape([c] + rest) == Encoded(c) + Escape(rest)
  {
    DoubledOne(c, rest);
    DoubledBegins(rest);
    var d := Doubled(rest);
    assert !StartsWith([c] + d, "\r\n") by {
      if c == '\r' {
        assert !StartsWith(rest, "\n") by {
          assert rest != "" ==> ([c] + rest)[1] == rest[0];
        }
        assert d != "" ==> ([c] + d)[1] == d[0] != '\n';
      }
    }
    ReplaceMiss(c, d, "\r\n", "\\n");
    MarksParts([c], Broken(d));
    MarksSingle(c);
  }

  /** The chain of replacements encodes one character, or one CRLF, after the other. */
  lemma {:induction false} EscapeIsOnePass(s: string)
    ensures Escape(s) == Encode(s)
  {
    if s == "" {
    } else if StartsWith(s, "\r\n") {
      EscapeIsOnePass(s[2..]);
      EscapeBreak(s[2..]);
      assert s == "\r\n" + s[2..];
    } else {
      EscapeIsOnePass(s[1..]);
      assert s == [s[0]] + s[1..];
      if s[0] == '\\' {
        EscapeBackslash(s[1..]);
      } else {
        EscapePlain(s[0], s[1..]);
      }
    }
  }

  // ---------------------------------------------------------------- decoding

  lemma DecodePair(c: char, t: string)
    ensures Decode("\\" + ([c] + t)) == (if c == 'n' || c == 'N' then "\n" else [c]) + Decode(t)
  {
    assert ("\\" + ([c] + t))[2..] == t;
  }

  lemma DecodeEncoded(c: char, t: string)
    ensures Decode(Encoded(c) + t) == [c] + Decode(t)
  {
  }

  lemma {:induction false} DecodeEncode(s: string)
    ensures Decode(Encode(s)) == LineFeeds(s)
  {
    if s == "" {
    } else if StartsWith(s, "\r\n") {
      DecodeEncode(s[2..]);
      assert "\\n" + Encode(s[2..]) == "\\" + (['n'] + Encode(s[2..]));
      DecodePair('n', Encode(s[2..]));
    } else {
      DecodeEncode(s[1..]);
      DecodeEncoded(s[0], Encode(s[1..]));
    }
  }

  /** A reader gets the text back, with LF for every CRLF. */
  lemma EscapedTextReadsBack(s: string)
    ensures Decode(Escape(s)) == LineFeeds(s)
  {
    EscapeIsOnePass(s);
    DecodeEncode(s);
  }

  /** Nothing that is escaped can end a line. */
  lemma {:induction false} EncodedHasNoLineFeed(s: string)
    ensures '\n' !in Encode(s)
  {
    if s == "" {
    } else if StartsWith(s, "\r\n") {
      EncodedHasNoLineFeed(s[2..]);
    } else {
      EncodedHasNoLineFeed(s[1..]);
    }
  }

  lemma EscapedHasNoLineFeed(s: string)
    ensures '\n' !in Escape(s)
  {
    EscapeIsOnePass(s);
    EncodedHasNoLineFeed(s);
  }
}
