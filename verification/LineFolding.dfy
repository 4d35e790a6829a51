/** Content lines of an iCalendar stream (section 3.1 of RFC 5545): folded to at most 75 octets, ended
    by CRLF, and read back by unfolding and splitting. */
module LineFolding {
  const Limit: nat := 75

  // ---------------------------------------------------------------- octets

  type Octet = b: nat | b < 256

  /** How many octets UTF-8 needs for a code point. */
  function Width(c: char): (r: nat)
    ensures 1 <= r <= 4
  {
    if c as int < 0x80 then 1 else if c as int < 0x800 then 2 else if c as int < 0x10000 then 3 else 4
  }

  function Utf8(c: char): (r: seq<Octet>)
    ensures |r| == Width(c)
  {
    var n := c as int;
    if n < 0x80 then [n]
    else if n < 0x800 then [0xC0 + n / 0x40, 0x80 + n % 0x40]
    else if n < 0x10000 then [0xE0 + n / 0x1000, 0x80 + n / 0x40 % 0x40, 0x80 + n % 0x40]
    else [0xF0 + n / 0x40000, 0x80 + n / 0x1000 % 0x40, 0x80 + n / 0x40 % 0x40, 0x80 + n % 0x40]
  }

  /** The code point that a well-formed octet sequence stands for: the leading octet tells the length,
      each further octet carries six bits (section 3 of RFC 3629). */
  predicate StandsFor(r: seq<int>, n: nat) {
    || (|r| == 1 && r[0] < 0x80 && n == r[0])
    || (|r| == 2 && r[0] / 0x20 == 6 && r[1] / 0x40 == 2 && n == r[0] % 0x20 * 0x40 + r[1] % 0x40)
    || (|r| == 3 && r[0] / 0x10 == 14 && r[1] / 0x40 == 2 && r[2] / 0x40 == 2
        && n == r[0] % 0x10 * 0x1000 + r[1] % 0x40 * 0x40 + r[2] % 0x40)
    || (|r| == 4 && r[0] / 8 == 30 && r[1] / 0x40 == 2 && r[2] / 0x40 == 2 && r[3] / 0x40 == 2
        && n == r[0] % 8 * 0x40000 + r[1] % 0x40 * 0x1000 + r[2] % 0x40 * 0x40 + r[3] % 0x40)
  }

  lemma SixBits(n: nat)
    ensures (0x80 + n % 0x40) / 0x40 == 2 && (0x80 + n % 0x40) % 0x40 == n % 0x40 && n == n / 0x40 * 0x40 + n % 0x40
  {
  }

  lemma TwoOctets(q: nat, n: nat)
    requires q < 0x20 && n / 0x40 == q
    ensures StandsFor([0xC0 + q, 0x80 + n % 0x40], n)
  {
    SixBits(n);
  }

  lemma ThreeOctets(q: nat, p: nat, n: nat)
    requires q < 0x10 && p / 0x40 == q && n / 0x40 == p
    ensures StandsFor([0xE0 + q, 0x80 + p % 0x40, 0x80 + n % 0x40], n)
  {
    SixBits(n);
    SixBits(p);
  }

  lemma FourOctets(q: nat, o: nat, p: nat, n: nat)
    requires q < 8 && o / 0x40 == q && p / 0x40 == o && n / 0x40 == p
    ensures StandsFor([0xF0 + q, 0x80 + o % 0x40, 0x80 + p % 0x40, 0x80 + n % 0x40], n)
  {
    SixBits(n);
    SixBits(p);
    SixBits(o);
  }

  lemma Utf8ReadsBack(c: char)
    ensures StandsFor(Utf8(c), c as nat)
  {
    var n := c as nat;
    if n < 0x80 {
    } else if n < 0x800 {
      TwoOctets(n / 0x40, n);
    } else if n < 0x10000 {
      ThreeOctets(n / 0x1000, n / 0x40, n);
    } else {
      FourOctets(n / 0x40000, n / 0x1000, n / 0x40, n);
    }
  }

  function Octets(s: string): seq<Octet> {
    if s == "" then [] else Utf8(s[0]) + Octets(s[1..])
  }

  function Size(s: string): nat {
    if s == "" then 0 else Width(s[0]) + Size(s[1..])
  }

  lemma {:induction false} SizeCountsOctets(s: string)
    ensures |Octets(s)| == Size(s)
  {
    if s != "" {
      SizeCountsOctets(s[1..]);
    }
  }

  lemma {:induction false} SizeOfParts(a: string, b: string)
    ensures Size(a + b) == Size(a) + Size(b)
  {
    if a == "" {
      assert a + b == b;
    } else {
      SizeOfParts(a[1..], b);
      assert (a + b)[1..] == a[1..] + b;
    }
  }

  lemma SizeOne(c: char)
    ensures Size([c]) == Width(c)
  {
  }

  // ---------------------------------------------------------------- folding

  function Concat(parts: seq<string>): string {
    if parts == [] then "" else parts[0] + Concat(parts[1..])
  }

  lemma Regroup(a: string, b: string, c: string)
    ensures a + (b + c) == (a + b) + c
  {
  }

  lemma SinglePart(parts: seq<string>)
    ensures |parts| == 1 ==> Concat(parts) == parts[0]
  {
  }

  lemma {:induction false} ConcatOne(parts: seq<string>, part: string)
    ensures Concat(parts + [part]) == Concat(parts) + part
  {
    if parts == [] {
      assert [part][1..] == [];
      assert [] + [part] == [part];
    } else {
      ConcatOne(parts[1..], part);
      assert (parts + [part])[1..] == parts[1..] + [part];
    }
  }

  /** A continuation line begins with one space, which takes one octet. */
  function Allowed(i: nat): nat {
    if i == 0 then Limit else Limit - 1
  }

  /** Chunk `i` is followed by a chunk whose first code point had no room in its line. */
  ghost predicate Full(parts: seq<string>, i: nat, from: nat)
    requires i + 1 < |parts|
  {
    parts[i + 1] != "" && Size(parts[i]) + Width(parts[i + 1][0]) > Allowed(from + i)
  }

  /** The chunks `parts`, the first of them number `from`, split `value` between code points; each fits
      its line and is as long as its line allows. */
  ghost predicate Fills(value: string, parts: seq<string>, from: nat) {
    && Concat(parts) == value
    && (forall i | 0 <= i < |parts| :: Size(parts[i]) <= Allowed(from + i) && (|parts| > 1 ==> parts[i] != ""))
    && (forall i | 0 <= i < |parts| - 1 :: Full(parts, i, from))
  }

  ghost predicate Folds(value: string, parts: seq<string>) {
    parts != [] && Fills(value, parts, 0)
  }

  /** The loop of the folding: `current` is the chunk being filled. */
  ghost predicate Filling(done: string, chunks: seq<string>, current: string) {
    && Fills(done, chunks + [current], 0)
    && (current == "" ==> done == "" && chunks == [])
  }

  lemma GrowChunk(done: string, chunks: seq<string>, current: string, c: char)
    requires Filling(done, chunks, current) && Size(current) + Width(c) <= Allowed(|chunks|)
    ensures Filling(done + [c], chunks, current + [c])
    ensures Size(current + [c]) == Size(current) + Width(c)
  {
    SizeOfParts(current, [c]);
    SizeOne(c);
    ConcatOne(chunks, current);
    ConcatOne(chunks, current + [c]);
    var was, now := chunks + [current], chunks + [current + [c]];
    forall i | 0 <= i < |now| - 1 ensures Full(now, i, 0) {
      assert Full(was, i, 0);
    }
    forall i | 0 <= i < |now| ensures Size(now[i]) <= Allowed(0 + i) && now[i] != "" {
      assert Size(was[i]) <= Allowed(0 + i) && (|was| > 1 ==> was[i] != "");
    }
  }

  lemma StartChunk(done: string, chunks: seq<string>, current: string, c: char)
    requires Filling(done, chunks, current) && current != "" && Size(current) + Width(c) > Allowed(|chunks|)
    ensures Filling(done + [c], chunks + [current], [c])
    ensures Size([c]) == Width(c)
  {
    SizeOne(c);
    var was, now := chunks + [current], chunks + [current] + [[c]];
    ConcatOne(was, [c]);
    forall i | 0 <= i < |now| - 1 ensures Full(now, i, 0) {
      assert i < |was| - 1 ==> Full(was, i, 0);
    }
    forall i | 0 <= i < |now| ensures Size(now[i]) <= Allowed(0 + i) && now[i] != "" {
      assert i < |was| ==> Size(was[i]) <= Allowed(0 + i) && (|was| > 1 ==> was[i] != "");
    }
  }

  method FoldLine(value: string) returns (folded: string)
    ensures IsFolded(value, folded)
  {
    var chunks: seq<string> := [];
    var current, currentBytes := "", 0;
    assert Concat([""]) == "" by {
      assert [""][1..] == [];
    }
    for k := 0 to |value|
      invariant Filling(value[..k], chunks, current) && currentBytes == Size(current)
    {
      var character := value[k];
      var width := Width(character);
      var allowed := if chunks == [] then Limit else Limit - 1;
      assert value[..k + 1] == value[..k] + [character];
      if current != "" && currentBytes + width > allowed {
        StartChunk(value[..k], chunks, current, character);
        chunks := chunks + [current];
        current := [character];
        currentBytes := width;
      } else {
        GrowChunk(value[..k], chunks, current, character);
        current := current + [character];
        currentBytes := currentBytes + width;
      }
    }
    assert value[..|value|] == value;
    chunks := chunks + [current];
    assert Folds(value, chunks);
    folded := Folded(chunks);
  }

  /** The continuation lines of `parts`, then `rest`. */
  function Continued(parts: seq<string>, rest: string): string {
    if parts == [] then rest else "\r\n" + (" " + (parts[0] + Continued(parts[1..], rest)))
  }

  function FoldedThen(parts: seq<string>, rest: string): string
    requires parts != []
  {
    parts[0] + Continued(parts[1..], rest)
  }

  /** The chunks joined by a line break and a space. */
  function Folded(parts: seq<string>): string
    requires parts != []
  {
    FoldedThen(parts, "")
  }

  /** The chunks of `text` fold `value`. */
  ghost predicate IsFolded(value: string, text: string) {
    exists parts :: Folds(value, parts) && text == Folded(parts)
  }

  lemma {:induction false} ContinuedThen(parts: seq<string>, rest: string)
    ensures Continued(parts, rest) == Continued(parts, "") + rest
  {
    if parts == [] {
      assert "" + rest == rest;
    } else {
      ContinuedThen(parts[1..], rest);
      var a := Continued(parts[1..], "");
      Regroup(parts[0], a, rest);
      Regroup(" ", parts[0] + a, rest);
      Regroup("\r\n", " " + (parts[0] + a), rest);
    }
  }

  // ---------------------------------------------------------------- reading back

  /** A CRLF followed by a space or a tab is removed. */
  function Unfold(text: string): string {
    if text == "" then ""
    else if |text| >= 3 && text[0] == '\r' && text[1] == '\n' && (text[2] == ' ' || text[2] == '\t') then Unfold(text[3..])
    else [text[0]] + Unfold(text[1..])
  }

  /** The lines of a stream, each ended by CRLF; `current` is what was read of the first. */
  function Lines(current: string, text: string): seq<string>
    decreases |text|
  {
    if text == "" then (if current == "" then [] else [current])
    else if |text| >= 2 && text[0] == '\r' && text[1] == '\n' then [current] + Lines("", text[2..])
    else Lines(current + [text[0]], text[1..])
  }

  function Ended(lines: seq<string>): string {
    if lines == [] then "" else lines[0] + ("\r\n" + Ended(lines[1..]))
  }

  /** What a reader needs of a logical line: no line feed inside, no blank in front. */
  predicate Clean(line: string) {
    '\n' !in line && (line != "" ==> line[0] != ' ' && line[0] != '\t')
  }

  lemma {:induction false} LinesOne(current: string, line: string, rest: string)
    requires '\n' !in line
    ensures Lines(current, line + ("\r\n" + rest)) == [current + line] + Lines("", rest)
    decreases |line|
  {
    var text := line + ("\r\n" + rest);
    if line == "" {
      assert text == "\r\n" + rest;
      assert text[2..] == rest;
      assert current + line == current;
    } else {
      assert text[1] == if |line| > 1 then line[1] else '\r';
      assert text[1..] == line[1..] + ("\r\n" + rest);
      LinesOne(current + [line[0]], line[1..], rest);
      assert current + [line[0]] + line[1..] == current + line;
    }
  }

  lemma {:induction false} LinesOfEnded(lines: seq<string>)
    requires forall i | 0 <= i < |lines| :: '\n' !in lines[i]
    ensures Lines("", Ended(lines)) == lines
  {
    if lines != [] {
      LinesOne("", lines[0], Ended(lines[1..]));
      LinesOfEnded(lines[1..]);
      assert "" + lines[0] == lines[0];
    }
  }

  lemma {:induction false} UnfoldPart(part: string, rest: string)
    requires '\n' !in part && (rest != "" ==> rest[0] == '\r')
    ensures Unfold(part + rest) == part + Unfold(rest)
  {
    if part == "" {
      assert part + rest == rest;
      assert part + Unfold(rest) == Unfold(rest);
    } else {
      var text := part + rest;
      assert |text| > 1 ==> text[1] == if |part| > 1 then part[1] else rest[0];
      assert text[1..] == part[1..] + rest;
      UnfoldPart(part[1..], rest);
      assert [part[0]] + (part[1..] + Unfold(rest)) == part + Unfold(rest);
    }
  }

  lemma UnfoldBreak(rest: string)
    ensures Unfold("\r\n" + (" " + rest)) == Unfold(rest)
  {
    assert ("\r\n" + (" " + rest))[3..] == rest;
  }

  lemma UnfoldKeeps(c: char, rest: string)
    requires c == '\r' ==> |rest| < 2 || rest[0] != '\n' || (rest[1] != ' ' && rest[1] != '\t')
    ensures Unfold([c] + rest) == [c] + Unfold(rest)
  {
    assert ([c] + rest)[1..] == rest;
  }

  lemma UnfoldLineEnd(rest: string)
    requires rest != "" ==> rest[0] != ' ' && rest[0] != '\t'
    ensures Unfold("\r\n" + rest) == "\r\n" + Unfold(rest)
  {
    UnfoldKeeps('\n', rest);
    UnfoldKeeps('\r', ['\n'] + rest);
    Regroup(['\r'], ['\n'], rest);
    Regroup(['\r'], ['\n'], Unfold(rest));
    assert ['\r'] + ['\n'] == "\r\n";
  }

  lemma NoNewline(parts: seq<string>)
    requires parts != [] && '\n' !in Concat(parts)
    ensures '\n' !in parts[0] && '\n' !in Concat(parts[1..])
  {
  }

  lemma {:induction false} UnfoldContinued(parts: seq<string>, rest: string)
    requires '\n' !in Concat(parts) && rest != "" && rest[0] == '\r'
    ensures Unfold(Continued(parts, rest)) == Concat(parts) + Unfold(rest)
    ensures Continued(parts, rest) != "" && Continued(parts, rest)[0] == '\r'
  {
    if parts == [] {
      assert "" + Unfold(rest) == Unfold(rest);
    } else {
      NoNewline(parts);
      var more := Continued(parts[1..], rest);
      UnfoldContinued(parts[1..], rest);
      UnfoldBreak(parts[0] + more);
      UnfoldPart(parts[0], more);
      Regroup(parts[0], Concat(parts[1..]), Unfold(rest));
    }
  }

  lemma UnfoldFolded(parts: seq<string>, rest: string)
    requires parts != [] && '\n' !in Concat(parts) && rest != "" && rest[0] == '\r'
    ensures Unfold(FoldedThen(parts, rest)) == Concat(parts) + Unfold(rest)
  {
    NoNewline(parts);
    UnfoldContinued(parts[1..], rest);
    UnfoldPart(parts[0], Continued(parts[1..], rest));
    Regroup(parts[0], Concat(parts[1..]), Unfold(rest));
  }

  // ---------------------------------------------------------------- a whole feed

  /** All folded lines, each ended by CRLF. */
  function Feed(foldings: seq<seq<string>>): string
    requires forall i | 0 <= i < |foldings| :: foldings[i] != []
  {
    if foldings == [] then "" else FoldedThen(foldings[0], "\r\n" + Feed(foldings[1..]))
  }

  /** `text` is the feed of the logical lines `lines`, folded as `foldings` say. */
  ghost predicate FeedOf(lines: seq<string>, foldings: seq<seq<string>>, text: string) {
    && |foldings| == |lines|
    && (forall i | 0 <= i < |lines| :: Folds(lines[i], foldings[i]))
    && text == Feed(foldings)
  }

  /** `text` is the feed of these logical lines. */
  ghost predicate IsFeed(lines: seq<string>, text: string) {
    exists foldings :: FeedOf(lines, foldings, text)
  }

  lemma FoldedBegins(line: string, parts: seq<string>, rest: string)
    requires Folds(line, parts) && Clean(line) && rest != "" && rest[0] == '\r'
    ensures FoldedThen(parts, rest) != "" && FoldedThen(parts, rest)[0] != ' ' && FoldedThen(parts, rest)[0] != '\t'
  {
  }

  lemma {:induction false} UnfoldFeed(lines: seq<string>, foldings: seq<seq<string>>, text: string)
    requires FeedOf(lines, foldings, text) && forall i | 0 <= i < |lines| :: Clean(lines[i])
    ensures Unfold(text) == Ended(lines)
    ensures text != "" ==> text[0] != ' ' && text[0] != '\t'
  {
    if lines != [] {
      var rest := Feed(foldings[1..]);
      UnfoldFeed(lines[1..], foldings[1..], rest);
      assert Folds(lines[0], foldings[0]);
      UnfoldFolded(foldings[0], "\r\n" + rest);
      UnfoldLineEnd(rest);
      FoldedBegins(lines[0], foldings[0], "\r\n" + rest);
    }
  }

  /** Unfolding and splitting a feed gives back exactly its logical lines. */
  lemma FeedReadsBack(lines: seq<string>, text: string)
    requires IsFeed(lines, text) && forall i | 0 <= i < |lines| :: Clean(lines[i])
    ensures Lines("", Unfold(text)) == lines
  {
    var foldings :| FeedOf(lines, foldings, text);
    UnfoldFeed(lines, foldings, text);
    LinesOfEnded(lines);
  }

  // ---------------------------------------------------------------- physical lines

  /** The physical lines of `current + parts[0]` continued by the other parts. */
  function Physical(current: string, parts: seq<string>): seq<string>
    requires parts != []
    decreases |parts|
  {
    [current + parts[0]] + if |parts| == 1 then [] else Physical(" ", parts[1..])
  }

  function PhysicalAll(foldings: seq<seq<string>>): seq<string>
    requires forall i | 0 <= i < |foldings| :: foldings[i] != []
  {
    if foldings == [] then [] else Physical("", foldings[0]) + PhysicalAll(foldings[1..])
  }

  lemma LinesSpace(text: string)
    ensures Lines("", " " + text) == Lines(" ", text)
  {
    assert (" " + text)[1..] == text;
    assert "" + [' '] == " ";
  }

  lemma {:induction false} LinesOfFolded(current: string, parts: seq<string>, rest: string)
    requires parts != [] && '\n' !in Concat(parts)
    ensures Lines(current, FoldedThen(parts, "\r\n" + rest)) == Physical(current, parts) + Lines("", rest)
    decreases |parts|
  {
    NoNewline(parts);
    if |parts| == 1 {
      assert parts[1..] == [];
      LinesOne(current, parts[0], rest);
    } else {
      var more := FoldedThen(parts[1..], "\r\n" + rest);
      LinesOne(current, parts[0], " " + more);
      LinesSpace(more);
      LinesOfFolded(" ", parts[1..], rest);
      assert [current + parts[0]] + (Physical(" ", parts[1..]) + Lines("", rest)) == Physical(current, parts) + Lines("", rest);
    }
  }

  lemma {:induction false} LinesOfFeed(lines: seq<string>, foldings: seq<seq<string>>, text: string)
    requires FeedOf(lines, foldings, text) && forall i | 0 <= i < |lines| :: '\n' !in lines[i]
    ensures Lines("", text) == PhysicalAll(foldings)
  {
    if lines != [] {
      assert Folds(lines[0], foldings[0]);
      LinesOfFeed(lines[1..], foldings[1..], Feed(foldings[1..]));
      LinesOfFolded("", foldings[0], Feed(foldings[1..]));
    }
  }

  lemma {:induction false} PhysicalFits(current: string, parts: seq<string>, k: nat)
    requires parts != [] && k < |Physical(current, parts)|
    requires Size(current) + Size(parts[0]) <= Limit
    requires forall i | 0 < i < |parts| :: Size(parts[i]) <= Limit - 1
    ensures Size(Physical(current, parts)[k]) <= Limit
    decreases |parts|
  {
    if k == 0 {
      SizeOfParts(current, parts[0]);
    } else {
      SizeOne(' ');
      PhysicalFits(" ", parts[1..], k - 1);
    }
  }

  lemma {:induction false} AllFit(lines: seq<string>, foldings: seq<seq<string>>, k: nat)
    requires |foldings| == |lines| && forall i | 0 <= i < |foldings| :: foldings[i] != [] && Folds(lines[i], foldings[i])
    requires k < |PhysicalAll(foldings)|
    ensures Size(PhysicalAll(foldings)[k]) <= Limit
  {
    var first := Physical("", foldings[0]);
    if k < |first| {
      assert Folds(lines[0], foldings[0]);
      PhysicalFits("", foldings[0], k);
    } else {
      AllFit(lines[1..], foldings[1..], k - |first|);
    }
  }

  /** No physical line of a feed is longer than 75 octets, and each is a whole number of code points. */
  lemma PhysicalLinesFit(lines: seq<string>, text: string, k: nat)
    requires IsFeed(lines, text) && forall i | 0 <= i < |lines| :: '\n' !in lines[i]
    requires k < |Lines("", text)|
    ensures |Octets(Lines("", text)[k])| <= 75
  {
    var foldings :| FeedOf(lines, foldings, text);
    LinesOfFeed(lines, foldings, text);
    AllFit(lines, foldings, k);
    SizeCountsOctets(Lines("", text)[k]);
  }

  // ---------------------------------------------------------------- one folding only

  lemma FirstPartIsLongest(value: string, parts: seq<string>, other: seq<string>, from: nat)
    requires Fills(value, parts, from) && Fills(value, other, from) && parts != [] && other != []
    ensures |other[0]| <= |parts[0]|
  {
    var n := |parts[0]|;
    assert value[..n] == parts[0];
    if n < |other[0]| {
      assert value[..|other[0]|] == other[0];
      assert |parts| > 1 by {
        SinglePart(parts);
      }
      assert Full(parts, 0, from);
      assert value[n] == parts[1][0] by {
        assert Concat(parts[1..]) == parts[1] + Concat(parts[1..][1..]);
        assert value == parts[0] + (parts[1] + Concat(parts[1..][1..]));
      }
      assert other[0] == parts[0] + ([value[n]] + other[0][n + 1..]);
      SizeOfParts(parts[0], [value[n]] + other[0][n + 1..]);
      SizeOfParts([value[n]], other[0][n + 1..]);
      SizeOne(value[n]);
    }
  }

  lemma FillsRest(value: string, parts: seq<string>, from: nat)
    requires Fills(value, parts, from) && |parts| > 1
    ensures |parts[0]| < |value| && Fills(value[|parts[0]|..], parts[1..], from + 1)
  {
    var rest, next := parts[1..], from + 1;
    assert value[|parts[0]|..] == Concat(rest);
    assert rest[0] == parts[1];
    forall i | 0 <= i < |rest| - 1 ensures Full(rest, i, next) {
      assert Full(parts, i + 1, from);
    }
    assert forall i | 0 <= i < |rest| :: rest[i] == parts[i + 1];
  }

  /** There is one way to fold a line, so the rules above determine the feed. */
  lemma {:induction false} FoldingIsUnique(value: string, parts: seq<string>, other: seq<string>, from: nat)
    requires Fills(value, parts, from) && Fills(value, other, from) && parts != [] && other != []
    ensures parts == other
    decreases |parts|
  {
    FirstPartIsLongest(value, parts, other, from);
    FirstPartIsLongest(value, other, parts, from);
    assert parts[0] == value[..|parts[0]|] == other[0];
    if |parts| > 1 {
      FillsRest(value, parts, from);
    }
    if |other| > 1 {
      FillsRest(value, other, from);
    }
    SinglePart(parts);
    SinglePart(other);
    if |parts| > 1 {
      FoldingIsUnique(value[|parts[0]|..], parts[1..], other[1..], from + 1);
      assert parts == [parts[0]] + parts[1..] && other == [other[0]] + other[1..];
    }
  }

  lemma FoldedTextIsUnique(value: string, text: string, other: string)
    requires IsFolded(value, text) && IsFolded(value, other)
    ensures text == other
  {
    var parts :| Folds(value, parts) && text == Folded(parts);
    var others :| Folds(value, others) && other == Folded(others);
    FoldingIsUnique(value, parts, others, 0);
  }

  lemma {:induction false} PrefixFits(parts: seq<string>)
    requires parts != []
    ensures parts[0] <= Concat(parts) && Size(parts[0]) <= Size(Concat(parts))
    ensures Size(Concat(parts)) == Size(parts[0]) + Size(Concat(parts[1..]))
  {
    SizeOfParts(parts[0], Concat(parts[1..]));
  }

  /** A line of at most 75 octets stays as it is; a longer one is cut before the first code point that
      exceeds the 75 octets, and a line break and a space follow. */
  lemma LongLinesAreCut(value: string, text: string) returns (n: nat)
    requires IsFolded(value, text)
    ensures |Octets(value)| <= 75 ==> text == value
    ensures 75 < |Octets(value)| ==>
              && n < |value| && |Octets(value[..n])| <= 75 < |Octets(value[..n + 1])|
              && value[..n] + "\r\n " <= text
  {
    var parts :| Folds(value, parts) && text == Folded(parts);
    SizeCountsOctets(value);
    PrefixFits(parts);
    n := |parts[0]|;
    SizeCountsOctets(value[..n]);
    assert value[..n] == parts[0];
    if |parts| == 1 {
      SinglePart(parts);
    } else {
      assert Full(parts, 0, 0);
      PrefixFits(parts[1..]);
      var c := parts[1][0];
      assert parts[1] == [c] + parts[1][1..];
      SizeOfParts([c], parts[1][1..]);
      SizeOne(c);
      assert value == parts[0] + (parts[1] + Concat(parts[1..][1..]));
      assert value[..n + 1] == parts[0] + [c];
      SizeOfParts(parts[0], [c]);
      SizeCountsOctets(value[..n + 1]);
      assert Continued(parts[1..], "") == "\r\n" + (" " + (parts[1] + Continued(parts[1..][1..], "")));
    }
  }
}
