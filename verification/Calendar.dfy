/** The calendar feed of a schedule: its content lines, and what a reader recovers from the text. */
module Calendar {
  import opened Wrappers
  import opened Schedule
  import opened Ordering
  import opened LineFolding
  import opened TextEscape
  import opened Whitespace
  import D = ScheduleDiff

  datatype ContentLine = ContentLine(name: string, value: string)
  {
    function Text(): string {
      name + ":" + value
    }
  }

  /** Library formatting: a hash in hexadecimal, case folding, a date, and a date with a time. */
  datatype Formats = Formats(hash: string -> string, casefold: string -> string, date: int -> string, moment: (int, nat) -> string)

  ghost predicate OneLine(x: Formats) {
    (forall s :: '\n' !in x.hash(s)) && (forall day, t :: '\n' !in x.moment(day, t))
  }

  datatype Stamp = Stamp(text: string, sequence: string)

  // ---------------------------------------------------------------- texts of a lesson

  function OrEmpty(s: Option<string>): string {
    if s.Some? then s.value else ""
  }

  /** The non-empty optional texts, each after its label. */
  function Labelled(prefix: string, s: Option<string>): seq<string> {
    if OrEmpty(s) == "" then [] else [prefix + Strip(s.value)]
  }

  function Join(texts: seq<string>, separator: string): string {
    if texts == [] then "" else if |texts| == 1 then texts[0] else texts[0] + separator + Join(texts[1..], separator)
  }

  function Location(l: Lesson): string {
    Join(Labelled("ауд. ", l.room) + Labelled("корпус ", l.building), " · ")
  }

  function Description(l: Lesson): seq<string> {
    Labelled("", l.lessonType) + Labelled("Преподаватель: ", l.teacher) + Labelled("Группа: ", l.subgroup)
  }

  function UidSeed(x: Formats, l: Lesson): string {
    if OrEmpty(l.sourceId) != "" then l.sourceId.value
    else Join([x.date(l.day), x.casefold(l.subject), x.casefold(OrEmpty(l.subgroup))], "|")
  }

  function Uid(x: Formats, l: Lesson): string {
    x.hash(UidSeed(x, l)) + "@pyatnitsa-schedule"
  }

  // ---------------------------------------------------------------- the lines

  /** The lines that are the same in every feed, before and after the calendar's name. */
  datatype Fixed = Fixed(before: seq<ContentLine>, after: seq<ContentLine>)

  function Header(f: Fixed, group: string): seq<ContentLine> {
    f.before + [ContentLine("X-WR-CALNAME", Escape("Пятница · " + group))] + f.after
  }

  function EventHead(x: Formats, l: Lesson, stamp: Stamp): seq<ContentLine> {
    [ ContentLine("BEGIN", "VEVENT"), ContentLine("UID", Uid(x, l)),
      ContentLine("DTSTAMP", stamp.text), ContentLine("LAST-MODIFIED", stamp.text), ContentLine("SEQUENCE", stamp.sequence),
      ContentLine("DTSTART;TZID=Europe/Moscow", x.moment(l.day, l.startsAt)),
      ContentLine("DTEND;TZID=Europe/Moscow", x.moment(l.day, l.endsAt)) ]
  }

  function TextLine(name: string, value: string): ContentLine {
    ContentLine(name, Escape(value))
  }

  function OptionalText(name: string, value: string, present: bool): seq<ContentLine> {
    if present then [TextLine(name, value)] else []
  }

  /** The three free texts of a lesson, the optional ones only when there is something to say. */
  function EventTexts(l: Lesson): seq<ContentLine> {
    [TextLine("SUMMARY", Strip(l.subject))]
    + OptionalText("LOCATION", Location(l), Location(l) != "")
    + OptionalText("DESCRIPTION", Join(Description(l), "\n"), Description(l) != [])
  }

  const EventEnd: seq<ContentLine> := [ContentLine("TRANSP", "OPAQUE"), ContentLine("END", "VEVENT")]

  function EventLines(x: Formats, l: Lesson, stamp: Stamp): seq<ContentLine> {
    EventHead(x, l, stamp) + EventTexts(l) + EventEnd
  }

  function Flatten<T, U>(items: seq<T>, f: T -> seq<U>): seq<U> {
    if items == [] then [] else Flatten(items[..|items| - 1], f) + f(items[|items| - 1])
  }

  function AllEvents(x: Formats, lessons: seq<Lesson>, stamp: Stamp): seq<ContentLine> {
    Flatten(lessons, l => EventLines(x, l, stamp))
  }

  predicate Earlier(x: Formats, a: Lesson, b: Lesson) {
    if a.day != b.day then a.day < b.day
    else if a.startsAt != b.startsAt then a.startsAt < b.startsAt
    else if x.casefold(a.subject) != x.casefold(b.subject) then TextLe(x.casefold(a.subject), x.casefold(b.subject))
    else TextLe(OrEmpty(a.sourceId), OrEmpty(b.sourceId))
  }

  function Sorted(x: Formats, lessons: seq<Lesson>): seq<Lesson> {
    Sort(lessons, (a, b) => Earlier(x, a, b))
  }

  function CalendarLines(x: Formats, f: Fixed, group: string, lessons: seq<Lesson>, stamp: Stamp): seq<ContentLine> {
    Header(f, group) + AllEvents(x, Sorted(x, lessons), stamp) + [ContentLine("END", "VCALENDAR")]
  }

  function Texts(lines: seq<ContentLine>): seq<string> {
    seq(|lines|, i requires 0 <= i < |lines| => lines[i].Text())
  }

  /** The whole feed: every line folded and ended by CRLF. */
  method RenderCalendar(x: Formats, f: Fixed, group: string, lessons: seq<Lesson>, stamp: Stamp) returns (text: string)
    ensures IsFeed(Texts(CalendarLines(x, f, group, lessons, stamp)), text)
  {
    var sorted := Sorted(x, lessons);
    var lines := AppendAll(Header(f, group), sorted, l => EventLines(x, l, stamp));
    lines := lines + [ContentLine("END", "VCALENDAR")];
    text := FoldAll(Texts(lines));
  }

  method AppendAll<T>(header: seq<ContentLine>, items: seq<T>, f: T -> seq<ContentLine>) returns (lines: seq<ContentLine>)
    ensures lines == header + Flatten(items, f)
  {
    lines := header;
    for k := 0 to |items|
      invariant lines == header + Flatten(items[..k], f)
    {
      assert items[..k + 1][..k] == items[..k];
      lines := lines + f(items[k]);
    }
    assert items[..|items|] == items;
  }

  method FoldAll(lines: seq<string>) returns (text: string)
    ensures IsFeed(lines, text)
  {
    text := "";
    ghost var foldings: seq<seq<string>> := [];
    for k := 0 to |lines|
      invariant FeedOf(lines[..k], foldings, text)
    {
      var folded := FoldLine(lines[k]);
      ghost var parts :| Folds(lines[k], parts) && folded == Folded(parts);
      FeedOne(foldings, parts);
      text := text + (folded + "\r\n");
      foldings := foldings + [parts];
    }
    assert lines[..|lines|] == lines;
  }

  lemma {:induction false} FeedOne(foldings: seq<seq<string>>, parts: seq<string>)
    requires parts != [] && forall i | 0 <= i < |foldings| :: foldings[i] != []
    ensures Feed(foldings + [parts]) == Feed(foldings) + (Folded(parts) + "\r\n")
  {
    var all := foldings + [parts];
    if foldings == [] {
      assert all[1..] == [] && "\r\n" + "" == "\r\n";
      ThenOne(parts, "\r\n");
    } else {
      var first, rest, more := foldings[0], Feed(foldings[1..]), Folded(parts) + "\r\n";
      assert all[1..] == foldings[1..] + [parts];
      FeedOne(foldings[1..], parts);
      ThenOne(first, "\r\n" + rest);
      ThenOne(first, "\r\n" + (rest + more));
      Regroup("\r\n", rest, more);
      Regroup(Folded(first), "\r\n" + rest, more);
    }
  }

  lemma ThenOne(parts: seq<string>, rest: string)
    requires parts != []
    ensures FoldedThen(parts, rest) == Folded(parts) + rest
  {
    ContinuedThen(parts[1..], rest);
    Regroup(parts[0], Continued(parts[1..], ""), rest);
  }

  // ---------------------------------------------------------------- reading the feed

  /** A name, a colon, a value. */
  function ParseLine(text: string): ContentLine {
    if text == "" || text[0] == ':' then ContentLine("", if text == "" then "" else text[1..])
    else var rest := ParseLine(text[1..]); ContentLine([text[0]] + rest.name, rest.value)
  }

  function ParseLines(texts: seq<string>): seq<ContentLine> {
    seq(|texts|, i requires 0 <= i < |texts| => ParseLine(texts[i]))
  }

  function ReadFeed(text: string): seq<ContentLine> {
    ParseLines(Lines("", Unfold(text)))
  }

  /** Printable and without a colon. */
  predicate GoodName(name: string) {
    name != "" && forall i | 0 <= i < |name| :: name[i] > ' ' && name[i] != ':'
  }

  predicate WellFormed(c: ContentLine) {
    GoodName(c.name) && '\n' !in c.value
  }

  predicate AllWellFormed(lines: seq<ContentLine>) {
    forall i | 0 <= i < |lines| :: WellFormed(lines[i])
  }

  lemma {:induction false} ParseText(name: string, value: string)
    requires ':' !in name
    ensures ParseLine(name + ":" + value) == ContentLine(name, value)
  {
    var text := name + ":" + value;
    if name == "" {
      assert text[1..] == value;
    } else {
      assert text[1..] == name[1..] + ":" + value;
      ParseText(name[1..], value);
    }
  }

  /** Whatever well-formed lines are folded into a feed, a reader recovers them all. */
  lemma FeedRoundTrip(lines: seq<ContentLine>, text: string)
    requires AllWellFormed(lines)
    requires IsFeed(Texts(lines), text)
    ensures ReadFeed(text) == lines
  {
    forall i | 0 <= i < |lines| ensures Clean(Texts(lines)[i]) && ParseLine(Texts(lines)[i]) == lines[i] {
      ParseText(lines[i].name, lines[i].value);
      assert WellFormed(lines[i]);
      assert lines[i].Text()[0] == lines[i].name[0];
    }
    FeedReadsBack(Texts(lines), text);
  }

  lemma WellFormedHeader(f: Fixed, group: string)
    requires AllWellFormed(f.before) && AllWellFormed(f.after)
    ensures AllWellFormed(Header(f, group))
  {
    EscapedHasNoLineFeed("Пятница · " + group);
  }

  lemma GoodNames()
    ensures GoodName("BEGIN") && GoodName("UID") && GoodName("DTSTAMP") && GoodName("LAST-MODIFIED") && GoodName("SEQUENCE")
    ensures GoodName("SUMMARY") && GoodName("LOCATION") && GoodName("DESCRIPTION") && GoodName("TRANSP") && GoodName("END")
  {
  }

  lemma GoodTimeNames()
    ensures GoodName("DTSTART;TZID=Europe/Moscow") && GoodName("DTEND;TZID=Europe/Moscow")
  {
  }

  lemma WellFormedHead(x: Formats, l: Lesson, stamp: Stamp)
    requires OneLine(x) && '\n' !in stamp.text && '\n' !in stamp.sequence
    ensures AllWellFormed(EventHead(x, l, stamp))
  {
    GoodNames();
    GoodTimeNames();
    assert '\n' !in "VEVENT" && '\n' !in "@pyatnitsa-schedule";
  }

  lemma WellFormedText(name: string, value: string, present: bool)
    requires GoodName(name)
    ensures WellFormed(TextLine(name, value)) && AllWellFormed(OptionalText(name, value, present))
  {
    EscapedHasNoLineFeed(value);
  }

  lemma WellFormedTexts(l: Lesson)
    ensures AllWellFormed(EventTexts(l))
  {
    GoodNames();
    var summary := [TextLine("SUMMARY", Strip(l.subject))];
    var location := OptionalText("LOCATION", Location(l), Location(l) != "");
    var description := OptionalText("DESCRIPTION", Join(Description(l), "\n"), Description(l) != []);
    WellFormedText("SUMMARY", Strip(l.subject), true);
    WellFormedText("LOCATION", Location(l), Location(l) != "");
    WellFormedText("DESCRIPTION", Join(Description(l), "\n"), Description(l) != []);
    WellFormedParts(summary, location);
    WellFormedParts(summary + location, description);
  }

  lemma WellFormedEnd()
    ensures AllWellFormed(EventEnd)
  {
  }

  lemma WellFormedEvent(x: Formats, l: Lesson, stamp: Stamp)
    requires OneLine(x) && '\n' !in stamp.text && '\n' !in stamp.sequence
    ensures AllWellFormed(EventLines(x, l, stamp))
  {
    WellFormedHead(x, l, stamp);
    WellFormedTexts(l);
    WellFormedEnd();
    WellFormedParts(EventHead(x, l, stamp), EventTexts(l));
    WellFormedParts(EventHead(x, l, stamp) + EventTexts(l), EventEnd);
  }

  lemma WellFormedParts(a: seq<ContentLine>, b: seq<ContentLine>)
    requires AllWellFormed(a) && AllWellFormed(b)
    ensures AllWellFormed(a + b)
  {
  }

  lemma {:induction false} WellFormedAll<T>(items: seq<T>, f: T -> seq<ContentLine>)
    requires forall i | 0 <= i < |items| :: AllWellFormed(f(items[i]))
    ensures AllWellFormed(Flatten(items, f))
  {
    if items != [] {
      WellFormedAll(items[..|items| - 1], f);
      WellFormedParts(Flatten(items[..|items| - 1], f), f(items[|items| - 1]));
    }
  }

  lemma WellFormedLast()
    ensures AllWellFormed([ContentLine("END", "VCALENDAR")])
  {
  }

  lemma WellFormedCalendar(x: Formats, f: Fixed, group: string, lessons: seq<Lesson>, stamp: Stamp)
    requires OneLine(x) && '\n' !in stamp.text && '\n' !in stamp.sequence && AllWellFormed(f.before) && AllWellFormed(f.after)
    ensures AllWellFormed(CalendarLines(x, f, group, lessons, stamp))
  {
    WellFormedHeader(f, group);
    var sorted := Sorted(x, lessons);
    forall i | 0 <= i < |sorted| ensures AllWellFormed(EventLines(x, sorted[i], stamp)) {
      WellFormedEvent(x, sorted[i], stamp);
    }
    WellFormedAll(sorted, l => EventLines(x, l, stamp));
    WellFormedLast();
    WellFormedParts(Header(f, group), AllEvents(x, sorted, stamp));
    WellFormedParts(Header(f, group) + AllEvents(x, sorted, stamp), [ContentLine("END", "VCALENDAR")]);
  }

  lemma TextsHaveNoLineFeed(lines: seq<ContentLine>)
    requires AllWellFormed(lines)
    ensures forall i | 0 <= i < |lines| :: '\n' !in Texts(lines)[i]
  {
  }

  /** A client reads back exactly the header and one event for every lesson, in order. */
  lemma CalendarReadsBack(x: Formats, f: Fixed, group: string, lessons: seq<Lesson>, stamp: Stamp, text: string)
    requires OneLine(x) && '\n' !in stamp.text && '\n' !in stamp.sequence && AllWellFormed(f.before) && AllWellFormed(f.after)
    requires IsFeed(Texts(CalendarLines(x, f, group, lessons, stamp)), text)
    ensures ReadFeed(text) == Header(f, group) + AllEvents(x, Sorted(x, lessons), stamp) + [ContentLine("END", "VCALENDAR")]
    ensures multiset(Sorted(x, lessons)) == multiset(lessons)
    ensures forall k | 0 <= k < |Lines("", text)| :: |Octets(Lines("", text)[k])| <= 75
  {
    var lines := CalendarLines(x, f, group, lessons, stamp);
    WellFormedCalendar(x, f, group, lessons, stamp);
    FeedRoundTrip(lines, text);
    SortKeepsElements(lessons, (a, b) => Earlier(x, a, b));
    TextsHaveNoLineFeed(lines);
    forall k | 0 <= k < |Lines("", text)| ensures |Octets(Lines("", text)[k])| <= 75 {
      PhysicalLinesFit(Texts(lines), text, k);
    }
  }

  lemma {:induction false} FlattenHolds<T, U>(items: seq<T>, f: T -> seq<U>, x: T, y: U)
    requires x in items && y in f(x)
    ensures y in Flatten(items, f)
  {
    if x in items[..|items| - 1] {
      FlattenHolds(items[..|items| - 1], f, x, y);
    }
  }

  lemma EventShows(x: Formats, l: Lesson, stamp: Stamp, name: string, value: string)
    requires TextLine(name, value) in EventTexts(l)
    ensures TextLine(name, value) in EventLines(x, l, stamp)
    ensures Decode(TextLine(name, value).value) == LineFeeds(value)
  {
    EscapedTextReadsBack(value);
  }

  lemma ShowsIn(x: Formats, lessons: seq<Lesson>, stamp: Stamp, l: Lesson, name: string, value: string)
    requires l in lessons && TextLine(name, value) in EventTexts(l)
    ensures TextLine(name, value) in AllEvents(x, lessons, stamp) && Decode(TextLine(name, value).value) == LineFeeds(value)
  {
    EventShows(x, l, stamp, name, value);
    FlattenHolds(lessons, l => EventLines(x, l, stamp), l, TextLine(name, value));
  }

  /** Every text of every lesson can be read in the feed, with LF for CRLF. */
  lemma FeedShowsEveryText(x: Formats, f: Fixed, group: string, lessons: seq<Lesson>, stamp: Stamp,
                           text: string, l: Lesson, name: string, value: string)
    requires OneLine(x) && '\n' !in stamp.text && '\n' !in stamp.sequence && AllWellFormed(f.before) && AllWellFormed(f.after)
    requires IsFeed(Texts(CalendarLines(x, f, group, lessons, stamp)), text)
    requires l in lessons && TextLine(name, value) in EventTexts(l)
    ensures exists c :: c in ReadFeed(text) && c.name == name && Decode(c.value) == LineFeeds(value)
  {
    CalendarReadsBack(x, f, group, lessons, stamp, text);
    InMultiset(Sorted(x, lessons), lessons, l);
    ShowsIn(x, Sorted(x, lessons), stamp, l, name, value);
    assert TextLine(name, value) in ReadFeed(text);
  }

  lemma InThree<T>(a: seq<T>, b: seq<T>, c: seq<T>, e: T)
    ensures e in a + b + c <==> e in a || e in b || e in c
  {
  }

  /** The texts of a lesson: always a summary, a place and a description exactly when there is one. */
  lemma TextsOfALesson(l: Lesson, c: ContentLine)
    ensures c in EventTexts(l) <==>
              || c == TextLine("SUMMARY", Strip(l.subject))
              || (Location(l) != "" && c == TextLine("LOCATION", Location(l)))
              || (Description(l) != [] && c == TextLine("DESCRIPTION", Join(Description(l), "\n")))
  {
    InThree([TextLine("SUMMARY", Strip(l.subject))],
            OptionalText("LOCATION", Location(l), Location(l) != ""),
            OptionalText("DESCRIPTION", Join(Description(l), "\n"), Description(l) != []), c);
  }

  // ---------------------------------------------------------------- one event in the feed

  lemma {:induction false} FlattenBlock<T, U>(items: seq<T>, f: T -> seq<U>, x: T) returns (k: nat)
    requires x in items
    ensures k + |f(x)| <= |Flatten(items, f)| && Flatten(items, f)[k..k + |f(x)|] == f(x)
  {
    var most, last := items[..|items| - 1], items[|items| - 1];
    if x in most {
      k := FlattenBlock(most, f, x);
      InFront(Flatten(most, f), f(last), k, |f(x)|);
    } else {
      k := |Flatten(most, f)|;
    }
  }

  lemma InFront<U>(a: seq<U>, b: seq<U>, k: nat, n: nat)
    requires k + n <= |a|
    ensures (a + b)[k..k + n] == a[k..k + n]
  {
  }

  lemma Inside<U>(a: seq<U>, b: seq<U>, c: seq<U>, k: nat, run: seq<U>)
    requires k + |run| <= |b| && b[k..k + |run|] == run
    ensures (a + b + c)[|a| + k..|a| + k + |run|] == run
  {
  }

  lemma FlattenInside<T, U>(items: seq<T>, f: T -> seq<U>, x: T, before: seq<U>, after: seq<U>) returns (from: nat, to: nat)
    requires x in items
    ensures from <= to <= |before + Flatten(items, f) + after| && (before + Flatten(items, f) + after)[from..to] == f(x)
  {
    var at := FlattenBlock(items, f, x);
    from, to := |before| + at, |before| + at + |f(x)|;
    Inside(before, Flatten(items, f), after, at, f(x));
  }

  /** Every lesson is shown as one event: its identifier, when the schedule was fetched, when the lesson starts
      and when it ends, and its subject, in lines that follow one another. */
  ghost predicate ShowsLesson(x: Formats, l: Lesson, stamp: Stamp, lines: seq<ContentLine>) {
    && |lines| >= 8
    && lines[0] == ContentLine("BEGIN", "VEVENT")
    && lines[1].name == "UID"
    && lines[1].value ==
         (if OrEmpty(l.sourceId) != "" then x.hash(l.sourceId.value)
          else x.hash(x.date(l.day) + ("|" + (x.casefold(l.subject) + ("|" + x.casefold(OrEmpty(l.subgroup)))))))
         + "@pyatnitsa-schedule"
    && lines[2] == ContentLine("DTSTAMP", stamp.text)
    && lines[3] == ContentLine("LAST-MODIFIED", stamp.text)
    && lines[4] == ContentLine("SEQUENCE", stamp.sequence)
    && lines[5] == ContentLine("DTSTART;TZID=Europe/Moscow", x.moment(l.day, l.startsAt))
    && lines[6] == ContentLine("DTEND;TZID=Europe/Moscow", x.moment(l.day, l.endsAt))
    && lines[7].name == "SUMMARY" && Decode(lines[7].value) == LineFeeds(Strip(l.subject))
    && lines[|lines| - 2..] == [ContentLine("TRANSP", "OPAQUE"), ContentLine("END", "VEVENT")]
  }

  lemma EventShowsLesson(x: Formats, l: Lesson, stamp: Stamp)
    ensures ShowsLesson(x, l, stamp, EventLines(x, l, stamp))
  {
    var head, texts := EventHead(x, l, stamp), EventTexts(l);
    assert EventLines(x, l, stamp) == head + texts + EventEnd;
    assert forall i: nat | i < 7 :: EventLines(x, l, stamp)[i] == head[i];
    assert EventLines(x, l, stamp)[7] == texts[0];
    EscapedTextReadsBack(Strip(l.subject));
    JoinThree(x.date(l.day), x.casefold(l.subject), x.casefold(OrEmpty(l.subgroup)));
  }

  lemma FeedShowsEveryLesson(x: Formats, f: Fixed, group: string, lessons: seq<Lesson>, stamp: Stamp, text: string, l: Lesson)
    returns (from: nat, to: nat)
    requires OneLine(x) && '\n' !in stamp.text && '\n' !in stamp.sequence && AllWellFormed(f.before) && AllWellFormed(f.after)
    requires IsFeed(Texts(CalendarLines(x, f, group, lessons, stamp)), text) && l in lessons
    ensures from <= to <= |ReadFeed(text)| && ShowsLesson(x, l, stamp, ReadFeed(text)[from..to])
  {
    var sorted := Sorted(x, lessons);
    CalendarReadsBack(x, f, group, lessons, stamp, text);
    InMultiset(sorted, lessons, l);
    EventShowsLesson(x, l, stamp);
    from, to := FlattenInside(sorted, l => EventLines(x, l, stamp), l, Header(f, group), [ContentLine("END", "VCALENDAR")]);
  }

  lemma Framed<U>(lines: seq<U>, before: seq<U>, name: U, after: seq<U>, events: seq<U>, end: U)
    requires lines == before + [name] + after + events + [end]
    ensures |before| + 1 + |after| < |lines|
    ensures lines[..|before|] == before && lines[|before|] == name && lines[|before| + 1..|before| + 1 + |after|] == after
    ensures lines[|lines| - 1] == end
  {
  }

  /** `lines` begins with the constant lines, and the calendar carries the name of its group. */
  ghost predicate ShowsTheName(f: Fixed, group: string, lines: seq<ContentLine>) {
    && |f.before| + 1 + |f.after| < |lines|
    && lines[..|f.before|] == f.before && lines[|f.before| + 1..|f.before| + 1 + |f.after|] == f.after
    && lines[|f.before|].name == "X-WR-CALNAME" && Decode(lines[|f.before|].value) == LineFeeds("Пятница · " + group)
    && lines[|lines| - 1] == ContentLine("END", "VCALENDAR")
  }

  lemma HeaderShowsTheName(f: Fixed, group: string, lines: seq<ContentLine>, events: seq<ContentLine>)
    requires lines == Header(f, group) + events + [ContentLine("END", "VCALENDAR")]
    ensures ShowsTheName(f, group, lines)
  {
    var name, end := ContentLine("X-WR-CALNAME", Escape("Пятница · " + group)), ContentLine("END", "VCALENDAR");
    EscapedTextReadsBack("Пятница · " + group);
    Framed(lines, f.before, name, f.after, events, end);
  }

  lemma FeedShowsTheName(x: Formats, f: Fixed, group: string, lessons: seq<Lesson>, stamp: Stamp, text: string)
    requires OneLine(x) && '\n' !in stamp.text && '\n' !in stamp.sequence && AllWellFormed(f.before) && AllWellFormed(f.after)
    requires IsFeed(Texts(CalendarLines(x, f, group, lessons, stamp)), text)
    ensures ShowsTheName(f, group, ReadFeed(text))
  {
    CalendarReadsBack(x, f, group, lessons, stamp, text);
    HeaderShowsTheName(f, group, ReadFeed(text), AllEvents(x, Sorted(x, lessons), stamp));
  }

  /** Events stand by day and starting time, then by folded subject and source id. */
  lemma EventsAreInOrder(x: Formats, lessons: seq<Lesson>, i: nat, j: nat)
    requires i < j < |Sorted(x, lessons)|
    ensures var a, b := Sorted(x, lessons)[i], Sorted(x, lessons)[j];
            || a.day < b.day
            || (a.day == b.day && a.startsAt < b.startsAt)
            || (a.day == b.day && a.startsAt == b.startsAt
                && TextLe(x.casefold(a.subject), x.casefold(b.subject))
                && (x.casefold(a.subject) == x.casefold(b.subject) ==> TextLe(OrEmpty(a.sourceId), OrEmpty(b.sourceId))))
  {
    EarlierIsTotal(x);
    SortOrders(lessons, (a, b) => Earlier(x, a, b));
    var a, b := Sorted(x, lessons)[i], Sorted(x, lessons)[j];
    TextLeTotal(x.casefold(a.subject), x.casefold(b.subject));
  }

  function LessonKey(x: Formats, l: Lesson): Key {
    Key(l.day, l.startsAt, x.casefold(l.subject), OrEmpty(l.sourceId))
  }

  lemma EarlierIsTotal(x: Formats)
    ensures TotalPreorder((a, b) => Earlier(x, a, b))
  {
    KeyLeIsTotalOrder();
    assert forall a, b :: Earlier(x, a, b) == KeyLe(LessonKey(x, a), LessonKey(x, b));
  }

  /** Where a lesson takes place: the room, the building, or both around a middle dot. */
  lemma PlaceOfALesson(l: Lesson)
    ensures OrEmpty(l.room) != "" && OrEmpty(l.building) != "" ==>
              Location(l) == "ауд. " + Strip(l.room.value) + " · " + ("корпус " + Strip(l.building.value))
    ensures OrEmpty(l.room) != "" && OrEmpty(l.building) == "" ==> Location(l) == "ауд. " + Strip(l.room.value)
    ensures OrEmpty(l.room) == "" && OrEmpty(l.building) != "" ==> Location(l) == "корпус " + Strip(l.building.value)
    ensures OrEmpty(l.room) == "" && OrEmpty(l.building) == "" ==> Location(l) == ""
  {
    if OrEmpty(l.room) != "" && OrEmpty(l.building) != "" {
      var room, building := "ауд. " + Strip(l.room.value), "корпус " + Strip(l.building.value);
      assert [room] + [building] == [room, building] && [room, building][1..] == [building];
      assert Join([building], " · ") == building;
    }
  }

  /** What else is said of a lesson, a line each: its type, its teacher, its subgroup. */
  lemma NotesOfALesson(l: Lesson, t: string)
    ensures t in Description(l) <==>
              || (OrEmpty(l.lessonType) != "" && t == Strip(l.lessonType.value))
              || (OrEmpty(l.teacher) != "" && t == "Преподаватель: " + Strip(l.teacher.value))
              || (OrEmpty(l.subgroup) != "" && t == "Группа: " + Strip(l.subgroup.value))
    ensures OrEmpty(l.lessonType) != "" ==> Description(l)[0] == Strip(l.lessonType.value)
    ensures OrEmpty(l.subgroup) != "" ==> Description(l)[|Description(l)| - 1] == "Группа: " + Strip(l.subgroup.value)
  {
    assert OrEmpty(l.lessonType) != "" ==> "" + Strip(l.lessonType.value) == Strip(l.lessonType.value);
  }

  // ---------------------------------------------------------------- event identifiers

  /** The hash is treated as injective, and dates are written differently. */
  ghost predicate Injective(x: Formats) {
    && (forall s, t | x.hash(s) == x.hash(t) :: s == t)
    && (forall d, e | x.date(d) == x.date(e) :: d == e)
  }

  lemma UidIsSeed(x: Formats, a: Lesson, b: Lesson)
    requires Injective(x)
    ensures Uid(x, a) == Uid(x, b) <==> UidSeed(x, a) == UidSeed(x, b)
  {
    var suffix := "@pyatnitsa-schedule";
    var s, t := x.hash(UidSeed(x, a)), x.hash(UidSeed(x, b));
    if Uid(x, a) == Uid(x, b) {
      assert |s| == |t|;
      assert (s + suffix)[..|s|] == s && (t + suffix)[..|t|] == t;
    }
  }

  /** Lessons with distinct source ids have distinct identifiers in the feed. */
  lemma FeedUidsDistinct(x: Formats, lessons: seq<Lesson>, i: nat, j: nat)
    requires Injective(x) && D.IdsDistinct(lessons) && forall l | l in lessons :: Identified(l)
    requires i < j < |Sorted(x, lessons)|
    ensures Uid(x, Sorted(x, lessons)[i]) != Uid(x, Sorted(x, lessons)[j])
  {
    var sorted := Sorted(x, lessons);
    SortKeepsElements(lessons, (a, b) => Earlier(x, a, b));
    D.SameElementsKeepIds(lessons, sorted);
    assert sorted[i] in sorted && sorted[j] in sorted;
    UidIsSeed(x, sorted[i], sorted[j]);
  }

  lemma {:induction false} FirstPart(a: string, rest: string, b: string, more: string)
    requires '|' !in a && '|' !in b && a + ("|" + rest) == b + ("|" + more)
    ensures a == b && rest == more
  {
    var s, t := a + ("|" + rest), b + ("|" + more);
    assert s[0] == if a == "" then '|' else a[0];
    assert t[0] == if b == "" then '|' else b[0];
    assert s[1..] == if a == "" then rest else a[1..] + ("|" + rest);
    assert t[1..] == if b == "" then more else b[1..] + ("|" + more);
    if a != "" {
      FirstPart(a[1..], rest, b[1..], more);
    }
  }

  lemma JoinThree(a: string, b: string, c: string)
    ensures Join([a, b, c], "|") == a + ("|" + (b + ("|" + c)))
  {
    assert [a, b, c][1..] == [b, c] && [b, c][1..] == [c];
    assert Join([b, c], "|") == b + "|" + c;
  }

  /** The folded texts that name a lesson without a source id. */
  function NamedBy(x: Formats, l: Lesson): (string, string, string) {
    (x.date(l.day), x.casefold(l.subject), x.casefold(OrEmpty(l.subgroup)))
  }

  predicate Unbarred(t: (string, string, string)) {
    '|' !in t.0 && '|' !in t.1 && '|' !in t.2
  }

  /** Two lessons without source ids share an identifier if and only if they have day, folded subject
      and folded subgroup in common: their times do not tell them apart. */
  lemma UnidentifiedShareUidIff(x: Formats, a: Lesson, b: Lesson)
    requires Injective(x) && !Identified(a) && !Identified(b) && Unbarred(NamedBy(x, a)) && Unbarred(NamedBy(x, b))
    ensures Uid(x, a) == Uid(x, b) <==>
            a.day == b.day && x.casefold(a.subject) == x.casefold(b.subject) &&
            x.casefold(OrEmpty(a.subgroup)) == x.casefold(OrEmpty(b.subgroup))
  {
    var (d, s, g) := NamedBy(x, a);
    var (e, t, h) := NamedBy(x, b);
    UidIsSeed(x, a, b);
    JoinThree(d, s, g);
    JoinThree(e, t, h);
    if Uid(x, a) == Uid(x, b) {
      FirstPart(d, s + ("|" + g), e, t + ("|" + h));
      FirstPart(s, g, t, h);
    }
  }
}
