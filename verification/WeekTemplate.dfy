/** The weekly template of the university, its projection onto one concrete week, and the two-week
    envelope built from it. */
module WeekTemplate {
  import opened Wrappers
  import opened Ordering
  import opened Days
  import opened Schedule
  import Diff = ScheduleDiff

  type WeekdayIndex = w: nat | w < 7

  datatype WeeklyLesson = WeeklyLesson(
    weekday: WeekdayIndex, slot: int, parity: Parity, subject: string, group: Option<string>,
    auditorium: Option<string>, professor: Option<string>, sourceDate: Option<string>, occurrence: nat)

  datatype WeeklySchedule = WeeklySchedule(group: string, lessons: seq<WeeklyLesson>)

  datatype BuildError = NotMonday | NotWholeWeeks | MalformedDate | UnknownSlot | InvalidLesson | OtherGroup | TooManyLessons

  /** Library parsing the template relies on. */
  datatype Parsing = Parsing(
    strip: string -> string,
    date: string -> Option<int>,
    subject: string -> (string, Option<string>),
    auditorium: Option<string> -> (Option<string>, Option<string>),
    text: Option<string> -> string,
    identity: IdSource -> string)

  /** What the id of a lesson is hashed from. */
  datatype IdSource = IdSource(
    group: string, dated: Option<int>, weekday: WeekdayIndex, slot: int, parity: Parity, subgroup: string, occurrence: nat)

  type Bells = map<int, (nat, nat)>

  const MAX_LESSONS := 200

  // ---------------------------------------------------------------- parity

  function ParityOfNumber(n: int): Parity {
    if n % 2 == 1 then Numerator else Denominator
  }

  function ParityForWeek(number: int, currentMonday: int, targetMonday: int): Result<Parity, BuildError> {
    if !IsMonday(currentMonday) || !IsMonday(targetMonday) then Failure(NotMonday)
    else if (targetMonday - currentMonday) % 7 != 0 then Failure(NotWholeWeeks)
    else Success(ParityOfNumber(number + (targetMonday - currentMonday) / 7))
  }

  /** Mondays are whole weeks apart, the current week has the parity of its number, and parity
      alternates from each week to the next, in the past as well as in the future. */
  lemma ParityAlternates(number: int, currentMonday: int, targetMonday: int)
    requires IsMonday(currentMonday) && IsMonday(targetMonday)
    ensures ParityForWeek(number, currentMonday, currentMonday) == Success(ParityOfNumber(number))
    ensures ParityForWeek(number, currentMonday, targetMonday).Success?
    ensures ParityForWeek(number, currentMonday, targetMonday + 7).Success?
    ensures ParityForWeek(number, currentMonday, targetMonday + 7).value !=
            ParityForWeek(number, currentMonday, targetMonday).value
  {
  }

  // ---------------------------------------------------------------- one week

  predicate Dated(raw: WeeklyLesson) {
    raw.sourceDate.Some? && raw.sourceDate.value != ""
  }

  function IdSourceOf(p: Parsing, group: string, raw: WeeklyLesson, dated: Option<int>): IdSource {
    IdSource(group, dated, raw.weekday, raw.slot, raw.parity, p.text(raw.group), raw.occurrence)
  }

  function LessonAt(p: Parsing, bells: Bells, group: string, raw: WeeklyLesson, day: int, dated: Option<int>)
    : (r: Result<Lesson, BuildError>)
    ensures r.Success? ==> r.value.day == day && raw.slot in bells && r.value.startsAt == bells[raw.slot].0
  {
    if raw.slot !in bells then Failure(UnknownSlot)
    else
      var (subject, lessonType) := p.subject(raw.subject);
      var (room, building) := p.auditorium(raw.auditorium);
      var (starts, ends) := bells[raw.slot];
      if ends <= starts || p.strip(subject) == "" then Failure(InvalidLesson)
      else Success(Lesson(day, starts, ends, subject, lessonType, raw.professor, room, building, raw.group,
                          Some(p.identity(IdSourceOf(p, group, raw, dated)))))
  }

  /** The day on which the template entry falls in the given week, if any. */
  function DayIn(p: Parsing, raw: WeeklyLesson, monday: int, parity: Parity): Result<Option<int>, BuildError> {
    if Dated(raw) then
      match p.date(raw.sourceDate.value)
      case None => Failure(MalformedDate)
      case Some(d) => Success(if monday <= d <= monday + 6 then Some(d) else None)
    else Success(if raw.parity == parity then Some(monday + raw.weekday) else None)
  }

  function SourceDay(p: Parsing, raw: WeeklyLesson): Option<int> {
    if Dated(raw) then p.date(raw.sourceDate.value) else None
  }

  function Place(p: Parsing, bells: Bells, group: string, raw: WeeklyLesson, monday: int, parity: Parity)
    : Result<seq<Lesson>, BuildError>
  {
    match DayIn(p, raw, monday, parity)
    case Failure(e) => Failure(e)
    case Success(None) => Success([])
    case Success(Some(day)) =>
      match LessonAt(p, bells, group, raw, day, SourceDay(p, raw))
      case Failure(e) => Failure(e)
      case Success(l) => Success([l])
  }

  function PlaceAll(p: Parsing, bells: Bells, group: string, raws: seq<WeeklyLesson>, monday: int, parity: Parity)
    : Result<seq<Lesson>, BuildError>
  {
    if raws == [] then Success([])
    else
      match PlaceAll(p, bells, group, raws[..|raws| - 1], monday, parity)
      case Failure(e) => Failure(e)
      case Success(before) =>
        match Place(p, bells, group, raws[|raws| - 1], monday, parity)
        case Failure(e) => Failure(e)
        case Success(last) => Success(before + last)
  }

  function WeekKey(l: Lesson): Key {
    Key(l.day, l.startsAt, l.subject, "")
  }

  function ByDayAndTime(): (Lesson, Lesson) -> bool {
    (a, b) => KeyLe(WeekKey(a), WeekKey(b))
  }

  method PlaceOne(p: Parsing, bells: Bells, group: string, raw: WeeklyLesson, monday: int, parity: Parity) returns (r: Result<seq<Lesson>, BuildError>)
    ensures r == Place(p, bells, group, raw, monday, parity)
  {
    var sourceDay := None;
    if Dated(raw) {
      sourceDay := p.date(raw.sourceDate.value);
      if sourceDay.None? {
        return Failure(MalformedDate);
      }
    }
    var day := monday + raw.weekday;
    if sourceDay.Some? {
      if !(monday <= sourceDay.value <= monday + 6) {
        return Success([]);
      }
      day := sourceDay.value;
    } else if raw.parity != parity {
      return Success([]);
    }
    var lesson := LessonAt(p, bells, group, raw, day, sourceDay);
    r := if lesson.Failure? then Failure(lesson.error) else Success([lesson.value]);
  }

  method MaterializeWeek(p: Parsing, bells: Bells, schedule: WeeklySchedule, monday: int, parity: Parity)
    returns (r: Result<seq<Lesson>, BuildError>)
    ensures !IsMonday(monday) ==> r == Failure(NotMonday)
    ensures IsMonday(monday) ==>
              match PlaceAll(p, bells, schedule.group, schedule.lessons, monday, parity)
              case Failure(e) => r == Failure(e)
              case Success(lessons) => r == Success(Sort(lessons, ByDayAndTime()))
    ensures r.Success? ==> SortedBy(r.value, ByDayAndTime())
  {
    if !IsMonday(monday) {
      return Failure(NotMonday);
    }
    var lessons: seq<Lesson> := [];
    var raws := schedule.lessons;
    for k := 0 to |raws|
      invariant PlaceAll(p, bells, schedule.group, raws[..k], monday, parity) == Success(lessons)
    {
      assert raws[..k + 1][..k] == raws[..k];
      var placed := PlaceOne(p, bells, schedule.group, raws[k], monday, parity);
      if placed.Failure? {
        PlaceAllFails(p, bells, schedule.group, raws, monday, parity, k);
        return Failure(placed.error);
      }
      lessons := lessons + placed.value;
    }
    assert raws[..|raws|] == raws;
    KeyLeIsTotalOrder();
    SortOrders(lessons, ByDayAndTime());
    return Success(Sort(lessons, ByDayAndTime()));
  }

  lemma {:induction false} PlaceAllFails(p: Parsing, bells: Bells, group: string, raws: seq<WeeklyLesson>,
                                         monday: int, parity: Parity, k: nat)
    requires k < |raws| && PlaceAll(p, bells, group, raws[..k], monday, parity).Success?
    requires Place(p, bells, group, raws[k], monday, parity).Failure?
    ensures PlaceAll(p, bells, group, raws, monday, parity) ==
              Failure(Place(p, bells, group, raws[k], monday, parity).error)
    decreases |raws|
  {
    if k < |raws| - 1 {
      assert raws[..|raws| - 1][..k] == raws[..k];
      PlaceAllFails(p, bells, group, raws[..|raws| - 1], monday, parity, k);
    }
  }

  // ---------------------------------------------------------------- two weeks

  /** Where a template entry belongs in the two weeks from `monday`: a dated entry on its date if
      that is covered, an undated one in the week of its own parity. */
  function Belongs(p: Parsing, raw: WeeklyLesson, monday: int, number: int): Option<int> {
    if Dated(raw) then
      var d := p.date(raw.sourceDate.value);
      if d.Some? && monday <= d.value <= monday + 13 then d else None
    else Some(monday + raw.weekday + if raw.parity == ParityOfNumber(number) then 0 else 7)
  }

  function Entry(p: Parsing, bells: Bells, group: string, raw: WeeklyLesson, monday: int, number: int): (r: seq<Lesson>)
    ensures |r| <= 1
  {
    match Belongs(p, raw, monday, number)
    case None => []
    case Some(day) =>
      match LessonAt(p, bells, group, raw, day, SourceDay(p, raw))
      case Success(l) => [l]
      case Failure(_) => []
  }

  function Entries(p: Parsing, bells: Bells, group: string, raws: seq<WeeklyLesson>, monday: int, number: int): seq<Lesson> {
    if raws == [] then []
    else Entries(p, bells, group, raws[..|raws| - 1], monday, number) +
         Entry(p, bells, group, raws[|raws| - 1], monday, number)
  }

  /** Both weeks can be materialized. */
  predicate BothWeeks(p: Parsing, bells: Bells, group: string, raws: seq<WeeklyLesson>, monday: int, number: int) {
    && PlaceAll(p, bells, group, raws, monday, ParityOfNumber(number)).Success?
    && PlaceAll(p, bells, group, raws, monday + 7, ParityOfNumber(number + 1)).Success?
  }

  lemma PlacedInOneWeek(p: Parsing, bells: Bells, group: string, raw: WeeklyLesson, monday: int, number: int)
    requires Place(p, bells, group, raw, monday, ParityOfNumber(number)).Success?
    requires Place(p, bells, group, raw, monday + 7, ParityOfNumber(number + 1)).Success?
    ensures Place(p, bells, group, raw, monday, ParityOfNumber(number)).value +
            Place(p, bells, group, raw, monday + 7, ParityOfNumber(number + 1)).value ==
            Entry(p, bells, group, raw, monday, number)
    ensures |Entry(p, bells, group, raw, monday, number)| ==
              if Belongs(p, raw, monday, number).Some? then 1 else 0
    ensures forall l | l in Entry(p, bells, group, raw, monday, number) ::
              Some(l.day) == Belongs(p, raw, monday, number) && monday <= l.day <= monday + 13
  {
  }

  lemma JoinFour<T>(a: seq<T>, b: seq<T>, c: seq<T>, d: seq<T>)
    ensures multiset(a + b) + multiset(c + d) == multiset(a) + multiset(c) + multiset(b + d)
  {
  }

  lemma {:induction false} TwoWeeksElements(p: Parsing, bells: Bells, group: string, raws: seq<WeeklyLesson>, monday: int, number: int)
    requires BothWeeks(p, bells, group, raws, monday, number)
    ensures multiset(PlaceAll(p, bells, group, raws, monday, ParityOfNumber(number)).value) +
            multiset(PlaceAll(p, bells, group, raws, monday + 7, ParityOfNumber(number + 1)).value) ==
            multiset(Entries(p, bells, group, raws, monday, number))
  {
    if raws != [] {
      var init, raw := raws[..|raws| - 1], raws[|raws| - 1];
      TwoWeeksElements(p, bells, group, init, monday, number);
      PlacedInOneWeek(p, bells, group, raw, monday, number);
      var a := Place(p, bells, group, raw, monday, ParityOfNumber(number)).value;
      var b := Place(p, bells, group, raw, monday + 7, ParityOfNumber(number + 1)).value;
      JoinFour(PlaceAll(p, bells, group, init, monday, ParityOfNumber(number)).value, a,
               PlaceAll(p, bells, group, init, monday + 7, ParityOfNumber(number + 1)).value, b);
    }
  }

  lemma {:induction false} EntriesAreInRange(p: Parsing, bells: Bells, group: string, raws: seq<WeeklyLesson>, monday: int, number: int)
    requires BothWeeks(p, bells, group, raws, monday, number)
    ensures forall l | l in Entries(p, bells, group, raws, monday, number) :: monday <= l.day <= monday + 13
    ensures forall k | 0 <= k < |raws| :: |Entry(p, bells, group, raws[k], monday, number)| ==
                                          if Belongs(p, raws[k], monday, number).Some? then 1 else 0
  {
    if raws != [] {
      var init, raw := raws[..|raws| - 1], raws[|raws| - 1];
      EntriesAreInRange(p, bells, group, init, monday, number);
      PlacedInOneWeek(p, bells, group, raw, monday, number);
      forall k | 0 <= k < |raws|
        ensures |Entry(p, bells, group, raws[k], monday, number)| ==
                if Belongs(p, raws[k], monday, number).Some? then 1 else 0
      {
        assert k < |init| ==> init[k] == raws[k];
      }
    }
  }

  /** Every template entry that belongs to the two weeks appears exactly once, on its own day,
      and nothing else appears. */
  lemma TwoWeeksAreTheEntries(p: Parsing, bells: Bells, group: string, raws: seq<WeeklyLesson>, monday: int, number: int)
    requires BothWeeks(p, bells, group, raws, monday, number)
    ensures multiset(PlaceAll(p, bells, group, raws, monday, ParityOfNumber(number)).value) +
            multiset(PlaceAll(p, bells, group, raws, monday + 7, ParityOfNumber(number + 1)).value) ==
            multiset(Entries(p, bells, group, raws, monday, number))
    ensures forall l | l in Entries(p, bells, group, raws, monday, number) :: monday <= l.day <= monday + 13
    ensures forall k | 0 <= k < |raws| :: |Entry(p, bells, group, raws[k], monday, number)| ==
                                          if Belongs(p, raws[k], monday, number).Some? then 1 else 0
  {
    TwoWeeksElements(p, bells, group, raws, monday, number);
    EntriesAreInRange(p, bells, group, raws, monday, number);
  }

  /** The lessons of the two weeks, each week sorted. */
  function TwoWeeks(p: Parsing, bells: Bells, weekly: WeeklySchedule, monday: int, number: int): seq<Lesson>
    requires BothWeeks(p, bells, weekly.group, weekly.lessons, monday, number)
  {
    Sort(PlaceAll(p, bells, weekly.group, weekly.lessons, monday, ParityOfNumber(number)).value, ByDayAndTime()) +
    Sort(PlaceAll(p, bells, weekly.group, weekly.lessons, monday + 7, ParityOfNumber(number + 1)).value, ByDayAndTime())
  }

  predicate EnvelopeOk(e: Diff.Envelope) {
    && IsMonday(e.horizonStart)
    && e.horizonEnd == e.horizonStart + 13
    && |e.lessons| <= 200
    && forall i | 0 <= i < |e.lessons| :: e.horizonStart <= e.lessons[i].day <= e.horizonEnd
  }

  /** `number` is the week number the source publishes for the current week. */
  method BuildEnvelope(p: Parsing, bells: Bells, weekly: WeeklySchedule, number: int, group: string,
                       today: int, fetchedAt: int, forceDigest: bool)
    returns (r: Result<Diff.Envelope, BuildError>)
    ensures p.strip(weekly.group) != p.strip(group) ==> r == Failure(OtherGroup)
    ensures r.Success? ==> EntriesLand(p, bells, weekly, number, MondayOf(today), r.value.lessons)
    ensures r.Success? ==>
              && BothWeeks(p, bells, weekly.group, weekly.lessons, MondayOf(today), number)
              && EnvelopeOk(r.value)
              && r.value.horizonStart == MondayOf(today) && r.value.group == group
              && r.value.fetchedAt == fetchedAt && r.value.forceDigest == forceDigest
              && r.value.lessons == TwoWeeks(p, bells, weekly, MondayOf(today), number)
              && multiset(r.value.lessons) == multiset(Entries(p, bells, weekly.group, weekly.lessons, MondayOf(today), number))
    ensures r.Success? <==>
              && p.strip(weekly.group) == p.strip(group)
              && (forall k | 0 <= k < |weekly.lessons| :: Usable(p, bells, weekly.lessons[k], MondayOf(today)))
              && |Entries(p, bells, weekly.group, weekly.lessons, MondayOf(today), number)| <= 200
  {
    var monday := MondayOf(today);
    if p.strip(weekly.group) != p.strip(group) {
      return Failure(OtherGroup);
    }
    var lessons := MaterializeBoth(p, bells, weekly, number, monday);
    BothWeeksIff(p, bells, weekly.group, weekly.lessons, monday, number);
    if lessons.Failure? {
      return Failure(lessons.error);
    }
    EnvelopeLessons(p, bells, weekly, monday, number);
    AllEntriesLand(p, bells, weekly, number, monday);
    if |lessons.value| > MAX_LESSONS {
      return Failure(TooManyLessons);
    }
    return Success(Diff.Envelope(group, fetchedAt, monday, monday + 13, lessons.value, forceDigest));
  }

  /** This week and the next, each under its own parity. */
  method MaterializeBoth(p: Parsing, bells: Bells, weekly: WeeklySchedule, number: int, monday: int) returns (r: Result<seq<Lesson>, BuildError>)
    requires IsMonday(monday)
    ensures r.Success? <==> BothWeeks(p, bells, weekly.group, weekly.lessons, monday, number)
    ensures r.Success? ==> r.value == TwoWeeks(p, bells, weekly, monday, number)
  {
    ParityAlternates(number, monday, monday);
    var thisParity := ParityForWeek(number, monday, monday);
    assert ParityForWeek(number, monday, monday + 7) == Success(ParityOfNumber(number + 1));
    var nextParity := ParityForWeek(number, monday, monday + 7);
    var first := MaterializeWeek(p, bells, weekly, monday, thisParity.value);
    if first.Failure? {
      return Failure(first.error);
    }
    var second := MaterializeWeek(p, bells, weekly, monday + 7, nextParity.value);
    if second.Failure? {
      return Failure(second.error);
    }
    return Success(first.value + second.value);
  }

  lemma EnvelopeLessons(p: Parsing, bells: Bells, weekly: WeeklySchedule, monday: int, number: int)
    requires BothWeeks(p, bells, weekly.group, weekly.lessons, monday, number)
    ensures var lessons := TwoWeeks(p, bells, weekly, monday, number);
            var entries := Entries(p, bells, weekly.group, weekly.lessons, monday, number);
            && multiset(lessons) == multiset(entries) && |lessons| == |entries|
            && forall i | 0 <= i < |lessons| :: monday <= lessons[i].day <= monday + 13
  {
    TwoWeeksAreTheEntries(p, bells, weekly.group, weekly.lessons, monday, number);
    var first := PlaceAll(p, bells, weekly.group, weekly.lessons, monday, ParityOfNumber(number)).value;
    var second := PlaceAll(p, bells, weekly.group, weekly.lessons, monday + 7, ParityOfNumber(number + 1)).value;
    SortKeepsElements(first, ByDayAndTime());
    SortKeepsElements(second, ByDayAndTime());
    SameElements(Sort(first, ByDayAndTime()), Sort(second, ByDayAndTime()), Entries(p, bells, weekly.group, weekly.lessons, monday, number));
    var lessons := TwoWeeks(p, bells, weekly, monday, number);
    forall i | 0 <= i < |lessons| ensures monday <= lessons[i].day <= monday + 13 {
      InMultiset(lessons, Entries(p, bells, weekly.group, weekly.lessons, monday, number), lessons[i]);
    }
  }

  lemma SameElements<T>(a: seq<T>, b: seq<T>, c: seq<T>)
    requires multiset(a) + multiset(b) == multiset(c)
    ensures multiset(a + b) == multiset(c) && |a + b| == |c|
  {
    assert multiset(a + b) == multiset(a) + multiset(b);
    assert |multiset(a + b)| == |multiset(c)|;
  }

  // ---------------------------------------------------------------- identities

  /** Ids are never empty and are hashes, treated as injective within one group. */
  ghost predicate IdsOk(p: Parsing) {
    && (forall s :: p.identity(s) != "")
    && (forall s: IdSource, t: IdSource | s.group == t.group && p.identity(s) == p.identity(t) :: s == t)
  }

  function IdAt(p: Parsing, group: string, raw: WeeklyLesson): IdSource {
    IdSourceOf(p, group, raw, SourceDay(p, raw))
  }

  ghost predicate TemplateIdsDistinct(p: Parsing, group: string, raws: seq<WeeklyLesson>) {
    forall i, j | 0 <= i < j < |raws| :: IdAt(p, group, raws[i]) != IdAt(p, group, raws[j])
  }

  /** Lesson `l` is the entry `k` of the template, on the day it belongs to. */
  ghost predicate ComesFrom(p: Parsing, bells: Bells, group: string, raws: seq<WeeklyLesson>, monday: int, number: int, l: Lesson, k: nat) {
    && k < |raws| && Belongs(p, raws[k], monday, number) == Some(l.day)
    && LessonAt(p, bells, group, raws[k], l.day, SourceDay(p, raws[k])) == Success(l)
    && l.sourceId == Some(p.identity(IdAt(p, group, raws[k])))
  }

  lemma {:induction false} EntryOrigin(p: Parsing, bells: Bells, group: string, raws: seq<WeeklyLesson>, monday: int, number: int, l: Lesson)
    returns (k: nat)
    requires l in Entries(p, bells, group, raws, monday, number)
    ensures ComesFrom(p, bells, group, raws, monday, number, l, k)
  {
    var init := raws[..|raws| - 1];
    if l in Entries(p, bells, group, init, monday, number) {
      k := EntryOrigin(p, bells, group, init, monday, number, l);
    } else {
      k := |init|;
    }
  }

  /** With one IdSource per entry the lessons of the two weeks have distinct ids. */
  lemma {:induction false} EntryIdsDistinct(p: Parsing, bells: Bells, group: string, raws: seq<WeeklyLesson>, monday: int, number: int)
    requires IdsOk(p) && TemplateIdsDistinct(p, group, raws)
    ensures Diff.IdsDistinct(Entries(p, bells, group, raws, monday, number))
    ensures forall l | l in Entries(p, bells, group, raws, monday, number) :: Identified(l)
  {
    if raws != [] {
      var init, last := raws[..|raws| - 1], raws[|raws| - 1];
      EntryIdsDistinct(p, bells, group, init, monday, number);
      var before, entry := Entries(p, bells, group, init, monday, number), Entry(p, bells, group, last, monday, number);
      forall i, e | 0 <= i < |before| && e in entry ensures before[i].sourceId != e.sourceId {
        var k := EntryOrigin(p, bells, group, init, monday, number, before[i]);
        assert init[k] == raws[k];
      }
    }
  }

  /** So every envelope built from such a template can be compared with itself in silence. */
  lemma EnvelopeIdsDistinct(p: Parsing, bells: Bells, weekly: WeeklySchedule, monday: int, number: int)
    requires IdsOk(p) && TemplateIdsDistinct(p, weekly.group, weekly.lessons)
    requires BothWeeks(p, bells, weekly.group, weekly.lessons, monday, number)
    ensures Diff.IdsDistinct(TwoWeeks(p, bells, weekly, monday, number))
    ensures forall l | l in TwoWeeks(p, bells, weekly, monday, number) :: Identified(l)
  {
    EnvelopeLessons(p, bells, weekly, monday, number);
    EntryIdsDistinct(p, bells, weekly.group, weekly.lessons, monday, number);
    Diff.SameElementsKeepIds(Entries(p, bells, weekly.group, weekly.lessons, monday, number), TwoWeeks(p, bells, weekly, monday, number));
  }

  /** Room, subject and teacher are not hashed: two entries that differ in nothing else, such as two
      blocks of one slot, get one id, and the week they make differs from itself. */
  lemma TwinEntriesReportThemselves(x: Rules, p: Parsing, bells: Bells, group: string, a: WeeklyLesson, b: WeeklyLesson,
                                    monday: int, parity: Parity, placed: seq<Lesson>, source: seq<(nat, nat)>, chosen: seq<Candidate>,
                                    kind: Diff.ChangeKind)
    requires IdsOk(p) && IdAt(p, group, a) == IdAt(p, group, b)
    requires PlaceAll(p, bells, group, [a, b], monday, parity) == Success(placed) && |placed| == 2
    requires Diff.Differs(x, kind, placed[0], placed[1])
    requires var week := Sort(placed, ByDayAndTime());
             IsMatching(x, week, week, source, chosen) && Diff.InRange(week, week, Pairs(source, chosen))
    ensures var week := Sort(placed, ByDayAndTime());
            Diff.Report(x, week, week, Pairs(source, chosen)) != []
  {
    var week := Sort(placed, ByDayAndTime());
    TwinsShareAnId(p, bells, group, a, b, monday, parity, placed);
    SortPair(placed, ByDayAndTime());
    assert Diff.Differs(x, kind, placed[1], placed[0]);
    Diff.RepeatedIdReportsItself(x, week, source, chosen, 0, 1, kind);
  }

  lemma TwinsShareAnId(p: Parsing, bells: Bells, group: string, a: WeeklyLesson, b: WeeklyLesson, monday: int, parity: Parity, placed: seq<Lesson>)
    requires IdsOk(p) && IdAt(p, group, a) == IdAt(p, group, b)
    requires PlaceAll(p, bells, group, [a, b], monday, parity) == Success(placed) && |placed| == 2
    ensures Identified(placed[0]) && placed[0].sourceId == placed[1].sourceId
  {
    assert [a, b][..1] == [a] && [a][..0] == [];
    var first, second := Place(p, bells, group, a, monday, parity).value, Place(p, bells, group, b, monday, parity).value;
    assert PlaceAll(p, bells, group, [a], monday, parity) == Success([] + first);
    assert placed == first + second;
  }

  lemma SortPair<T>(s: seq<T>, le: (T, T) -> bool)
    requires |s| == 2
    ensures Sort(s, le) == s || Sort(s, le) == [s[1], s[0]]
  {
    assert s == [s[0], s[1]] && s[1..] == [s[1]] && s[1..][1..] == [];
    assert Insert(s[1], [], le) == [s[1]] && Insert(s[0], [], le) == [s[0]];
    assert Sort(s[1..], le) == [s[1]] && [s[1]][1..] == [];
    assert Insert(s[0], [s[1]], le) == if le(s[0], s[1]) then [s[0]] + [s[1]] else [s[1]] + [s[0]];
  }

  /** The id fixes the date, or the day of the week. */
  function WeekdayOfId(s: IdSource): int {
    (if s.dated.Some? then s.dated.value else s.weekday + 1) % 7
  }

  lemma DayOfId(p: Parsing, bells: Bells, group: string, raws: seq<WeeklyLesson>, monday: int, number: int, l: Lesson, k: nat)
    requires IsMonday(monday) && ComesFrom(p, bells, group, raws, monday, number, l, k)
    ensures l.day % 7 == WeekdayOfId(IdAt(p, group, raws[k]))
  {
    assert monday % 7 == 1;
    var raw := raws[k];
    if !Dated(raw) {
      assert l.day == monday + raw.weekday || l.day == monday + raw.weekday + 7;
    }
  }

  lemma SameRemainder(a: int, b: int)
    requires a % 7 == b % 7
    ensures (a - b) % 7 == 0
  {
  }

  lemma SameIdSameDayOfWeek(p: Parsing, bells: Bells, group: string, raws: seq<WeeklyLesson>, monday: int, number: int, l: Lesson, k: nat,
                            raws': seq<WeeklyLesson>, monday': int, number': int, l': Lesson, k': nat)
    requires IdsOk(p) && IsMonday(monday) && IsMonday(monday') && l.sourceId == l'.sourceId
    requires ComesFrom(p, bells, group, raws, monday, number, l, k) && ComesFrom(p, bells, group, raws', monday', number', l', k')
    ensures (l.day - l'.day) % 7 == 0
  {
    DayOfId(p, bells, group, raws, monday, number, l, k);
    DayOfId(p, bells, group, raws', monday', number', l', k');
    assert IdAt(p, group, raws[k]) == IdAt(p, group, raws'[k']);
    SameRemainder(l.day, l'.day);
  }

  /** A lesson keeps its id only when it moves by whole weeks. */
  lemma SameIdMovesByWeeks(p: Parsing, bells: Bells, weekly: WeeklySchedule, monday: int, number: int, l: Lesson,
                           weekly': WeeklySchedule, monday': int, number': int, l': Lesson)
    requires IdsOk(p) && IsMonday(monday) && IsMonday(monday') && weekly.group == weekly'.group
    requires l in Entries(p, bells, weekly.group, weekly.lessons, monday, number)
    requires l' in Entries(p, bells, weekly'.group, weekly'.lessons, monday', number')
    requires l.sourceId == l'.sourceId
    ensures (l.day - l'.day) % 7 == 0
  {
    var k := EntryOrigin(p, bells, weekly.group, weekly.lessons, monday, number, l);
    var k' := EntryOrigin(p, bells, weekly'.group, weekly'.lessons, monday', number', l');
    SameIdSameDayOfWeek(p, bells, weekly.group, weekly.lessons, monday, number, l, k, weekly'.lessons, monday', number', l', k');
  }

  // ---------------------------------------------------------------- another week number

  /** The day of an undated entry in the two weeks from `monday`. */
  function Home(raw: WeeklyLesson, monday: int, number: int): int {
    monday + raw.weekday + if raw.parity == ParityOfNumber(number) then 0 else 7
  }

  predicate Undated(raws: seq<WeeklyLesson>) {
    forall i | 0 <= i < |raws| :: !Dated(raws[i])
  }

  lemma LessonOnAnyDay(p: Parsing, bells: Bells, group: string, raw: WeeklyLesson, day: int, other: int, dated: Option<int>)
    requires LessonAt(p, bells, group, raw, day, dated).Success?
    ensures LessonAt(p, bells, group, raw, other, dated) == Success(LessonAt(p, bells, group, raw, day, dated).value.(day := other))
  {
  }

  lemma UndatedPlace(p: Parsing, bells: Bells, group: string, raw: WeeklyLesson, monday: int, number: int)
    requires !Dated(raw) && Place(p, bells, group, raw, monday, ParityOfNumber(number)).Success?
    requires Place(p, bells, group, raw, monday + 7, ParityOfNumber(number + 1)).Success?
    ensures LessonAt(p, bells, group, raw, Home(raw, monday, number), None).Success?
    ensures Entry(p, bells, group, raw, monday, number) == [LessonAt(p, bells, group, raw, Home(raw, monday, number), None).value]
  {
    PlacedInOneWeek(p, bells, group, raw, monday, number);
  }

  lemma {:induction false} UndatedEntry(p: Parsing, bells: Bells, group: string, raws: seq<WeeklyLesson>, monday: int, number: int, k: nat)
    requires Undated(raws) && BothWeeks(p, bells, group, raws, monday, number) && k < |raws|
    ensures LessonAt(p, bells, group, raws[k], Home(raws[k], monday, number), None).Success?
    ensures LessonAt(p, bells, group, raws[k], Home(raws[k], monday, number), None).value in Entries(p, bells, group, raws, monday, number)
    decreases |raws|
  {
    var init, last := raws[..|raws| - 1], raws[|raws| - 1];
    assert BothWeeks(p, bells, group, init, monday, number);
    if k < |init| {
      assert init[k] == raws[k];
      UndatedEntry(p, bells, group, init, monday, number, k);
    } else {
      UndatedPlace(p, bells, group, last, monday, number);
    }
  }

  /** The envelope built today from a template under a published week number. */
  ghost predicate BuiltFrom(p: Parsing, bells: Bells, weekly: WeeklySchedule, number: int, today: int, e: Diff.Envelope) {
    var monday := MondayOf(today);
    && BothWeeks(p, bells, weekly.group, weekly.lessons, monday, number)
    && e.horizonStart == monday && e.horizonEnd == monday + 13
    && e.lessons == TwoWeeks(p, bells, weekly, monday, number)
  }

  lemma {:induction false} WindowOfAll(lessons: seq<Lesson>, first: int, last: int)
    requires forall l | l in lessons :: first <= l.day <= last
    ensures Diff.Window(lessons, first, last) == lessons
  {
    if lessons != [] {
      WindowOfAll(lessons[1..], first, last);
      assert [lessons[0]] + lessons[1..] == lessons;
    }
  }

  /** The entry behind a lesson of the envelope. */
  lemma LessonOrigin(p: Parsing, bells: Bells, weekly: WeeklySchedule, number: int, today: int, e: Diff.Envelope, l: Lesson) returns (k: nat)
    requires BuiltFrom(p, bells, weekly, number, today, e) && Undated(weekly.lessons) && l in e.lessons
    ensures ComesFrom(p, bells, weekly.group, weekly.lessons, MondayOf(today), number, l, k)
    ensures l.day == Home(weekly.lessons[k], MondayOf(today), number)
    ensures LessonAt(p, bells, weekly.group, weekly.lessons[k], l.day, None) == Success(l)
  {
    var monday := MondayOf(today);
    EnvelopeLessons(p, bells, weekly, monday, number);
    InMultiset(e.lessons, Entries(p, bells, weekly.group, weekly.lessons, monday, number), l);
    k := EntryOrigin(p, bells, weekly.group, weekly.lessons, monday, number, l);
    assert !Dated(weekly.lessons[k]);
  }

  function Moved(l: Lesson, monday: int): Lesson {
    l.(day := if l.day < monday + 7 then l.day + 7 else l.day - 7)
  }

  lemma HomeMoves(raw: WeeklyLesson, monday: int, number: int, number': int, l: Lesson)
    requires l.day == Home(raw, monday, number) && (number' == number + 1 || number == number' + 1)
    ensures Home(raw, monday, number') == Moved(l, monday).day
  {
    assert ParityOfNumber(number) != ParityOfNumber(number');
  }

  /** The same entry a week later or earlier is in the envelope built with the next week number. */
  lemma LessonMoves(p: Parsing, bells: Bells, weekly: WeeklySchedule, number: int, today: int, e: Diff.Envelope,
                    number': int, e': Diff.Envelope, l: Lesson)
    requires BuiltFrom(p, bells, weekly, number, today, e) && BuiltFrom(p, bells, weekly, number', today, e')
    requires Undated(weekly.lessons) && (number' == number + 1 || number == number' + 1) && l in e.lessons
    ensures Moved(l, MondayOf(today)) in e'.lessons
  {
    var monday := MondayOf(today);
    var k := LessonOrigin(p, bells, weekly, number, today, e, l);
    HomeMoves(weekly.lessons[k], monday, number, number', l);
    LessonOnAnyDay(p, bells, weekly.group, weekly.lessons[k], l.day, Moved(l, monday).day, None);
    EntryIsInEnvelope(p, bells, weekly, number', today, e', k);
  }

  lemma EntryIsInEnvelope(p: Parsing, bells: Bells, weekly: WeeklySchedule, number: int, today: int, e: Diff.Envelope, k: nat)
    requires BuiltFrom(p, bells, weekly, number, today, e) && Undated(weekly.lessons) && k < |weekly.lessons|
    ensures LessonAt(p, bells, weekly.group, weekly.lessons[k], Home(weekly.lessons[k], MondayOf(today), number), None).Success?
    ensures LessonAt(p, bells, weekly.group, weekly.lessons[k], Home(weekly.lessons[k], MondayOf(today), number), None).value in e.lessons
  {
    var monday := MondayOf(today);
    UndatedEntry(p, bells, weekly.group, weekly.lessons, monday, number, k);
    EnvelopeLessons(p, bells, weekly, monday, number);
    InMultiset(e.lessons, Entries(p, bells, weekly.group, weekly.lessons, monday, number),
               LessonAt(p, bells, weekly.group, weekly.lessons[k], Home(weekly.lessons[k], monday, number), None).value);
  }

  lemma SameIdSameEntry(p: Parsing, bells: Bells, weekly: WeeklySchedule, number: int, today: int, e: Diff.Envelope,
                        number': int, e': Diff.Envelope, l: Lesson, l': Lesson)
    requires IdsOk(p) && TemplateIdsDistinct(p, weekly.group, weekly.lessons) && Undated(weekly.lessons)
    requires BuiltFrom(p, bells, weekly, number, today, e) && BuiltFrom(p, bells, weekly, number', today, e')
    requires l in e.lessons && l' in e'.lessons && l.sourceId == l'.sourceId
    ensures l' == l.(day := l'.day)
  {
    var k := LessonOrigin(p, bells, weekly, number, today, e, l);
    var k' := LessonOrigin(p, bells, weekly, number', today, e', l');
    assert IdAt(p, weekly.group, weekly.lessons[k]) == IdAt(p, weekly.group, weekly.lessons[k']);
    assert k == k';
  }

  lemma BothHoldTheSameIds(p: Parsing, bells: Bells, weekly: WeeklySchedule, number: int, today: int, e: Diff.Envelope, e': Diff.Envelope)
    requires IdsOk(p) && TemplateIdsDistinct(p, weekly.group, weekly.lessons) && Undated(weekly.lessons)
    requires BuiltFrom(p, bells, weekly, number, today, e) && BuiltFrom(p, bells, weekly, number + 1, today, e')
    ensures Diff.SameIds(e.lessons, e'.lessons)
  {
    EnvelopeIdsDistinct(p, bells, weekly, MondayOf(today), number);
    EnvelopeIdsDistinct(p, bells, weekly, MondayOf(today), number + 1);
    forall o | 0 <= o < |e.lessons| ensures Identified(e.lessons[o]) && exists n | 0 <= n < |e'.lessons| :: e'.lessons[n].sourceId == e.lessons[o].sourceId {
      assert e.lessons[o] in e.lessons;
      LessonMoves(p, bells, weekly, number, today, e, number + 1, e', e.lessons[o]);
    }
    forall n | 0 <= n < |e'.lessons| ensures Identified(e'.lessons[n]) && exists o | 0 <= o < |e.lessons| :: e'.lessons[n].sourceId == e.lessons[o].sourceId {
      assert e'.lessons[n] in e'.lessons;
      LessonMoves(p, bells, weekly, number + 1, today, e', number, e, e'.lessons[n]);
    }
  }

  lemma AllShared(p: Parsing, bells: Bells, weekly: WeeklySchedule, number: int, today: int, e: Diff.Envelope, previous: Diff.Envelope, current: Diff.Envelope)
    requires BuiltFrom(p, bells, weekly, number, today, e) && Undated(weekly.lessons)
    requires previous.horizonStart == current.horizonStart == e.horizonStart && previous.horizonEnd == current.horizonEnd == e.horizonEnd
    requires forall k | 0 <= k < |weekly.lessons| :: Weekday(today) <= weekly.lessons[k].weekday
    ensures Diff.Shared(e.lessons, previous, current, today) == e.lessons
  {
    forall l | l in e.lessons ensures today <= l.day <= e.horizonEnd {
      var k := LessonOrigin(p, bells, weekly, number, today, e, l);
    }
    WindowOfAll(e.lessons, today, e.horizonEnd);
  }

  lemma NotOnTheSameDay(p: Parsing, bells: Bells, weekly: WeeklySchedule, number: int, today: int, e: Diff.Envelope, e': Diff.Envelope,
                        l: Lesson, l': Lesson)
    requires IdsOk(p) && TemplateIdsDistinct(p, weekly.group, weekly.lessons) && Undated(weekly.lessons)
    requires BuiltFrom(p, bells, weekly, number, today, e) && BuiltFrom(p, bells, weekly, number + 1, today, e')
    requires l in e.lessons && l' in e'.lessons && l.sourceId == l'.sourceId
    ensures l.day != l'.day
  {
    var k := LessonOrigin(p, bells, weekly, number, today, e, l);
    var k' := LessonOrigin(p, bells, weekly, number + 1, today, e', l');
    assert IdAt(p, weekly.group, weekly.lessons[k]) == IdAt(p, weekly.group, weekly.lessons[k']);
    assert k == k';
    assert ParityOfNumber(number) != ParityOfNumber(number + 1);
  }

  lemma {:induction false} UndatedEntryCount(p: Parsing, bells: Bells, group: string, raws: seq<WeeklyLesson>, monday: int, number: int)
    requires Undated(raws) && BothWeeks(p, bells, group, raws, monday, number)
    ensures |Entries(p, bells, group, raws, monday, number)| == |raws|
  {
    if raws != [] {
      var init, last := raws[..|raws| - 1], raws[|raws| - 1];
      assert forall i | 0 <= i < |init| :: init[i] == raws[i];
      UndatedEntryCount(p, bells, group, init, monday, number);
      assert !Dated(last);
      PlacedInOneWeek(p, bells, group, last, monday, number);
    }
  }

  lemma UndatedCount(p: Parsing, bells: Bells, weekly: WeeklySchedule, number: int, today: int, e: Diff.Envelope)
    requires BuiltFrom(p, bells, weekly, number, today, e) && Undated(weekly.lessons)
    ensures |e.lessons| == |weekly.lessons|
  {
    UndatedEntryCount(p, bells, weekly.group, weekly.lessons, MondayOf(today), number);
    EnvelopeLessons(p, bells, weekly, MondayOf(today), number);
  }

  /** When the source corrects its week number by one, every lesson of an undated template moves by a
      week under its id, and the comparison reports nothing. On a Monday this holds of every template,
      later in the week of those with no lesson on a day already past. */
  lemma RenumberedWeeksGoUnreported(x: Rules, p: Parsing, bells: Bells, weekly: WeeklySchedule, number: int, today: int,
                                    e: Diff.Envelope, e': Diff.Envelope, changes: seq<Diff.Change>)
    requires IdsOk(p) && TemplateIdsDistinct(p, weekly.group, weekly.lessons) && Undated(weekly.lessons)
    requires forall k | 0 <= k < |weekly.lessons| :: Weekday(today) <= weekly.lessons[k].weekday
    requires BuiltFrom(p, bells, weekly, number, today, e) && BuiltFrom(p, bells, weekly, number + 1, today, e')
    requires Diff.IsOverlapReport(x, e, e', today, changes)
    ensures changes == []
    ensures |e.lessons| == |weekly.lessons|
    ensures forall l | l in e.lessons :: l !in e'.lessons && Moved(l, MondayOf(today)) in e'.lessons
  {
    AllShared(p, bells, weekly, number, today, e, e, e');
    AllShared(p, bells, weekly, number + 1, today, e', e, e');
    UndatedCount(p, bells, weekly, number, today, e);
    forall l | l in e.lessons ensures l !in e'.lessons && Moved(l, MondayOf(today)) in e'.lessons {
      LessonMoves(p, bells, weekly, number, today, e, number + 1, e', l);
      if l in e'.lessons {
        NotOnTheSameDay(p, bells, weekly, number, today, e, e', l, l);
        assert false;
      }
    }
    if changes != [] {
      var source, chosen :| IsMatching(x, e.lessons, e'.lessons, source, chosen)
                            && Diff.InRange(e.lessons, e'.lessons, Pairs(source, chosen))
                            && changes == Diff.Report(x, e.lessons, e'.lessons, Pairs(source, chosen));
      SilentComparison(x, p, bells, weekly, number, today, e, e', source, chosen);
    }
  }

  /** Any single undated lesson with a subject and a known slot is such a template, on its weekday or
      before, under any week number. */
  lemma OneLessonIsEnough(p: Parsing, bells: Bells, group: string, raw: WeeklyLesson, number: int, today: int)
    requires !Dated(raw) && LessonAt(p, bells, group, raw, today, None).Success? && Weekday(today) <= raw.weekday
    ensures var weekly := WeeklySchedule(group, [raw]);
            && Undated(weekly.lessons) && TemplateIdsDistinct(p, group, weekly.lessons)
            && exists e :: BuiltFrom(p, bells, weekly, number, today, e) && |e.lessons| == 1
  {
    var weekly := WeeklySchedule(group, [raw]);
    var monday := MondayOf(today);
    LessonOnAnyDay(p, bells, group, raw, today, monday + raw.weekday, None);
    LessonOnAnyDay(p, bells, group, raw, today, monday + 7 + raw.weekday, None);
    assert [raw][..0] == [];
    assert BothWeeks(p, bells, group, [raw], monday, number);
    var e := Diff.Envelope(group, today, monday, monday + 13, TwoWeeks(p, bells, weekly, monday, number), false);
    assert BuiltFrom(p, bells, weekly, number, today, e);
    UndatedCount(p, bells, weekly, number, today, e);
  }

  lemma SilentComparison(x: Rules, p: Parsing, bells: Bells, weekly: WeeklySchedule, number: int, today: int,
                         e: Diff.Envelope, e': Diff.Envelope, source: seq<(nat, nat)>, chosen: seq<Candidate>)
    requires IdsOk(p) && TemplateIdsDistinct(p, weekly.group, weekly.lessons) && Undated(weekly.lessons)
    requires BuiltFrom(p, bells, weekly, number, today, e) && BuiltFrom(p, bells, weekly, number + 1, today, e')
    requires IsMatching(x, e.lessons, e'.lessons, source, chosen) && Diff.InRange(e.lessons, e'.lessons, Pairs(source, chosen))
    ensures Diff.Report(x, e.lessons, e'.lessons, Pairs(source, chosen)) == []
  {
    BothHoldTheSameIds(p, bells, weekly, number, today, e, e');
    forall o, n | 0 <= o < |e.lessons| && 0 <= n < |e'.lessons| && e.lessons[o].sourceId == e'.lessons[n].sourceId
      ensures e'.lessons[n] == e.lessons[o].(day := e'.lessons[n].day, subgroup := e'.lessons[n].subgroup)
    {
      SameIdSameEntry(p, bells, weekly, number, today, e, number + 1, e', e.lessons[o], e'.lessons[n]);
    }
    Diff.RelocatedGoesUnreported(x, e.lessons, e'.lessons, source, chosen);
  }

  // ---------------------------------------------------------------- where an entry lands

  /** The lesson an entry makes on a day, field by field. */
  predicate IsLessonOf(p: Parsing, bells: Bells, group: string, raw: WeeklyLesson, l: Lesson, day: int, dated: Option<int>) {
    && raw.slot in bells
    && l.day == day && l.startsAt == bells[raw.slot].0 && l.endsAt == bells[raw.slot].1
    && l.subject == p.subject(raw.subject).0 && l.lessonType == p.subject(raw.subject).1
    && l.room == p.auditorium(raw.auditorium).0 && l.building == p.auditorium(raw.auditorium).1
    && l.teacher == raw.professor && l.subgroup == raw.group
    && l.sourceId == Some(p.identity(IdSource(group, dated, raw.weekday, raw.slot, raw.parity, p.text(raw.group), raw.occurrence)))
  }

  /** Undated numerator entries lie in the first week when the published number is odd and in the second
      when it is even, denominator entries the other way round; dated entries lie on their date when the
      two weeks cover it. */
  ghost predicate EntriesLand(p: Parsing, bells: Bells, weekly: WeeklySchedule, number: int, monday: int, lessons: seq<Lesson>) {
    && (forall k | 0 <= k < |weekly.lessons| && (weekly.lessons[k].sourceDate == None || weekly.lessons[k].sourceDate == Some("")) ::
          var raw := weekly.lessons[k];
          exists l | l in lessons ::
            IsLessonOf(p, bells, weekly.group, raw, l,
                       monday + raw.weekday + (if (raw.parity == Numerator) == (number % 2 == 1) then 0 else 7), None))
    && (forall k | 0 <= k < |weekly.lessons| && weekly.lessons[k].sourceDate.Some? && weekly.lessons[k].sourceDate.value != "" ::
          var raw := weekly.lessons[k];
          var d := p.date(raw.sourceDate.value);
          d.Some? && (monday <= d.value <= monday + 13 ==> exists l | l in lessons :: IsLessonOf(p, bells, weekly.group, raw, l, d.value, d)))
  }

  lemma EntryLands(p: Parsing, bells: Bells, group: string, raw: WeeklyLesson, monday: int, number: int)
    requires Place(p, bells, group, raw, monday, ParityOfNumber(number)).Success?
    requires Place(p, bells, group, raw, monday + 7, ParityOfNumber(number + 1)).Success?
    ensures raw.sourceDate == None || raw.sourceDate == Some("") ==>
              |Entry(p, bells, group, raw, monday, number)| == 1 &&
              IsLessonOf(p, bells, group, raw, Entry(p, bells, group, raw, monday, number)[0],
                         monday + raw.weekday + (if (raw.parity == Numerator) == (number % 2 == 1) then 0 else 7), None)
    ensures raw.sourceDate.Some? && raw.sourceDate.value != "" ==>
              var d := p.date(raw.sourceDate.value);
              d.Some? && (monday <= d.value <= monday + 13 ==>
                |Entry(p, bells, group, raw, monday, number)| == 1 &&
                IsLessonOf(p, bells, group, raw, Entry(p, bells, group, raw, monday, number)[0], d.value, d))
  {
    PlacedInOneWeek(p, bells, group, raw, monday, number);
  }

  lemma {:induction false} EntryIsAmong(p: Parsing, bells: Bells, group: string, raws: seq<WeeklyLesson>, monday: int, number: int, k: nat)
    requires k < |raws| && BothWeeks(p, bells, group, raws, monday, number)
    ensures Place(p, bells, group, raws[k], monday, ParityOfNumber(number)).Success?
    ensures Place(p, bells, group, raws[k], monday + 7, ParityOfNumber(number + 1)).Success?
    ensures forall l | l in Entry(p, bells, group, raws[k], monday, number) :: l in Entries(p, bells, group, raws, monday, number)
    decreases |raws|
  {
    var init := raws[..|raws| - 1];
    assert BothWeeks(p, bells, group, init, monday, number);
    if k < |init| {
      assert init[k] == raws[k];
      EntryIsAmong(p, bells, group, init, monday, number, k);
    }
  }

  lemma AllEntriesLand(p: Parsing, bells: Bells, weekly: WeeklySchedule, number: int, monday: int)
    requires BothWeeks(p, bells, weekly.group, weekly.lessons, monday, number)
    ensures EntriesLand(p, bells, weekly, number, monday, TwoWeeks(p, bells, weekly, monday, number))
  {
    var lessons := TwoWeeks(p, bells, weekly, monday, number);
    var entries := Entries(p, bells, weekly.group, weekly.lessons, monday, number);
    EnvelopeLessons(p, bells, weekly, monday, number);
    forall k | 0 <= k < |weekly.lessons|
      ensures Place(p, bells, weekly.group, weekly.lessons[k], monday, ParityOfNumber(number)).Success?
      ensures Place(p, bells, weekly.group, weekly.lessons[k], monday + 7, ParityOfNumber(number + 1)).Success?
      ensures forall l | l in Entry(p, bells, weekly.group, weekly.lessons[k], monday, number) :: l in lessons
    {
      EntryIsAmong(p, bells, weekly.group, weekly.lessons, monday, number, k);
      forall l | l in Entry(p, bells, weekly.group, weekly.lessons[k], monday, number) ensures l in lessons {
        InMultiset(lessons, entries, l);
      }
    }
    forall k | 0 <= k < |weekly.lessons| && (weekly.lessons[k].sourceDate == None || weekly.lessons[k].sourceDate == Some(""))
      ensures exists l | l in lessons ::
                IsLessonOf(p, bells, weekly.group, weekly.lessons[k], l,
                           monday + weekly.lessons[k].weekday + (if (weekly.lessons[k].parity == Numerator) == (number % 2 == 1) then 0 else 7), None)
    {
      EntryLands(p, bells, weekly.group, weekly.lessons[k], monday, number);
      assert Entry(p, bells, weekly.group, weekly.lessons[k], monday, number)[0] in lessons;
    }
    forall k | 0 <= k < |weekly.lessons| && weekly.lessons[k].sourceDate.Some? && weekly.lessons[k].sourceDate.value != ""
      ensures var d := p.date(weekly.lessons[k].sourceDate.value);
              d.Some? && (monday <= d.value <= monday + 13 ==>
                exists l | l in lessons :: IsLessonOf(p, bells, weekly.group, weekly.lessons[k], l, d.value, d))
    {
      EntryLands(p, bells, weekly.group, weekly.lessons[k], monday, number);
      var d := p.date(weekly.lessons[k].sourceDate.value);
      if monday <= d.value <= monday + 13 {
        assert Entry(p, bells, weekly.group, weekly.lessons[k], monday, number)[0] in lessons;
      }
    }
  }

  /** What makes an entry unusable: a malformed date, or, in the weeks it belongs to, an unknown slot, a
      slot that ends before it starts or a blank subject. */
  predicate Usable(p: Parsing, bells: Bells, raw: WeeklyLesson, monday: int) {
    var dated := raw.sourceDate.Some? && raw.sourceDate.value != "";
    && (dated ==> p.date(raw.sourceDate.value).Some?)
    && (!dated || monday <= p.date(raw.sourceDate.value).value <= monday + 13 ==>
          raw.slot in bells && bells[raw.slot].0 < bells[raw.slot].1 && p.strip(p.subject(raw.subject).0) != "")
  }

  /** Both weeks materialize exactly when every entry is usable. */
  lemma {:induction false} BothWeeksIff(p: Parsing, bells: Bells, group: string, raws: seq<WeeklyLesson>, monday: int, number: int)
    ensures BothWeeks(p, bells, group, raws, monday, number) <==> forall k | 0 <= k < |raws| :: Usable(p, bells, raws[k], monday)
  {
    if raws != [] {
      var init, last := raws[..|raws| - 1], raws[|raws| - 1];
      BothWeeksIff(p, bells, group, init, monday, number);
      PlaceableIff(p, bells, group, last, monday, number);
      assert raws == init + [last];
    }
  }

  lemma PlaceableIff(p: Parsing, bells: Bells, group: string, raw: WeeklyLesson, monday: int, number: int)
    ensures Usable(p, bells, raw, monday) <==>
              Place(p, bells, group, raw, monday, ParityOfNumber(number)).Success? &&
              Place(p, bells, group, raw, monday + 7, ParityOfNumber(number + 1)).Success?
  {
    assert ParityOfNumber(number) != ParityOfNumber(number + 1);
  }
}
