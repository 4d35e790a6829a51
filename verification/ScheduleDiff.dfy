/** Semantic change detection between two snapshots and between two overlapping envelopes. */
module ScheduleDiff {
  import opened Wrappers
  import opened Ordering
  import opened Schedule
  import opened Matching
  import opened Numbers

  datatype ChangeKind = Added | Cancelled | Time | Room | Building | Teacher | LessonType | SubjectName

  datatype Change = Change(kind: ChangeKind, before: Option<Lesson>, after: Option<Lesson>)

  datatype DiffError = DifferentGroups

  function KindText(kind: ChangeKind): string {
    match kind
    case Added => "added"
    case Cancelled => "cancelled"
    case Time => "time"
    case Room => "room"
    case Building => "building"
    case Teacher => "teacher"
    case LessonType => "lesson_type"
    case SubjectName => "subject"
  }

  // ---------------------------------------------------------------- changes of one pair

  predicate Differs(x: Rules, kind: ChangeKind, before: Lesson, after: Lesson) {
    match kind
    case Time => before.startsAt != after.startsAt || before.endsAt != after.endsAt
    case Room => x.text(before.room) != x.text(after.room)
    case Building => x.text(before.building) != x.text(after.building)
    case Teacher => x.teacher(before.teacher) != x.teacher(after.teacher)
    case LessonType => x.text(before.lessonType) != x.text(after.lessonType)
    case SubjectName => Subject(x, before) != Subject(x, after)
    case _ => false
  }

  function When(x: Rules, kind: ChangeKind, before: Lesson, after: Lesson): seq<Change> {
    if Differs(x, kind, before, after) then [Change(kind, Some(before), Some(after))] else []
  }

  function PairChanges(x: Rules, before: Lesson, after: Lesson): seq<Change> {
    When(x, Time, before, after) + When(x, Room, before, after) + When(x, Building, before, after) +
    When(x, Teacher, before, after) + When(x, LessonType, before, after) + When(x, SubjectName, before, after)
  }

  /** The pair is reported as unchanged. */
  predicate SameButDay(x: Rules, before: Lesson, after: Lesson) {
    forall kind: ChangeKind :: !Differs(x, kind, before, after)
  }

  lemma NoPairChanges(x: Rules, before: Lesson, after: Lesson)
    ensures |PairChanges(x, before, after)| == 0 <==> SameButDay(x, before, after)
  {
  }

  // ---------------------------------------------------------------- the whole diff

  function FieldChanges(x: Rules, olds: seq<Lesson>, news: seq<Lesson>, pairs: seq<(nat, nat)>): seq<Change>
    requires forall p | p in pairs :: p.0 < |olds| && p.1 < |news|
  {
    if pairs == [] then []
    else
      var p := pairs[|pairs| - 1];
      FieldChanges(x, olds, news, pairs[..|pairs| - 1]) + PairChanges(x, olds[p.0], news[p.1])
  }

  function CancelledChanges(olds: seq<Lesson>, cancelled: seq<nat>): seq<Change>
    requires forall i | i in cancelled :: i < |olds|
  {
    seq(|cancelled|, k requires 0 <= k < |cancelled| =>
      assert cancelled[k] in cancelled; Change(Cancelled, Some(olds[cancelled[k]]), None))
  }

  function AddedChanges(news: seq<Lesson>, added: seq<nat>): seq<Change>
    requires forall i | i in added :: i < |news|
  {
    seq(|added|, k requires 0 <= k < |added| =>
      assert added[k] in added; Change(Added, None, Some(news[added[k]])))
  }

  function ChangeKey(x: Rules, c: Change): Key {
    if c.after.Some? then Key(c.after.value.day, c.after.value.startsAt, Subject(x, c.after.value), KindText(c.kind))
    else if c.before.Some? then Key(c.before.value.day, c.before.value.startsAt, Subject(x, c.before.value), KindText(c.kind))
    else Key(0, 0, "", KindText(c.kind))
  }

  function ChangeOrder(x: Rules): (Change, Change) -> bool {
    (a, b) => KeyLe(ChangeKey(x, a), ChangeKey(x, b))
  }

  ghost predicate InRange(olds: seq<Lesson>, news: seq<Lesson>, pairs: seq<(nat, nat)>) {
    forall p | p in pairs :: p.0 < |olds| && p.1 < |news|
  }

  function Unsorted(x: Rules, olds: seq<Lesson>, news: seq<Lesson>, pairs: seq<(nat, nat)>): seq<Change>
    requires InRange(olds, news, pairs)
  {
    FieldChanges(x, olds, news, pairs) +
    CancelledChanges(olds, Listed(|olds|, Indices(olds) - Olds(pairs))) +
    AddedChanges(news, Listed(|news|, Indices(news) - News(pairs)))
  }

  /** What the diff reports for a given matching. */
  function Report(x: Rules, olds: seq<Lesson>, news: seq<Lesson>, pairs: seq<(nat, nat)>): seq<Change>
    requires InRange(olds, news, pairs)
  {
    Sort(Unsorted(x, olds, news, pairs), ChangeOrder(x))
  }

  lemma MatchingInRange(x: Rules, olds: seq<Lesson>, news: seq<Lesson>, source: seq<(nat, nat)>, chosen: seq<Candidate>)
    requires IsMatching(x, olds, news, source, chosen)
    ensures InRange(olds, news, Pairs(source, chosen))
  {
  }

  method ComparePair(x: Rules, before: Lesson, after: Lesson) returns (changes: seq<Change>)
    ensures changes == PairChanges(x, before, after)
  {
    changes := [];
    if before.startsAt != after.startsAt || before.endsAt != after.endsAt {
      changes := changes + [Change(Time, Some(before), Some(after))];
    }
    assert changes == When(x, Time, before, after);
    if x.text(before.room) != x.text(after.room) {
      changes := changes + [Change(Room, Some(before), Some(after))];
    }
    assert changes == When(x, Time, before, after) + When(x, Room, before, after);
    if x.text(before.building) != x.text(after.building) {
      changes := changes + [Change(Building, Some(before), Some(after))];
    }
    assert changes == When(x, Time, before, after) + When(x, Room, before, after) + When(x, Building, before, after);
    if x.teacher(before.teacher) != x.teacher(after.teacher) {
      changes := changes + [Change(Teacher, Some(before), Some(after))];
    }
    assert changes == When(x, Time, before, after) + When(x, Room, before, after) + When(x, Building, before, after) + When(x, Teacher, before, after);
    if x.text(before.lessonType) != x.text(after.lessonType) {
      changes := changes + [Change(LessonType, Some(before), Some(after))];
    }
    assert changes == When(x, Time, before, after) + When(x, Room, before, after) + When(x, Building, before, after) + When(x, Teacher, before, after) + When(x, LessonType, before, after);
    if Subject(x, before) != Subject(x, after) {
      changes := changes + [Change(SubjectName, Some(before), Some(after))];
    }
  }

  method ComparePairs(x: Rules, olds: seq<Lesson>, news: seq<Lesson>, pairs: seq<(nat, nat)>)
    returns (changes: seq<Change>)
    requires InRange(olds, news, pairs)
    ensures changes == FieldChanges(x, olds, news, pairs)
  {
    changes := [];
    for k := 0 to |pairs|
      invariant InRange(olds, news, pairs[..k])
      invariant changes == FieldChanges(x, olds, news, pairs[..k])
    {
      var p := pairs[k];
      assert p in pairs;
      assert pairs[..k + 1][..k] == pairs[..k];
      var found := ComparePair(x, olds[p.0], news[p.1]);
      changes := changes + found;
    }
    assert pairs[..|pairs|] == pairs;
  }

  method DiffSchedules(x: Rules, previous: Snapshot, current: Snapshot)
    returns (r: Result<seq<Change>, DiffError>, ghost source: seq<(nat, nat)>, ghost chosen: seq<Candidate>)
    ensures r.Failure? <==> previous.group != current.group
    ensures r.Success? ==>
              && IsMatching(x, previous.lessons, current.lessons, source, chosen)
              && InRange(previous.lessons, current.lessons, Pairs(source, chosen))
              && r.value == Report(x, previous.lessons, current.lessons, Pairs(source, chosen))
  {
    if previous.group != current.group {
      return Failure(DifferentGroups), [], [];
    }
    var olds, news := previous.lessons, current.lessons;
    var pairs, cancelled, added;
    pairs, cancelled, added, source, chosen := MatchLessons(x, olds, news);
    MatchingInRange(x, olds, news, source, chosen);
    var changes := ComparePairs(x, olds, news, pairs);
    changes := changes + CancelledChanges(olds, cancelled);
    changes := changes + AddedChanges(news, added);
    r := Success(Sort(changes, ChangeOrder(x)));
  }

  // ---------------------------------------------------------------- what a report contains

  /** The change describes a matched pair whose lessons differ in that respect, an old lesson
      without a partner, or a new lesson without one. */
  ghost predicate Justified(x: Rules, olds: seq<Lesson>, news: seq<Lesson>, pairs: seq<(nat, nat)>, c: Change)
    requires InRange(olds, news, pairs)
  {
    || (exists p | p in pairs :: c == Change(c.kind, Some(olds[p.0]), Some(news[p.1])) && Differs(x, c.kind, olds[p.0], news[p.1]))
    || (exists i | i in Indices(olds) - Olds(pairs) :: c == Change(Cancelled, Some(olds[i]), None))
    || (exists i | i in Indices(news) - News(pairs) :: c == Change(Added, None, Some(news[i])))
  }

  lemma PairChangesAreExact(x: Rules, before: Lesson, after: Lesson, c: Change)
    ensures c in PairChanges(x, before, after) <==>
              c == Change(c.kind, Some(before), Some(after)) && Differs(x, c.kind, before, after)
  {
    assert forall kind :: c in When(x, kind, before, after) <==>
                            c == Change(kind, Some(before), Some(after)) && Differs(x, kind, before, after);
  }

  lemma {:induction false} FieldChangesAreExact(x: Rules, olds: seq<Lesson>, news: seq<Lesson>, pairs: seq<(nat, nat)>, c: Change)
    requires InRange(olds, news, pairs)
    ensures c in FieldChanges(x, olds, news, pairs) <==>
              exists p | p in pairs :: c in PairChanges(x, olds[p.0], news[p.1])
  {
    if pairs != [] {
      var p := pairs[|pairs| - 1];
      var init := pairs[..|pairs| - 1];
      FieldChangesAreExact(x, olds, news, init, c);
      assert forall q :: q in pairs <==> q in init || q == p;
    }
  }

  lemma UnmatchedAreExact(olds: seq<Lesson>, keep: set<nat>, c: Change)
    requires forall i | i in keep :: i < |olds|
    ensures c in CancelledChanges(olds, Listed(|olds|, keep)) <==>
              exists i | i in keep :: c == Change(Cancelled, Some(olds[i]), None)
    ensures c in AddedChanges(olds, Listed(|olds|, keep)) <==>
              exists i | i in keep :: c == Change(Added, None, Some(olds[i]))
  {
    var listed := Listed(|olds|, keep);
    forall i | i in keep
      ensures Change(Cancelled, Some(olds[i]), None) in CancelledChanges(olds, listed)
      ensures Change(Added, None, Some(olds[i])) in AddedChanges(olds, listed)
    {
      var k :| 0 <= k < |listed| && listed[k] == i;
      assert CancelledChanges(olds, listed)[k] == Change(Cancelled, Some(olds[i]), None);
      assert AddedChanges(olds, listed)[k] == Change(Added, None, Some(olds[i]));
    }
    if c in CancelledChanges(olds, listed) {
      var k :| 0 <= k < |listed| && CancelledChanges(olds, listed)[k] == c;
      assert listed[k] in listed;
    }
    if c in AddedChanges(olds, listed) {
      var k :| 0 <= k < |listed| && AddedChanges(olds, listed)[k] == c;
      assert listed[k] in listed;
    }
  }

  lemma ChangeOrderIsTotal(x: Rules)
    ensures TotalPreorder(ChangeOrder(x))
  {
    KeyLeIsTotalOrder();
  }

  /** The report lists every justified change, no other, in day and time order. */
  lemma ReportIsExact(x: Rules, olds: seq<Lesson>, news: seq<Lesson>, pairs: seq<(nat, nat)>, c: Change)
    requires InRange(olds, news, pairs)
    ensures c in Report(x, olds, news, pairs) <==> Justified(x, olds, news, pairs, c)
    ensures SortedBy(Report(x, olds, news, pairs), ChangeOrder(x))
  {
    ChangeOrderIsTotal(x);
    SortOrders(Unsorted(x, olds, news, pairs), ChangeOrder(x));
    SortKeepsElements(Unsorted(x, olds, news, pairs), ChangeOrder(x));
    InMultiset(Report(x, olds, news, pairs), Unsorted(x, olds, news, pairs), c);
    FieldChangesAreExact(x, olds, news, pairs, c);
    forall p | p in pairs
      ensures c in PairChanges(x, olds[p.0], news[p.1]) <==>
                c == Change(c.kind, Some(olds[p.0]), Some(news[p.1])) && Differs(x, c.kind, olds[p.0], news[p.1])
    {
      PairChangesAreExact(x, olds[p.0], news[p.1], c);
    }
    UnmatchedAreExact(olds, Indices(olds) - Olds(pairs), c);
    UnmatchedAreExact(news, Indices(news) - News(pairs), c);
  }

  /** The lesson a change is listed under: the new one, or the cancelled one. */
  function Listing(c: Change): Option<Lesson> {
    if c.after.Some? then c.after else c.before
  }

  /** The changes of one lesson in alphabetical order of their names. */
  function Rank(kind: ChangeKind): nat {
    match kind
    case Added => 0
    case Building => 1
    case Cancelled => 2
    case LessonType => 3
    case Room => 4
    case SubjectName => 5
    case Teacher => 6
    case Time => 7
  }

  lemma TextLeByFirst(a: string, b: string)
    requires a != "" && b != "" && a[0] != b[0]
    ensures TextLe(a, b) <==> a[0] < b[0]
  {
  }

  lemma KindsInOrder(a: ChangeKind, b: ChangeKind)
    ensures TextLe(KindText(a), KindText(b)) <==> Rank(a) <= Rank(b)
  {
    if a == b {
      TextLeTotal(KindText(a), KindText(a));
    } else if a in {Teacher, Time} && b in {Teacher, Time} {
      assert KindText(Teacher)[1..] == "eacher" && KindText(Time)[1..] == "ime";
      TextLeByFirst("eacher", "ime");
      TextLeByFirst("ime", "eacher");
    } else {
      assert KindText(a)[0] != KindText(b)[0];
      TextLeByFirst(KindText(a), KindText(b));
    }
  }

  /** The report runs by day and time of the lessons, then by subject, then by kind of change. */
  lemma ReportIsInOrder(x: Rules, olds: seq<Lesson>, news: seq<Lesson>, pairs: seq<(nat, nat)>, i: nat, j: nat)
    requires InRange(olds, news, pairs) && i < j < |Report(x, olds, news, pairs)|
    ensures var a, b := Report(x, olds, news, pairs)[i], Report(x, olds, news, pairs)[j];
            && Listing(a).Some? && Listing(b).Some?
            && var l, m := Listing(a).value, Listing(b).value;
               || l.day < m.day
               || (l.day == m.day && l.startsAt < m.startsAt)
               || (l.day == m.day && l.startsAt == m.startsAt && Subject(x, l) != Subject(x, m) && TextLe(Subject(x, l), Subject(x, m)))
               || (l.day == m.day && l.startsAt == m.startsAt && Subject(x, l) == Subject(x, m) && Rank(a.kind) <= Rank(b.kind))
  {
    var a, b := Report(x, olds, news, pairs)[i], Report(x, olds, news, pairs)[j];
    ReportIsExact(x, olds, news, pairs, a);
    ReportIsExact(x, olds, news, pairs, b);
    assert a in Report(x, olds, news, pairs) && b in Report(x, olds, news, pairs);
    assert ChangeOrder(x)(a, b);
    KindsInOrder(a.kind, b.kind);
  }

  // ---------------------------------------------------------------- an unchanged snapshot

  ghost predicate IdsDistinct(lessons: seq<Lesson>) {
    forall i, j | 0 <= i < j < |lessons| && Identified(lessons[i]) :: lessons[i].sourceId != lessons[j].sourceId
  }

  lemma SameElementsKeepIds(s: seq<Lesson>, t: seq<Lesson>)
    requires multiset(s) == multiset(t) && IdsDistinct(s) && forall l | l in s :: Identified(l)
    ensures IdsDistinct(t) && forall l | l in t :: Identified(l)
  {
    PermutationKeepsDistinct(s, t);
    forall l | l in t ensures l in s && Identified(l) {
      InMultiset(s, t, l);
    }
    forall i, j | 0 <= i < j < |t| ensures t[i].sourceId != t[j].sourceId {
      assert t[i] in s && t[j] in s && t[i] != t[j];
      var a :| 0 <= a < |s| && s[a] == t[i];
      var b :| 0 <= b < |s| && s[b] == t[j];
    }
  }

  function Diagonal(n: nat, free: set<nat>): set<Candidate> {
    set i | i in free && i < n :: Candidate(120.0, 0, i, i)
  }

  lemma DiagonalIsStable(x: Rules, lessons: seq<Lesson>, free: set<nat>)
    requires RulesOk(x) && free <= Indices(lessons)
    ensures Stable(Diagonal(|lessons|, free), CandidateSet(x, lessons, lessons, free, free))
  {
  }

  function IdentifiedIndices(lessons: seq<Lesson>): set<nat> {
    set i: nat | i < |lessons| && Identified(lessons[i])
  }

  lemma SelfSourcePairs(lessons: seq<Lesson>, source: seq<(nat, nat)>)
    requires IdsDistinct(lessons)
    requires forall o: nat, n: nat :: (o, n) in source <==> IsSourcePair(lessons, lessons, o, n)
    ensures forall p | p in source :: p.0 == p.1 < |lessons|
    ensures Olds(source) == IdentifiedIndices(lessons) == News(source)
  {
    forall o: nat, n: nat ensures IsSourcePair(lessons, lessons, o, n) <==> o == n < |lessons| && Identified(lessons[n]) {
    }
    assert forall p | p in source :: (p.0, p.1) in source;
    forall i: nat | i < |lessons| && Identified(lessons[i]) ensures i in Olds(source) && i in News(source) {
      assert (i, i) in source;
    }
  }

  /** With distinct ids, matching a list against itself pairs every lesson with itself, however
      many lessons tie at the top score. */
  lemma SelfMatchingIsIdentity(x: Rules, lessons: seq<Lesson>, source: seq<(nat, nat)>, chosen: seq<Candidate>)
    requires RulesOk(x) && IdsDistinct(lessons)
    requires IsMatching(x, lessons, lessons, source, chosen)
    ensures forall p | p in Pairs(source, chosen) :: p.0 == p.1 < |lessons|
    ensures Olds(Pairs(source, chosen)) == Indices(lessons) == News(Pairs(source, chosen))
  {
    SelfSourcePairs(lessons, source);
    var free := Indices(lessons) - IdentifiedIndices(lessons);
    DiagonalIsStable(x, lessons, free);
    StableIsUnique(Elements(chosen), Diagonal(|lessons|, free), CandidateSet(x, lessons, lessons, free, free));
    assert forall c :: c in chosen <==> c in Diagonal(|lessons|, free) by {
      forall c ensures c in chosen <==> c in Diagonal(|lessons|, free) {
        assert c in chosen <==> c in Elements(chosen);
      }
    }
    PairsCover(source, chosen);
    assert TakenOld(chosen) == free == TakenNew(chosen) by {
      forall i | i in free ensures i in TakenOld(chosen) && i in TakenNew(chosen) {
        assert Candidate(120.0, 0, i, i) in chosen;
      }
    }
  }

  /** Every pair of the matching is reported as unchanged. */
  ghost predicate PairsAgree(x: Rules, olds: seq<Lesson>, news: seq<Lesson>, pairs: seq<(nat, nat)>)
    requires InRange(olds, news, pairs)
  {
    forall p | p in pairs :: SameButDay(x, olds[p.0], news[p.1])
  }

  lemma {:induction false} NoFieldChangesIff(x: Rules, olds: seq<Lesson>, news: seq<Lesson>, pairs: seq<(nat, nat)>)
    requires InRange(olds, news, pairs)
    ensures |FieldChanges(x, olds, news, pairs)| == 0 <==> PairsAgree(x, olds, news, pairs)
  {
    if pairs != [] {
      var p := pairs[|pairs| - 1];
      var init := pairs[..|pairs| - 1];
      NoFieldChangesIff(x, olds, news, init);
      NoPairChanges(x, olds[p.0], news[p.1]);
      assert pairs == init + [p];
      assert PairsAgree(x, olds, news, pairs) <==>
             PairsAgree(x, olds, news, init) && SameButDay(x, olds[p.0], news[p.1]);
    }
  }

  lemma ListedEmptyIff(all: set<nat>, n: nat, taken: set<nat>)
    requires taken <= all && forall i | i in all :: i < n
    ensures |Listed(n, all - taken)| == 0 <==> taken == all
  {
    var left := Listed(n, all - taken);
    if |left| == 0 {
      forall i | i in all ensures i in taken { assert i !in left; }
    } else {
      assert left[0] in left;
    }
  }

  lemma ReportSize(x: Rules, olds: seq<Lesson>, news: seq<Lesson>, pairs: seq<(nat, nat)>)
    requires InRange(olds, news, pairs)
    ensures |Report(x, olds, news, pairs)| ==
              |FieldChanges(x, olds, news, pairs)|
              + |Listed(|olds|, Indices(olds) - Olds(pairs))|
              + |Listed(|news|, Indices(news) - News(pairs))|
  {
    SortKeepsElements(Unsorted(x, olds, news, pairs), ChangeOrder(x));
  }

  /** The diff is silent exactly when the matching leaves nobody out and every pair agrees on
      every compared field. The day is not among the compared fields. */
  lemma SilentIff(x: Rules, olds: seq<Lesson>, news: seq<Lesson>, pairs: seq<(nat, nat)>)
    requires InRange(olds, news, pairs)
    ensures |Report(x, olds, news, pairs)| == 0 <==>
              && Olds(pairs) == Indices(olds) && News(pairs) == Indices(news)
              && PairsAgree(x, olds, news, pairs)
  {
    ReportSize(x, olds, news, pairs);
    NoFieldChangesIff(x, olds, news, pairs);
    ListedEmptyIff(Indices(olds), |olds|, Olds(pairs));
    ListedEmptyIff(Indices(news), |news|, News(pairs));
  }

  lemma SelfAgrees(x: Rules, lesson: Lesson)
    ensures SameButDay(x, lesson, lesson)
  {
  }

  /** Diffing a list of lessons with distinct ids against itself reports nothing. */
  lemma SelfDiffIsSilent(x: Rules, lessons: seq<Lesson>, source: seq<(nat, nat)>, chosen: seq<Candidate>)
    requires RulesOk(x) && IdsDistinct(lessons)
    requires IsMatching(x, lessons, lessons, source, chosen) && InRange(lessons, lessons, Pairs(source, chosen))
    ensures Report(x, lessons, lessons, Pairs(source, chosen)) == []
  {
    SelfMatchingIsIdentity(x, lessons, source, chosen);
    assert PairsAgree(x, lessons, lessons, Pairs(source, chosen)) by {
      forall p | p in Pairs(source, chosen) ensures SameButDay(x, lessons[p.0], lessons[p.1]) {
        SelfAgrees(x, lessons[p.0]);
      }
    }
    SilentIff(x, lessons, lessons, Pairs(source, chosen));
  }

  /** Ids that occur twice are not harmless: the first new lesson with an id is compared with the last
      old one, so an unchanged list reports every field in which these two differ. */
  lemma RepeatedIdReportsItself(x: Rules, lessons: seq<Lesson>, source: seq<(nat, nat)>, chosen: seq<Candidate>,
                                first: nat, last: nat, kind: ChangeKind)
    requires IsMatching(x, lessons, lessons, source, chosen) && InRange(lessons, lessons, Pairs(source, chosen))
    requires first < last < |lessons| && Identified(lessons[first]) && lessons[first].sourceId == lessons[last].sourceId
    requires forall i | 0 <= i < |lessons| && lessons[i].sourceId == lessons[first].sourceId :: first <= i <= last
    requires Differs(x, kind, lessons[last], lessons[first])
    ensures Change(kind, Some(lessons[last]), Some(lessons[first])) in Report(x, lessons, lessons, Pairs(source, chosen))
  {
    assert IsSourcePair(lessons, lessons, last, first);
    PairsCover(source, chosen);
    assert (last, first) in Pairs(source, chosen);
    ReportIsExact(x, lessons, lessons, Pairs(source, chosen), Change(kind, Some(lessons[last]), Some(lessons[first])));
  }

  // ---------------------------------------------------------------- moved days

  /** A silent diff means equal content, day included, exactly when no source id moved to
      another day: scored pairs never cross days, pairs found by id may. */
  lemma SilentKeepsDaysIff(x: Rules, olds: seq<Lesson>, news: seq<Lesson>, source: seq<(nat, nat)>, chosen: seq<Candidate>)
    requires IsMatching(x, olds, news, source, chosen) && InRange(olds, news, Pairs(source, chosen))
    requires Report(x, olds, news, Pairs(source, chosen)) == []
    ensures (forall p | p in Pairs(source, chosen) ::
               SameButDay(x, olds[p.0], news[p.1]) && olds[p.0].day == news[p.1].day) <==>
            (forall o: nat, n: nat | IsSourcePair(olds, news, o, n) :: olds[o].day == news[n].day)
  {
    SilentIff(x, olds, news, Pairs(source, chosen));
    PairsCover(source, chosen);
    forall p | p in Pairs(source, chosen) && p !in source ensures olds[p.0].day == news[p.1].day {
      var c :| c in chosen && p == (c.oldIndex, c.newIndex);
      assert c in Elements(chosen);
      assert IsCandidate(x, olds, news, c);
    }
    forall o: nat, n: nat | IsSourcePair(olds, news, o, n) ensures (o, n) in Pairs(source, chosen) {
      assert (o, n) in source;
    }
    assert forall p | p in source :: (p.0, p.1) in source;
  }

  /** Both lists consist of identified lessons with distinct ids, and hold the same ids. */
  ghost predicate SameIds(olds: seq<Lesson>, news: seq<Lesson>) {
    && IdsDistinct(olds) && IdsDistinct(news)
    && (forall o | 0 <= o < |olds| :: Identified(olds[o]) && exists n | 0 <= n < |news| :: news[n].sourceId == olds[o].sourceId)
    && (forall n | 0 <= n < |news| :: Identified(news[n]) && exists o | 0 <= o < |olds| :: news[n].sourceId == olds[o].sourceId)
  }

  lemma SameIdIsSourcePair(olds: seq<Lesson>, news: seq<Lesson>, o: nat, n: nat)
    requires IdsDistinct(olds) && IdsDistinct(news) && o < |olds| && n < |news|
    requires Identified(olds[o]) && olds[o].sourceId == news[n].sourceId
    ensures IsSourcePair(olds, news, o, n)
  {
  }

  lemma SameIdsArePaired(olds: seq<Lesson>, news: seq<Lesson>, source: seq<(nat, nat)>)
    requires SameIds(olds, news)
    requires forall o: nat, n: nat :: (o, n) in source <==> IsSourcePair(olds, news, o, n)
    ensures Olds(source) == Indices(olds) && News(source) == Indices(news)
  {
    forall o: nat | o < |olds| ensures o in Olds(source) {
      var n: nat :| n < |news| && news[n].sourceId == olds[o].sourceId;
      SameIdIsSourcePair(olds, news, o, n);
      assert (o, n) in source;
    }
    forall n: nat | n < |news| ensures n in News(source) {
      var o: nat :| o < |olds| && news[n].sourceId == olds[o].sourceId;
      SameIdIsSourcePair(olds, news, o, n);
      assert (o, n) in source;
    }
    forall p | p in source ensures p.0 < |olds| && p.1 < |news| {
      assert (p.0, p.1) in source;
    }
  }

  lemma ChosenAreFree(x: Rules, olds: seq<Lesson>, news: seq<Lesson>, source: seq<(nat, nat)>, chosen: seq<Candidate>)
    requires IsMatching(x, olds, news, source, chosen)
    ensures |chosen| > 0 ==> exists o :: o in Indices(olds) - Olds(source)
  {
    if |chosen| > 0 {
      assert chosen[0] in Elements(chosen);
      assert chosen[0].oldIndex in Indices(olds) - Olds(source);
    }
  }

  lemma RelocatedAgrees(x: Rules, before: Lesson, after: Lesson)
    requires after == before.(day := after.day, subgroup := after.subgroup)
    ensures SameButDay(x, before, after)
  {
  }

  /** Lessons that keep their ids and every compared field go unreported, wherever they move: neither
      the day nor the subgroup is compared. */
  lemma RelocatedGoesUnreported(x: Rules, olds: seq<Lesson>, news: seq<Lesson>, source: seq<(nat, nat)>, chosen: seq<Candidate>)
    requires SameIds(olds, news)
    requires forall o, n | 0 <= o < |olds| && 0 <= n < |news| && olds[o].sourceId == news[n].sourceId ::
               news[n] == olds[o].(day := news[n].day, subgroup := news[n].subgroup)
    requires IsMatching(x, olds, news, source, chosen) && InRange(olds, news, Pairs(source, chosen))
    ensures Report(x, olds, news, Pairs(source, chosen)) == []
  {
    SameIdsArePaired(olds, news, source);
    ChosenAreFree(x, olds, news, source, chosen);
    assert Pairs(source, chosen) == source;
    forall p | p in source ensures SameButDay(x, olds[p.0], news[p.1]) {
      assert (p.0, p.1) in source;
      RelocatedAgrees(x, olds[p.0], news[p.1]);
    }
    assert PairsAgree(x, olds, news, source);
    SilentIff(x, olds, news, source);
  }

  // ---------------------------------------------------------------- cancelled and added

  /** Nobody is dropped or invented: every old lesson is matched or cancelled, every new one
      matched or added, and matching is one to one. */
  lemma MatchingIsOneToOne(x: Rules, olds: seq<Lesson>, news: seq<Lesson>, source: seq<(nat, nat)>, chosen: seq<Candidate>)
    requires IsMatching(x, olds, news, source, chosen)
    ensures forall p, q | p in Pairs(source, chosen) && q in Pairs(source, chosen) && (p.0 == q.0 || p.1 == q.1) :: p == q
  {
  }

  /** Of two lessons that score well enough, at least one is matched. */
  lemma GoodScoreIsMatched(x: Rules, olds: seq<Lesson>, news: seq<Lesson>,
                           source: seq<(nat, nat)>, chosen: seq<Candidate>, o: nat, n: nat)
    requires IsMatching(x, olds, news, source, chosen)
    requires o < |olds| && n < |news| && MatchScore(x, olds[o], news[n]).Some?
    requires 70.0 <= MatchScore(x, olds[o], news[n]).value
    ensures o in Olds(Pairs(source, chosen)) || n in News(Pairs(source, chosen))
  {
    PairsCover(source, chosen);
    if o !in Olds(source) && n !in News(source) {
      var c := CandidateAt(x, olds, news, o, n);
      assert c in CandidateSet(x, olds, news, Indices(olds) - Olds(source), Indices(news) - News(source));
      var b :| b in Elements(chosen) && Conflict(b, c);
      assert b in chosen;
    }
  }

  /** One day never shows the same normalized subject both as cancelled and as added. */
  lemma NoSubjectBothCancelledAndAdded(x: Rules, olds: seq<Lesson>, news: seq<Lesson>,
                                       source: seq<(nat, nat)>, chosen: seq<Candidate>, o: nat, n: nat)
    requires RulesOk(x) && IsMatching(x, olds, news, source, chosen)
    requires o in Indices(olds) - Olds(Pairs(source, chosen))
    requires n in Indices(news) - News(Pairs(source, chosen))
    ensures olds[o].day != news[n].day || Subject(x, olds[o]) != Subject(x, news[n])
  {
    assert x.ratio(Subject(x, olds[o]), Subject(x, olds[o])) == 1.0;
    if MatchScore(x, olds[o], news[n]).Some? && 70.0 <= MatchScore(x, olds[o], news[n]).value {
      GoodScoreIsMatched(x, olds, news, source, chosen, o, n);
    }
  }

  // ---------------------------------------------------------------- overlapping envelopes

  datatype Envelope = Envelope(
    group: string, fetchedAt: int, horizonStart: int, horizonEnd: int, lessons: seq<Lesson>, forceDigest: bool)

  function Window(lessons: seq<Lesson>, first: int, last: int): seq<Lesson> {
    if lessons == [] then []
    else (if first <= lessons[0].day <= last then [lessons[0]] else []) + Window(lessons[1..], first, last)
  }

  /** The lessons of the days both envelopes cover, from `today` on. */
  function Shared(lessons: seq<Lesson>, previous: Envelope, current: Envelope, today: int): seq<Lesson> {
    Window(lessons, Max(Max(previous.horizonStart, current.horizonStart), today), Min(previous.horizonEnd, current.horizonEnd))
  }

  lemma {:induction false} WindowKeeps(lessons: seq<Lesson>, first: int, last: int, l: Lesson)
    ensures multiset(Window(lessons, first, last))[l] == if first <= l.day <= last then multiset(lessons)[l] else 0
  {
    if lessons != [] {
      WindowKeeps(lessons[1..], first, last, l);
      assert lessons == [lessons[0]] + lessons[1..];
    }
  }

  /** Exactly the lessons from today on, of the days within both horizons, are compared, each as often
      as it occurs. */
  lemma SharedKeeps(lessons: seq<Lesson>, previous: Envelope, current: Envelope, today: int, l: Lesson)
    ensures multiset(Shared(lessons, previous, current, today))[l] ==
              if today <= l.day
                 && previous.horizonStart <= l.day <= previous.horizonEnd
                 && current.horizonStart <= l.day <= current.horizonEnd
              then multiset(lessons)[l] else 0
  {
    WindowKeeps(lessons, Max(Max(previous.horizonStart, current.horizonStart), today), Min(previous.horizonEnd, current.horizonEnd), l);
  }

  /** The two envelopes hold the same lessons from today on in the days both cover. */
  predicate AgreeOnWindow(previous: Envelope, current: Envelope, today: int) {
    Shared(previous.lessons, previous, current, today) == Shared(current.lessons, previous, current, today)
  }

  /** What comparing two envelopes from `today` on may answer. */
  ghost predicate IsOverlapReport(x: Rules, previous: Envelope, current: Envelope, today: int, changes: seq<Change>) {
    var first := Max(Max(previous.horizonStart, current.horizonStart), today);
    var last := Min(previous.horizonEnd, current.horizonEnd);
    var olds, news := Shared(previous.lessons, previous, current, today), Shared(current.lessons, previous, current, today);
    if last < first then changes == []
    else exists source, chosen ::
      && IsMatching(x, olds, news, source, chosen)
      && InRange(olds, news, Pairs(source, chosen))
      && changes == Report(x, olds, news, Pairs(source, chosen))
  }

  /** Envelopes that agree on the days both cover report no change, whatever lies outside, ids that
      occur twice there included. */
  lemma AgreeingEnvelopesReportNothing(x: Rules, previous: Envelope, current: Envelope, today: int, changes: seq<Change>)
    requires RulesOk(x) && IdsDistinct(Shared(current.lessons, previous, current, today))
    requires AgreeOnWindow(previous, current, today)
    requires IsOverlapReport(x, previous, current, today, changes)
    ensures changes == []
  {
    if changes != [] {
      var news := Shared(current.lessons, previous, current, today);
      var source, chosen :| IsMatching(x, news, news, source, chosen) && InRange(news, news, Pairs(source, chosen))
                            && changes == Report(x, news, news, Pairs(source, chosen));
      SelfDiffIsSilent(x, news, source, chosen);
    }
  }

  method OverlappingChanges(x: Rules, previous: Option<Envelope>, current: Envelope, today: int)
    returns (changes: seq<Change>)
    ensures previous.None? ==> changes == []
    ensures previous.Some? ==> IsOverlapReport(x, previous.value, current, today, changes)
  {
    if previous.None? {
      return [];
    }
    var first := Max(Max(previous.value.horizonStart, current.horizonStart), today);
    var last := Min(previous.value.horizonEnd, current.horizonEnd);
    if last < first {
      return [];
    }
    var olds, news := Window(previous.value.lessons, first, last), Window(current.lessons, first, last);
    var r, source, chosen := DiffSchedules(x, Snapshot("spbgasu", current.group, previous.value.fetchedAt, olds),
                                           Snapshot("spbgasu", current.group, current.fetchedAt, news));
    changes := r.value;
  }
}
