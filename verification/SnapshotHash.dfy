/** The canonical content of a lesson list, its hash, and when a stored list survives reloading. */
module SnapshotHash {
  import opened Wrappers
  import opened Ordering
  import opened Schedule

  datatype Canon = Canon(
    day: int, startsAt: nat, endsAt: nat, subject: string, lessonType: string, teacher: string,
    room: string, building: string, subgroup: string, sourceId: Option<string>)

  /** SHA-256 of the JSON forms, treated as injective. */
  datatype Hashes = Hashes(lesson: Canon -> string, content: seq<Canon> -> string)

  ghost predicate HashesOk(h: Hashes) {
    && (forall a, b :: h.lesson(a) == h.lesson(b) ==> a == b)
    && (forall a, b :: h.content(a) == h.content(b) ==> a == b)
  }

  function Canonical(x: Rules, l: Lesson): Canon {
    Canon(l.day, l.startsAt, l.endsAt, Subject(x, l), x.text(l.lessonType), x.teacher(l.teacher),
          x.text(l.room), x.text(l.building), x.text(l.subgroup), l.sourceId)
  }

  function LessonKey(x: Rules, h: Hashes, l: Lesson): string {
    h.lesson(Canonical(x, l))
  }

  function SortKey(x: Rules, l: Lesson): Key {
    Key(l.day, l.startsAt, Subject(x, l), if l.sourceId.Some? then l.sourceId.value else "")
  }

  function BySortKey(x: Rules): (Lesson, Lesson) -> bool {
    (a, b) => KeyLe(SortKey(x, a), SortKey(x, b))
  }

  /** The order in which the rows of a snapshot are read back. */
  function StoredKey(x: Rules, h: Hashes, l: Lesson): Key {
    Key(l.day, l.startsAt, LessonKey(x, h, l), "")
  }

  function ByStoredKey(x: Rules, h: Hashes): (Lesson, Lesson) -> bool {
    (a, b) => KeyLe(StoredKey(x, h, a), StoredKey(x, h, b))
  }

  function CanonicalList(x: Rules, lessons: seq<Lesson>): (r: seq<Canon>)
  {
    var sorted := Sort(lessons, BySortKey(x));
    seq(|sorted|, i requires 0 <= i < |sorted| => Canonical(x, sorted[i]))
  }

  function ContentHash(x: Rules, h: Hashes, lessons: seq<Lesson>): string {
    h.content(CanonicalList(x, lessons))
  }

  function Reloaded(x: Rules, h: Hashes, lessons: seq<Lesson>): seq<Lesson> {
    Sort(lessons, ByStoredKey(x, h))
  }

  predicate KeysDistinct(x: Rules, h: Hashes, lessons: seq<Lesson>) {
    forall i, j | 0 <= i < j < |lessons| :: LessonKey(x, h, lessons[i]) != LessonKey(x, h, lessons[j])
  }

  // ---------------------------------------------------------------- order independence

  lemma BySortKeyIsTotal(x: Rules)
    ensures TotalPreorder(BySortKey(x))
  {
    KeyLeIsTotalOrder();
  }

  lemma ByStoredKeyIsTotal(x: Rules, h: Hashes)
    ensures TotalPreorder(ByStoredKey(x, h))
  {
    KeyLeIsTotalOrder();
  }

  ghost predicate SortKeysDistinct(x: Rules, lessons: seq<Lesson>) {
    forall i, j | 0 <= i < j < |lessons| :: SortKey(x, lessons[i]) != SortKey(x, lessons[j])
  }

  /** With pairwise distinct sort keys the content does not depend on the order of the lessons. */
  lemma ContentIgnoresOrder(x: Rules, a: seq<Lesson>, b: seq<Lesson>)
    requires multiset(a) == multiset(b) && SortKeysDistinct(x, a)
    ensures CanonicalList(x, a) == CanonicalList(x, b)
  {
    var le := BySortKey(x);
    BySortKeyIsTotal(x);
    SortOrders(a, le);
    SortOrders(b, le);
    SortKeepsElements(a, le);
    SortKeepsElements(b, le);
    KeyLeIsTotalOrder();
    forall p, q | p in Sort(a, le) && q in Sort(a, le) && le(p, q) && le(q, p) ensures p == q {
      InMultiset(Sort(a, le), a, p);
      InMultiset(Sort(a, le), a, q);
      var i :| 0 <= i < |a| && a[i] == p;
      var j :| 0 <= j < |a| && a[j] == q;
    }
    SortedIsUnique(Sort(a, le), Sort(b, le), le);
  }

  /** Two lessons have the same content when they agree in everything but the spelling of their texts. */
  lemma SameContentIff(x: Rules, h: Hashes, a: Lesson, b: Lesson)
    requires HashesOk(h)
    ensures LessonKey(x, h, a) == LessonKey(x, h, b) <==>
              && a.day == b.day && a.startsAt == b.startsAt && a.endsAt == b.endsAt && a.sourceId == b.sourceId
              && x.text(Some(a.subject)) == x.text(Some(b.subject))
              && x.text(a.lessonType) == x.text(b.lessonType) && x.teacher(a.teacher) == x.teacher(b.teacher)
              && x.text(a.room) == x.text(b.room) && x.text(a.building) == x.text(b.building)
              && x.text(a.subgroup) == x.text(b.subgroup)
  {
  }

  /** The content lists each lesson's canonical form, by day, time, subject and source id. */
  lemma ContentIsInOrder(x: Rules, lessons: seq<Lesson>, i: nat, j: nat)
    requires i < j < |CanonicalList(x, lessons)|
    ensures |CanonicalList(x, lessons)| == |lessons|
    ensures exists l :: l in lessons && Canonical(x, l) == CanonicalList(x, lessons)[i]
    ensures var a, b := CanonicalList(x, lessons)[i], CanonicalList(x, lessons)[j];
            var s, t := if a.sourceId.Some? then a.sourceId.value else "", if b.sourceId.Some? then b.sourceId.value else "";
            || a.day < b.day
            || (a.day == b.day && a.startsAt < b.startsAt)
            || (a.day == b.day && a.startsAt == b.startsAt && a.subject != b.subject && TextLe(a.subject, b.subject))
            || (a.day == b.day && a.startsAt == b.startsAt && a.subject == b.subject && TextLe(s, t))
  {
    var sorted := Sort(lessons, BySortKey(x));
    BySortKeyIsTotal(x);
    SortOrders(lessons, BySortKey(x));
    SortKeepsElements(lessons, BySortKey(x));
    assert BySortKey(x)(sorted[i], sorted[j]);
    assert sorted[i] in sorted;
    InMultiset(sorted, lessons, sorted[i]);
  }

  /** Stored lessons come back by day and time, and by their hashes among those of one time. */
  lemma RowsComeBackInOrder(x: Rules, h: Hashes, lessons: seq<Lesson>, i: nat, j: nat)
    requires i < j < |Reloaded(x, h, lessons)|
    ensures multiset(Reloaded(x, h, lessons)) == multiset(lessons)
    ensures var a, b := Reloaded(x, h, lessons)[i], Reloaded(x, h, lessons)[j];
            || a.day < b.day
            || (a.day == b.day && a.startsAt < b.startsAt)
            || (a.day == b.day && a.startsAt == b.startsAt && TextLe(LessonKey(x, h, a), LessonKey(x, h, b)))
  {
    ByStoredKeyIsTotal(x, h);
    SortOrders(lessons, ByStoredKey(x, h));
    SortKeepsElements(lessons, ByStoredKey(x, h));
    assert ByStoredKey(x, h)(Reloaded(x, h, lessons)[i], Reloaded(x, h, lessons)[j]);
    TextLeTotal(LessonKey(x, h, Reloaded(x, h, lessons)[i]), LessonKey(x, h, Reloaded(x, h, lessons)[j]));
  }

  // ---------------------------------------------------------------- stability

  /** `le` first, then `tie` among elements that compare equal. */
  function Then<T>(le: (T, T) -> bool, tie: (T, T) -> bool): (T, T) -> bool {
    (a, b) => le(a, b) && (le(b, a) ==> tie(a, b))
  }

  ghost predicate TiesOrdered<T>(s: seq<T>, le: (T, T) -> bool, tie: (T, T) -> bool) {
    forall i, j | 0 <= i < j < |s| && le(s[i], s[j]) && le(s[j], s[i]) :: tie(s[i], s[j])
  }

  lemma {:induction false} InsertIsStable<T(!new)>(e: T, s: seq<T>, le: (T, T) -> bool, tie: (T, T) -> bool)
    requires TotalPreorder(le) && SortedBy(s, Then(le, tie))
    requires forall d | d in s && le(e, d) && le(d, e) :: tie(e, d)
    ensures SortedBy(Insert(e, s, le), Then(le, tie))
  {
    var r := Insert(e, s, le);
    if s == [] {
    } else if le(e, s[0]) {
      forall j | 0 <= j < |s| ensures Then(le, tie)(e, s[j]) {
        assert s[j] in s;
        assert j > 0 ==> Then(le, tie)(s[0], s[j]);
      }
      assert r == [e] + s;
    } else {
      InsertIsStable(e, s[1..], le, tie);
      InsertKeepsElements(e, s[1..], le);
      var rest := Insert(e, s[1..], le);
      forall j | 0 <= j < |rest| ensures Then(le, tie)(s[0], rest[j]) {
        assert rest[j] in multiset(rest);
        if rest[j] != e {
          assert rest[j] in s[1..];
        }
      }
      assert r == [s[0]] + rest;
    }
  }

  /** Whatever order ties have before sorting, they keep. */
  lemma {:induction false} SortIsStable<T(!new)>(s: seq<T>, le: (T, T) -> bool, tie: (T, T) -> bool)
    requires TotalPreorder(le) && TiesOrdered(s, le, tie)
    ensures SortedBy(Sort(s, le), Then(le, tie))
  {
    if s != [] {
      SortIsStable(s[1..], le, tie);
      SortKeepsElements(s[1..], le);
      forall d | d in Sort(s[1..], le) && le(s[0], d) && le(d, s[0]) ensures tie(s[0], d) {
        InMultiset(Sort(s[1..], le), s[1..], d);
        var j :| 0 <= j < |s| - 1 && s[1..][j] == d;
        assert s[j + 1] == d;
      }
      InsertIsStable(s[0], Sort(s[1..], le), le, tie);
    }
  }

  // ---------------------------------------------------------------- surviving a reload

  function ByLessonKey(x: Rules, h: Hashes): (Lesson, Lesson) -> bool {
    (a, b) => TextLe(LessonKey(x, h, a), LessonKey(x, h, b))
  }

  /** Lessons with equal sort keys stand in increasing lesson-key order. */
  ghost predicate TiesInKeyOrder(x: Rules, h: Hashes, lessons: seq<Lesson>) {
    forall i, j | 0 <= i < j < |lessons| && SortKey(x, lessons[i]) == SortKey(x, lessons[j]) ::
      TextLe(LessonKey(x, h, lessons[i]), LessonKey(x, h, lessons[j]))
  }

  lemma TiesInKeyOrderMeans(x: Rules, h: Hashes, lessons: seq<Lesson>)
    ensures TiesInKeyOrder(x, h, lessons) <==> TiesOrdered(lessons, BySortKey(x), ByLessonKey(x, h))
  {
    KeyLeIsTotalOrder();
    assert forall a, b :: BySortKey(x)(a, b) && BySortKey(x)(b, a) <==> SortKey(x, a) == SortKey(x, b);
  }

  /** A reloaded list always has its ties in key order. */
  lemma ReloadOrdersTies(x: Rules, h: Hashes, lessons: seq<Lesson>)
    ensures TiesInKeyOrder(x, h, Reloaded(x, h, lessons))
  {
    ByStoredKeyIsTotal(x, h);
    SortOrders(lessons, ByStoredKey(x, h));
    var r := Reloaded(x, h, lessons);
    forall i, j | 0 <= i < j < |r| && SortKey(x, r[i]) == SortKey(x, r[j])
      ensures TextLe(LessonKey(x, h, r[i]), LessonKey(x, h, r[j]))
    {
      assert ByStoredKey(x, h)(r[i], r[j]);
      if LessonKey(x, h, r[i]) == LessonKey(x, h, r[j]) {
        TextLeTotal(LessonKey(x, h, r[i]), LessonKey(x, h, r[j]));
      }
    }
  }

  lemma SortedByBoth(x: Rules, h: Hashes, lessons: seq<Lesson>)
    requires TiesInKeyOrder(x, h, lessons)
    ensures SortedBy(Sort(lessons, BySortKey(x)), Then(BySortKey(x), ByLessonKey(x, h)))
  {
    TiesInKeyOrderMeans(x, h, lessons);
    BySortKeyIsTotal(x);
    SortIsStable(lessons, BySortKey(x), ByLessonKey(x, h));
  }

  lemma SameKeySameLesson(x: Rules, h: Hashes, lessons: seq<Lesson>, a: Lesson, b: Lesson)
    requires KeysDistinct(x, h, lessons) && a in lessons && b in lessons
    requires LessonKey(x, h, a) == LessonKey(x, h, b)
    ensures a == b
  {
  }

  lemma OrderedTiesSurvive(x: Rules, h: Hashes, lessons: seq<Lesson>)
    requires KeysDistinct(x, h, lessons) && TiesInKeyOrder(x, h, lessons)
    ensures CanonicalList(x, Reloaded(x, h, lessons)) == CanonicalList(x, lessons)
  {
    var back := Reloaded(x, h, lessons);
    var le := BySortKey(x);
    var both := Then(le, ByLessonKey(x, h));
    SortKeepsElements(lessons, ByStoredKey(x, h));
    SortKeepsElements(lessons, le);
    SortKeepsElements(back, le);
    ReloadOrdersTies(x, h, lessons);
    SortedByBoth(x, h, lessons);
    SortedByBoth(x, h, back);
    KeyLeIsTotalOrder();
    forall a, b | a in Sort(lessons, le) && b in Sort(lessons, le) && both(a, b) && both(b, a) ensures a == b {
      InMultiset(Sort(lessons, le), lessons, a);
      InMultiset(Sort(lessons, le), lessons, b);
      TextLeAntisymmetric(LessonKey(x, h, a), LessonKey(x, h, b));
      SameKeySameLesson(x, h, lessons, a, b);
    }
    SortedIsUnique(Sort(lessons, le), Sort(back, le), both);
  }

  function IndexOf<T(==)>(s: seq<T>, e: T): nat {
    if s == [] || s[0] == e then 0 else 1 + IndexOf(s[1..], e)
  }

  lemma {:induction false} IndexOfAt<T>(s: seq<T>, k: nat)
    requires k < |s| && forall i | 0 <= i < k :: s[i] != s[k]
    ensures IndexOf(s, s[k]) == k
  {
    if k > 0 {
      IndexOfAt(s[1..], k - 1);
    }
  }

  /** Equal contents force the sorted original to have its ties in key order as well. */
  lemma SortedSurvivor(x: Rules, h: Hashes, lessons: seq<Lesson>)
    requires CanonicalList(x, Reloaded(x, h, lessons)) == CanonicalList(x, lessons)
    ensures TiesInKeyOrder(x, h, Sort(lessons, BySortKey(x)))
  {
    var le := BySortKey(x);
    var back := Reloaded(x, h, lessons);
    var s, r := Sort(lessons, le), Sort(back, le);
    assert |s| == |CanonicalList(x, lessons)| == |r|;
    ReloadOrdersTies(x, h, lessons);
    SortedByBoth(x, h, back);
    KeyLeIsTotalOrder();
    forall p, q | 0 <= p < q < |s| && SortKey(x, s[p]) == SortKey(x, s[q])
      ensures TextLe(LessonKey(x, h, s[p]), LessonKey(x, h, s[q]))
    {
      SameCanonical(x, lessons, back, p);
      SameCanonical(x, lessons, back, q);
      assert Then(le, ByLessonKey(x, h))(r[p], r[q]);
    }
  }

  lemma SameCanonical(x: Rules, a: seq<Lesson>, b: seq<Lesson>, k: nat)
    requires CanonicalList(x, a) == CanonicalList(x, b) && k < |Sort(a, BySortKey(x))|
    ensures k < |Sort(b, BySortKey(x))|
    ensures Canonical(x, Sort(a, BySortKey(x))[k]) == Canonical(x, Sort(b, BySortKey(x))[k])
  {
    assert |CanonicalList(x, a)| == |CanonicalList(x, b)|;
    assert CanonicalList(x, a)[k] == CanonicalList(x, b)[k];
  }

  function ByIndex(lessons: seq<Lesson>): (Lesson, Lesson) -> bool {
    (a, b) => IndexOf(lessons, a) <= IndexOf(lessons, b)
  }

  lemma SortedByIndex(x: Rules, lessons: seq<Lesson>)
    requires forall a, b | 0 <= a < b < |lessons| :: lessons[a] != lessons[b]
    ensures SortedBy(Sort(lessons, BySortKey(x)), Then(BySortKey(x), ByIndex(lessons)))
  {
    forall k | 0 <= k < |lessons| ensures IndexOf(lessons, lessons[k]) == k { IndexOfAt(lessons, k); }
    BySortKeyIsTotal(x);
    SortIsStable(lessons, BySortKey(x), ByIndex(lessons));
  }

  lemma SortedPosition(lessons: seq<Lesson>, le: (Lesson, Lesson) -> bool, e: Lesson) returns (p: nat)
    requires e in lessons
    ensures p < |Sort(lessons, le)| && Sort(lessons, le)[p] == e
  {
    SortKeepsElements(lessons, le);
    InMultiset(Sort(lessons, le), lessons, e);
    p :| p < |Sort(lessons, le)| && Sort(lessons, le)[p] == e;
  }

  /** Sorting keeps two tied lessons in their original order. */
  lemma TiesKeepTheirOrder(x: Rules, lessons: seq<Lesson>, i: nat, j: nat) returns (p: nat, q: nat)
    requires forall a, b | 0 <= a < b < |lessons| :: lessons[a] != lessons[b]
    requires i < j < |lessons| && SortKey(x, lessons[i]) == SortKey(x, lessons[j])
    ensures p < q < |Sort(lessons, BySortKey(x))|
    ensures Sort(lessons, BySortKey(x))[p] == lessons[i] && Sort(lessons, BySortKey(x))[q] == lessons[j]
  {
    p := SortedPosition(lessons, BySortKey(x), lessons[i]);
    q := SortedPosition(lessons, BySortKey(x), lessons[j]);
    SortedByIndex(x, lessons);
    BySortKeyIsTotal(x);
    assert BySortKey(x)(lessons[i], lessons[j]);
    IndexOfAt(lessons, i);
    IndexOfAt(lessons, j);
    assert !Then(BySortKey(x), ByIndex(lessons))(lessons[j], lessons[i]);
  }

  lemma SurvivorsHaveOrderedTies(x: Rules, h: Hashes, lessons: seq<Lesson>)
    requires KeysDistinct(x, h, lessons)
    requires CanonicalList(x, Reloaded(x, h, lessons)) == CanonicalList(x, lessons)
    ensures TiesInKeyOrder(x, h, lessons)
  {
    SortedSurvivor(x, h, lessons);
    forall i, j | 0 <= i < j < |lessons| && SortKey(x, lessons[i]) == SortKey(x, lessons[j])
      ensures TextLe(LessonKey(x, h, lessons[i]), LessonKey(x, h, lessons[j]))
    {
      var p, q := TiesKeepTheirOrder(x, lessons, i, j);
    }
  }

  /** A stored list passes its hash check after reloading exactly when the lessons that tie on
      the sort key were stored in increasing lesson-key order. */
  lemma ReloadPassesIff(x: Rules, h: Hashes, lessons: seq<Lesson>)
    requires HashesOk(h) && KeysDistinct(x, h, lessons)
    ensures ContentHash(x, h, Reloaded(x, h, lessons)) == ContentHash(x, h, lessons) <==>
              TiesInKeyOrder(x, h, lessons)
  {
    if TiesInKeyOrder(x, h, lessons) {
      OrderedTiesSurvive(x, h, lessons);
    } else if ContentHash(x, h, Reloaded(x, h, lessons)) == ContentHash(x, h, lessons) {
      SurvivorsHaveOrderedTies(x, h, lessons);
    }
  }

  /** So the hash check can fail: of two different lessons that tie on the sort key, one of the
      two orders cannot be read back. */
  lemma TiedPairFailsInOneOrder(x: Rules, h: Hashes, a: Lesson, b: Lesson)
    requires HashesOk(h)
    requires SortKey(x, a) == SortKey(x, b) && LessonKey(x, h, a) != LessonKey(x, h, b)
    ensures exists s | s == [a, b] || s == [b, a] :: ContentHash(x, h, Reloaded(x, h, s)) != ContentHash(x, h, s)
  {
    ReloadPassesIff(x, h, [a, b]);
    ReloadPassesIff(x, h, [b, a]);
    var s := if TextLe(LessonKey(x, h, a), LessonKey(x, h, b)) then [b, a] else [a, b];
    TextLeTotal(LessonKey(x, h, a), LessonKey(x, h, b));
    assert !TextLe(LessonKey(x, h, s[0]), LessonKey(x, h, s[1])) by {
      if TextLe(LessonKey(x, h, b), LessonKey(x, h, a)) && TextLe(LessonKey(x, h, a), LessonKey(x, h, b)) {
        TextLeAntisymmetric(LessonKey(x, h, a), LessonKey(x, h, b));
      }
    }
    assert !TiesInKeyOrder(x, h, s);
  }
}
