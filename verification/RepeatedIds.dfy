/** Comparing a list with itself when source ids occur more than once. */
module RepeatedIds {
  import opened Schedule
  import opened Matching
  import D = ScheduleDiff

  /** Everything the score looks at. */
  function Slot(x: Rules, l: Lesson): (int, string, nat, string, string) {
    (l.day, Subject(x, l), l.startsAt, x.text(l.subgroup), x.text(l.lessonType))
  }

  predicate Tie(x: Rules, a: Lesson, b: Lesson) {
    Slot(x, a) == Slot(x, b)
  }

  /** Lessons that share an id look alike to the score. */
  predicate CopiesTie(x: Rules, lessons: seq<Lesson>) {
    forall i, j | 0 <= i < |lessons| && 0 <= j < |lessons| && Identified(lessons[i]) && lessons[i].sourceId == lessons[j].sourceId ::
      Tie(x, lessons[i], lessons[j])
  }

  /** Lessons that look alike to the score agree in every compared field. */
  ghost predicate TiesAgree(x: Rules, lessons: seq<Lesson>) {
    forall i, j | 0 <= i < |lessons| && 0 <= j < |lessons| && Tie(x, lessons[i], lessons[j]) ::
      D.SameButDay(x, lessons[i], lessons[j])
  }

  lemma TieIsTop(x: Rules, lessons: seq<Lesson>, o: nat, n: nat)
    requires RulesOk(x) && o < |lessons| && n < |lessons| && Tie(x, lessons[o], lessons[n])
    ensures IsCandidate(x, lessons, lessons, Candidate(120.0, 0, o, n))
  {
    assert x.ratio(Subject(x, lessons[o]), Subject(x, lessons[n])) == 1.0;
  }

  lemma TopIsTie(x: Rules, lessons: seq<Lesson>, b: Candidate, c: Candidate)
    requires RulesOk(x) && IsCandidate(x, lessons, lessons, b) && Above(b, c) && c.score == 120.0
    ensures Tie(x, lessons[b.oldIndex], lessons[b.newIndex])
  {
    assert 0.0 <= x.ratio(Subject(x, lessons[b.oldIndex]), Subject(x, lessons[b.newIndex])) <= 1.0;
  }

  function Class(x: Rules, lessons: seq<Lesson>, i: nat): set<nat>
    requires i < |lessons|
  {
    set j: nat {:trigger lessons[j]} | j < |lessons| && Tie(x, lessons[j], lessons[i])
  }

  // ---------------------------------------------------------------- counting

  function OldsOf(m: set<Candidate>): set<nat> {
    set c | c in m :: c.oldIndex
  }

  function NewsOf(m: set<Candidate>): set<nat> {
    set c | c in m :: c.newIndex
  }

  ghost predicate ConflictFree(m: set<Candidate>) {
    forall a, b | a in m && b in m && Conflict(a, b) :: a == b
  }

  lemma WithoutOne(m: set<Candidate>, c: Candidate)
    requires ConflictFree(m) && c in m
    ensures OldsOf(m) == OldsOf(m - {c}) + {c.oldIndex} && c.oldIndex !in OldsOf(m - {c})
    ensures NewsOf(m) == NewsOf(m - {c}) + {c.newIndex} && c.newIndex !in NewsOf(m - {c})
  {
    assert forall d | d in m - {c} :: !Conflict(c, d);
  }

  /** A one-to-one pairing covers as many on either side. */
  lemma {:induction false} PairsBalance(m: set<Candidate>)
    requires ConflictFree(m)
    ensures |OldsOf(m)| == |NewsOf(m)| == |m|
  {
    if m == {} {
      assert OldsOf(m) == {} && NewsOf(m) == {};
    } else {
      var c :| c in m;
      PairsBalance(m - {c});
      WithoutOne(m, c);
    }
  }

  lemma SizeOfRest(all: set<nat>, taken: set<nat>, cls: set<nat>)
    requires cls <= all
    ensures |(all - taken) * cls| == |cls| - |taken * cls|
  {
    assert cls == (all - taken) * cls + taken * cls;
  }

  lemma SmallerIsPart(part: set<nat>, whole: set<nat>)
    requires part <= whole
    ensures |part| <= |whole| && (|part| == |whole| ==> part == whole)
  {
    assert whole == part + (whole - part);
  }

  /** Parts of equal size of sets of equal size, at least one of which leaves nobody out. */
  lemma EqualParts(a: set<nat>, all: set<nat>, b: set<nat>, every: set<nat>)
    requires a <= all && b <= every && |a| == |b| && |all| == |every|
    requires forall o, n | o in all && n in every :: o in a || n in b
    ensures a == all && b == every
  {
    SmallerIsPart(a, all);
    SmallerIsPart(b, every);
    assert a == all || b == every;
  }

  function FreeOld(x: Rules, lessons: seq<Lesson>, source: seq<(nat, nat)>, i: nat): set<nat>
    requires i < |lessons|
  {
    (Indices(lessons) - Olds(source)) * Class(x, lessons, i)
  }

  function FreeNew(x: Rules, lessons: seq<Lesson>, source: seq<(nat, nat)>, i: nat): set<nat>
    requires i < |lessons|
  {
    (Indices(lessons) - News(source)) * Class(x, lessons, i)
  }

  /** The pairs found by id, inside a class. */
  function SourceInside(source: seq<(nat, nat)>, cls: set<nat>): set<Candidate> {
    set p | p in source && p.0 in cls :: Candidate(0.0, 0, p.0, p.1)
  }

  lemma SourceStaysInside(x: Rules, lessons: seq<Lesson>, source: seq<(nat, nat)>, i: nat, p: (nat, nat))
    requires i < |lessons| && CopiesTie(x, lessons) && p in source
    requires forall o: nat, n: nat :: (o, n) in source <==> IsSourcePair(lessons, lessons, o, n)
    ensures IsSourcePair(lessons, lessons, p.0, p.1)
    ensures p.0 in Class(x, lessons, i) <==> p.1 in Class(x, lessons, i)
  {
    assert (p.0, p.1) in source;
    assert Tie(x, lessons[p.0], lessons[p.1]);
  }

  lemma SourceBalances(x: Rules, lessons: seq<Lesson>, source: seq<(nat, nat)>, i: nat)
    requires i < |lessons| && CopiesTie(x, lessons)
    requires forall o: nat, n: nat :: (o, n) in source <==> IsSourcePair(lessons, lessons, o, n)
    ensures |FreeOld(x, lessons, source, i)| == |FreeNew(x, lessons, source, i)|
  {
    var cls := Class(x, lessons, i);
    var m := SourceInside(source, cls);
    forall p | p in source ensures IsSourcePair(lessons, lessons, p.0, p.1) && (p.0 in cls <==> p.1 in cls) {
      SourceStaysInside(x, lessons, source, i, p);
    }
    assert forall p | p in source && p.0 in cls :: Candidate(0.0, 0, p.0, p.1) in m;
    assert OldsOf(m) == Olds(source) * cls;
    assert NewsOf(m) == News(source) * cls;
    PairsBalance(m);
    SizeOfRest(Indices(lessons), Olds(source), cls);
    SizeOfRest(Indices(lessons), News(source), cls);
  }

  /** The chosen candidates inside a class. */
  function Inside(chosen: seq<Candidate>, cls: set<nat>): set<Candidate> {
    set c | c in chosen && c.oldIndex in cls && c.newIndex in cls
  }

  lemma InsideIsFree(x: Rules, lessons: seq<Lesson>, source: seq<(nat, nat)>, chosen: seq<Candidate>, i: nat)
    requires IsMatching(x, lessons, lessons, source, chosen) && i < |lessons|
    ensures ConflictFree(Inside(chosen, Class(x, lessons, i)))
    ensures OldsOf(Inside(chosen, Class(x, lessons, i))) <= FreeOld(x, lessons, source, i)
    ensures NewsOf(Inside(chosen, Class(x, lessons, i))) <= FreeNew(x, lessons, source, i)
  {
    forall c | c in Inside(chosen, Class(x, lessons, i)) ensures c in Elements(chosen) {
    }
  }

  // ---------------------------------------------------------------- everyone finds a lookalike

  /** Two free lessons of a class cannot both stay without a partner in it. */
  lemma NobodyLeft(x: Rules, lessons: seq<Lesson>, source: seq<(nat, nat)>, chosen: seq<Candidate>, i: nat, o: nat, n: nat)
    requires RulesOk(x) && IsMatching(x, lessons, lessons, source, chosen) && i < |lessons|
    requires o in FreeOld(x, lessons, source, i) && n in FreeNew(x, lessons, source, i)
    ensures o in OldsOf(Inside(chosen, Class(x, lessons, i))) || n in NewsOf(Inside(chosen, Class(x, lessons, i)))
  {
    var c := Candidate(120.0, 0, o, n);
    var m := Inside(chosen, Class(x, lessons, i));
    TieIsTop(x, lessons, o, n);
    if c in Elements(chosen) {
      assert c in m;
    } else {
      var b :| b in Elements(chosen) && Conflict(b, c) && Above(b, c);
      TopIsTie(x, lessons, b, c);
      assert b in m;
    }
  }

  /** Every free lesson of a class is matched inside it. */
  lemma ClassIsMatched(x: Rules, lessons: seq<Lesson>, source: seq<(nat, nat)>, chosen: seq<Candidate>, i: nat)
    requires RulesOk(x) && IsMatching(x, lessons, lessons, source, chosen) && CopiesTie(x, lessons) && i < |lessons|
    ensures OldsOf(Inside(chosen, Class(x, lessons, i))) == FreeOld(x, lessons, source, i)
    ensures NewsOf(Inside(chosen, Class(x, lessons, i))) == FreeNew(x, lessons, source, i)
  {
    var m := Inside(chosen, Class(x, lessons, i));
    var olds, news := FreeOld(x, lessons, source, i), FreeNew(x, lessons, source, i);
    SourceBalances(x, lessons, source, i);
    InsideIsFree(x, lessons, source, chosen, i);
    PairsBalance(m);
    forall o, n | o in olds && n in news ensures o in OldsOf(m) || n in NewsOf(m) {
      NobodyLeft(x, lessons, source, chosen, i, o, n);
    }
    EqualParts(OldsOf(m), olds, NewsOf(m), news);
  }

  lemma ChosenTie(x: Rules, lessons: seq<Lesson>, source: seq<(nat, nat)>, chosen: seq<Candidate>, c: Candidate)
    requires RulesOk(x) && IsMatching(x, lessons, lessons, source, chosen) && CopiesTie(x, lessons) && c in Elements(chosen)
    ensures c.oldIndex < |lessons| && c.newIndex < |lessons| && Tie(x, lessons[c.oldIndex], lessons[c.newIndex])
  {
    assert IsCandidate(x, lessons, lessons, c) && c.oldIndex in FreeOld(x, lessons, source, c.oldIndex);
    ClassIsMatched(x, lessons, source, chosen, c.oldIndex);
    var d :| d in Inside(chosen, Class(x, lessons, c.oldIndex)) && d.oldIndex == c.oldIndex;
    assert d in Elements(chosen) && Conflict(c, d);
  }

  lemma PairsTie(x: Rules, lessons: seq<Lesson>, source: seq<(nat, nat)>, chosen: seq<Candidate>, p: (nat, nat))
    requires RulesOk(x) && IsMatching(x, lessons, lessons, source, chosen) && CopiesTie(x, lessons)
    requires p in Pairs(source, chosen)
    ensures p.0 < |lessons| && p.1 < |lessons| && Tie(x, lessons[p.0], lessons[p.1])
  {
    PairsCover(source, chosen);
    if p in source {
      SourceStaysInside(x, lessons, source, 0, p);
    } else {
      var c :| c in chosen && p == (c.oldIndex, c.newIndex);
      ChosenTie(x, lessons, source, chosen, c);
    }
  }

  lemma LessonIsPaired(x: Rules, lessons: seq<Lesson>, source: seq<(nat, nat)>, chosen: seq<Candidate>, i: nat)
    requires RulesOk(x) && IsMatching(x, lessons, lessons, source, chosen) && CopiesTie(x, lessons) && i < |lessons|
    ensures i in Olds(Pairs(source, chosen)) && i in News(Pairs(source, chosen))
  {
    ClassIsMatched(x, lessons, source, chosen, i);
    PairsCover(source, chosen);
    if i !in Olds(source) {
      assert i in FreeOld(x, lessons, source, i);
      var c :| c in Inside(chosen, Class(x, lessons, i)) && c.oldIndex == i;
      assert c in chosen;
    }
    if i !in News(source) {
      assert i in FreeNew(x, lessons, source, i);
      var c :| c in Inside(chosen, Class(x, lessons, i)) && c.newIndex == i;
      assert c in chosen;
    }
  }

  lemma AllPaired(x: Rules, lessons: seq<Lesson>, source: seq<(nat, nat)>, chosen: seq<Candidate>)
    requires RulesOk(x) && IsMatching(x, lessons, lessons, source, chosen) && CopiesTie(x, lessons)
    ensures Olds(Pairs(source, chosen)) == Indices(lessons) == News(Pairs(source, chosen))
  {
    forall i | i in Indices(lessons) ensures i in Olds(Pairs(source, chosen)) && i in News(Pairs(source, chosen)) {
      LessonIsPaired(x, lessons, source, chosen, i);
    }
    forall p | p in Pairs(source, chosen) ensures p.0 in Indices(lessons) && p.1 in Indices(lessons) {
      PairsTie(x, lessons, source, chosen, p);
    }
  }

  /** Repeated ids are harmless when their copies look alike to the score and lessons that look alike
      agree in every compared field: such a list compared with itself reports nothing. */
  lemma AgreeingCopiesAreSilent(x: Rules, lessons: seq<Lesson>, source: seq<(nat, nat)>, chosen: seq<Candidate>)
    requires RulesOk(x) && CopiesTie(x, lessons) && TiesAgree(x, lessons)
    requires IsMatching(x, lessons, lessons, source, chosen) && D.InRange(lessons, lessons, Pairs(source, chosen))
    ensures D.Report(x, lessons, lessons, Pairs(source, chosen)) == []
  {
    AllPaired(x, lessons, source, chosen);
    forall p | p in Pairs(source, chosen) ensures D.SameButDay(x, lessons[p.0], lessons[p.1]) {
      PairsTie(x, lessons, source, chosen, p);
    }
    D.SilentIff(x, lessons, lessons, Pairs(source, chosen));
  }
}
