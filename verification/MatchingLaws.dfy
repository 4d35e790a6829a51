/** How the criteria of the second matching pass weigh against each other, said of the pairs it forms
    and not of the score: the start outranks subgroup and type, more shared attributes outrank fewer,
    and with all of that equal the nearer start wins, then the later place in the list. */
module MatchingLaws {
  import opened Wrappers
  import opened Schedule

  function Yes(b: bool): nat {
    if b then 1 else 0
  }

  /** How many of subgroup and lesson type two lessons share. */
  function Shared(x: Rules, a: Lesson, b: Lesson): nat {
    Yes(x.text(a.subgroup) == x.text(b.subgroup)) + Yes(x.text(a.lessonType) == x.text(b.lessonType))
  }

  function MinutesApart(a: Lesson, b: Lesson): nat {
    var d := a.startsAt / 60 - b.startsAt / 60;
    if d < 0 then -d else d
  }

  predicate SameSubject(x: Rules, a: Lesson, b: Lesson) {
    a.day == b.day && x.text(Some(a.subject)) == x.text(Some(b.subject))
  }

  /** The setting of the laws: the second pass paired old lesson `c.oldIndex` with new `c.newIndex`,
      while new lesson `n` was free as well. */
  ghost predicate Preferred(x: Rules, olds: seq<Lesson>, news: seq<Lesson>, source: seq<(nat, nat)>, chosen: seq<Candidate>,
                            c: Candidate, n: nat) {
    && RulesOk(x) && IsMatching(x, olds, news, source, chosen)
    && c in chosen && c.oldIndex < |olds| && c.newIndex < |news| && n < |news| && n !in News(source) && n != c.newIndex
  }

  lemma ChosenIsCandidate(x: Rules, olds: seq<Lesson>, news: seq<Lesson>, source: seq<(nat, nat)>, chosen: seq<Candidate>, c: Candidate)
    requires IsMatching(x, olds, news, source, chosen) && c in chosen
    ensures c in Elements(chosen) && IsCandidate(x, olds, news, c)
    ensures c.oldIndex !in Olds(source) && c.newIndex !in News(source)
  {
  }

  /** Whoever the second pass preferred for a free new lesson ranks above the pair that was passed over. */
  lemma Rival(x: Rules, olds: seq<Lesson>, news: seq<Lesson>, source: seq<(nat, nat)>, chosen: seq<Candidate>, c: Candidate, d: Candidate)
    returns (b: Candidate)
    requires Preferred(x, olds, news, source, chosen, c, d.newIndex) && d.oldIndex == c.oldIndex
    requires IsCandidate(x, olds, news, d) && Above(d, c)
    ensures b in chosen && IsCandidate(x, olds, news, b) && b.newIndex == d.newIndex && Above(b, d)
  {
    ChosenIsCandidate(x, olds, news, source, chosen, c);
    assert d !in Elements(chosen) by {
      assert Conflict(c, d) && c != d;
    }
    b :| b in Elements(chosen) && Conflict(b, d) && Above(b, d);
    ChosenIsCandidate(x, olds, news, source, chosen, b);
    if b.oldIndex == c.oldIndex {
      assert Conflict(b, c) && b == c;
      AboveIsStrictOrder(c, d, c);
    }
  }

  lemma SameSubjectScore(x: Rules, a: Lesson, b: Lesson)
    requires RulesOk(x) && SameSubject(x, a, b)
    ensures MatchScore(x, a, b) == Some(95.0 + (if a.startsAt == b.startsAt then 15.0 else 0.0) + 5.0 * (Shared(x, a, b) as real))
  {
    assert x.ratio(Subject(x, a), Subject(x, b)) == 1.0;
  }

  lemma ScoreBound(x: Rules, a: Lesson, b: Lesson)
    requires RulesOk(x) && MatchScore(x, a, b).Some?
    ensures a.day == b.day
    ensures MatchScore(x, a, b).value <=
            70.0 + (if SameSubject(x, a, b) then 25.0 else 0.0) + (if a.startsAt == b.startsAt then 15.0 else 0.0) + 5.0 * (Shared(x, a, b) as real)
  {
    assert 0.0 <= x.ratio(Subject(x, a), Subject(x, b)) <= 1.0;
  }

  /** A lesson that the second pass gave another start, although a free new lesson of its subject had its
      own, lost that one to an old lesson of the same subject and start. */
  lemma StartOutranks(x: Rules, olds: seq<Lesson>, news: seq<Lesson>, source: seq<(nat, nat)>, chosen: seq<Candidate>, c: Candidate, n: nat)
    returns (b: Candidate)
    requires Preferred(x, olds, news, source, chosen, c, n)
    requires olds[c.oldIndex].startsAt != news[c.newIndex].startsAt
    requires SameSubject(x, olds[c.oldIndex], news[n]) && olds[c.oldIndex].startsAt == news[n].startsAt
    ensures b in chosen && b.newIndex == n && b.oldIndex < |olds|
    ensures SameSubject(x, olds[b.oldIndex], news[n]) && olds[b.oldIndex].startsAt == news[n].startsAt
  {
    var o := c.oldIndex;
    var d := CandidateAt(x, olds, news, o, n);
    ChosenIsCandidate(x, olds, news, source, chosen, c);
    SameSubjectScore(x, olds[o], news[n]);
    ScoreBound(x, olds[o], news[c.newIndex]);
    b := Rival(x, olds, news, source, chosen, c, d);
    ScoreBound(x, olds[b.oldIndex], news[n]);
  }

  /** With equal starts, a lesson that got a new lesson sharing fewer of subgroup and type lost the better
      one to an old lesson that shares at least as many with it. */
  lemma MoreSharedOutranks(x: Rules, olds: seq<Lesson>, news: seq<Lesson>, source: seq<(nat, nat)>, chosen: seq<Candidate>, c: Candidate, n: nat)
    returns (b: Candidate)
    requires Preferred(x, olds, news, source, chosen, c, n)
    requires SameSubject(x, olds[c.oldIndex], news[n])
    requires (olds[c.oldIndex].startsAt == news[n].startsAt) == (olds[c.oldIndex].startsAt == news[c.newIndex].startsAt)
    requires Shared(x, olds[c.oldIndex], news[c.newIndex]) < Shared(x, olds[c.oldIndex], news[n])
    ensures b in chosen && b.newIndex == n && b.oldIndex < |olds|
    ensures olds[b.oldIndex].startsAt == news[n].startsAt ||
            (olds[c.oldIndex].startsAt != news[n].startsAt && SameSubject(x, olds[b.oldIndex], news[n])
             && Shared(x, olds[c.oldIndex], news[n]) <= Shared(x, olds[b.oldIndex], news[n]))
    ensures olds[c.oldIndex].startsAt == news[n].startsAt ==>
              SameSubject(x, olds[b.oldIndex], news[n]) && Shared(x, olds[c.oldIndex], news[n]) <= Shared(x, olds[b.oldIndex], news[n])
  {
    var o := c.oldIndex;
    var d := CandidateAt(x, olds, news, o, n);
    ChosenIsCandidate(x, olds, news, source, chosen, c);
    SameSubjectScore(x, olds[o], news[n]);
    ScoreBound(x, olds[o], news[c.newIndex]);
    b := Rival(x, olds, news, source, chosen, c, d);
    ScoreBound(x, olds[b.oldIndex], news[n]);
  }

  /** With the same subject and as much shared, at another start: a lesson that got the farther start
      lost the nearer one to an old lesson that has that very start, shares more, or is as near. */
  lemma NearerStartOutranks(x: Rules, olds: seq<Lesson>, news: seq<Lesson>, source: seq<(nat, nat)>, chosen: seq<Candidate>, c: Candidate, n: nat)
    returns (b: Candidate)
    requires Preferred(x, olds, news, source, chosen, c, n)
    requires SameSubject(x, olds[c.oldIndex], news[n]) && SameSubject(x, olds[c.oldIndex], news[c.newIndex])
    requires olds[c.oldIndex].startsAt != news[n].startsAt && olds[c.oldIndex].startsAt != news[c.newIndex].startsAt
    requires Shared(x, olds[c.oldIndex], news[c.newIndex]) == Shared(x, olds[c.oldIndex], news[n])
    requires MinutesApart(olds[c.oldIndex], news[n]) < MinutesApart(olds[c.oldIndex], news[c.newIndex])
    ensures b in chosen && b.newIndex == n && b.oldIndex < |olds|
    ensures || olds[b.oldIndex].startsAt == news[n].startsAt
            || Shared(x, olds[c.oldIndex], news[n]) < Shared(x, olds[b.oldIndex], news[n])
            || MinutesApart(olds[b.oldIndex], news[n]) <= MinutesApart(olds[c.oldIndex], news[n])
  {
    var o := c.oldIndex;
    var d := CandidateAt(x, olds, news, o, n);
    ChosenIsCandidate(x, olds, news, source, chosen, c);
    SameSubjectScore(x, olds[o], news[n]);
    SameSubjectScore(x, olds[o], news[c.newIndex]);
    b := Rival(x, olds, news, source, chosen, c, d);
    ScoreBound(x, olds[b.oldIndex], news[n]);
  }

  /** Two old lessons that look alike to a new one: the later in the list is served first. */
  lemma LaterOldLessonIsServedFirst(x: Rules, olds: seq<Lesson>, news: seq<Lesson>, source: seq<(nat, nat)>, chosen: seq<Candidate>, c: Candidate, o: nat)
    returns (b: Candidate)
    requires IsMatching(x, olds, news, source, chosen) && c in chosen
    requires c.oldIndex < o < |olds| && o !in Olds(source) && c.newIndex < |news|
    requires olds[o] == olds[c.oldIndex].(sourceId := olds[o].sourceId)
    ensures b in chosen && b.oldIndex == o
  {
    ChosenIsCandidate(x, olds, news, source, chosen, c);
    var d := c.(oldIndex := o);
    assert IsCandidate(x, olds, news, d) && Above(d, c) && Conflict(c, d) && c != d;
    assert d !in Elements(chosen);
    b :| b in Elements(chosen) && Conflict(b, d) && Above(b, d);
    if b.newIndex == c.newIndex {
      assert Conflict(b, c) && b == c;
      AboveIsStrictOrder(c, d, c);
    }
  }

  lemma LaterNewLessonIsServedFirst(x: Rules, olds: seq<Lesson>, news: seq<Lesson>, source: seq<(nat, nat)>, chosen: seq<Candidate>, c: Candidate, n: nat)
    returns (b: Candidate)
    requires IsMatching(x, olds, news, source, chosen) && c in chosen
    requires c.newIndex < n < |news| && n !in News(source) && c.oldIndex < |olds|
    requires news[n] == news[c.newIndex].(sourceId := news[n].sourceId)
    ensures b in chosen && b.newIndex == n
  {
    ChosenIsCandidate(x, olds, news, source, chosen, c);
    var d := c.(newIndex := n);
    assert IsCandidate(x, olds, news, d) && Above(d, c) && Conflict(c, d) && c != d;
    assert d !in Elements(chosen);
    b :| b in Elements(chosen) && Conflict(b, d) && Above(b, d);
    if b.oldIndex == c.oldIndex {
      assert Conflict(b, c) && b == c;
      AboveIsStrictOrder(c, d, c);
    }
  }

  /** Lessons of different subjects are paired only on one day and only if their likeness and what they
      share reach the threshold; two free ones that do reach it do not both stay single. */
  lemma DifferentSubjects(x: Rules, olds: seq<Lesson>, news: seq<Lesson>, source: seq<(nat, nat)>, chosen: seq<Candidate>, o: nat, n: nat)
    requires IsMatching(x, olds, news, source, chosen) && o < |olds| && n < |news| && !SameSubject(x, olds[o], news[n])
    ensures (exists c | c in chosen :: c.oldIndex == o && c.newIndex == n) ==>
              olds[o].day == news[n].day &&
              70.0 * (1.0 - x.ratio(x.text(Some(olds[o].subject)), x.text(Some(news[n].subject)))) <=
              (if olds[o].startsAt == news[n].startsAt then 15.0 else 0.0) + 5.0 * (Shared(x, olds[o], news[n]) as real)
    ensures olds[o].day == news[n].day && o !in Olds(source) && n !in News(source) &&
            70.0 * (1.0 - x.ratio(x.text(Some(olds[o].subject)), x.text(Some(news[n].subject)))) <=
            (if olds[o].startsAt == news[n].startsAt then 15.0 else 0.0) + 5.0 * (Shared(x, olds[o], news[n]) as real) ==>
              exists c | c in chosen :: c.oldIndex == o || c.newIndex == n
  {
    if c :| c in chosen && c.oldIndex == o && c.newIndex == n {
      ChosenIsCandidate(x, olds, news, source, chosen, c);
    }
    var d := CandidateAt(x, olds, news, o, n);
    if IsCandidate(x, olds, news, d) && o !in Olds(source) && n !in News(source) && d !in Elements(chosen) {
      var b :| b in Elements(chosen) && Conflict(b, d);
      assert b in chosen;
    }
  }
}
