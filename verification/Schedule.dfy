/** Lessons, snapshots and the conservative lesson matching behind change detection. */
module Schedule {
  import opened Wrappers
  import opened Ordering

  /** Library text handling the domain relies on: whitespace and case normalization, and the
      similarity ratio of two strings. */
  datatype Rules = Rules(
    text: Option<string> -> string,
    teacher: Option<string> -> string,
    ratio: (string, string) -> real)

  ghost predicate RulesOk(x: Rules) {
    && (forall a, b :: 0.0 <= x.ratio(a, b) <= 1.0)
    && (forall a :: x.ratio(a, a) == 1.0)
  }

  /** Days are ordinals and times are seconds after midnight. */
  datatype Lesson = Lesson(
    day: int,
    startsAt: nat,
    endsAt: nat,
    subject: string,
    lessonType: Option<string>,
    teacher: Option<string>,
    room: Option<string>,
    building: Option<string>,
    subgroup: Option<string>,
    sourceId: Option<string>)

  datatype Snapshot = Snapshot(source: string, group: string, fetchedAt: int, lessons: seq<Lesson>)

  function Subject(x: Rules, l: Lesson): string {
    x.text(Some(l.subject))
  }

  predicate Identified(l: Lesson) {
    l.sourceId.Some? && l.sourceId.value != ""
  }

  // ---------------------------------------------------------------- scoring

  datatype Candidate = Candidate(score: real, proximity: int, oldIndex: nat, newIndex: nat)

  function Minutes(t: nat): nat {
    t / 60
  }

  /** How close two starting times are, in minutes; zero is closest. */
  function Proximity(before: Lesson, after: Lesson): (p: int)
    ensures p <= 0
  {
    var d := Minutes(before.startsAt) - Minutes(after.startsAt);
    if d < 0 then d else -d
  }

  /** No score at all across different days. */
  function MatchScore(x: Rules, before: Lesson, after: Lesson): Option<real> {
    if before.day != after.day then None
    else Some(
      x.ratio(Subject(x, before), Subject(x, after)) * 70.0
      + (if Subject(x, before) == Subject(x, after) then 25.0 else 0.0)
      + (if before.startsAt == after.startsAt then 15.0 else 0.0)
      + (if x.text(before.subgroup) == x.text(after.subgroup) then 5.0 else 0.0)
      + (if x.text(before.lessonType) == x.text(after.lessonType) then 5.0 else 0.0))
  }

  predicate IsCandidate(x: Rules, olds: seq<Lesson>, news: seq<Lesson>, c: Candidate) {
    && c.oldIndex < |olds| && c.newIndex < |news|
    && MatchScore(x, olds[c.oldIndex], news[c.newIndex]) == Some(c.score)
    && 70.0 <= c.score
    && c.proximity == Proximity(olds[c.oldIndex], news[c.newIndex])
  }

  /** The order of the sorted candidate list: score, proximity, then the two indices. */
  predicate Above(a: Candidate, b: Candidate) {
    if a.score != b.score then a.score > b.score
    else if a.proximity != b.proximity then a.proximity > b.proximity
    else if a.oldIndex != b.oldIndex then a.oldIndex > b.oldIndex
    else a.newIndex > b.newIndex
  }

  predicate AtLeast(a: Candidate, b: Candidate) {
    a == b || Above(a, b)
  }

  predicate Conflict(a: Candidate, b: Candidate) {
    a.oldIndex == b.oldIndex || a.newIndex == b.newIndex
  }

  // ---------------------------------------------------------------- stability

  /** No two chosen candidates share a lesson, and every rejected one shares a lesson with a
      chosen one strictly above it. */
  ghost predicate Stable(chosen: set<Candidate>, all: set<Candidate>) {
    && chosen <= all
    && (forall a, b | a in chosen && b in chosen && Conflict(a, b) :: a == b)
    && (forall c | c in all && c !in chosen :: exists b | b in chosen :: Conflict(b, c) && Above(b, c))
  }

  function Higher(all: set<Candidate>, c: Candidate): set<Candidate> {
    set d | d in all && Above(d, c)
  }

  lemma AboveIsStrictOrder(a: Candidate, b: Candidate, c: Candidate)
    ensures !Above(a, a)
    ensures Above(a, b) && Above(b, c) ==> Above(a, c)
    ensures a == b || Above(a, b) || Above(b, a)
  {
  }

  lemma HigherShrinks(all: set<Candidate>, b: Candidate, c: Candidate)
    requires b in all && Above(b, c)
    ensures Higher(all, b) < Higher(all, c)
  {
    forall d | d in Higher(all, b) ensures d in Higher(all, c) {
      AboveIsStrictOrder(d, b, c);
    }
    AboveIsStrictOrder(b, b, b);
    assert b in Higher(all, c) && b !in Higher(all, b);
  }

  lemma {:induction false} StableAgree(m: set<Candidate>, m': set<Candidate>, all: set<Candidate>, c: Candidate)
    requires Stable(m, all) && Stable(m', all) && c in m
    ensures c in m'
    decreases Higher(all, c)
  {
    if c !in m' {
      var b :| b in m' && Conflict(b, c) && Above(b, c);
      HigherShrinks(all, b, c);
      StableAgree(m', m, all, b);
      AboveIsStrictOrder(c, c, c);
    }
  }

  /** There is only one matching without a blocking pair. */
  lemma StableIsUnique(m: set<Candidate>, m': set<Candidate>, all: set<Candidate>)
    requires Stable(m, all) && Stable(m', all)
    ensures m == m'
  {
    forall c | c in m ensures c in m' { StableAgree(m, m', all, c); }
    forall c | c in m' ensures c in m { StableAgree(m', m, all, c); }
  }

  // ---------------------------------------------------------------- what a matching is

  /** The new lesson is the first to carry its id, the old lesson the last. */
  predicate IsSourcePair(olds: seq<Lesson>, news: seq<Lesson>, o: nat, n: nat) {
    && o < |olds| && n < |news|
    && Identified(news[n]) && olds[o].sourceId == news[n].sourceId
    && (forall o' | o < o' < |olds| :: olds[o'].sourceId != news[n].sourceId)
    && (forall n' | 0 <= n' < n :: news[n'].sourceId != news[n].sourceId)
  }

  ghost predicate Ascending(pairs: seq<(nat, nat)>) {
    forall i, j | 0 <= i < j < |pairs| :: pairs[i].1 < pairs[j].1
  }

  ghost predicate Descending(chosen: seq<Candidate>) {
    forall i, j | 0 <= i < j < |chosen| :: Above(chosen[i], chosen[j])
  }

  function Elements<T>(s: seq<T>): set<T> {
    set e | e in s
  }

  function Olds(pairs: seq<(nat, nat)>): set<nat> {
    set p | p in pairs :: p.0
  }

  function News(pairs: seq<(nat, nat)>): set<nat> {
    set p | p in pairs :: p.1
  }

  function Indices(lessons: seq<Lesson>): set<nat> {
    set i: nat {:trigger lessons[i]} | i < |lessons|
  }

  function CandidateSet(x: Rules, olds: seq<Lesson>, news: seq<Lesson>, freeOld: set<nat>, freeNew: set<nat>): (r: set<Candidate>)
    ensures forall c :: c in r <==> c.oldIndex in freeOld && c.newIndex in freeNew && IsCandidate(x, olds, news, c)
  {
    set o, n | o in freeOld && n in freeNew && o < |olds| && n < |news| &&
               IsCandidate(x, olds, news, CandidateAt(x, olds, news, o, n)) ::
      CandidateAt(x, olds, news, o, n)
  }

  function CandidateAt(x: Rules, olds: seq<Lesson>, news: seq<Lesson>, o: nat, n: nat): Candidate
    requires o < |olds| && n < |news|
  {
    var score := MatchScore(x, olds[o], news[n]);
    Candidate(if score.Some? then score.value else 0.0,
              Proximity(olds[o], news[n]), o, n)
  }

  /** `source` lists the pairs found by id, `chosen` the scored pairs, best first. */
  ghost predicate IsMatching(x: Rules, olds: seq<Lesson>, news: seq<Lesson>,
                             source: seq<(nat, nat)>, chosen: seq<Candidate>) {
    && Ascending(source)
    && (forall o: nat, n: nat :: (o, n) in source <==> IsSourcePair(olds, news, o, n))
    && Descending(chosen)
    && Stable(Elements(chosen),
              CandidateSet(x, olds, news, Indices(olds) - Olds(source), Indices(news) - News(source)))
  }

  function Pairs(source: seq<(nat, nat)>, chosen: seq<Candidate>): seq<(nat, nat)> {
    source + seq(|chosen|, i requires 0 <= i < |chosen| => (chosen[i].oldIndex, chosen[i].newIndex))
  }

  lemma SomeMember<T>(s: seq<T>) returns (e: T)
    requires s != []
    ensures e in s
  {
    e := s[0];
  }

  lemma TailMembers<T>(s: seq<T>, e: T)
    requires s != [] && forall i | 0 < i < |s| :: s[i] != s[0]
    ensures e in s[1..] <==> e in s && e != s[0]
  {
  }

  lemma {:induction false} AscendingIsUnique(s: seq<(nat, nat)>, t: seq<(nat, nat)>)
    requires Ascending(s) && Ascending(t) && forall p :: p in s <==> p in t
    ensures s == t
  {
    if s == [] {
      if t != [] {
        var e := SomeMember(t);
        assert false;
      }
    } else {
      assert s[0] in t && t != [] && t[0] in s;
      assert s[0] == t[0];
      forall p ensures p in s[1..] <==> p in t[1..] {
        TailMembers(s, p);
        TailMembers(t, p);
      }
      AscendingIsUnique(s[1..], t[1..]);
      assert s == [s[0]] + s[1..] && t == [t[0]] + t[1..];
    }
  }

  lemma {:induction false} DescendingIsUnique(s: seq<Candidate>, t: seq<Candidate>)
    requires Descending(s) && Descending(t) && Elements(s) == Elements(t)
    ensures s == t
  {
    assert forall c :: c in s <==> c in t by {
      forall c ensures c in s <==> c in t { assert c in Elements(s) <==> c in Elements(t); }
    }
    if s == [] {
      if t != [] {
        var e := SomeMember(t);
        assert false;
      }
    } else {
      assert s[0] in t && t != [] && t[0] in s;
      AboveIsStrictOrder(s[0], t[0], s[0]);
      assert forall i | 0 < i < |s| :: s[i] != s[0] by {
        forall i | 0 < i < |s| ensures s[i] != s[0] { AboveIsStrictOrder(s[0], s[0], s[0]); }
      }
      assert forall i | 0 < i < |t| :: t[i] != t[0] by {
        forall i | 0 < i < |t| ensures t[i] != t[0] { AboveIsStrictOrder(t[0], t[0], t[0]); }
      }
      assert s[0] == t[0];
      assert Elements(s[1..]) == Elements(t[1..]) by {
        forall c ensures c in s[1..] <==> c in t[1..] {
          TailMembers(s, c);
          TailMembers(t, c);
        }
      }
      DescendingIsUnique(s[1..], t[1..]);
      assert s == [s[0]] + s[1..] && t == [t[0]] + t[1..];
    }
  }

  /** The matching is a function of the two lesson lists: neither the iteration order of sets
      nor the order in which candidates are listed can change it. */
  lemma MatchingIsUnique(x: Rules, olds: seq<Lesson>, news: seq<Lesson>,
                         source: seq<(nat, nat)>, chosen: seq<Candidate>,
                         source': seq<(nat, nat)>, chosen': seq<Candidate>)
    requires IsMatching(x, olds, news, source, chosen)
    requires IsMatching(x, olds, news, source', chosen')
    ensures source == source' && chosen == chosen'
  {
    forall p ensures p in source <==> p in source' {
      assert p == (p.0, p.1);
    }
    AscendingIsUnique(source, source');
    StableIsUnique(Elements(chosen), Elements(chosen'),
                   CandidateSet(x, olds, news, Indices(olds) - Olds(source), Indices(news) - News(source)));
    DescendingIsUnique(chosen, chosen');
  }
}
