/** The two-pass greedy matching, proved to compute the one matching of `Schedule.IsMatching`. */
module Matching {
  import opened Wrappers
  import opened Ordering
  import opened Schedule

  /** The members of `keep` below `n`, in increasing order. */
  function Listed(n: nat, keep: set<nat>): (r: seq<nat>)
    ensures forall i :: i in r <==> i < n && i in keep
    ensures forall a, b | 0 <= a < b < |r| :: r[a] < r[b]
  {
    if n == 0 then []
    else
      var below := Listed(n - 1, keep);
      assert forall a | 0 <= a < |below| :: below[a] in below;
      below + if n - 1 in keep then [n - 1] else []
  }

  lemma AtLeastIsTotal()
    ensures TotalPreorder(AtLeast)
  {
  }

  /** The dictionary from source id to the last old lesson that carries it. */
  ghost predicate IndexesLast(m: map<string, nat>, olds: seq<Lesson>, n: nat)
    requires n <= |olds|
  {
    && (forall id | id in m :: m[id] < n && id != "" && olds[m[id]].sourceId == Some(id)
                             && forall o | m[id] < o < n :: olds[o].sourceId != Some(id))
    && (forall o | 0 <= o < n && Identified(olds[o]) :: olds[o].sourceId.value in m)
  }

  method IndexBySource(olds: seq<Lesson>) returns (m: map<string, nat>)
    ensures IndexesLast(m, olds, |olds|)
  {
    m := map[];
    for i := 0 to |olds|
      invariant IndexesLast(m, olds, i)
    {
      if Identified(olds[i]) {
        m := m[olds[i].sourceId.value := i];
      }
    }
  }

  /** `source` holds the id pairs of the first `k` new lessons. */
  ghost predicate PairsSoFar(olds: seq<Lesson>, news: seq<Lesson>, source: seq<(nat, nat)>, k: nat) {
    && Ascending(source)
    && (forall p | p in source :: p.1 < k)
    && (forall o: nat, n: nat :: (o, n) in source <==> n < k && IsSourcePair(olds, news, o, n))
  }

  lemma AddPair(olds: seq<Lesson>, news: seq<Lesson>, source: seq<(nat, nat)>, o: nat, k: nat)
    requires PairsSoFar(olds, news, source, k) && IsSourcePair(olds, news, o, k)
    ensures PairsSoFar(olds, news, source + [(o, k)], k + 1)
    ensures Olds(source + [(o, k)]) == Olds(source) + {o}
    ensures News(source + [(o, k)]) == News(source) + {k}
  {
  }

  lemma SkipPair(olds: seq<Lesson>, news: seq<Lesson>, source: seq<(nat, nat)>, k: nat)
    requires PairsSoFar(olds, news, source, k) && k < |news|
    requires forall o: nat :: !IsSourcePair(olds, news, o, k)
    ensures PairsSoFar(olds, news, source, k + 1)
  {
  }

  method PairBySource(olds: seq<Lesson>, news: seq<Lesson>)
    returns (source: seq<(nat, nat)>, remainingOld: set<nat>, remainingNew: set<nat>)
    ensures Ascending(source)
    ensures forall o: nat, n: nat :: (o, n) in source <==> IsSourcePair(olds, news, o, n)
    ensures remainingOld == Indices(olds) - Olds(source)
    ensures remainingNew == Indices(news) - News(source)
  {
    var oldBySource := IndexBySource(olds);
    source, remainingOld, remainingNew := [], Indices(olds), Indices(news);
    for k := 0 to |news|
      invariant PairsSoFar(olds, news, source, k)
      invariant remainingOld == Indices(olds) - Olds(source)
      invariant remainingNew == Indices(news) - News(source)
      invariant forall n | 0 <= n < k && Identified(news[n]) && news[n].sourceId.value in oldBySource ::
                  oldBySource[news[n].sourceId.value] !in remainingOld
    {
      var id := news[k].sourceId;
      if Identified(news[k]) && id.value in oldBySource && oldBySource[id.value] in remainingOld {
        var o := oldBySource[id.value];
        AddPair(olds, news, source, o, k);
        source := source + [(o, k)];
        remainingOld := remainingOld - {o};
        remainingNew := remainingNew - {k};
      } else {
        if Identified(news[k]) && id.value in oldBySource {
          var p :| p in source && p.0 == oldBySource[id.value];
          assert IsSourcePair(olds, news, p.0, p.1) by { assert (p.0, p.1) in source; }
        }
        SkipPair(olds, news, source, k);
      }
    }
  }

  method ListCandidates(x: Rules, olds: seq<Lesson>, news: seq<Lesson>, remainingOld: set<nat>, remainingNew: set<nat>)
    returns (candidates: seq<Candidate>)
    requires remainingOld <= Indices(olds) && remainingNew <= Indices(news)
    ensures Elements(candidates) == CandidateSet(x, olds, news, remainingOld, remainingNew)
  {
    candidates := [];
    var todo := remainingOld;
    while todo != {}
      invariant todo <= remainingOld
      invariant forall c :: c in candidates <==> c in CandidateSet(x, olds, news, remainingOld - todo, remainingNew)
    {
      var o :| o in todo;
      var row := ListRow(x, olds, news, o, remainingNew);
      candidates := candidates + row;
      todo := todo - {o};
    }
  }

  method ListRow(x: Rules, olds: seq<Lesson>, news: seq<Lesson>, o: nat, remainingNew: set<nat>)
    returns (row: seq<Candidate>)
    requires o < |olds| && remainingNew <= Indices(news)
    ensures forall c :: c in row <==> c.oldIndex == o && c.newIndex in remainingNew && IsCandidate(x, olds, news, c)
  {
    row := [];
    var todo := remainingNew;
    while todo != {}
      invariant todo <= remainingNew
      invariant forall c :: c in row <==>
                  c.oldIndex == o && c.newIndex in remainingNew - todo && IsCandidate(x, olds, news, c)
    {
      var n :| n in todo;
      var score := MatchScore(x, olds[o], news[n]);
      if score.Some? && 70.0 <= score.value {
        row := row + [Candidate(score.value, Proximity(olds[o], news[n]), o, n)];
      }
      todo := todo - {n};
    }
  }

  function TakenOld(chosen: seq<Candidate>): set<nat> {
    set c | c in chosen :: c.oldIndex
  }

  function TakenNew(chosen: seq<Candidate>): set<nat> {
    set c | c in chosen :: c.newIndex
  }

  ghost predicate Blocked(c: Candidate, chosen: seq<Candidate>) {
    exists b | b in chosen :: Conflict(b, c) && Above(b, c)
  }

  ghost predicate ConflictFree(chosen: seq<Candidate>) {
    forall a, b | a in chosen && b in chosen && Conflict(a, b) :: a == b
  }

  lemma TakeOne(chosen: seq<Candidate>, c: Candidate)
    requires Descending(chosen) && ConflictFree(chosen)
    requires forall b | b in chosen :: AtLeast(b, c)
    requires c.oldIndex !in TakenOld(chosen) && c.newIndex !in TakenNew(chosen)
    ensures Descending(chosen + [c]) && ConflictFree(chosen + [c])
    ensures TakenOld(chosen + [c]) == TakenOld(chosen) + {c.oldIndex}
    ensures TakenNew(chosen + [c]) == TakenNew(chosen) + {c.newIndex}
    ensures forall d | Blocked(d, chosen) :: Blocked(d, chosen + [c])
  {
  }

  lemma SkipOne(chosen: seq<Candidate>, c: Candidate)
    requires forall b | b in chosen :: AtLeast(b, c)
    requires c.oldIndex in TakenOld(chosen) || c.newIndex in TakenNew(chosen)
    ensures c in chosen || Blocked(c, chosen)
  {
  }

  /** Taking sorted candidates greedily leaves no blocking pair. */
  method ChooseGreedily(ordered: seq<Candidate>, freeOld: set<nat>, freeNew: set<nat>)
    returns (chosen: seq<Candidate>, remainingOld: set<nat>, remainingNew: set<nat>)
    requires SortedBy(ordered, AtLeast)
    requires forall c | c in ordered :: c.oldIndex in freeOld && c.newIndex in freeNew
    ensures Descending(chosen)
    ensures Stable(Elements(chosen), Elements(ordered))
    ensures remainingOld == freeOld - TakenOld(chosen)
    ensures remainingNew == freeNew - TakenNew(chosen)
  {
    chosen, remainingOld, remainingNew := [], freeOld, freeNew;
    for k := 0 to |ordered|
      invariant forall c | c in chosen :: c in ordered[..k]
      invariant ConflictFree(chosen)
      invariant Descending(chosen)
      invariant forall c | c in ordered[..k] :: c in chosen || Blocked(c, chosen)
      invariant remainingOld == freeOld - TakenOld(chosen)
      invariant remainingNew == freeNew - TakenNew(chosen)
    {
      var c := ordered[k];
      assert forall b | b in ordered[..k] :: AtLeast(b, c);
      assert forall b :: b in ordered[..k + 1] <==> b in ordered[..k] || b == c;
      if c.oldIndex in remainingOld && c.newIndex in remainingNew {
        TakeOne(chosen, c);
        chosen := chosen + [c];
        remainingOld := remainingOld - {c.oldIndex};
        remainingNew := remainingNew - {c.newIndex};
      } else {
        SkipOne(chosen, c);
      }
    }
    assert ordered[..|ordered|] == ordered;
    assert forall c :: c in Elements(ordered) <==> c in ordered;
    assert forall c :: c in Elements(chosen) <==> c in chosen;
  }

  method MatchLessons(x: Rules, olds: seq<Lesson>, news: seq<Lesson>)
    returns (pairs: seq<(nat, nat)>, cancelled: seq<nat>, added: seq<nat>,
             ghost source: seq<(nat, nat)>, ghost chosen: seq<Candidate>)
    ensures IsMatching(x, olds, news, source, chosen)
    ensures pairs == Pairs(source, chosen)
    ensures cancelled == Listed(|olds|, Indices(olds) - Olds(pairs))
    ensures added == Listed(|news|, Indices(news) - News(pairs))
  {
    var bySource, freeOld, freeNew := PairBySource(olds, news);
    var candidates := ListCandidates(x, olds, news, freeOld, freeNew);
    var ordered := Sort(candidates, AtLeast);
    AtLeastIsTotal();
    SortOrders(candidates, AtLeast);
    SortKeepsElements(candidates, AtLeast);
    assert Elements(ordered) == Elements(candidates) by {
      forall c ensures c in ordered <==> c in candidates { InMultiset(ordered, candidates, c); }
    }
    assert forall c | c in ordered :: c in Elements(candidates);
    var best, remainingOld, remainingNew := ChooseGreedily(ordered, freeOld, freeNew);
    pairs := bySource + seq(|best|, i requires 0 <= i < |best| => (best[i].oldIndex, best[i].newIndex));
    source, chosen := bySource, best;
    PairsCover(source, chosen);
    cancelled := Listed(|olds|, remainingOld);
    added := Listed(|news|, remainingNew);
    assert remainingOld == Indices(olds) - Olds(pairs);
    assert remainingNew == Indices(news) - News(pairs);
  }

  lemma PairsCover(source: seq<(nat, nat)>, chosen: seq<Candidate>)
    ensures Olds(Pairs(source, chosen)) == Olds(source) + TakenOld(chosen)
    ensures News(Pairs(source, chosen)) == News(source) + TakenNew(chosen)
    ensures forall p :: p in Pairs(source, chosen) <==>
                        p in source || exists c | c in chosen :: p == (c.oldIndex, c.newIndex)
  {
    var pairs := Pairs(source, chosen);
    forall p | p in pairs ensures p in source || exists c | c in chosen :: p == (c.oldIndex, c.newIndex) {
      var i :| 0 <= i < |pairs| && pairs[i] == p;
      if i >= |source| {
        assert chosen[i - |source|] in chosen;
      }
    }
    forall c | c in chosen ensures (c.oldIndex, c.newIndex) in pairs {
      var i :| 0 <= i < |chosen| && chosen[i] == c;
      assert pairs[|source| + i] == (c.oldIndex, c.newIndex);
    }
  }
}
