/** A run over a fixed list of items in batches. Each batch commits its data together with a cursor,
    and a stopped run is continued from the cursor, perhaps with another batch size. */
module BatchRun {
  function Fold<S, M>(f: (S, M) -> S, s: S, items: seq<M>): S {
    if items == [] then s else f(Fold(f, s, items[..|items| - 1]), items[|items| - 1])
  }

  lemma {:induction false} FoldInTwoParts<S, M>(f: (S, M) -> S, s: S, a: seq<M>, b: seq<M>)
    ensures Fold(f, s, a + b) == Fold(f, Fold(f, s, a), b)
  {
    if b == [] {
      assert a + b == a;
    } else {
      FoldInTwoParts(f, s, a, b[..|b| - 1]);
      assert (a + b)[..|a + b| - 1] == a + b[..|b| - 1] && (a + b)[|a + b| - 1] == b[|b| - 1];
    }
  }

  /** A relation between the data and the items done so far that each item keeps, the fold keeps. */
  lemma {:induction false} FoldKeeps<S(!new), M(!new)>(f: (S, M) -> S, s: S, items: seq<M>, related: (S, seq<M>) -> bool)
    requires related(s, [])
    requires forall d, done, m | related(d, done) :: related(f(d, m), done + [m])
    ensures related(Fold(f, s, items), items)
  {
    if items != [] {
      FoldKeeps(f, s, items[..|items| - 1], related);
      assert items[..|items| - 1] + [items[|items| - 1]] == items;
    }
  }

  datatype Cursor = Cursor(nextIndex: nat, batches: nat)

  /** Where a run resumes: a stored cursor is never trusted beyond the end. */
  function ResumePoint(c: Cursor, length: nat): nat {
    if c.nextIndex <= length then c.nextIndex else length
  }

  function NextStop(at: nat, length: nat, size: nat): nat {
    if at + size <= length then at + size else length
  }

  /** Where the cursor stands after `commits` batches. */
  function Reached(c: Cursor, length: nat, size: nat, commits: nat): (r: nat)
    ensures ResumePoint(c, length) <= r <= length
  {
    NextStop(ResumePoint(c, length), length, commits * size)
  }

  function AfterBatches(c: Cursor, length: nat, size: nat, commits: nat): Cursor {
    if commits == 0 then c else Cursor(Reached(c, length, size, commits), c.batches + commits)
  }

  /** `commits` batches of `size` were committed from (c, s), each with its cursor. */
  ghost predicate Advanced<S(!new), M(!new)>(f: (S, M) -> S, items: seq<M>, size: nat, commits: nat, c: Cursor, s: S, c': Cursor, s': S) {
    && c' == AfterBatches(c, |items|, size, commits)
    && s' == Fold(f, s, items[ResumePoint(c, |items|)..Reached(c, |items|, size, commits)])
  }

  lemma OneMoreBatch<S(!new), M(!new)>(f: (S, M) -> S, items: seq<M>, size: nat, commits: nat, c: Cursor, s: S, c': Cursor, s': S, end: nat)
    requires Advanced(f, items, size, commits, c, s, c', s')
    requires Reached(c, |items|, size, commits) < |items|
    requires end == NextStop(Reached(c, |items|, size, commits), |items|, size)
    ensures end == Reached(c, |items|, size, commits + 1)
    ensures Advanced(f, items, size, commits + 1, c, s,
                     Cursor(end, c'.batches + 1), Fold(f, s', items[Reached(c, |items|, size, commits)..end]))
  {
    assert (commits + 1) * size == commits * size + size;
    var from, at := ResumePoint(c, |items|), Reached(c, |items|, size, commits);
    FoldInTwoParts(f, s, items[from..at], items[at..end]);
    assert items[from..at] + items[at..end] == items[from..end];
  }

  /** The data is what the items before the cursor make of the initial data. */
  ghost predicate Exact<S(!new), M(!new)>(f: (S, M) -> S, items: seq<M>, initial: S, c: Cursor, s: S) {
    c.nextIndex <= |items| && s == Fold(f, initial, items[..c.nextIndex])
  }

  lemma AdvancedKeepsExact<S(!new), M(!new)>(f: (S, M) -> S, items: seq<M>, initial: S, size: nat, commits: nat, c: Cursor, s: S, c': Cursor, s': S)
    requires Exact(f, items, initial, c, s) && Advanced(f, items, size, commits, c, s, c', s')
    ensures Exact(f, items, initial, c', s') && c'.nextIndex == Reached(c, |items|, size, commits)
  {
    var from, at := ResumePoint(c, |items|), Reached(c, |items|, size, commits);
    FoldInTwoParts(f, initial, items[..from], items[from..at]);
    assert items[..from] + items[from..at] == items[..at];
  }
}
