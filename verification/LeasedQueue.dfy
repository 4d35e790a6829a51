/** The protocol behind both durable queues, with the storage columns abstracted away.

    A row waits until an instant, is leased to a holder until an instant, or is closed for
    good. Every label is one database transaction; a run is any interleaving of labels by any
    number of workers, and a crash is a worker that produces no further labels. */
module LeasedQueue {
  import opened Wrappers

  datatype Outcome = Succeeded | Failed | Cancelled

  datatype Phase =
    | Waiting(ready: int)
    | Leased(until: Option<int>, holder: Option<string>)
    | Closed(outcome: Outcome)

  datatype Row = Row(phase: Phase, attempts: nat, maxAttempts: nat)

  /** Rows are never deleted, so an index identifies a row. */
  type Table = seq<Row>

  datatype Claim = Claim(id: nat, attempt: nat, maxAttempts: nat, until: int)

  datatype Label =
    | Admitted(ready: int, maxAttempts: nat)
    | Deferred(id: nat, ready: int)
    | Unchanged
    | Polled(now: int, lease: int, holder: Option<string>, scope: set<nat>, got: Option<Claim>)
    | Finished(claim: Claim, holder: Option<string>, accepted: bool)
    | Aborted(claim: Claim, holder: Option<string>, now: int, delay: int, accepted: bool)

  // ---------------------------------------------------------------- one transaction

  predicate Expired(row: Row, now: int) {
    row.phase.Leased? && (row.phase.until.None? || row.phase.until.value <= now)
  }

  predicate Due(row: Row, now: int) {
    && row.attempts < row.maxAttempts
    && ((row.phase.Waiting? && row.phase.ready <= now) || Expired(row, now))
  }

  function SweepRow(row: Row, now: int): Row {
    if Expired(row, now) && row.maxAttempts <= row.attempts
    then row.(phase := Closed(Failed))
    else row
  }

  function Sweep(t: Table, now: int, scope: set<nat>): (r: Table)
    ensures |r| == |t|
  {
    seq(|t|, i requires 0 <= i < |t| => if i in scope then SweepRow(t[i], now) else t[i])
  }

  predicate Holds(t: Table, c: Claim, holder: Option<string>) {
    && c.id < |t|
    && t[c.id].phase.Leased?
    && t[c.id].phase.holder == holder
    && t[c.id].attempts == c.attempt
  }

  function AfterAbort(c: Claim, now: int, delay: int): Phase {
    if c.maxAttempts <= c.attempt then Closed(Failed) else Waiting(now + delay)
  }

  /** Which row a poll picks among the due ones is left open. */
  ghost predicate PollStep(t: Table, now: int, lease: int, holder: Option<string>, scope: set<nat>,
                           got: Option<Claim>, t': Table) {
    var swept := Sweep(t, now, scope);
    match got
    case None =>
      && t' == swept
      && (forall i | i in scope && i < |t| :: !Due(t[i], now))
    case Some(c) =>
      && 0 < lease
      && c.id < |t| && c.id in scope && Due(t[c.id], now)
      && c == Claim(c.id, t[c.id].attempts + 1, t[c.id].maxAttempts, now + lease)
      && t' == swept[c.id := Row(Leased(Some(now + lease), holder), c.attempt, c.maxAttempts)]
  }

  ghost predicate Step(t: Table, l: Label, t': Table) {
    match l
    case Admitted(ready, maxAttempts) =>
      && 0 < maxAttempts
      && t' == t + [Row(Waiting(ready), 0, maxAttempts)]
    case Deferred(id, ready) =>
      && id < |t| && t[id].phase.Waiting? && t[id].phase.ready < ready
      && t' == t[id := t[id].(phase := Waiting(ready))]
    case Unchanged => t' == t
    case Polled(now, lease, holder, scope, got) => PollStep(t, now, lease, holder, scope, got, t')
    case Finished(c, holder, accepted) =>
      && accepted == Holds(t, c, holder)
      && t' == if accepted then t[c.id := t[c.id].(phase := Closed(Succeeded))] else t
    case Aborted(c, holder, now, delay, accepted) =>
      && accepted == Holds(t, c, holder)
      && t' == if accepted then t[c.id := t[c.id].(phase := AfterAbort(c, now, delay))] else t
  }

  // ---------------------------------------------------------------- runs

  datatype Run = Run(states: seq<Table>, labels: seq<Label>)

  predicate ClaimsRow(l: Label, id: nat) {
    l.Polled? && l.got.Some? && l.got.value.id == id
  }

  predicate Completes(l: Label, c: Claim) {
    (l.Finished? || l.Aborted?) && l.claim == c
  }

  predicate Accepts(l: Label, id: nat) {
    (l.Finished? || l.Aborted?) && l.accepted && l.claim.id == id
  }

  ghost predicate Issued(labels: seq<Label>, c: Claim) {
    exists j | 0 <= j < |labels| :: labels[j].Polled? && labels[j].got == Some(c)
  }

  /** A run starts from the empty table, and only claims that were handed out are completed. */
  ghost predicate Valid(r: Run) {
    && |r.states| == |r.labels| + 1
    && r.states[0] == []
    && (forall i | 0 <= i < |r.labels| :: Step(r.states[i], r.labels[i], r.states[i + 1]))
    && (forall i | 0 <= i < |r.labels| && (r.labels[i].Finished? || r.labels[i].Aborted?) ::
          Issued(r.labels[..i], r.labels[i].claim))
  }

  function ClaimsOf(labels: seq<Label>, id: nat): nat {
    if labels == [] then 0
    else ClaimsOf(labels[..|labels| - 1], id) + if ClaimsRow(labels[|labels| - 1], id) then 1 else 0
  }

  function TotalClaims(labels: seq<Label>): nat {
    if labels == [] then 0
    else TotalClaims(labels[..|labels| - 1]) +
         if labels[|labels| - 1].Polled? && labels[|labels| - 1].got.Some? then 1 else 0
  }

  function SumAttempts(t: Table): nat {
    if t == [] then 0 else SumAttempts(t[..|t| - 1]) + t[|t| - 1].attempts
  }

  function SumMaxAttempts(t: Table): nat {
    if t == [] then 0 else SumMaxAttempts(t[..|t| - 1]) + t[|t| - 1].maxAttempts
  }

  // ---------------------------------------------------------------- what every run keeps

  predicate RowOk(row: Row) {
    && row.attempts <= row.maxAttempts
    && 0 < row.maxAttempts
    && (row.phase.Waiting? ==> row.attempts < row.maxAttempts)
    && (row.phase.Leased? ==> 0 < row.attempts)
  }

  /** The claim issued by label `j` is the next attempt of its row. */
  ghost predicate ClaimOk(t: Table, labels: seq<Label>, j: nat)
    requires j < |labels|
  {
    labels[j].Polled? && labels[j].got.Some? ==>
      var c := labels[j].got.value;
      && c.id < |t|
      && c.maxAttempts == t[c.id].maxAttempts
      && c.attempt == ClaimsOf(labels[..j], c.id) + 1
  }

  ghost predicate Inv(t: Table, labels: seq<Label>) {
    && (forall id | 0 <= id < |t| :: RowOk(t[id]) && t[id].attempts == ClaimsOf(labels, id))
    && (forall id: nat | |t| <= id :: ClaimsOf(labels, id) == 0)
    && (forall j: nat | j < |labels| :: ClaimOk(t, labels, j))
  }

  lemma ClaimsOfSnoc(labels: seq<Label>, l: Label, id: nat)
    ensures ClaimsOf(labels + [l], id) == ClaimsOf(labels, id) + if ClaimsRow(l, id) then 1 else 0
  {
  }

  lemma IssuedIsOk(t: Table, labels: seq<Label>, c: Claim)
    requires Inv(t, labels) && Issued(labels, c)
    ensures c.id < |t| && c.maxAttempts == t[c.id].maxAttempts && 0 < c.attempt
  {
    var j: nat :| j < |labels| && labels[j].Polled? && labels[j].got == Some(c);
    assert ClaimOk(t, labels, j);
  }

  /** One step counts an attempt on the row it claims and keeps every row in order. */
  lemma StepKeepsRow(t: Table, labels: seq<Label>, l: Label, t': Table, id: nat)
    requires Inv(t, labels) && Step(t, l, t') && id < |t'|
    requires l.Finished? || l.Aborted? ==> Issued(labels, l.claim)
    ensures |t| <= |t'| && RowOk(t'[id])
    ensures id < |t| ==> t'[id].maxAttempts == t[id].maxAttempts
    ensures t'[id].attempts == (if id < |t| then t[id].attempts else 0) + if ClaimsRow(l, id) then 1 else 0
  {
    if l.Finished? || l.Aborted? {
      IssuedIsOk(t, labels, l.claim);
    }
  }

  lemma StepKeepsInv(t: Table, labels: seq<Label>, l: Label, t': Table)
    requires Inv(t, labels) && Step(t, l, t')
    requires l.Finished? || l.Aborted? ==> Issued(labels, l.claim)
    ensures Inv(t', labels + [l])
  {
    var labels' := labels + [l];
    forall id: nat ensures ClaimsOf(labels', id) == ClaimsOf(labels, id) + if ClaimsRow(l, id) then 1 else 0 {
      ClaimsOfSnoc(labels, l, id);
    }
    forall id | 0 <= id < |t'| ensures RowOk(t'[id]) && t'[id].attempts == ClaimsOf(labels', id) {
      StepKeepsRow(t, labels, l, t', id);
    }
    StepKeepsClaims(t, labels, l, t');
  }

  lemma StepKeepsClaims(t: Table, labels: seq<Label>, l: Label, t': Table)
    requires Inv(t, labels) && Step(t, l, t')
    requires l.Finished? || l.Aborted? ==> Issued(labels, l.claim)
    ensures forall j: nat | j <= |labels| :: ClaimOk(t', labels + [l], j)
    ensures |t| <= |t'|
    ensures forall id: nat | |t'| <= id :: !ClaimsRow(l, id)
  {
    var labels' := labels + [l];
    forall j: nat | j < |labels'| ensures ClaimOk(t', labels', j) {
      if j < |labels| {
        assert ClaimOk(t, labels, j);
        assert labels'[..j] == labels[..j] && labels'[j] == labels[j];
        if labels[j].Polled? && labels[j].got.Some? {
          StepKeepsRow(t, labels, l, t', labels[j].got.value.id);
        }
      } else {
        assert labels'[..j] == labels;
      }
    }
  }

  lemma {:induction false} RunKeepsInv(r: Run, n: nat)
    requires Valid(r) && n <= |r.labels|
    ensures Inv(r.states[n], r.labels[..n])
  {
    if n > 0 {
      RunKeepsInv(r, n - 1);
      StepKeepsInv(r.states[n - 1], r.labels[..n - 1], r.labels[n - 1], r.states[n]);
      assert r.labels[..n] == r.labels[..n - 1] + [r.labels[n - 1]];
    }
  }

  /** Attempts stay within the budget and an unleased open row always has one left. */
  lemma AttemptsStayWithinBudget(r: Run, n: nat, id: nat)
    requires Valid(r) && n <= |r.labels| && id < |r.states[n]|
    ensures r.states[n][id].attempts <= r.states[n][id].maxAttempts
    ensures r.states[n][id].phase.Waiting? ==> r.states[n][id].attempts < r.states[n][id].maxAttempts
  {
    RunKeepsInv(r, n);
  }

  // ---------------------------------------------------------------- fencing

  lemma {:induction false} ClaimsOfMonotone(labels: seq<Label>, id: nat, i: nat, j: nat)
    requires i <= j <= |labels|
    ensures ClaimsOf(labels[..i], id) <= ClaimsOf(labels[..j], id)
    ensures ClaimsOf(labels[..i], id) == ClaimsOf(labels[..j], id) ==>
              forall k | i <= k < j :: !ClaimsRow(labels[k], id)
    decreases j - i
  {
    if i < j {
      ClaimsOfMonotone(labels, id, i, j - 1);
      assert labels[..j] == labels[..j - 1] + [labels[j - 1]];
      ClaimsOfSnoc(labels[..j - 1], labels[j - 1], id);
    }
  }

  /** The claims of one row carry the attempts 1, 2, 3, ... in the order they are issued. */
  lemma ClaimsCountUp(r: Run, i: nat, id: nat)
    requires Valid(r) && i < |r.labels| && ClaimsRow(r.labels[i], id)
    ensures r.labels[i].got.value.attempt == ClaimsOf(r.labels[..i], id) + 1
  {
    RunKeepsInv(r, |r.labels|);
    assert r.labels[..|r.labels|] == r.labels;
    assert ClaimOk(r.states[|r.labels|], r.labels, i);
    assert r.labels[..|r.labels|][..i] == r.labels[..i];
  }

  /** What ends the authority of claim `c`: a newer claim of its row, an accepted completion,
      or a poll that finds its final lease expired. */
  predicate Supersedes(l: Label, c: Claim) {
    || ClaimsRow(l, c.id)
    || Accepts(l, c.id)
    || (l.Polled? && c.id in l.scope && c.until <= l.now && c.maxAttempts <= c.attempt)
  }

  ghost predicate Standing(labels: seq<Label>, j: nat, m: nat, c: Claim) {
    forall k | j < k < m && k < |labels| :: !Supersedes(labels[k], c)
  }

  /** The row of claim `c`, as long as the claim stands. */
  function HeldRow(c: Claim, holder: Option<string>): Row {
    Row(Leased(Some(c.until), holder), c.attempt, c.maxAttempts)
  }

  /** The row of claim `c` has moved past it. */
  predicate Past(row: Row, c: Claim) {
    c.attempt < row.attempts || (c.attempt == row.attempts && !row.phase.Leased?)
  }

  lemma FateStepInRun(r: Run, j: nat, n: nat)
    requires Valid(r) && j < n < |r.labels|
    requires r.labels[j].Polled? && r.labels[j].got.Some?
    requires
      var c := r.labels[j].got.value;
      && c.id < |r.states[n]|
      && (r.states[n][c.id] == HeldRow(c, r.labels[j].holder) || Past(r.states[n][c.id], c))
    ensures
      var c := r.labels[j].got.value;
      && c.id < |r.states[n + 1]|
      && (if r.states[n][c.id] == HeldRow(c, r.labels[j].holder) && !Supersedes(r.labels[n], c)
          then r.states[n + 1][c.id] == HeldRow(c, r.labels[j].holder)
          else Past(r.states[n + 1][c.id], c))
  {
  }

  lemma FateStart(r: Run, j: nat)
    requires Valid(r) && j < |r.labels|
    requires r.labels[j].Polled? && r.labels[j].got.Some?
    ensures
      var c := r.labels[j].got.value;
      c.id < |r.states[j + 1]| && r.states[j + 1][c.id] == HeldRow(c, r.labels[j].holder)
  {
  }

  lemma {:induction false} ClaimFate(r: Run, j: nat, m: nat)
    requires Valid(r) && j < m <= |r.labels|
    requires r.labels[j].Polled? && r.labels[j].got.Some?
    ensures
      var c := r.labels[j].got.value;
      && c.id < |r.states[m]|
      && if Standing(r.labels, j, m, c)
         then r.states[m][c.id] == HeldRow(c, r.labels[j].holder)
         else Past(r.states[m][c.id], c)
    decreases m - j
  {
    var c := r.labels[j].got.value;
    if j + 1 == m {
      FateStart(r, j);
    } else {
      ClaimFate(r, j, m - 1);
      FateStepInRun(r, j, m - 1);
      assert Standing(r.labels, j, m, c) <==> Standing(r.labels, j, m - 1, c) && !Supersedes(r.labels[m - 1], c);
    }
  }

  /** Fencing, exactly: a completion is accepted if and only if it comes from the holder the
      claim was issued to and nothing has superseded the claim. In particular a claim is
      dead as soon as its row is claimed again. */
  lemma CompletionAcceptedIff(r: Run, j: nat, i: nat)
    requires Valid(r) && j < i < |r.labels|
    requires r.labels[j].Polled? && r.labels[j].got.Some?
    requires Completes(r.labels[i], r.labels[j].got.value)
    ensures r.labels[i].accepted <==>
              && r.labels[i].holder == r.labels[j].holder
              && Standing(r.labels, j, i, r.labels[j].got.value)
  {
    ClaimFate(r, j, i);
    assert Step(r.states[i], r.labels[i], r.states[i + 1]);
  }

  // ---------------------------------------------------------------- terminal rows

  lemma StepKeepsClosed(t: Table, l: Label, t': Table, id: nat)
    requires Step(t, l, t') && id < |t| && t[id].phase.Closed?
    ensures id < |t'| && t'[id] == t[id]
  {
  }

  /** A closed row never changes again. */
  lemma {:induction false} ClosedForGood(r: Run, i: nat, j: nat, id: nat)
    requires Valid(r) && i <= j <= |r.labels|
    requires id < |r.states[i]| && r.states[i][id].phase.Closed?
    ensures id < |r.states[j]| && r.states[j][id] == r.states[i][id]
    decreases j - i
  {
    if i < j {
      ClosedForGood(r, i, j - 1, id);
      StepKeepsClosed(r.states[j - 1], r.labels[j - 1], r.states[j], id);
    }
  }

  /** After an accepted success nothing about the row is ever accepted again. */
  lemma AtMostOneSuccess(r: Run, i: nat, j: nat, id: nat)
    requires Valid(r) && i < |r.labels| && j < |r.labels|
    requires r.labels[i].Finished? && Accepts(r.labels[i], id)
    requires Accepts(r.labels[j], id)
    ensures j <= i
    ensures r.labels[j].Finished? ==> i == j
  {
    assert Step(r.states[i], r.labels[i], r.states[i + 1]);
    assert Step(r.states[j], r.labels[j], r.states[j + 1]);
    if i < j {
      ClosedForGood(r, i + 1, j, id);
    } else if j < i && r.labels[j].Finished? {
      ClosedForGood(r, j + 1, i, id);
    }
  }

  // ---------------------------------------------------------------- bounded work

  lemma {:induction false} SumsAfterUpdate(t: Table, id: nat, row: Row)
    requires id < |t|
    ensures SumAttempts(t[id := row]) == SumAttempts(t) - t[id].attempts + row.attempts
    ensures SumMaxAttempts(t[id := row]) == SumMaxAttempts(t) - t[id].maxAttempts + row.maxAttempts
    decreases |t|
  {
    var init := t[..|t| - 1];
    if id == |t| - 1 {
      assert t[id := row][..|t| - 1] == init;
    } else {
      assert t[id := row][..|t| - 1] == init[id := row];
      SumsAfterUpdate(init, id, row);
    }
  }

  lemma {:induction false} SumsAgree(t: Table, t': Table)
    requires |t| == |t'|
    requires forall i | 0 <= i < |t| :: t[i].attempts == t'[i].attempts && t[i].maxAttempts == t'[i].maxAttempts
    ensures SumAttempts(t) == SumAttempts(t') && SumMaxAttempts(t) == SumMaxAttempts(t')
  {
    if t != [] {
      SumsAgree(t[..|t| - 1], t'[..|t| - 1]);
    }
  }

  lemma StepCountsClaims(t: Table, l: Label, t': Table)
    requires Step(t, l, t')
    ensures SumAttempts(t') == SumAttempts(t) + if l.Polled? && l.got.Some? then 1 else 0
    ensures !l.Admitted? ==> SumMaxAttempts(t') == SumMaxAttempts(t)
    ensures l.Admitted? ==> SumMaxAttempts(t') == SumMaxAttempts(t) + l.maxAttempts
  {
    match l
    case Admitted(ready, maxAttempts) =>
      assert t'[..|t|] == t;
    case Polled(now, lease, holder, scope, got) =>
      var swept := Sweep(t, now, scope);
      SumsAgree(t, swept);
      if got.Some? {
        SumsAfterUpdate(swept, got.value.id, t'[got.value.id]);
      }
    case _ =>
      SumsAgree(t, t');
  }

  lemma {:induction false} AttemptsWithinMax(t: Table)
    requires forall i | 0 <= i < |t| :: t[i].attempts <= t[i].maxAttempts
    ensures SumAttempts(t) <= SumMaxAttempts(t)
  {
    if t != [] {
      AttemptsWithinMax(t[..|t| - 1]);
    }
  }

  /** The number of claims handed out equals the attempts recorded, hence is bounded by the
      admitted budgets, whatever the interleaving and the clocks. */
  lemma {:induction false} ClaimsAreBounded(r: Run, n: nat)
    requires Valid(r) && n <= |r.labels|
    ensures TotalClaims(r.labels[..n]) == SumAttempts(r.states[n]) <= SumMaxAttempts(r.states[n])
  {
    RunKeepsInv(r, n);
    AttemptsWithinMax(r.states[n]);
    if n > 0 {
      ClaimsAreBounded(r, n - 1);
      StepCountsClaims(r.states[n - 1], r.labels[n - 1], r.states[n]);
      assert r.labels[..n][..n - 1] == r.labels[..n - 1];
    }
  }

  // ---------------------------------------------------------------- mutual exclusion of leases

  /** One shared clock that never goes back. */
  ghost predicate Monotone(labels: seq<Label>) {
    forall i, j | 0 <= i < j < |labels| && labels[i].Polled? && labels[j].Polled? ::
      labels[i].now <= labels[j].now
  }

  /** Claim `c`, issued by label `j`, was given up by an accepted failure in labels (j, m). */
  ghost predicate GivenUp(labels: seq<Label>, j: nat, m: nat, c: Claim) {
    exists k | j < k < m && k < |labels| :: labels[k].Aborted? && labels[k].accepted && labels[k].claim == c
  }

  /** Two issued claims with the same row and attempt are the same claim. */
  lemma SameAttemptSameClaim(r: Run, j: nat, i: nat)
    requires Valid(r) && j < i < |r.labels|
    requires r.labels[j].Polled? && r.labels[j].got.Some?
    requires r.labels[i].Finished? || r.labels[i].Aborted?
    requires r.labels[i].claim.id == r.labels[j].got.value.id
    requires r.labels[i].claim.attempt == r.labels[j].got.value.attempt
    ensures r.labels[i].claim == r.labels[j].got.value
  {
    var c := r.labels[j].got.value;
    var k: nat :| k < i && r.labels[..i][k].Polled? && r.labels[..i][k].got == Some(r.labels[i].claim);
    assert r.labels[..i][k] == r.labels[k];
    ClaimsCountUp(r, j, c.id);
    ClaimsCountUp(r, k, c.id);
    if k < j {
      LaterClaimCountsMore(r.labels, c.id, k, j);
    } else if j < k {
      LaterClaimCountsMore(r.labels, c.id, j, k);
    }
  }

  lemma LaterClaimCountsMore(labels: seq<Label>, id: nat, i: nat, j: nat)
    requires i < j <= |labels| && ClaimsRow(labels[i], id)
    ensures ClaimsOf(labels[..i], id) < ClaimsOf(labels[..j], id)
  {
    assert labels[..i + 1] == labels[..i] + [labels[i]];
    ClaimsOfSnoc(labels[..i], labels[i], id);
    ClaimsOfMonotone(labels, id, i + 1, j);
  }

  lemma {:induction false} FirstSuperseding(labels: seq<Label>, j: nat, m: nat, c: Claim) returns (k: nat)
    requires j < m <= |labels| && !Standing(labels, j, m, c)
    ensures j < k < m && Supersedes(labels[k], c) && Standing(labels, j, k, c)
    decreases m - j
  {
    if Standing(labels, j, m - 1, c) {
      k := m - 1;
    } else {
      k := FirstSuperseding(labels, j, m - 1, c);
    }
  }

  /** On one clock, a row is claimed again before an earlier lease ends only when the holder
      itself gave that claim up through an accepted failure. */
  lemma LeasesExcludeEachOther(r: Run, j: nat, i: nat)
    requires Valid(r) && Monotone(r.labels) && j < i < |r.labels|
    requires r.labels[j].Polled? && r.labels[j].got.Some?
    requires ClaimsRow(r.labels[i], r.labels[j].got.value.id)
    requires r.labels[i].now < r.labels[j].got.value.until
    ensures GivenUp(r.labels, j, i, r.labels[j].got.value)
  {
    var c := r.labels[j].got.value;
    ClaimFate(r, j, i);
    assert Step(r.states[i], r.labels[i], r.states[i + 1]);
    var k := FirstSuperseding(r.labels, j, i, c);
    ClaimFate(r, j, k);
    assert Step(r.states[k], r.labels[k], r.states[k + 1]);
    SameAttemptSameClaim(r, j, k);
    if r.labels[k].Finished? {
      ClosedForGood(r, k + 1, i, c.id);
    }
  }

  // ---------------------------------------------------------------- attempts left

  function RowRemaining(row: Row): nat {
    if row.phase.Closed? || row.maxAttempts <= row.attempts then 0 else row.maxAttempts - row.attempts
  }

  /** Attempts still available to open rows. */
  function Remaining(t: Table): nat {
    if t == [] then 0 else Remaining(t[..|t| - 1]) + RowRemaining(t[|t| - 1])
  }

  lemma {:induction false} RemainingPointwise(t: Table, t': Table)
    requires |t| == |t'| && forall i | 0 <= i < |t| :: RowRemaining(t'[i]) <= RowRemaining(t[i])
    ensures Remaining(t') <= Remaining(t)
    ensures (exists i | 0 <= i < |t| :: RowRemaining(t'[i]) < RowRemaining(t[i])) ==> Remaining(t') < Remaining(t)
  {
    if t != [] {
      var n := |t| - 1;
      RemainingPointwise(t[..n], t'[..n]);
      if i :| 0 <= i < n && RowRemaining(t'[i]) < RowRemaining(t[i]) {
        assert RowRemaining(t'[..n][i]) < RowRemaining(t[..n][i]);
      }
    }
  }

  /** A claim and the report on it, with no other transaction in between: the report is accepted, one
      attempt is spent and the row is no longer leased. */
  lemma ClaimThenReport(t: Table, claim: Label, t': Table, report: Label, t'': Table)
    requires claim.Polled? && claim.got.Some? && Step(t, claim, t')
    requires (report.Finished? || report.Aborted?) && report.claim == claim.got.value && report.holder == claim.holder
    requires Step(t', report, t'')
    ensures report.accepted
    ensures var id := claim.got.value.id;
            && |t''| == |t| && id < |t| && !t''[id].phase.Leased? && t''[id].attempts == t[id].attempts + 1
    ensures Remaining(t'') < Remaining(t)
  {
    var id := claim.got.value.id;
    assert Holds(t', claim.got.value, claim.holder);
    forall i | 0 <= i < |t| ensures RowRemaining(t''[i]) <= RowRemaining(t[i]) {
    }
    assert RowRemaining(t''[id]) < RowRemaining(t[id]);
    RemainingPointwise(t, t'');
  }

  lemma IdlePoll(t: Table, poll: Label, t': Table)
    requires poll.Polled? && poll.got.None? && Step(t, poll, t')
    ensures |t'| == |t| && Remaining(t') <= Remaining(t)
  {
    forall i | 0 <= i < |t| ensures RowRemaining(t'[i]) <= RowRemaining(t[i]) {
    }
    RemainingPointwise(t, t');
  }
}
