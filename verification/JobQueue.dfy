/** The durable job table and the transactions its workers run on it. */
module JobQueue {
  import opened Wrappers
  import opened RetryPolicy
  import L = LeasedQueue

  datatype Status = Pending | Running | Succeeded | Failed | Cancelled

  datatype Job = Job(
    kind: string,
    key: string,
    payload: string,
    status: Status,
    runAt: int,
    attempts: nat,
    maxAttempts: nat,
    lockedAt: Option<int>,
    lockedUntil: Option<int>,
    lockedBy: Option<string>,
    completedAt: Option<int>,
    lastError: Option<string>)

  datatype JobClaim = JobClaim(
    id: nat, kind: string, key: string, payload: string,
    attempt: nat, maxAttempts: nat, leasedUntil: int)

  datatype EnqueueResult = EnqueueResult(id: nat, created: bool)

  datatype QueueError = InvalidArgument | IdempotencyConflict

  type Kinds = Option<set<string>>

  // ---------------------------------------------------------------- row predicates

  predicate InScope(job: Job, kinds: Kinds) {
    kinds.None? || job.kind in kinds.value
  }

  predicate LeaseOver(job: Job, now: int) {
    job.status.Running? && (job.lockedUntil.None? || job.lockedUntil.value <= now)
  }

  predicate Eligible(job: Job, now: int, kinds: Kinds) {
    && job.attempts < job.maxAttempts
    && InScope(job, kinds)
    && ((job.status.Pending? && job.runAt <= now) || LeaseOver(job, now))
  }

  /** The claim order: pending rows first, then by run time, then by row id. */
  predicate Precedes(rows: seq<Job>, i: nat, j: nat)
    requires i < |rows| && j < |rows|
  {
    if rows[i].status.Pending? != rows[j].status.Pending? then rows[i].status.Pending?
    else if rows[i].runAt != rows[j].runAt then rows[i].runAt < rows[j].runAt
    else i < j
  }

  function Released(job: Job, now: int, status: Status, error: Option<string>): Job {
    job.(status := status, completedAt := Some(now), lockedAt := None, lockedUntil := None,
         lockedBy := None, lastError := error)
  }

  function SweepJob(job: Job, now: int, kinds: Kinds): Job {
    if InScope(job, kinds) && LeaseOver(job, now) && job.maxAttempts <= job.attempts
    then Released(job, now, Failed, Some("LeaseExpired"))
    else job
  }

  function Sweep(rows: seq<Job>, now: int, kinds: Kinds): (r: seq<Job>)
    ensures |r| == |rows|
  {
    seq(|rows|, i requires 0 <= i < |rows| => SweepJob(rows[i], now, kinds))
  }

  predicate IsFirst(rows: seq<Job>, now: int, kinds: Kinds, id: nat) {
    && id < |rows| && Eligible(rows[id], now, kinds)
    && forall j: nat | j < |rows| && Eligible(rows[j], now, kinds) && j != id :: Precedes(rows, id, j)
  }

  function FirstEligible(rows: seq<Job>, now: int, kinds: Kinds): (first: Option<nat>)
    ensures first.None? ==> forall j | 0 <= j < |rows| :: !Eligible(rows[j], now, kinds)
    ensures first.Some? ==> IsFirst(rows, now, kinds, first.value)
  {
    if rows == [] then None
    else
      var last := |rows| - 1;
      var best := FirstEligible(rows[..last], now, kinds);
      if Eligible(rows[last], now, kinds) && (best.None? || Precedes(rows, last, best.value))
      then Some(last) else best
  }

  /** Sweeping never touches an eligible row, so it changes neither who is eligible nor who is first. */
  lemma SweepKeepsEligible(rows: seq<Job>, now: int, kinds: Kinds)
    ensures forall i | 0 <= i < |rows| :: Eligible(rows[i], now, kinds) == Eligible(Sweep(rows, now, kinds)[i], now, kinds)
  {
  }

  lemma SweepKeepsFirst(rows: seq<Job>, now: int, kinds: Kinds, id: nat)
    requires IsFirst(Sweep(rows, now, kinds), now, kinds, id)
    ensures IsFirst(rows, now, kinds, id) && Sweep(rows, now, kinds)[id] == rows[id]
  {
    var swept := Sweep(rows, now, kinds);
    SweepKeepsEligible(rows, now, kinds);
    forall j: nat | j < |rows| && Eligible(rows[j], now, kinds) && j != id ensures Precedes(rows, id, j) {
      assert swept[j] == rows[j] && Precedes(swept, id, j);
    }
  }

  function IndexOfKey(rows: seq<Job>, key: string): (i: Option<nat>)
    ensures i.Some? ==> i.value < |rows| && rows[i.value].key == key
    ensures i.None? ==> forall j | 0 <= j < |rows| :: rows[j].key != key
  {
    if rows == [] then None
    else if rows[|rows| - 1].key == key then Some(|rows| - 1)
    else IndexOfKey(rows[..|rows| - 1], key)
  }

  /** The unique constraint on idempotency keys. */
  ghost predicate KeysDistinct(rows: seq<Job>) {
    forall i, j | 0 <= i < j < |rows| :: rows[i].key != rows[j].key
  }

  predicate Owned(rows: seq<Job>, c: JobClaim, worker: string) {
    && c.id < |rows|
    && rows[c.id].status.Running?
    && rows[c.id].attempts == c.attempt
    && rows[c.id].lockedBy == Some(worker)
  }

  // ---------------------------------------------------------------- transactions as relations

  datatype Event =
    | Enqueue(kind: string, key: string, payload: string, at: int, maxAttempts: nat, extend: bool)
    | ClaimDue(now: int, lease: int, worker: string, kinds: Kinds, got: Option<JobClaim>)
    | Succeed(claim: JobClaim, worker: string, now: int, accepted: bool)
    | Fail(claim: JobClaim, worker: string, now: int, delay: int, error: string, accepted: bool)
    | Redact(before: int, ids: set<nat>)

  function NewJob(e: Event): Job
    requires e.Enqueue?
  {
    Job(e.kind, e.key, e.payload, Pending, e.at, 0, e.maxAttempts, None, None, None, None, None)
  }

  predicate Defers(rows: seq<Job>, e: Event, id: nat)
    requires e.Enqueue?
  {
    && id < |rows| && rows[id].key == e.key
    && rows[id].kind == e.kind && rows[id].payload == e.payload
    && e.extend && rows[id].status.Pending? && rows[id].runAt < e.at
  }

  function AfterFail(job: Job, c: JobClaim, now: int, delay: int, error: string): Job {
    if c.maxAttempts <= c.attempt
    then Released(job, now, Failed, Some(error)).(runAt := now)
    else Released(job, now, Pending, Some(error)).(runAt := now + delay, completedAt := None)
  }

  /** The diagnostics of jobs that failed before an instant may be cleared. */
  predicate Redactable(job: Job, before: int) {
    job.status.Failed? && job.completedAt.Some? && job.completedAt.value < before
  }

  function Redacted(rows: seq<Job>, ids: set<nat>): (r: seq<Job>)
    ensures |r| == |rows|
  {
    seq(|rows|, i requires 0 <= i < |rows| => if i in ids then rows[i].(lastError := None) else rows[i])
  }

  ghost predicate Transition(rows: seq<Job>, e: Event, rows': seq<Job>) {
    match e
    case Enqueue(kind, key, payload, at, maxAttempts, extend) =>
      0 < maxAttempts &&
      (match IndexOfKey(rows, key)
       case None => rows' == rows + [NewJob(e)]
       case Some(i) => rows' == if Defers(rows, e, i) then rows[i := rows[i].(runAt := at)] else rows)
    case ClaimDue(now, lease, worker, kinds, got) =>
      var swept := Sweep(rows, now, kinds);
      (match got
       case None =>
         rows' == swept && forall j | 0 <= j < |rows| :: !Eligible(rows[j], now, kinds)
       case Some(c) =>
         && 0 < lease
         && IsFirst(rows, now, kinds, c.id)
         && var job := rows[c.id];
            && c == JobClaim(c.id, job.kind, job.key, job.payload, job.attempts + 1, job.maxAttempts, now + lease)
            && rows' == swept[c.id := job.(status := Running, attempts := c.attempt, lockedAt := Some(now),
                                           lockedUntil := Some(now + lease), lockedBy := Some(worker),
                                           lastError := None)])
    case Succeed(c, worker, now, accepted) =>
      && accepted == Owned(rows, c, worker)
      && rows' == if accepted then rows[c.id := Released(rows[c.id], now, Succeeded, None)] else rows
    case Fail(c, worker, now, delay, error, accepted) =>
      && accepted == Owned(rows, c, worker)
      && rows' == if accepted then rows[c.id := AfterFail(rows[c.id], c, now, delay, error)] else rows
    case Redact(before, ids) =>
      (forall i | i in ids :: i < |rows| && Redactable(rows[i], before)) && rows' == Redacted(rows, ids)
  }

  // ---------------------------------------------------------------- what a poll does to the rows

  /** The claimed job is due, no pending job was passed over for a running one, and among jobs of the
      same status the earliest run time goes first, then the smallest id. */
  lemma ClaimedIsFirstInLine(rows: seq<Job>, e: Event, rows': seq<Job>)
    requires e.ClaimDue? && e.got.Some? && Transition(rows, e, rows')
    ensures var id := e.got.value.id;
            && id < |rows| && rows[id].attempts < rows[id].maxAttempts && (e.kinds.None? || rows[id].kind in e.kinds.value)
            && ((rows[id].status == Pending && rows[id].runAt <= e.now)
                || (rows[id].status == Running && (rows[id].lockedUntil.None? || rows[id].lockedUntil.value <= e.now)))
            && (forall k | 0 <= k < |rows| && (e.kinds.None? || rows[k].kind in e.kinds.value) && rows[k].attempts < rows[k].maxAttempts ::
                  && (rows[k].status == Pending && rows[k].runAt <= e.now ==>
                        rows[id].status == Pending && (rows[id].runAt < rows[k].runAt || (rows[id].runAt == rows[k].runAt && id <= k)))
                  && (rows[k].status == rows[id].status == Running && (rows[k].lockedUntil.None? || rows[k].lockedUntil.value <= e.now) ==>
                        rows[id].runAt < rows[k].runAt || (rows[id].runAt == rows[k].runAt && id <= k)))
  {
    var id := e.got.value.id;
    forall k | 0 <= k < |rows| && Eligible(rows[k], e.now, e.kinds) && k != id ensures Precedes(rows, id, k) {
    }
  }

  /** A poll that claims nothing leaves no job of the wanted kinds that is due and has an attempt left. */
  lemma IdleMeansNothingDue(rows: seq<Job>, e: Event, rows': seq<Job>, k: nat)
    requires e.ClaimDue? && e.got.None? && Transition(rows, e, rows') && k < |rows|
    requires (e.kinds.None? || rows[k].kind in e.kinds.value) && rows[k].attempts < rows[k].maxAttempts
    ensures rows[k].status == Pending ==> e.now < rows[k].runAt
    ensures rows[k].status == Running ==> rows[k].lockedUntil.Some? && e.now < rows[k].lockedUntil.value
  {
    assert !Eligible(rows[k], e.now, e.kinds);
  }

  /** Every row after a poll, column by column: the claimed one is leased to the worker, a running one
      whose lease is over and whose attempts are used up has failed, the others are untouched. */
  lemma RowAfterPoll(rows: seq<Job>, e: Event, rows': seq<Job>, k: nat)
    requires e.ClaimDue? && Transition(rows, e, rows') && k < |rows|
    ensures |rows'| == |rows|
    ensures var job := rows[k];
            rows'[k] ==
            if e.got.Some? && e.got.value.id == k then
              Job(job.kind, job.key, job.payload, Running, job.runAt, job.attempts + 1, job.maxAttempts,
                  Some(e.now), Some(e.now + e.lease), Some(e.worker), job.completedAt, None)
            else if job.status == Running && (job.lockedUntil.None? || job.lockedUntil.value <= e.now)
                    && job.attempts >= job.maxAttempts && (e.kinds.None? || job.kind in e.kinds.value) then
              Job(job.kind, job.key, job.payload, Failed, job.runAt, job.attempts, job.maxAttempts,
                  None, None, None, Some(e.now), Some("LeaseExpired"))
            else job
  {
  }

  /** Enqueueing changes an existing job only by putting it off: a pending one of the same kind and payload,
      on request, to a later time. */
  lemma RowAfterEnqueue(rows: seq<Job>, e: Event, rows': seq<Job>, k: nat)
    requires e.Enqueue? && Transition(rows, e, rows') && KeysDistinct(rows) && k < |rows|
    ensures |rows| <= |rows'|
    ensures var job := rows[k];
            rows'[k] ==
            if job.key == e.key && job.kind == e.kind && job.payload == e.payload
               && e.extend && job.status == Pending && job.runAt < e.at then
              Job(job.kind, job.key, job.payload, Pending, e.at, job.attempts, job.maxAttempts,
                  job.lockedAt, job.lockedUntil, job.lockedBy, job.completedAt, job.lastError)
            else job
  {
  }

  /** Retention clears the error text of jobs that failed before an instant, and nothing else. */
  lemma RowAfterRedact(rows: seq<Job>, e: Event, rows': seq<Job>, k: nat)
    requires e.Redact? && Transition(rows, e, rows') && k < |rows|
    ensures |rows'| == |rows|
    ensures rows'[k] == rows[k] ||
            (rows[k].status == Failed && rows[k].completedAt.Some? && rows[k].completedAt.value < e.before
             && rows'[k] == rows[k].(lastError := None))
  {
  }

  // ---------------------------------------------------------------- refinement

  function AbsPhase(job: Job): L.Phase {
    match job.status
    case Pending => L.Waiting(job.runAt)
    case Running => L.Leased(job.lockedUntil, job.lockedBy)
    case Succeeded => L.Closed(L.Succeeded)
    case Failed => L.Closed(L.Failed)
    case Cancelled => L.Closed(L.Cancelled)
  }

  function Abs(rows: seq<Job>): (t: L.Table)
    ensures |t| == |rows|
  {
    seq(|rows|, i requires 0 <= i < |rows| => L.Row(AbsPhase(rows[i]), rows[i].attempts, rows[i].maxAttempts))
  }

  function AbsClaim(c: JobClaim): L.Claim {
    L.Claim(c.id, c.attempt, c.maxAttempts, c.leasedUntil)
  }

  function Scope(rows: seq<Job>, kinds: Kinds): set<nat> {
    set i: nat | i < |rows| && InScope(rows[i], kinds)
  }

  function LabelOf(rows: seq<Job>, e: Event): L.Label {
    match e
    case Enqueue(_, key, _, at, maxAttempts, _) =>
      (match IndexOfKey(rows, key)
       case None => L.Admitted(at, maxAttempts)
       case Some(i) => if Defers(rows, e, i) then L.Deferred(i, at) else L.Unchanged)
    case ClaimDue(now, lease, worker, kinds, got) =>
      L.Polled(now, lease, Some(worker), Scope(rows, kinds),
               if got.Some? then Some(AbsClaim(got.value)) else None)
    case Succeed(c, worker, _, accepted) => L.Finished(AbsClaim(c), Some(worker), accepted)
    case Fail(c, worker, now, delay, _, accepted) => L.Aborted(AbsClaim(c), Some(worker), now, delay, accepted)
    case Redact(_, _) => L.Unchanged
  }

  lemma SweepRefines(rows: seq<Job>, now: int, kinds: Kinds)
    ensures Abs(Sweep(rows, now, kinds)) == L.Sweep(Abs(rows), now, Scope(rows, kinds))
  {
  }

  lemma AbsUpdate(rows: seq<Job>, id: nat, job: Job)
    requires id < |rows|
    ensures Abs(rows[id := job]) == Abs(rows)[id := L.Row(AbsPhase(job), job.attempts, job.maxAttempts)]
  {
  }

  lemma EnqueueRefines(rows: seq<Job>, e: Event, rows': seq<Job>)
    requires e.Enqueue? && Transition(rows, e, rows')
    ensures L.Step(Abs(rows), LabelOf(rows, e), Abs(rows'))
  {
  }

  lemma EligibleIsDue(rows: seq<Job>, i: nat, now: int, kinds: Kinds)
    requires i < |rows|
    ensures Eligible(rows[i], now, kinds) <==> i in Scope(rows, kinds) && L.Due(Abs(rows)[i], now)
  {
  }

  lemma IdleClaimRefines(rows: seq<Job>, now: int, kinds: Kinds)
    requires forall j | 0 <= j < |rows| :: !Eligible(rows[j], now, kinds)
    ensures forall i | i in Scope(rows, kinds) && i < |Abs(rows)| :: !L.Due(Abs(rows)[i], now)
  {
  }

  lemma ClaimDueRefines(rows: seq<Job>, e: Event, rows': seq<Job>)
    requires e.ClaimDue? && Transition(rows, e, rows')
    ensures L.Step(Abs(rows), LabelOf(rows, e), Abs(rows'))
  {
    var scope := Scope(rows, e.kinds);
    assert Abs(Sweep(rows, e.now, e.kinds)) == L.Sweep(Abs(rows), e.now, scope) by {
      SweepRefines(rows, e.now, e.kinds);
    }
    if e.got.None? {
      IdleClaimRefines(rows, e.now, e.kinds);
    } else {
      var c := e.got.value;
      EligibleIsDue(rows, c.id, e.now, e.kinds);
      AbsUpdate(Sweep(rows, e.now, e.kinds), c.id, rows'[c.id]);
      assert Abs(rows') == L.Sweep(Abs(rows), e.now, scope)[c.id :=
          L.Row(L.Leased(Some(e.now + e.lease), Some(e.worker)), c.attempt, c.maxAttempts)];
    }
  }

  lemma RedactRefines(rows: seq<Job>, ids: set<nat>)
    ensures Abs(Redacted(rows, ids)) == Abs(rows)
  {
  }

  lemma CompletionRefines(rows: seq<Job>, e: Event, rows': seq<Job>)
    requires (e.Succeed? || e.Fail?) && Transition(rows, e, rows')
    ensures L.Step(Abs(rows), LabelOf(rows, e), Abs(rows'))
  {
  }

  /** Every job transaction is one step of the leased queue. */
  lemma TransitionRefines(rows: seq<Job>, e: Event, rows': seq<Job>)
    requires Transition(rows, e, rows')
    ensures L.Step(Abs(rows), LabelOf(rows, e), Abs(rows'))
  {
    match e {
      case Enqueue(_, _, _, _, _, _) => EnqueueRefines(rows, e, rows');
      case ClaimDue(_, _, _, _, _) => ClaimDueRefines(rows, e, rows');
      case Redact(_, ids) => RedactRefines(rows, ids);
      case _ => CompletionRefines(rows, e, rows');
    }
  }

  // ---------------------------------------------------------------- runs of many workers

  ghost predicate IssuedTo(events: seq<Event>, c: JobClaim) {
    exists j | 0 <= j < |events| :: events[j].ClaimDue? && events[j].got == Some(c)
  }

  ghost predicate ValidRun(states: seq<seq<Job>>, events: seq<Event>) {
    && |states| == |events| + 1
    && states[0] == []
    && (forall i | 0 <= i < |events| :: Transition(states[i], events[i], states[i + 1]))
    && (forall i | 0 <= i < |events| && (events[i].Succeed? || events[i].Fail?) ::
          IssuedTo(events[..i], events[i].claim))
  }

  function AbsRun(states: seq<seq<Job>>, events: seq<Event>): L.Run
    requires |states| == |events| + 1
  {
    L.Run(seq(|states|, i requires 0 <= i < |states| => Abs(states[i])),
          seq(|events|, i requires 0 <= i < |events| => LabelOf(states[i], events[i])))
  }

  /** Hence everything proved of runs of the leased queue holds of the job table. */
  lemma RunRefines(states: seq<seq<Job>>, events: seq<Event>)
    requires ValidRun(states, events)
    ensures L.Valid(AbsRun(states, events))
  {
    var r := AbsRun(states, events);
    assert Abs([]) == [];
    forall i | 0 <= i < |r.labels| ensures L.Step(r.states[i], r.labels[i], r.states[i + 1]) {
      TransitionRefines(states[i], events[i], states[i + 1]);
    }
    forall i | 0 <= i < |r.labels| && (r.labels[i].Finished? || r.labels[i].Aborted?)
      ensures L.Issued(r.labels[..i], r.labels[i].claim)
    {
      var j :| 0 <= j < i && events[..i][j].ClaimDue? && events[..i][j].got == Some(events[i].claim);
      assert r.labels[..i][j].Polled? && r.labels[..i][j].got == Some(r.labels[i].claim);
    }
  }

  ghost predicate GivenUpByHandler(events: seq<Event>, j: nat, i: nat, c: JobClaim) {
    exists k | j < k < i && k < |events| :: events[k].Fail? && events[k].accepted && AbsClaim(events[k].claim) == AbsClaim(c)
  }

  lemma OneClock(states: seq<seq<Job>>, events: seq<Event>)
    requires |states| == |events| + 1
    requires forall a, b | 0 <= a < b < |events| && events[a].ClaimDue? && events[b].ClaimDue? ::
               events[a].now <= events[b].now
    ensures L.Monotone(AbsRun(states, events).labels)
  {
  }

  lemma ClaimLabel(states: seq<seq<Job>>, events: seq<Event>, i: nat)
    requires |states| == |events| + 1 && i < |events| && events[i].ClaimDue? && events[i].got.Some?
    ensures var l := AbsRun(states, events).labels[i];
            l.Polled? && l.now == events[i].now && l.got == Some(AbsClaim(events[i].got.value))
  {
  }

  lemma GivenUpMeans(states: seq<seq<Job>>, events: seq<Event>, j: nat, i: nat, c: JobClaim)
    requires |states| == |events| + 1 && L.GivenUp(AbsRun(states, events).labels, j, i, AbsClaim(c))
    ensures GivenUpByHandler(events, j, i, c)
  {
  }

  /** On one non-decreasing clock, no job is handed to a second worker, or again to the same one, while
      an earlier lease runs, unless a failure of the earlier claim was accepted. */
  lemma NoConcurrentHandlers(states: seq<seq<Job>>, events: seq<Event>, j: nat, i: nat)
    requires ValidRun(states, events) && j < i < |events|
    requires forall a, b | 0 <= a < b < |events| && events[a].ClaimDue? && events[b].ClaimDue? ::
               events[a].now <= events[b].now
    requires events[j].ClaimDue? && events[j].got.Some?
    requires events[i].ClaimDue? && events[i].got.Some? && events[i].got.value.id == events[j].got.value.id
    requires events[i].now < events[j].got.value.leasedUntil
    ensures GivenUpByHandler(events, j, i, events[j].got.value)
  {
    RunRefines(states, events);
    OneClock(states, events);
    ClaimLabel(states, events, j);
    ClaimLabel(states, events, i);
    L.LeasesExcludeEachOther(AbsRun(states, events), j, i);
    GivenUpMeans(states, events, j, i, events[j].got.value);
  }

  predicate Terminal(job: Job) {
    job.status.Succeeded? || job.status.Failed? || job.status.Cancelled?
  }

  lemma StepKeepsFinished(rows: seq<Job>, e: Event, rows': seq<Job>, id: nat)
    requires Transition(rows, e, rows') && id < |rows| && Terminal(rows[id])
    ensures id < |rows'|
    ensures rows'[id] == if e.Redact? && id in e.ids then rows[id].(lastError := None) else rows[id]
    ensures e.Redact? && id in e.ids ==> rows[id].status.Failed?
  {
  }

  /** No queue transaction ever writes a finished job again; all that can change is that retention
      clears the diagnostics of a failed one. */
  lemma {:induction false} FinishedJobsAreFrozen(states: seq<seq<Job>>, events: seq<Event>, i: nat, j: nat, id: nat)
    requires ValidRun(states, events) && i <= j < |states|
    requires id < |states[i]| && Terminal(states[i][id])
    ensures id < |states[j]|
    ensures states[j][id] == states[i][id] || (states[i][id].status.Failed? && states[j][id] == states[i][id].(lastError := None))
    ensures (forall k | i <= k < j :: !events[k].Redact?) ==> states[j][id] == states[i][id]
    decreases j - i
  {
    if i < j {
      FinishedJobsAreFrozen(states, events, i, j - 1, id);
      assert Transition(states[j - 1], events[j - 1], states[j - 1 + 1]);
      StepKeepsFinished(states[j - 1], events[j - 1], states[j], id);
    }
  }

  function HandlerCalls(events: seq<Event>): nat {
    if events == [] then 0
    else HandlerCalls(events[..|events| - 1]) +
         if events[|events| - 1].ClaimDue? && events[|events| - 1].got.Some? then 1 else 0
  }

  function Budget(rows: seq<Job>): nat {
    if rows == [] then 0 else Budget(rows[..|rows| - 1]) + rows[|rows| - 1].maxAttempts
  }

  lemma {:induction false} BudgetIsAbstract(rows: seq<Job>)
    ensures Budget(rows) == L.SumMaxAttempts(Abs(rows))
  {
    if rows != [] {
      BudgetIsAbstract(rows[..|rows| - 1]);
      assert Abs(rows)[..|rows| - 1] == Abs(rows[..|rows| - 1]);
    }
  }

  lemma {:induction false} CallsAreAbstract(states: seq<seq<Job>>, events: seq<Event>, n: nat)
    requires |states| == |events| + 1 && n <= |events|
    ensures HandlerCalls(events[..n]) == L.TotalClaims(AbsRun(states, events).labels[..n])
  {
    if n > 0 {
      CallsAreAbstract(states, events, n - 1);
      assert events[..n][..n - 1] == events[..n - 1];
      assert AbsRun(states, events).labels[..n][..n - 1] == AbsRun(states, events).labels[..n - 1];
    }
  }

  /** Over a whole run, handlers are started at most as often as the admitted jobs allow. */
  lemma HandlerCallsAreBounded(states: seq<seq<Job>>, events: seq<Event>)
    requires ValidRun(states, events)
    ensures HandlerCalls(events) <= Budget(states[|events|])
  {
    RunRefines(states, events);
    L.ClaimsAreBounded(AbsRun(states, events), |events|);
    CallsAreAbstract(states, events, |events|);
    assert events[..|events|] == events;
    BudgetIsAbstract(states[|events|]);
  }

  // ---------------------------------------------------------------- the queue itself

  /** The shared database table. */
  class JobTable {
    var rows: seq<Job>

    constructor ()
      ensures rows == []
    {
      rows := [];
    }
  }

  /** One worker's handle on the table; any number of handles may share it. */
  class Queue {
    const table: JobTable
    const workerId: string
    const retryBase: int
    const retryCap: int

    constructor (table: JobTable, workerId: string, retryBase: int, retryCap: int)
      requires 0 < |workerId| <= 128 && PolicyOk(retryBase, retryCap)
      ensures this.table == table && this.workerId == workerId
      ensures this.retryBase == retryBase && this.retryCap == retryCap
    {
      this.table := table;
      this.workerId := workerId;
      this.retryBase := retryBase;
      this.retryCap := retryCap;
    }

    method Enqueue(kind: string, key: string, payload: string, runAt: Option<int>,
                   maxAttempts: int, extend: bool, now: int)
      returns (r: Result<EnqueueResult, QueueError>)
      modifies table
      ensures r == Failure(InvalidArgument) <==>
                kind == "" || 100 < |kind| || key == "" || 255 < |key| || maxAttempts < 1 || 100 < maxAttempts
      ensures r == Failure(IdempotencyConflict) <==>
                && EnqueueOk(kind, key, maxAttempts)
                && var i := IndexOfKey(old(table.rows), key);
                   i.Some? && (old(table.rows)[i.value].kind != kind || old(table.rows)[i.value].payload != payload)
      ensures r.Failure? ==> table.rows == old(table.rows)
      ensures r.Success? ==>
                && r.value.id < |table.rows| && table.rows[r.value.id].key == key
                && table.rows[r.value.id].kind == kind && table.rows[r.value.id].payload == payload
                && (r.value.created <==> IndexOfKey(old(table.rows), key).None?)
                && var at := if runAt.Some? then runAt.value else now;
                   Transition(old(table.rows), Event.Enqueue(kind, key, payload, at, maxAttempts, extend), table.rows)
      ensures old(KeysDistinct(table.rows)) ==> KeysDistinct(table.rows)
    {
      if !EnqueueOk(kind, key, maxAttempts) {
        return Failure(InvalidArgument);
      }
      var timestamp := if runAt.Some? then runAt.value else now;
      var existing := IndexOfKey(table.rows, key);
      if existing.None? {
        table.rows := table.rows +
        [Job(kind, key, payload, Pending, timestamp, 0, maxAttempts, None, None, None, None, None)];
        return Success(EnqueueResult(|table.rows| - 1, true));
      }
      var job := table.rows[existing.value];
      if job.kind != kind || job.payload != payload {
        return Failure(IdempotencyConflict);
      }
      if extend && job.status.Pending? && job.runAt < timestamp {
        table.rows := table.rows[existing.value := job.(runAt := timestamp)];
      }
      return Success(EnqueueResult(existing.value, false));
    }

    method ClaimDue(lease: int, kinds: Kinds, now: int) returns (r: Result<Option<JobClaim>, QueueError>)
      modifies table
      ensures r.Failure? <==> lease < 1_000_000 || 3_600_000_000 < lease
      ensures r.Failure? ==> table.rows == old(table.rows)
      ensures r.Success? ==>
                Transition(old(table.rows), Event.ClaimDue(now, lease, workerId, kinds, r.value), table.rows)
      // Pending before running, then by run time, then by id; the lemma above says it of every row.
      ensures r.Success? && r.value.Some? ==>
                var rows, id := old(table.rows), r.value.value.id;
                forall k | 0 <= k < |rows| && (kinds.None? || rows[k].kind in kinds.value) && rows[k].attempts < rows[k].maxAttempts
                           && rows[k].status == Pending && rows[k].runAt <= now ::
                  rows[id].status == Pending && (rows[id].runAt < rows[k].runAt || (rows[id].runAt == rows[k].runAt && id <= k))
      ensures old(KeysDistinct(table.rows)) ==> KeysDistinct(table.rows)
    {
      if !LeaseOk(lease) {
        return Failure(InvalidArgument);
      }
      ghost var before := table.rows;
      table.rows := Sweep(table.rows, now, kinds);
      SweepKeepsEligible(before, now, kinds);
      var candidate := FirstEligible(table.rows, now, kinds);
      if candidate.None? {
        return Success(None);
      }
      var id := candidate.value;
      var job := table.rows[id];
      SweepKeepsFirst(before, now, kinds, id);
      table.rows := table.rows[id := job.(status := Running, attempts := job.attempts + 1, lockedAt := Some(now),
                                          lockedUntil := Some(now + lease), lockedBy := Some(workerId),
                                          lastError := None)];
      r := Success(Some(JobClaim(id, job.kind, job.key, job.payload, job.attempts + 1, job.maxAttempts, now + lease)));
      ClaimedIsFirstInLine(before, Event.ClaimDue(now, lease, workerId, kinds, r.value), table.rows);
    }

    method Succeed(claim: JobClaim, now: int) returns (accepted: bool)
      modifies table
      ensures Transition(old(table.rows), Event.Succeed(claim, workerId, now, accepted), table.rows)
      ensures old(KeysDistinct(table.rows)) ==> KeysDistinct(table.rows)
    {
      accepted := Owned(table.rows, claim, workerId);
      if accepted {
        var job := table.rows[claim.id];
        table.rows := table.rows[claim.id :=
          job.(status := Succeeded, completedAt := Some(now), lockedAt := None, lockedUntil := None,
               lockedBy := None, lastError := None)];
      }
    }

    method Fail(claim: JobClaim, error: string, now: int) returns (accepted: bool)
      modifies table
      ensures Transition(old(table.rows),
                         Event.Fail(claim, workerId, now, RetryDelay(claim.attempt, retryBase, retryCap), error, accepted),
                         table.rows)
      ensures old(KeysDistinct(table.rows)) ==> KeysDistinct(table.rows)
    {
      var terminal := claim.maxAttempts <= claim.attempt;
      var delay := RetryDelay(claim.attempt, retryBase, retryCap);
      accepted := Owned(table.rows, claim, workerId);
      if accepted {
        var job := table.rows[claim.id];
        table.rows := table.rows[claim.id :=
          job.(status := if terminal then Failed else Pending,
               runAt := if terminal then now else now + delay,
               completedAt := if terminal then Some(now) else None,
               lockedAt := None, lockedUntil := None, lockedBy := None,
               lastError := Some(error))];
      }
    }
  }
}
