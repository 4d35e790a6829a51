/** The durable Telegram outbox. One column, `availableAt`, is the next-attempt instant while a
    row is pending and the lease deadline while it is being sent. */
module OutboxQueue {
  import opened Wrappers
  import opened RetryPolicy
  import L = LeasedQueue

  datatype Status = Pending | Sending | Sent | Failed | Cancelled

  datatype Message = Message(
    kind: string,
    key: string,
    payload: string,
    chatId: Option<int>,
    jobId: Option<int>,
    status: Status,
    availableAt: int,
    attempts: nat,
    maxAttempts: nat,
    lastError: Option<string>,
    messageId: Option<int>,
    sentAt: Option<int>)

  datatype OutboxClaim = OutboxClaim(
    id: nat, kind: string, key: string, chatId: Option<int>, payload: string,
    attempt: nat, maxAttempts: nat, leasedUntil: int)

  datatype EnqueueResult = EnqueueResult(id: nat, created: bool)

  datatype QueueError = InvalidArgument | IdempotencyConflict

  // ---------------------------------------------------------------- row predicates

  predicate Open(m: Message) {
    m.status.Pending? || m.status.Sending?
  }

  predicate Eligible(m: Message, now: int) {
    m.attempts < m.maxAttempts && m.availableAt <= now && Open(m)
  }

  /** The claim order: pending rows first, then by `availableAt`, then by row id. */
  predicate Precedes(rows: seq<Message>, i: nat, j: nat)
    requires i < |rows| && j < |rows|
  {
    if rows[i].status.Pending? != rows[j].status.Pending? then rows[i].status.Pending?
    else if rows[i].availableAt != rows[j].availableAt then rows[i].availableAt < rows[j].availableAt
    else i < j
  }

  function SweepMessage(m: Message, now: int): Message {
    if m.status.Sending? && m.availableAt <= now && m.maxAttempts <= m.attempts
    then m.(status := Failed, availableAt := now, lastError := Some("LeaseExpired"))
    else m
  }

  function Sweep(rows: seq<Message>, now: int): (r: seq<Message>)
    ensures |r| == |rows|
  {
    seq(|rows|, i requires 0 <= i < |rows| => SweepMessage(rows[i], now))
  }

  predicate IsFirst(rows: seq<Message>, now: int, id: nat) {
    && id < |rows| && Eligible(rows[id], now)
    && forall j: nat | j < |rows| && Eligible(rows[j], now) && j != id :: Precedes(rows, id, j)
  }

  function FirstEligible(rows: seq<Message>, now: int): (first: Option<nat>)
    ensures first.None? ==> forall j | 0 <= j < |rows| :: !Eligible(rows[j], now)
    ensures first.Some? ==> IsFirst(rows, now, first.value)
  {
    if rows == [] then None
    else
      var last := |rows| - 1;
      var best := FirstEligible(rows[..last], now);
      if Eligible(rows[last], now) && (best.None? || Precedes(rows, last, best.value))
      then Some(last) else best
  }

  function IndexOfKey(rows: seq<Message>, key: string): (i: Option<nat>)
    ensures i.Some? ==> i.value < |rows| && rows[i.value].key == key
    ensures i.None? ==> forall j | 0 <= j < |rows| :: rows[j].key != key
  {
    if rows == [] then None
    else if rows[|rows| - 1].key == key then Some(|rows| - 1)
    else IndexOfKey(rows[..|rows| - 1], key)
  }

  /** The unique constraint on idempotency keys. */
  ghost predicate KeysDistinct(rows: seq<Message>) {
    forall i, j | 0 <= i < j < |rows| :: rows[i].key != rows[j].key
  }

  predicate Owned(rows: seq<Message>, c: OutboxClaim) {
    && c.id < |rows|
    && rows[c.id].status.Sending?
    && rows[c.id].attempts == c.attempt
  }

  // ---------------------------------------------------------------- transactions as relations

  datatype Event =
    | Enqueue(kind: string, key: string, payload: string, chatId: Option<int>, jobId: Option<int>,
              at: int, maxAttempts: nat)
    | ClaimDue(now: int, lease: int, got: Option<OutboxClaim>)
    | MarkSent(claim: OutboxClaim, messageId: Option<int>, now: int, accepted: bool)
    | Fail(claim: OutboxClaim, now: int, delay: int, error: string, accepted: bool)

  function NewMessage(e: Event): Message
    requires e.Enqueue?
  {
    Message(e.kind, e.key, e.payload, e.chatId, e.jobId, Pending, e.at, 0, e.maxAttempts, None, None, None)
  }

  function AfterFail(m: Message, c: OutboxClaim, now: int, delay: int, error: string): Message {
    if c.maxAttempts <= c.attempt
    then m.(status := Failed, availableAt := now, lastError := Some(error))
    else m.(status := Pending, availableAt := now + delay, lastError := Some(error))
  }

  ghost predicate Transition(rows: seq<Message>, e: Event, rows': seq<Message>) {
    match e
    case Enqueue(_, key, _, _, _, _, maxAttempts) =>
      && 0 < maxAttempts
      && rows' == if IndexOfKey(rows, key).None? then rows + [NewMessage(e)] else rows
    case ClaimDue(now, lease, got) =>
      var swept := Sweep(rows, now);
      (match got
       case None =>
         rows' == swept && forall j | 0 <= j < |rows| :: !Eligible(rows[j], now)
       case Some(c) =>
         && 0 < lease
         && IsFirst(rows, now, c.id)
         && var m := rows[c.id];
            && c == OutboxClaim(c.id, m.kind, m.key, m.chatId, m.payload, m.attempts + 1, m.maxAttempts, now + lease)
            && rows' == swept[c.id := m.(status := Sending, attempts := c.attempt,
                                         availableAt := now + lease, lastError := None)])
    case MarkSent(c, messageId, now, accepted) =>
      && accepted == Owned(rows, c)
      && rows' == if accepted
                  then rows[c.id := rows[c.id].(status := Sent, sentAt := Some(now), messageId := messageId,
                                                availableAt := now, lastError := None)]
                  else rows
    case Fail(c, now, delay, error, accepted) =>
      && accepted == Owned(rows, c)
      && rows' == if accepted then rows[c.id := AfterFail(rows[c.id], c, now, delay, error)] else rows
  }

  // ---------------------------------------------------------------- what a poll does to the rows

  /** The claimed message is due, no pending one was passed over for one being sent, and among messages
      of the same status the earliest `availableAt` goes first, then the smallest id. */
  lemma ClaimedIsFirstInLine(rows: seq<Message>, e: Event, rows': seq<Message>)
    requires e.ClaimDue? && e.got.Some? && Transition(rows, e, rows')
    ensures var id := e.got.value.id;
            && id < |rows| && rows[id].attempts < rows[id].maxAttempts && rows[id].availableAt <= e.now
            && (rows[id].status == Pending || rows[id].status == Sending)
            && (forall k | 0 <= k < |rows| && rows[k].attempts < rows[k].maxAttempts && rows[k].availableAt <= e.now ::
                  && (rows[k].status == Pending ==>
                        rows[id].status == Pending &&
                        (rows[id].availableAt < rows[k].availableAt || (rows[id].availableAt == rows[k].availableAt && id <= k)))
                  && (rows[k].status == rows[id].status == Sending ==>
                        rows[id].availableAt < rows[k].availableAt || (rows[id].availableAt == rows[k].availableAt && id <= k)))
  {
    var id := e.got.value.id;
    forall k | 0 <= k < |rows| && Eligible(rows[k], e.now) && k != id ensures Precedes(rows, id, k) {
    }
  }

  /** A poll that claims nothing leaves no message that is due and has an attempt left. */
  lemma IdleMeansNothingDue(rows: seq<Message>, e: Event, rows': seq<Message>, k: nat)
    requires e.ClaimDue? && e.got.None? && Transition(rows, e, rows') && k < |rows| && rows[k].attempts < rows[k].maxAttempts
    ensures rows[k].status == Pending || rows[k].status == Sending ==> e.now < rows[k].availableAt
  {
    assert !Eligible(rows[k], e.now);
  }

  /** Every row after a poll, column by column. */
  lemma RowAfterPoll(rows: seq<Message>, e: Event, rows': seq<Message>, k: nat)
    requires e.ClaimDue? && Transition(rows, e, rows') && k < |rows|
    ensures |rows'| == |rows|
    ensures var m := rows[k];
            rows'[k] ==
            if e.got.Some? && e.got.value.id == k then
              Message(m.kind, m.key, m.payload, m.chatId, m.jobId, Sending, e.now + e.lease, m.attempts + 1, m.maxAttempts,
                      None, m.messageId, m.sentAt)
            else if m.status == Sending && m.availableAt <= e.now && m.attempts >= m.maxAttempts then
              Message(m.kind, m.key, m.payload, m.chatId, m.jobId, Failed, e.now, m.attempts, m.maxAttempts,
                      Some("LeaseExpired"), m.messageId, m.sentAt)
            else m
  {
  }

  // ---------------------------------------------------------------- refinement

  function AbsPhase(m: Message): L.Phase {
    match m.status
    case Pending => L.Waiting(m.availableAt)
    case Sending => L.Leased(Some(m.availableAt), None)
    case Sent => L.Closed(L.Succeeded)
    case Failed => L.Closed(L.Failed)
    case Cancelled => L.Closed(L.Cancelled)
  }

  function Abs(rows: seq<Message>): (t: L.Table)
    ensures |t| == |rows|
  {
    seq(|rows|, i requires 0 <= i < |rows| => L.Row(AbsPhase(rows[i]), rows[i].attempts, rows[i].maxAttempts))
  }

  function AbsClaim(c: OutboxClaim): L.Claim {
    L.Claim(c.id, c.attempt, c.maxAttempts, c.leasedUntil)
  }

  function AllRows(rows: seq<Message>): set<nat> {
    set i: nat {:trigger rows[i]} | i < |rows|
  }

  function LabelOf(rows: seq<Message>, e: Event): L.Label {
    match e
    case Enqueue(_, key, _, _, _, at, maxAttempts) =>
      if IndexOfKey(rows, key).None? then L.Admitted(at, maxAttempts) else L.Unchanged
    case ClaimDue(now, lease, got) =>
      L.Polled(now, lease, None, AllRows(rows), if got.Some? then Some(AbsClaim(got.value)) else None)
    case MarkSent(c, _, _, accepted) => L.Finished(AbsClaim(c), None, accepted)
    case Fail(c, now, delay, _, accepted) => L.Aborted(AbsClaim(c), None, now, delay, accepted)
  }

  lemma AbsUpdate(rows: seq<Message>, id: nat, m: Message)
    requires id < |rows|
    ensures Abs(rows[id := m]) == Abs(rows)[id := L.Row(AbsPhase(m), m.attempts, m.maxAttempts)]
  {
  }

  lemma EligibleIsDue(rows: seq<Message>, i: nat, now: int)
    requires i < |rows|
    ensures Eligible(rows[i], now) <==> L.Due(Abs(rows)[i], now)
  {
  }

  lemma SweepRefines(rows: seq<Message>, now: int)
    ensures Abs(Sweep(rows, now)) == L.Sweep(Abs(rows), now, AllRows(rows))
  {
  }

  lemma IdleClaimRefines(rows: seq<Message>, now: int)
    requires forall j | 0 <= j < |rows| :: !Eligible(rows[j], now)
    ensures forall j: nat | j < |rows| :: !L.Due(Abs(rows)[j], now)
  {
  }

  function Leased(m: Message, now: int, lease: int): Message {
    m.(status := Sending, attempts := m.attempts + 1, availableAt := now + lease, lastError := None)
  }

  lemma ClaimRefines(rows: seq<Message>, now: int, lease: int, c: L.Claim, t: L.Table, scope: set<nat>, t': L.Table)
    requires 0 < lease && c.id < |rows| && c == L.Claim(c.id, rows[c.id].attempts + 1, rows[c.id].maxAttempts, now + lease)
    requires Eligible(rows[c.id], now)
    requires t == Abs(rows) && scope == AllRows(rows) && t' == Abs(Sweep(rows, now)[c.id := Leased(rows[c.id], now, lease)])
    ensures L.PollStep(t, now, lease, None, scope, Some(c), t')
  {
  }

  lemma IdleRefines(rows: seq<Message>, now: int, lease: int, t: L.Table, scope: set<nat>, t': L.Table)
    requires forall j | 0 <= j < |rows| :: !Eligible(rows[j], now)
    requires t == Abs(rows) && scope == AllRows(rows) && t' == Abs(Sweep(rows, now))
    ensures L.PollStep(t, now, lease, None, scope, None, t')
  {
  }

  lemma ClaimDueRefines(rows: seq<Message>, e: Event, rows': seq<Message>)
    requires e.ClaimDue? && Transition(rows, e, rows')
    ensures L.Step(Abs(rows), LabelOf(rows, e), Abs(rows'))
  {
    if e.got.None? {
      IdleRefines(rows, e.now, e.lease, Abs(rows), AllRows(rows), Abs(rows'));
    } else {
      ClaimRefines(rows, e.now, e.lease, AbsClaim(e.got.value), Abs(rows), AllRows(rows), Abs(rows'));
    }
  }

  /** Every outbox transaction is one step of the same leased queue, although a single column
      stores both kinds of instant. */
  lemma TransitionRefines(rows: seq<Message>, e: Event, rows': seq<Message>)
    requires Transition(rows, e, rows')
    ensures L.Step(Abs(rows), LabelOf(rows, e), Abs(rows'))
  {
    if e.ClaimDue? {
      ClaimDueRefines(rows, e, rows');
    } else if e.Enqueue? {
      if IndexOfKey(rows, e.key).None? {
        assert Abs(rows') == Abs(rows) + [L.Row(L.Waiting(e.at), 0, e.maxAttempts)];
      }
    } else if e.accepted {
      AbsUpdate(rows, e.claim.id, rows'[e.claim.id]);
    }
  }

  // ---------------------------------------------------------------- runs of many senders

  ghost predicate IssuedTo(events: seq<Event>, c: OutboxClaim) {
    exists j | 0 <= j < |events| :: events[j].ClaimDue? && events[j].got == Some(c)
  }

  ghost predicate ValidRun(states: seq<seq<Message>>, events: seq<Event>) {
    && |states| == |events| + 1
    && states[0] == []
    && (forall i | 0 <= i < |events| :: Transition(states[i], events[i], states[i + 1]))
    && (forall i | 0 <= i < |events| && (events[i].MarkSent? || events[i].Fail?) ::
          IssuedTo(events[..i], events[i].claim))
  }

  function AbsRun(states: seq<seq<Message>>, events: seq<Event>): L.Run
    requires |states| == |events| + 1
  {
    L.Run(seq(|states|, i requires 0 <= i < |states| => Abs(states[i])),
          seq(|events|, i requires 0 <= i < |events| => LabelOf(states[i], events[i])))
  }

  /** Hence everything proved of runs of the leased queue holds of the outbox. */
  lemma RunRefines(states: seq<seq<Message>>, events: seq<Event>)
    requires ValidRun(states, events)
    ensures L.Valid(AbsRun(states, events))
  {
    var r := AbsRun(states, events);
    assert Abs([]) == [];
    forall i | 0 <= i < |r.labels| ensures L.Step(r.states[i], r.labels[i], r.states[i + 1]) {
      TransitionRefines(states[i], events[i], states[i + 1]);
    }
    forall i | 0 <= i < |r.labels| && (r.labels[i].Finished? || r.labels[i].Aborted?)
      ensures L.Issued(r.labels[..i], r.labels[i].claim)
    {
      var j :| 0 <= j < i && events[..i][j].ClaimDue? && events[..i][j].got == Some(events[i].claim);
      assert r.labels[..i][j].Polled? && r.labels[..i][j].got == Some(r.labels[i].claim);
    }
  }

  ghost predicate SendGivenUp(events: seq<Event>, j: nat, i: nat, c: OutboxClaim) {
    exists k | j < k < i && k < |events| :: events[k].Fail? && events[k].accepted && AbsClaim(events[k].claim) == AbsClaim(c)
  }

  lemma OneClock(states: seq<seq<Message>>, events: seq<Event>)
    requires |states| == |events| + 1
    requires forall a, b | 0 <= a < b < |events| && events[a].ClaimDue? && events[b].ClaimDue? ::
               events[a].now <= events[b].now
    ensures L.Monotone(AbsRun(states, events).labels)
  {
  }

  lemma ClaimLabel(states: seq<seq<Message>>, events: seq<Event>, i: nat)
    requires |states| == |events| + 1 && i < |events| && events[i].ClaimDue? && events[i].got.Some?
    ensures var l := AbsRun(states, events).labels[i];
            l.Polled? && l.now == events[i].now && l.got == Some(AbsClaim(events[i].got.value))
  {
  }

  lemma GivenUpMeans(states: seq<seq<Message>>, events: seq<Event>, j: nat, i: nat, c: OutboxClaim)
    requires |states| == |events| + 1 && L.GivenUp(AbsRun(states, events).labels, j, i, AbsClaim(c))
    ensures SendGivenUp(events, j, i, c)
  {
  }

  /** On one non-decreasing clock, no message is handed to a second sender while an earlier
      lease runs, unless the earlier sender reported a failure that was accepted. */
  lemma NoConcurrentSends(states: seq<seq<Message>>, events: seq<Event>, j: nat, i: nat)
    requires ValidRun(states, events) && j < i < |events|
    requires forall a, b | 0 <= a < b < |events| && events[a].ClaimDue? && events[b].ClaimDue? ::
               events[a].now <= events[b].now
    requires events[j].ClaimDue? && events[j].got.Some?
    requires events[i].ClaimDue? && events[i].got.Some? && events[i].got.value.id == events[j].got.value.id
    requires events[i].now < events[j].got.value.leasedUntil
    ensures SendGivenUp(events, j, i, events[j].got.value)
  {
    RunRefines(states, events);
    OneClock(states, events);
    ClaimLabel(states, events, j);
    ClaimLabel(states, events, i);
    L.LeasesExcludeEachOther(AbsRun(states, events), j, i);
    GivenUpMeans(states, events, j, i, events[j].got.value);
  }

  // ---------------------------------------------------------------- the queue itself

  class Outbox {
    var rows: seq<Message>
    const retryBase: int
    const retryCap: int

    constructor (retryBase: int, retryCap: int)
      requires PolicyOk(retryBase, retryCap)
      ensures rows == [] && this.retryBase == retryBase && this.retryCap == retryCap
    {
      rows := [];
      this.retryBase := retryBase;
      this.retryCap := retryCap;
    }

    method Enqueue(kind: string, key: string, payload: string, chatId: Option<int>, jobId: Option<int>,
                   availableAt: Option<int>, maxAttempts: int, now: int)
      returns (r: Result<EnqueueResult, QueueError>)
      modifies this
      ensures r == Failure(InvalidArgument) <==>
                kind == "" || 100 < |kind| || key == "" || 255 < |key| || maxAttempts < 1 || 100 < maxAttempts
      ensures r == Failure(IdempotencyConflict) <==>
                && EnqueueOk(kind, key, maxAttempts)
                && var i := IndexOfKey(old(rows), key);
                   i.Some? && var m := old(rows)[i.value];
                              (m.kind, m.payload, m.chatId, m.jobId) != (kind, payload, chatId, jobId)
      ensures r.Failure? ==> rows == old(rows)
      ensures r.Success? ==>
                && r.value.id < |rows| && rows[r.value.id].key == key
                && (r.value.created <==> IndexOfKey(old(rows), key).None?)
                && var at := if availableAt.Some? then availableAt.value else now;
                   Transition(old(rows), Event.Enqueue(kind, key, payload, chatId, jobId, at, maxAttempts), rows)
      ensures old(KeysDistinct(rows)) ==> KeysDistinct(rows)
    {
      if !EnqueueOk(kind, key, maxAttempts) {
        return Failure(InvalidArgument);
      }
      var timestamp := if availableAt.Some? then availableAt.value else now;
      var existing := IndexOfKey(rows, key);
      if existing.None? {
        rows := rows + [Message(kind, key, payload, chatId, jobId, Pending, timestamp, 0, maxAttempts, None, None, None)];
        return Success(EnqueueResult(|rows| - 1, true));
      }
      var m := rows[existing.value];
      if m.kind != kind || m.payload != payload || m.chatId != chatId || m.jobId != jobId {
        return Failure(IdempotencyConflict);
      }
      return Success(EnqueueResult(existing.value, false));
    }

    method ClaimDue(lease: int, now: int) returns (r: Result<Option<OutboxClaim>, QueueError>)
      modifies this
      ensures r.Failure? <==> lease < 1_000_000 || 3_600_000_000 < lease
      ensures r.Failure? ==> rows == old(rows)
      ensures r.Success? ==> Transition(old(rows), Event.ClaimDue(now, lease, r.value), rows)
      // Pending before sending, then by availableAt, then by id; the lemma above says it of every row.
      ensures r.Success? && r.value.Some? ==>
                var was, id := old(rows), r.value.value.id;
                forall k | 0 <= k < |was| && was[k].attempts < was[k].maxAttempts && was[k].status == Pending && was[k].availableAt <= now ::
                  was[id].status == Pending &&
                  (was[id].availableAt < was[k].availableAt || (was[id].availableAt == was[k].availableAt && id <= k))
      ensures old(KeysDistinct(rows)) ==> KeysDistinct(rows)
    {
      if !LeaseOk(lease) {
        return Failure(InvalidArgument);
      }
      ghost var before := rows;
      rows := Sweep(rows, now);
      assert forall i | 0 <= i < |before| :: Eligible(before[i], now) == Eligible(rows[i], now);
      var candidate := FirstEligible(rows, now);
      if candidate.None? {
        return Success(None);
      }
      var id := candidate.value;
      var m := rows[id];
      assert IsFirst(before, now, id) by {
        forall j: nat | j < |before| && Eligible(before[j], now) && j != id ensures Precedes(before, id, j) {
          assert before[j] == rows[j] && Precedes(rows, id, j);
        }
      }
      rows := rows[id := m.(status := Sending, attempts := m.attempts + 1, availableAt := now + lease, lastError := None)];
      r := Success(Some(OutboxClaim(id, m.kind, m.key, m.chatId, m.payload, m.attempts + 1, m.maxAttempts, now + lease)));
      ClaimedIsFirstInLine(before, Event.ClaimDue(now, lease, r.value), rows);
    }

    method MarkSent(claim: OutboxClaim, messageId: Option<int>, now: int) returns (accepted: bool)
      modifies this
      ensures Transition(old(rows), Event.MarkSent(claim, messageId, now, accepted), rows)
      ensures old(KeysDistinct(rows)) ==> KeysDistinct(rows)
    {
      accepted := Owned(rows, claim);
      if accepted {
        rows := rows[claim.id := rows[claim.id].(status := Sent, sentAt := Some(now), messageId := messageId,
                                                 availableAt := now, lastError := None)];
      }
    }

    method Fail(claim: OutboxClaim, error: string, now: int) returns (accepted: bool)
      modifies this
      ensures Transition(old(rows),
                         Event.Fail(claim, now, RetryDelay(claim.attempt, retryBase, retryCap), error, accepted),
                         rows)
      ensures old(KeysDistinct(rows)) ==> KeysDistinct(rows)
    {
      var terminal := claim.maxAttempts <= claim.attempt;
      var delay := RetryDelay(claim.attempt, retryBase, retryCap);
      accepted := Owned(rows, claim);
      if accepted {
        rows := rows[claim.id := rows[claim.id].(status := if terminal then Failed else Pending,
                                                 availableAt := if terminal then now else now + delay,
                                                 lastError := Some(error))];
      }
    }
  }
}
