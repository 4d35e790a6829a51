/** The polling driver over the outbox. */
module OutboxWorker {
  import opened Wrappers
  import opened RetryPolicy
  import L = LeasedQueue
  import Q = OutboxQueue

  /** Attempts still available to open messages. */
  function Remaining(rows: seq<Q.Message>): nat {
    L.Remaining(Q.Abs(rows))
  }

  /** What the report on a claim says: the id of the sent message, or that sending failed. */
  function Report(box: Q.Outbox, sent: Result<Option<int>, string>, claim: Q.OutboxClaim, at: int, accepted: bool): Q.Event {
    match sent
    case Success(id) => Q.Event.MarkSent(claim, id, at, accepted)
    case Failure(error) => Q.Event.Fail(claim, at, RetryDelay(claim.attempt, box.retryBase, box.retryCap), error, accepted)
  }

  /** Claiming a message and reporting on it, with no other transaction in between: the report is
      accepted, the attempt is spent, and the message is no longer being sent. */
  lemma ClaimThenReport(rows: seq<Q.Message>, claim: Q.Event, rows': seq<Q.Message>, report: Q.Event, rows'': seq<Q.Message>)
    requires claim.ClaimDue? && claim.got.Some? && Q.Transition(rows, claim, rows')
    requires (report.MarkSent? || report.Fail?) && Q.Transition(rows', report, rows'') && report.claim == claim.got.value
    ensures report.accepted
    ensures |rows''| == |rows| && claim.got.value.id < |rows| && !rows''[claim.got.value.id].status.Sending?
    ensures rows''[claim.got.value.id].attempts == rows[claim.got.value.id].attempts + 1
    ensures Remaining(rows'') < Remaining(rows)
  {
    Q.TransitionRefines(rows, claim, rows');
    Q.TransitionRefines(rows', report, rows'');
    L.ClaimThenReport(Q.Abs(rows), Q.LabelOf(rows, claim), Q.Abs(rows'), Q.LabelOf(rows', report), Q.Abs(rows''));
  }

  lemma IdlePollSpendsNothing(rows: seq<Q.Message>, e: Q.Event, rows': seq<Q.Message>)
    requires e.ClaimDue? && e.got.None? && Q.Transition(rows, e, rows')
    ensures |rows'| == |rows| && Remaining(rows') <= Remaining(rows)
    ensures forall j | 0 <= j < |rows'| :: !Q.Eligible(rows'[j], e.now)
  {
    Q.TransitionRefines(rows, e, rows');
    L.IdlePoll(Q.Abs(rows), Q.LabelOf(rows, e), Q.Abs(rows'));
    forall j | 0 <= j < |rows'| ensures !Q.Eligible(rows'[j], e.now) {
      assert !Q.Eligible(rows[j], e.now);
    }
  }

  /** A claim, the sender, and the accepted report that fits what the sender did. */
  ghost predicate Worked(box: Q.Outbox, lease: int, sender: Q.OutboxClaim -> Result<Option<int>, string>,
                         claimedAt: int, reportedAt: int, rows: seq<Q.Message>, rows'': seq<Q.Message>) {
    exists claim: Q.OutboxClaim, rows' ::
      && Q.Transition(rows, Q.Event.ClaimDue(claimedAt, lease, Some(claim)), rows')
      && Q.Transition(rows', Report(box, sender(claim), claim, reportedAt, true), rows'')
  }

  class Worker {
    const box: Q.Outbox
    const lease: int

    constructor (box: Q.Outbox, lease: int)
      ensures this.box == box && this.lease == lease
    {
      this.box, this.lease := box, lease;
    }

    /** `sender` says whether sending raises, and otherwise which message id it gives. */
    method RunOnce(sender: Q.OutboxClaim -> Result<Option<int>, string>, claimedAt: int, reportedAt: int)
      returns (worked: Result<bool, Q.QueueError>)
      modifies box
      ensures worked.Failure? <==> !LeaseOk(lease)
      ensures worked.Failure? ==> box.rows == old(box.rows)
      ensures worked == Success(true) ==>
                && Worked(box, lease, sender, claimedAt, reportedAt, old(box.rows), box.rows)
                && Remaining(box.rows) < Remaining(old(box.rows))
      ensures worked == Success(false) ==>
                && Remaining(box.rows) <= Remaining(old(box.rows))
                && forall j | 0 <= j < |box.rows| :: !Q.Eligible(box.rows[j], claimedAt)
    {
      ghost var rows := box.rows;
      var r := box.ClaimDue(lease, claimedAt);
      if r.Failure? {
        return Failure(r.error);
      }
      ghost var rows' := box.rows;
      ghost var polled := Q.Event.ClaimDue(claimedAt, lease, r.value);
      if r.value.None? {
        IdlePollSpendsNothing(rows, polled, rows');
        return Success(false);
      }
      var claim := r.value.value;
      var sent := sender(claim);
      var accepted;
      match sent {
        case Success(id) => accepted := box.MarkSent(claim, id, reportedAt);
        case Failure(error) => accepted := box.Fail(claim, error, reportedAt);
      }
      ClaimThenReport(rows, polled, rows', Report(box, sent, claim, reportedAt, accepted), box.rows);
      assert Q.Transition(rows', Report(box, sent, claim, reportedAt, true), box.rows);
      return Success(true);
    }

    /** The busy phase of the polling loop: with no new messages it stops, whatever sending does. */
    method RunUntilIdle(sender: Q.OutboxClaim -> Result<Option<int>, string>, clock: nat -> int) returns (sends: Result<nat, Q.QueueError>)
      modifies box
      ensures sends.Failure? <==> !LeaseOk(lease)
      ensures sends.Success? ==>
                && sends.value <= Remaining(old(box.rows))
                && forall j | 0 <= j < |box.rows| :: !Q.Eligible(box.rows[j], clock(2 * sends.value))
    {
      var n: nat := 0;
      while true
        invariant n + Remaining(box.rows) <= Remaining(old(box.rows))
        decreases Remaining(box.rows)
      {
        var worked := RunOnce(sender, clock(2 * n), clock(2 * n + 1));
        if worked.Failure? {
          return Failure(worked.error);
        }
        if !worked.value {
          return Success(n);
        }
        n := n + 1;
      }
    }
  }
}
