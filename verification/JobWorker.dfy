/** The polling driver over the job queue. */
module JobWorker {
  import opened Wrappers
  import opened RetryPolicy
  import L = LeasedQueue
  import Q = JobQueue

  /** Attempts still available to open jobs. */
  function Remaining(rows: seq<Q.Job>): nat {
    L.Remaining(Q.Abs(rows))
  }

  /** Claiming a job and reporting on it, with no other transaction in between: the report is
      accepted, the attempt is spent, and the row is no longer running. */
  lemma ClaimThenReport(rows: seq<Q.Job>, claim: Q.Event, rows': seq<Q.Job>, report: Q.Event, rows'': seq<Q.Job>)
    requires claim.ClaimDue? && claim.got.Some? && Q.Transition(rows, claim, rows')
    requires (report.Succeed? || report.Fail?) && Q.Transition(rows', report, rows'')
    requires report.claim == claim.got.value && report.worker == claim.worker
    ensures report.accepted
    ensures |rows''| == |rows| && claim.got.value.id < |rows|
    ensures Q.IsFirst(rows, claim.now, claim.kinds, claim.got.value.id)
    ensures !rows''[claim.got.value.id].status.Running?
    ensures rows''[claim.got.value.id].attempts == rows[claim.got.value.id].attempts + 1
    ensures Remaining(rows'') < Remaining(rows)
  {
    Q.TransitionRefines(rows, claim, rows');
    Q.TransitionRefines(rows', report, rows'');
    L.ClaimThenReport(Q.Abs(rows), Q.LabelOf(rows, claim), Q.Abs(rows'), Q.LabelOf(rows', report), Q.Abs(rows''));
  }

  lemma IdlePollSpendsNothing(rows: seq<Q.Job>, e: Q.Event, rows': seq<Q.Job>)
    requires e.ClaimDue? && e.got.None? && Q.Transition(rows, e, rows')
    ensures |rows'| == |rows| && Remaining(rows') <= Remaining(rows)
    ensures forall j | 0 <= j < |rows'| :: !Q.Eligible(rows'[j], e.now, e.kinds)
  {
    Q.TransitionRefines(rows, e, rows');
    L.IdlePoll(Q.Abs(rows), Q.LabelOf(rows, e), Q.Abs(rows'));
    forall j | 0 <= j < |rows'| ensures !Q.Eligible(rows'[j], e.now, e.kinds) {
      assert !Q.Eligible(rows[j], e.now, e.kinds);
    }
  }

  /** A claim, the handler, and the report that fits what the handler did. */
  ghost predicate Worked(queue: Q.Queue, kinds: set<string>, lease: int, handler: Q.JobClaim -> bool,
                         claimedAt: int, reportedAt: int, rows: seq<Q.Job>, rows'': seq<Q.Job>) {
    exists claim: Q.JobClaim, rows' ::
      && Q.Transition(rows, Q.Event.ClaimDue(claimedAt, lease, queue.workerId, Some(kinds), Some(claim)), rows')
      && Q.Transition(rows', Report(queue, handler(claim), claim, reportedAt), rows'')
  }

  function Report(queue: Q.Queue, handled: bool, claim: Q.JobClaim, at: int): Q.Event {
    if handled then Q.Event.Succeed(claim, queue.workerId, at, true)
    else Q.Event.Fail(claim, queue.workerId, at, RetryDelay(claim.attempt, queue.retryBase, queue.retryCap), "HandlerError", true)
  }

  class Worker {
    const queue: Q.Queue
    const kinds: set<string>
    const lease: int

    constructor (queue: Q.Queue, kinds: set<string>, lease: int)
      requires kinds != {}
      ensures this.queue == queue && this.kinds == kinds && this.lease == lease
    {
      this.queue := queue;
      this.kinds := kinds;
      this.lease := lease;
    }

    /** `handler` says whether the registered handler returns normally; `claimedAt` and
        `reportedAt` are the two clock readings. */
    method RunOnce(handler: Q.JobClaim -> bool, claimedAt: int, reportedAt: int)
      returns (worked: Result<bool, Q.QueueError>)
      modifies queue.table
      ensures worked.Failure? <==> !LeaseOk(lease)
      ensures worked.Failure? ==> queue.table.rows == old(queue.table.rows)
      ensures |queue.table.rows| == |old(queue.table.rows)|
      ensures worked == Success(true) ==>
                Worked(queue, kinds, lease, handler, claimedAt, reportedAt, old(queue.table.rows), queue.table.rows)
      ensures worked == Success(true) ==>
                && Remaining(queue.table.rows) < Remaining(old(queue.table.rows))
                && exists id: nat | id < |queue.table.rows| ::
                     && Q.IsFirst(old(queue.table.rows), claimedAt, Some(kinds), id)
                     && !queue.table.rows[id].status.Running?
                     && queue.table.rows[id].attempts == old(queue.table.rows)[id].attempts + 1
      ensures worked == Success(false) ==>
                && Remaining(queue.table.rows) <= Remaining(old(queue.table.rows))
                && forall j | 0 <= j < |queue.table.rows| :: !Q.Eligible(queue.table.rows[j], claimedAt, Some(kinds))
    {
      ghost var rows := queue.table.rows;
      var r := queue.ClaimDue(lease, Some(kinds), claimedAt);
      if r.Failure? {
        return Failure(r.error);
      }
      ghost var rows' := queue.table.rows;
      ghost var polled := Q.Event.ClaimDue(claimedAt, lease, queue.workerId, Some(kinds), r.value);
      if r.value.None? {
        IdlePollSpendsNothing(rows, polled, rows');
        return Success(false);
      }
      var claim := r.value.value;
      if handler(claim) {
        var accepted := queue.Succeed(claim, reportedAt);
        ClaimThenReport(rows, polled, rows', Q.Event.Succeed(claim, queue.workerId, reportedAt, accepted), queue.table.rows);
        assert Q.Transition(rows', Report(queue, true, claim, reportedAt), queue.table.rows);
      } else {
        var accepted := queue.Fail(claim, "HandlerError", reportedAt);
        var delay := RetryDelay(claim.attempt, queue.retryBase, queue.retryCap);
        ClaimThenReport(rows, polled, rows',
                        Q.Event.Fail(claim, queue.workerId, reportedAt, delay, "HandlerError", accepted),
                        queue.table.rows);
        assert Q.Transition(rows', Report(queue, false, claim, reportedAt), queue.table.rows);
      }
      return Success(true);
    }

    /** The busy phase of the polling loop: with no new work arriving it stops, whatever the
        handlers do and however the clock moves. */
    method RunUntilIdle(handler: Q.JobClaim -> bool, clock: nat -> int) returns (calls: Result<nat, Q.QueueError>)
      modifies queue.table
      ensures calls.Failure? <==> !LeaseOk(lease)
      ensures calls.Success? ==>
                && calls.value <= Remaining(old(queue.table.rows))
                && forall j | 0 <= j < |queue.table.rows| ::
                     !Q.Eligible(queue.table.rows[j], clock(2 * calls.value), Some(kinds))
    {
      var n: nat := 0;
      while true
        invariant n + Remaining(queue.table.rows) <= Remaining(old(queue.table.rows))
        decreases Remaining(queue.table.rows)
      {
        var worked := RunOnce(handler, clock(2 * n), clock(2 * n + 1));
        if worked.Failure? {
          return Failure(worked.error);
        }
        if !worked.value {
          return Success(n);
        }
        n := n + 1;
      }
    }
  }
}
