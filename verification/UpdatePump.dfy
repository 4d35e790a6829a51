/** Durable polling: updates are stored before the offset that confirms them is sent. */
module UpdatePump {
  import opened Wrappers
  import opened Ordering
  import opened Inbox
  import opened Numbers

  const BATCH := 100

  // ---------------------------------------------------------------- offsets

  /** The ids a set cannot exceed: the maximum the database returns. */
  ghost predicate IsMax(m: nat, ids: set<nat>) {
    m in ids && forall i | i in ids :: i <= m
  }

  lemma {:induction false} MaxExists(ids: set<nat>) returns (m: nat)
    requires ids != {}
    ensures IsMax(m, ids)
    decreases |ids|
  {
    var a :| a in ids;
    var rest := ids - {a};
    assert forall i | i in ids :: i in rest || i == a;
    m := a;
    if rest != {} {
      m := MaxExists(rest);
      m := if m < a then a else m;
    }
  }

  function HighestId(updates: seq<Update>): (m: int)
    requires updates != []
    ensures forall u | u in updates :: u.id <= m
    ensures exists u | u in updates :: u.id == m
  {
    var last := updates[|updates| - 1];
    assert last in updates;
    if |updates| == 1 then last.id
    else
      var init := updates[..|updates| - 1];
      var m := HighestId(init);
      assert forall u :: u in updates <==> u in init || u == last;
      if m < last.id then last.id else m
  }

  function NextOffset(offset: Option<int>, updates: seq<Update>): Option<int> {
    if updates == [] then offset else Some(HighestId(updates) + 1)
  }

  ghost predicate IsInitialOffset(offset: Option<int>, inbox: map<nat, Row>) {
    if inbox.Keys == {} then offset.None? else offset.Some? && 0 < offset.value && IsMax(offset.value - 1, inbox.Keys)
  }

  // ---------------------------------------------------------------- the pump

  datatype PumpError = NegativeUpdateId

  class DurableUpdatePump {
    var inbox: map<nat, Row>
    var outcomes: map<nat, Outcome>
    const maxAttempts: nat

    ghost predicate Valid()
      reads this
    {
      0 < maxAttempts && DbOk(Db(inbox, outcomes), maxAttempts)
    }

    constructor (maxAttempts: nat)
      requires 1 <= maxAttempts
      ensures Valid() && inbox == map[] && outcomes == map[] && this.maxAttempts == maxAttempts
    {
      inbox, outcomes := map[], map[];
      this.maxAttempts := maxAttempts;
    }

    method InitialOffset() returns (offset: Option<int>)
      ensures IsInitialOffset(offset, inbox)
    {
      var todo := inbox.Keys;
      offset := None;
      while todo != {}
        invariant todo <= inbox.Keys
        invariant if inbox.Keys - todo == {} then offset.None?
                  else offset.Some? && 0 < offset.value && IsMax(offset.value - 1, inbox.Keys - todo)
      {
        var id :| id in todo;
        if offset.None? || offset.value <= id {
          offset := Some(id + 1);
        }
        assert inbox.Keys - (todo - {id}) == (inbox.Keys - todo) + {id};
        todo := todo - {id};
      }
      assert inbox.Keys - todo == inbox.Keys;
    }

    /** One transaction for the whole batch; a negative id aborts all of it. */
    method Admit(updates: seq<Update>, now: int) returns (r: Result<nat, PumpError>)
      requires Valid()
      modifies this`inbox
      ensures Valid()
      ensures r.Failure? <==> !Numbered(updates)
      ensures r.Failure? ==> inbox == old(inbox)
      ensures r.Success? ==> Db(inbox, outcomes) == Admitted(Db(old(inbox), outcomes), updates, now)
      ensures r.Success? ==> r.value == |inbox| - |old(inbox)|
    {
      var db: map<nat, Row> := inbox;
      var inserted: nat := 0;
      for k := 0 to |updates|
        invariant Numbered(updates[..k])
        invariant Db(db, outcomes) == Admitted(Db(inbox, outcomes), updates[..k], now)
        invariant inserted == |db| - |inbox|
      {
        var u := updates[k];
        assert updates[..k + 1] == updates[..k] + [u];
        assert updates[..k + 1][..k] == updates[..k];
        if u.id < 0 {
          return Failure(NegativeUpdateId);
        }
        if u.id !in db {
          db := db[u.id := Row(u.payload, now, now, None, 0, None)];
          inserted := inserted + 1;
        }
      }
      assert updates[..|updates|] == updates;
      AdmittedExtends(Db(inbox, outcomes), updates, now);
      ExtendsKeeps(Db(inbox, outcomes), Db(db, outcomes), updates, now, maxAttempts);
      inbox := db;
      return Success(inserted);
    }

    /** `updates` is what the server answered to a request with this offset; the offset moves
        only once the batch is stored. */
    method PollOnce(offset: Option<int>, updates: seq<Update>, now: int) returns (r: Result<Option<int>, PumpError>)
      requires Valid()
      modifies this`inbox
      ensures Valid()
      ensures r.Failure? ==> inbox == old(inbox)
      ensures r.Failure? <==> !Numbered(updates)
      ensures r.Success? ==>
                && Db(inbox, outcomes) == Admitted(Db(old(inbox), outcomes), updates, now)
                && r.value == NextOffset(offset, updates)
    {
      if updates == [] {
        return Success(offset);
      }
      var admitted := Admit(updates, now);
      if admitted.Failure? {
        return Failure(admitted.error);
      }
      return Success(Some(HighestId(updates) + 1));
    }

    method RecordProcessedUpdate(id: nat, outcome: Outcome, now: int) returns (recorded: bool)
      requires id in inbox
      modifies this
      ensures Db(inbox, outcomes) == Recorded(Db(old(inbox), old(outcomes)), id, outcome, now)
      ensures recorded <==> id !in old(outcomes)
    {
      if id in outcomes {
        return false;
      }
      outcomes := outcomes[id := outcome];
      inbox := inbox[id := inbox[id].(processedAt := Some(now))];
      return true;
    }

    method RecordFailure(id: nat, error: string, now: int)
      modifies this
      ensures Db(inbox, outcomes) == FailureRecorded(Db(old(inbox), old(outcomes)), id, error, now, maxAttempts)
    {
      if id !in inbox || inbox[id].processedAt.Some? {
        return;
      }
      var row := inbox[id].(attempts := inbox[id].attempts + 1, lastError := Some(error));
      if maxAttempts <= row.attempts {
        inbox := inbox[id := row];
        var recorded := RecordProcessedUpdate(id, Failed, now);
      } else {
        inbox := inbox[id := row.(availableAt := now + Min(300, Pow2(Min(row.attempts, 8))) * SECOND)];
      }
    }

    /** `handled` says whether the dispatcher returned normally. */
    method ProcessOne(id: nat, handled: bool, now: int) returns (done: bool)
      requires Valid()
      modifies this
      ensures Valid()
      ensures Db(inbox, outcomes) == AfterAttempt(Db(old(inbox), old(outcomes)), id, handled, now, maxAttempts)
      ensures done <==> Open(Db(old(inbox), old(outcomes)), id) && handled
    {
      AttemptKeeps(Db(inbox, outcomes), id, handled, now, maxAttempts);
      if id !in inbox || inbox[id].processedAt.Some? {
        return false;
      }
      if !handled {
        RecordFailure(id, "Exception", now);
        return false;
      }
      var recorded := RecordProcessedUpdate(id, Processed, now);
      return true;
    }

    method SelectReady(now: int, limit: nat) returns (ids: seq<nat>)
      ensures IsReadyList(ids, inbox, now, limit)
    {
      var all: seq<nat> := [];
      var todo := inbox.Keys;
      while todo != {}
        invariant todo <= inbox.Keys
        invariant forall id: nat :: id in all <==> id in inbox.Keys - todo && Ready(inbox, id, now)
        invariant Distinct(all)
      {
        var id :| id in todo;
        if Ready(inbox, id, now) {
          all := all + [id];
        }
        todo := todo - {id};
      }
      var sorted := Sort(all, ArrivalOrder(inbox));
      TakeFirst(all, inbox, now, limit);
      return if |sorted| <= limit then sorted else sorted[..limit];
    }

    /** One worker pass with no other worker in between. */
    method ProcessReady(limit: nat, handles: nat -> bool, now: int) returns (processed: nat, ghost ids: seq<nat>)
      requires Valid()
      modifies this
      ensures Valid()
      ensures IsReadyList(ids, old(inbox), now, limit)
      ensures Db(inbox, outcomes) == AfterAttempts(Db(old(inbox), old(outcomes)), ids, handles, now, maxAttempts)
      ensures processed == CountHandled(ids, handles)
    {
      var selected := SelectReady(now, limit);
      ids := selected;
      processed := 0;
      ghost var before := Db(inbox, outcomes);
      for k := 0 to |selected|
        invariant Valid()
        invariant Db(inbox, outcomes) == AfterAttempts(before, selected[..k], handles, now, maxAttempts)
        invariant processed == CountHandled(selected[..k], handles)
      {
        assert selected[..k + 1][..k] == selected[..k];
        assert selected[k] in selected;
        StaysOpen(before, selected, k, handles, now, maxAttempts);
        var done := ProcessOne(selected[k], handles(selected[k]), now);
        if done {
          processed := processed + 1;
        }
      }
      assert selected[..|selected|] == selected;
    }
  }

  // ---------------------------------------------------------------- processing

  function AfterAttempt(db: Db, id: nat, handled: bool, now: int, maxAttempts: nat): Db {
    if !Open(db, id) then db
    else if handled then Recorded(db, id, Processed, now)
    else FailureRecorded(db, id, "Exception", now, maxAttempts)
  }

  lemma AttemptKeeps(db: Db, id: nat, handled: bool, now: int, maxAttempts: nat)
    requires DbOk(db, maxAttempts)
    ensures var db' := AfterAttempt(db, id, handled, now, maxAttempts);
            && DbOk(db', maxAttempts)
            && db'.inbox.Keys == db.inbox.Keys
            && (forall other | other in db.inbox && other != id :: db'.inbox[other] == db.inbox[other])
  {
    if handled {
      RecordedKeeps(db, id, Processed, now, maxAttempts);
    } else {
      FailureKeeps(db, id, "Exception", now, maxAttempts);
    }
  }

  function AfterAttempts(db: Db, ids: seq<nat>, handles: nat -> bool, now: int, maxAttempts: nat): Db {
    if ids == [] then db
    else
      var id := ids[|ids| - 1];
      AfterAttempt(AfterAttempts(db, ids[..|ids| - 1], handles, now, maxAttempts), id, handles(id), now, maxAttempts)
  }

  function CountHandled(ids: seq<nat>, handles: nat -> bool): nat {
    if ids == [] then 0
    else CountHandled(ids[..|ids| - 1], handles) + if handles(ids[|ids| - 1]) then 1 else 0
  }

  /** An update that was not attempted yet is still as it was. */
  lemma {:induction false} UntouchedByOthers(db: Db, ids: seq<nat>, handles: nat -> bool, now: int, maxAttempts: nat, id: nat)
    requires DbOk(db, maxAttempts) && id in db.inbox && id !in ids
    ensures var db' := AfterAttempts(db, ids, handles, now, maxAttempts);
            DbOk(db', maxAttempts) && id in db'.inbox && db'.inbox[id] == db.inbox[id]
  {
    if ids != [] {
      var init := ids[..|ids| - 1];
      UntouchedByOthers(db, init, handles, now, maxAttempts, id);
      AttemptKeeps(AfterAttempts(db, init, handles, now, maxAttempts), ids[|ids| - 1], handles(ids[|ids| - 1]), now, maxAttempts);
    }
  }

  lemma StaysOpen(db: Db, ids: seq<nat>, k: nat, handles: nat -> bool, now: int, maxAttempts: nat)
    requires DbOk(db, maxAttempts) && k < |ids| && Distinct(ids) && Open(db, ids[k])
    ensures Open(AfterAttempts(db, ids[..k], handles, now, maxAttempts), ids[k])
  {
    UntouchedByOthers(db, ids[..k], handles, now, maxAttempts, ids[k]);
  }

  // ---------------------------------------------------------------- which updates are ready

  predicate Ready(inbox: map<nat, Row>, id: nat, now: int) {
    id in inbox && inbox[id].processedAt.None? && inbox[id].availableAt <= now
  }

  function ArrivalKey(inbox: map<nat, Row>, id: nat): Key {
    Key(if id in inbox then inbox[id].receivedAt else 0, id, "", "")
  }

  function ArrivalOrder(inbox: map<nat, Row>): (nat, nat) -> bool {
    (a: nat, b: nat) => KeyLe(ArrivalKey(inbox, a), ArrivalKey(inbox, b))
  }

  /** At most `limit` ready updates, earliest arrivals first, none skipped. */
  ghost predicate IsReadyList(ids: seq<nat>, inbox: map<nat, Row>, now: int, limit: nat) {
    && |ids| <= limit
    && Distinct(ids)
    && (forall id | id in ids :: Ready(inbox, id, now))
    && SortedBy(ids, ArrivalOrder(inbox))
    && (forall id: nat, other: nat | id in ids && Ready(inbox, other, now) && other !in ids :: ArrivalOrder(inbox)(id, other))
    && (|ids| < limit ==> forall id: nat | Ready(inbox, id, now) :: id in ids)
  }

  /** What a pass picks: waiting updates whose time has come, by arrival and then by id; whatever is passed
      over arrived later than everything picked, and is passed over only when the pass is full. */
  lemma EarliestFirst(ids: seq<nat>, inbox: map<nat, Row>, now: int, limit: nat, other: nat)
    requires IsReadyList(ids, inbox, now, limit)
    ensures forall i | 0 <= i < |ids| ::
              ids[i] in inbox && inbox[ids[i]].processedAt.None? && inbox[ids[i]].availableAt <= now
    ensures forall i, j | 0 <= i < j < |ids| ::
              var a, b := ids[i], ids[j];
              inbox[a].receivedAt < inbox[b].receivedAt || (inbox[a].receivedAt == inbox[b].receivedAt && a < b)
    ensures other !in ids && other in inbox && inbox[other].processedAt.None? && inbox[other].availableAt <= now ==>
              && |ids| == limit
              && forall i | 0 <= i < |ids| ::
                   var a := ids[i];
                   inbox[a].receivedAt < inbox[other].receivedAt || (inbox[a].receivedAt == inbox[other].receivedAt && a < other)
  {
    forall i | 0 <= i < |ids| ensures Ready(inbox, ids[i], now) {
      assert ids[i] in ids;
    }
    forall i, j | 0 <= i < j < |ids|
      ensures var a, b := ids[i], ids[j];
              inbox[a].receivedAt < inbox[b].receivedAt || (inbox[a].receivedAt == inbox[b].receivedAt && a < b)
    {
      assert ids[i] != ids[j] && ArrivalOrder(inbox)(ids[i], ids[j]);
    }
    if other !in ids && Ready(inbox, other, now) {
      forall i | 0 <= i < |ids|
        ensures var a := ids[i];
                inbox[a].receivedAt < inbox[other].receivedAt || (inbox[a].receivedAt == inbox[other].receivedAt && a < other)
      {
        assert ids[i] in ids && ArrivalOrder(inbox)(ids[i], other);
      }
    }
  }

  lemma TakeFirst(all: seq<nat>, inbox: map<nat, Row>, now: int, limit: nat)
    requires Distinct(all) && forall id: nat :: id in all <==> Ready(inbox, id, now)
    ensures var sorted := Sort(all, ArrivalOrder(inbox));
            IsReadyList(if |sorted| <= limit then sorted else sorted[..limit], inbox, now, limit)
  {
    var sorted := Sort(all, ArrivalOrder(inbox));
    assert SortedBy(sorted, ArrivalOrder(inbox)) by {
      KeyLeIsTotalOrder();
      SortOrders(all, ArrivalOrder(inbox));
    }
    SortKeepsElements(all, ArrivalOrder(inbox));
    PermutationKeepsDistinct(all, sorted);
    forall id: nat ensures id in sorted <==> Ready(inbox, id, now) { InMultiset(sorted, all, id); }
    PrefixIsReadyList(sorted, inbox, now, limit);
  }

  lemma PrefixIsReadyList(sorted: seq<nat>, inbox: map<nat, Row>, now: int, limit: nat)
    requires Distinct(sorted) && SortedBy(sorted, ArrivalOrder(inbox))
    requires forall id: nat :: id in sorted <==> Ready(inbox, id, now)
    ensures IsReadyList(if |sorted| <= limit then sorted else sorted[..limit], inbox, now, limit)
  {
  }
}
