/** The durable inbox of raw updates and the table of terminal outcomes. */
module Inbox {
  import opened Wrappers
  import opened Numbers

  datatype Update = Update(id: int, payload: string)

  datatype Outcome = Processed | Ignored | Failed

  datatype Row = Row(
    payload: string, receivedAt: int, availableAt: int, processedAt: Option<int>,
    attempts: nat, lastError: Option<string>)

  /** Both tables, keyed by update id. */
  datatype Db = Db(inbox: map<nat, Row>, outcomes: map<nat, Outcome>)

  const SECOND := 1_000_000

  /** Update ids are non-negative; the insert refuses others. */
  predicate Numbered(updates: seq<Update>) {
    forall u | u in updates :: 0 <= u.id
  }

  function FreshRow(u: Update, now: int): Row {
    Row(u.payload, now, now, None, 0, None)
  }

  /** Insert, doing nothing on a redelivery. */
  function Enqueued(db: Db, u: Update, now: int): Db
    requires 0 <= u.id
  {
    if u.id in db.inbox then db else db.(inbox := db.inbox[u.id := FreshRow(u, now)])
  }

  function Admitted(db: Db, updates: seq<Update>, now: int): Db
    requires Numbered(updates)
  {
    if updates == [] then db
    else Enqueued(Admitted(db, updates[..|updates| - 1], now), updates[|updates| - 1], now)
  }

  /** Record a terminal outcome once and close the row. */
  function Recorded(db: Db, id: nat, outcome: Outcome, now: int): Db {
    if id in db.outcomes || id !in db.inbox then db
    else Db(db.inbox[id := db.inbox[id].(processedAt := Some(now))], db.outcomes[id := outcome])
  }

  function Delay(attempts: nat): int {
    Min(300, Pow2(Min(attempts, 8))) * SECOND
  }

  /** The first failure postpones an update by two seconds, each further one by twice as long, up to the
      eighth; from then on it waits 256 seconds, so the bound of 300 is never reached. */
  lemma DelayDoublesToItsEnd(attempts: nat)
    ensures Delay(1) == 2_000_000
    ensures 1 <= attempts < 8 ==> Delay(attempts + 1) == 2 * Delay(attempts)
    ensures 8 <= attempts ==> Delay(attempts) == 256_000_000
  {
    assert Pow2(1) == 2 && Pow2(2) == 4 && Pow2(3) == 8 && Pow2(4) == 16;
    assert Pow2(5) == 32 && Pow2(6) == 64 && Pow2(7) == 128 && Pow2(8) == 256;
  }

  predicate Open(db: Db, id: nat) {
    id in db.inbox && db.inbox[id].processedAt.None?
  }

  function FailureRecorded(db: Db, id: nat, error: string, now: int, maxAttempts: nat): Db {
    if !Open(db, id) then db
    else
      var row := db.inbox[id].(attempts := db.inbox[id].attempts + 1, lastError := Some(error));
      var counted := db.(inbox := db.inbox[id := row]);
      if maxAttempts <= row.attempts then Recorded(counted, id, Failed, now)
      else db.(inbox := db.inbox[id := row.(availableAt := now + Delay(row.attempts))])
  }

  /** What every transaction keeps. */
  ghost predicate DbOk(db: Db, maxAttempts: nat) {
    && (forall id: nat :: id in db.outcomes <==> id in db.inbox && db.inbox[id].processedAt.Some?)
    && (forall id | id in db.inbox :: db.inbox[id].attempts <= maxAttempts)
    && (forall id: nat | Open(db, id) :: db.inbox[id].attempts < maxAttempts)
    && (forall id | id in db.outcomes && db.outcomes[id] == Failed :: db.inbox[id].attempts == maxAttempts)
  }

  /** `db'` extends `db` with fresh rows for new ids and touches nothing else. */
  ghost predicate Extends(db: Db, db': Db, updates: seq<Update>, now: int) {
    && db'.outcomes == db.outcomes
    && (forall id: nat :: id in db'.inbox <==> id in db.inbox || exists u | u in updates :: u.id == id)
    && (forall id | id in db.inbox :: db'.inbox[id] == db.inbox[id])
    && (forall id | id in db'.inbox && id !in db.inbox ::
          exists u | u in updates :: u.id == id && db'.inbox[id] == FreshRow(u, now))
  }

  lemma {:induction false} AdmittedExtends(db: Db, updates: seq<Update>, now: int)
    requires Numbered(updates)
    ensures Extends(db, Admitted(db, updates, now), updates, now)
  {
    if updates != [] {
      var init, last := updates[..|updates| - 1], updates[|updates| - 1];
      AdmittedExtends(db, init, now);
      assert forall u :: u in updates <==> u in init || u == last;
    }
  }

  lemma ExtendsKeeps(db: Db, db': Db, updates: seq<Update>, now: int, maxAttempts: nat)
    requires DbOk(db, maxAttempts) && 0 < maxAttempts && Extends(db, db', updates, now)
    ensures DbOk(db', maxAttempts)
  {
  }

  lemma RecordedKeeps(db: Db, id: nat, outcome: Outcome, now: int, maxAttempts: nat)
    requires DbOk(db, maxAttempts) && outcome != Failed
    ensures DbOk(Recorded(db, id, outcome, now), maxAttempts)
  {
  }

  lemma FailureKeeps(db: Db, id: nat, error: string, now: int, maxAttempts: nat)
    requires DbOk(db, maxAttempts)
    ensures var db' := FailureRecorded(db, id, error, now, maxAttempts);
            && DbOk(db', maxAttempts)
            && db'.inbox.Keys == db.inbox.Keys
            && (Open(db, id) ==> db'.inbox[id].attempts == db.inbox[id].attempts + 1)
            && (id in db'.outcomes && id !in db.outcomes ==>
                  db'.outcomes[id] == Failed && db'.inbox[id].attempts == maxAttempts)
            && (forall other | other in db.inbox && other != id :: db'.inbox[other] == db.inbox[other])
  {
  }
}
