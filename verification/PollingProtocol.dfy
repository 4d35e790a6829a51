/** The polling pump against its server, across crashes and restarts.

    The server forgets every update below the requested offset and answers with the smallest
    ids it still has. One label is one request or one database transaction; between any two
    labels the process may crash. */
module PollingProtocol {
  import opened Wrappers
  import opened Inbox
  import opened UpdatePump

  datatype Node =
    | Stopped
    | Waiting(offset: Option<int>)
    | Holding(offset: Option<int>, batch: seq<Update>)

  /** `issued` is everything the server ever produced, with its payload. */
  datatype World = World(issued: map<nat, string>, server: set<nat>, db: Db, node: Node)

  datatype Label =
    | Issue(id: nat, payload: string)
    | Start(initial: Option<int>)
    | Answer(batch: seq<Update>)
    | NoAnswer(reached: bool)
    | Store(now: int)
    | Crash
    | Attempt(id: nat, handled: bool, now: int)

  function Kept(server: set<nat>, offset: Option<int>): set<nat> {
    if offset.None? then server else set i | i in server && offset.value <= i
  }

  ghost predicate InBatch(batch: seq<Update>, id: nat) {
    exists u | u in batch :: u.id == id
  }

  ghost predicate IsAnswer(batch: seq<Update>, server: set<nat>, issued: map<nat, string>) {
    && |batch| <= BATCH
    && (forall u | u in batch :: 0 <= u.id && u.id in server && u.id in issued && u.payload == issued[u.id])
    && (forall i, u | i in server && u in batch && i <= u.id :: InBatch(batch, i))
  }

  /** A fresh id exceeds everything already stored or on its way to the store. */
  ghost predicate InOrder(w: World, id: nat) {
    && (forall i | i in w.db.inbox :: i < id)
    && (w.node.Holding? ==> forall u | u in w.node.batch :: u.id < id)
  }

  ghost predicate Step(w: World, l: Label, w': World, maxAttempts: nat) {
    match l
    case Issue(id, payload) =>
      && id !in w.issued
      && w' == w.(issued := w.issued[id := payload], server := w.server + {id})
    case Start(initial) =>
      w.node.Stopped? && IsInitialOffset(initial, w.db.inbox) && w' == w.(node := Waiting(initial))
    case Answer(batch) =>
      && w.node.Waiting?
      && IsAnswer(batch, Kept(w.server, w.node.offset), w.issued)
      && w' == w.(server := Kept(w.server, w.node.offset),
                  node := if batch == [] then w.node else Holding(w.node.offset, batch))
    case NoAnswer(reached) =>
      && w.node.Waiting?
      && w' == if reached then w.(server := Kept(w.server, w.node.offset)) else w
    case Store(now) =>
      && w.node.Holding? && Numbered(w.node.batch)
      && w' == w.(db := Admitted(w.db, w.node.batch, now), node := Waiting(NextOffset(w.node.offset, w.node.batch)))
    case Crash => w' == w.(node := Stopped)
    case Attempt(id, handled, now) => w' == w.(db := AfterAttempt(w.db, id, handled, now, maxAttempts))
  }

  // ---------------------------------------------------------------- what every step keeps

  /** Every issued update is still on the server or already in the inbox. */
  ghost predicate NothingLost(w: World) {
    forall id | id in w.issued :: Present(w, id)
  }

  predicate Present(w: World, id: nat) {
    id in w.server || id in w.db.inbox
  }

  ghost predicate BatchOk(w: World, batch: seq<Update>) {
    && batch != []
    && (forall u | u in batch :: 0 <= u.id && u.id in w.issued && u.payload == w.issued[u.id])
    && (forall i, u | i in w.db.inbox && u in batch :: i < u.id)
  }

  /** In whatever order ids are issued: the offset in force is one past the highest stored id, or none
      for an empty inbox, and a held batch lies above everything stored. */
  ghost predicate Inv(w: World, maxAttempts: nat) {
    && 0 < maxAttempts && DbOk(w.db, maxAttempts)
    && (forall id | id in w.server :: id in w.issued)
    && (forall id | id in w.db.inbox :: id in w.issued && w.db.inbox[id].payload == w.issued[id])
    && (!w.node.Stopped? ==> IsInitialOffset(w.node.offset, w.db.inbox))
    && (w.node.Holding? ==> BatchOk(w, w.node.batch))
  }

  lemma AnswerKeepsInv(w: World, l: Label, w': World, maxAttempts: nat)
    requires Inv(w, maxAttempts) && l.Answer? && Step(w, l, w', maxAttempts)
    ensures Inv(w', maxAttempts)
  {
    forall i, u | i in w.db.inbox && u in l.batch ensures i < u.id {
      assert u.id in Kept(w.server, w.node.offset);
    }
  }

  lemma StoreKeepsInv(w: World, l: Label, w': World, maxAttempts: nat)
    requires Inv(w, maxAttempts) && l.Store? && Step(w, l, w', maxAttempts)
    ensures Inv(w', maxAttempts)
  {
    var batch := w.node.batch;
    AdmittedExtends(w.db, batch, l.now);
    ExtendsKeeps(w.db, w'.db, batch, l.now, maxAttempts);
    var top :| top in batch && top.id == HighestId(batch);
    assert IsMax(top.id, w'.db.inbox.Keys);
  }

  lemma AttemptKeepsInv(w: World, l: Label, w': World, maxAttempts: nat)
    requires Inv(w, maxAttempts) && l.Attempt? && Step(w, l, w', maxAttempts)
    ensures Inv(w', maxAttempts) && w'.db.inbox.Keys == w.db.inbox.Keys
  {
    AttemptKeeps(w.db, l.id, l.handled, l.now, maxAttempts);
    assert forall id :: id in w'.db.inbox <==> id in w'.db.inbox.Keys;
    assert forall id | id in w.db.inbox :: w'.db.inbox[id].payload == w.db.inbox[id].payload;
  }

  lemma StepKeepsInv(w: World, l: Label, w': World, maxAttempts: nat)
    requires Inv(w, maxAttempts) && Step(w, l, w', maxAttempts)
    ensures Inv(w', maxAttempts)
  {
    match l {
      case Answer(_) => AnswerKeepsInv(w, l, w', maxAttempts);
      case Store(_) => StoreKeepsInv(w, l, w', maxAttempts);
      case Attempt(_, _, _) => AttemptKeepsInv(w, l, w', maxAttempts);
      case _ =>
    }
  }

  // ---------------------------------------------------------------- one update

  /** The update is stored, or the server has it and nothing above it was stored or is held alone. */
  ghost predicate Safe(w: World, id: nat) {
    || id in w.db.inbox
    || (id in w.server && (forall i | i in w.db.inbox :: i < id)
        && (w.node.Holding? ==> InBatch(w.node.batch, id) || forall u | u in w.node.batch :: u.id < id))
  }

  lemma AnswerKeepsSafe(w: World, l: Label, w': World, maxAttempts: nat, id: nat)
    requires Inv(w, maxAttempts) && Step(w, l, w', maxAttempts) && (l.Answer? || l.NoAnswer?) && Safe(w, id)
    ensures Safe(w', id)
  {
    if id !in w.db.inbox {
      assert id in Kept(w.server, w.node.offset);
    }
  }

  /** An update that is safe stays so, whatever else is issued in whatever order. */
  lemma StepKeepsSafe(w: World, l: Label, w': World, maxAttempts: nat, id: nat)
    requires Inv(w, maxAttempts) && Step(w, l, w', maxAttempts) && Safe(w, id)
    ensures Safe(w', id)
  {
    match l {
      case Answer(_) => AnswerKeepsSafe(w, l, w', maxAttempts, id);
      case NoAnswer(_) => AnswerKeepsSafe(w, l, w', maxAttempts, id);
      case Store(now) => AdmittedExtends(w.db, w.node.batch, now);
      case Attempt(_, _, _) =>
        AttemptKeepsInv(w, l, w', maxAttempts);
        assert forall i :: i in w'.db.inbox <==> i in w'.db.inbox.Keys;
      case _ =>
    }
  }

  // ---------------------------------------------------------------- runs

  /** What may follow a world. */
  ghost predicate Continues(w: World, states: seq<World>, labels: seq<Label>, maxAttempts: nat) {
    && |states| == |labels| + 1 && states[0] == w
    && forall i | 0 <= i < |labels| :: Step(states[i], labels[i], states[i + 1], maxAttempts)
  }

  ghost predicate ValidRun(states: seq<World>, labels: seq<Label>, maxAttempts: nat) {
    0 < maxAttempts && Continues(World(map[], {}, Db(map[], map[]), Stopped), states, labels, maxAttempts)
  }

  ghost predicate IssuedInOrder(states: seq<World>, labels: seq<Label>)
    requires |states| == |labels| + 1
  {
    forall i | 0 <= i < |labels| && labels[i].Issue? :: InOrder(states[i], labels[i].id)
  }

  lemma {:induction false} RunKeepsInv(states: seq<World>, labels: seq<Label>, maxAttempts: nat, n: nat)
    requires ValidRun(states, labels, maxAttempts) && n <= |labels|
    ensures Inv(states[n], maxAttempts)
  {
    if n > 0 {
      RunKeepsInv(states, labels, maxAttempts, n - 1);
      assert Step(states[n - 1], labels[n - 1], states[n - 1 + 1], maxAttempts);
      StepKeepsInv(states[n - 1], labels[n - 1], states[n], maxAttempts);
    }
  }

  lemma {:induction false} SafeFromThenOn(w: World, states: seq<World>, labels: seq<Label>, maxAttempts: nat, n: nat, id: nat)
    requires Inv(w, maxAttempts) && Safe(w, id) && Continues(w, states, labels, maxAttempts) && n <= |labels|
    ensures Inv(states[n], maxAttempts) && Safe(states[n], id)
  {
    if n > 0 {
      SafeFromThenOn(w, states, labels, maxAttempts, n - 1, id);
      assert Step(states[n - 1], labels[n - 1], states[n - 1 + 1], maxAttempts);
      StepKeepsInv(states[n - 1], labels[n - 1], states[n], maxAttempts);
      StepKeepsSafe(states[n - 1], labels[n - 1], states[n], maxAttempts, id);
    }
  }

  lemma {:induction false} IssuedInOrderIsSafe(states: seq<World>, labels: seq<Label>, maxAttempts: nat, n: nat, id: nat)
    requires ValidRun(states, labels, maxAttempts) && IssuedInOrder(states, labels) && n <= |labels|
    requires id in states[n].issued
    ensures Safe(states[n], id)
  {
    if n > 0 {
      RunKeepsInv(states, labels, maxAttempts, n - 1);
      assert Step(states[n - 1], labels[n - 1], states[n - 1 + 1], maxAttempts);
      if id in states[n - 1].issued {
        IssuedInOrderIsSafe(states, labels, maxAttempts, n - 1, id);
        StepKeepsSafe(states[n - 1], labels[n - 1], states[n], maxAttempts, id);
      }
    }
  }

  /** At every moment of every run, across crashes and restarts, every issued update is on the
      server or in the inbox, where its payload is the one that was issued. */
  lemma NoUpdateIsLost(states: seq<World>, labels: seq<Label>, maxAttempts: nat, n: nat)
    requires ValidRun(states, labels, maxAttempts) && IssuedInOrder(states, labels) && n <= |labels|
    ensures NothingLost(states[n])
    ensures forall id | id in states[n].db.inbox :: id in states[n].issued && states[n].db.inbox[id].payload == states[n].issued[id]
  {
    RunKeepsInv(states, labels, maxAttempts, n);
    forall id | id in states[n].issued ensures Present(states[n], id) {
      IssuedInOrderIsSafe(states, labels, maxAttempts, n, id);
    }
  }

  // ---------------------------------------------------------------- ids issued out of order

  /** The update is never lost, however the run goes on. */
  ghost predicate NeverLost(w: World, id: nat, maxAttempts: nat) {
    forall states, labels | Continues(w, states, labels, maxAttempts) :: Present(states[|labels|], id)
  }

  /** With an offset above it in force, the next request that reaches the server drops the update. */
  lemma DroppedByRequest(w: World, id: nat, maxAttempts: nat) returns (w': World)
    requires w.node.Waiting? && w.node.offset.Some? && id < w.node.offset.value && id !in w.db.inbox
    ensures Step(w, NoAnswer(true), w', maxAttempts) && !Present(w', id)
  {
    w' := w.(server := Kept(w.server, w.node.offset));
  }

  /** The pump comes to wait with an offset above a late id: by itself, by starting, or by storing
      what it holds. */
  lemma OffsetPasses(w: World, id: nat, maxAttempts: nat) returns (states: seq<World>, labels: seq<Label>)
    requires Inv(w, maxAttempts) && !InOrder(w, id) && id !in w.db.inbox && (w.node.Holding? ==> !InBatch(w.node.batch, id))
    ensures Continues(w, states, labels, maxAttempts)
    ensures var last := states[|labels|];
            last.node.Waiting? && last.node.offset.Some? && id < last.node.offset.value && id !in last.db.inbox
  {
    match w.node
    case Waiting(offset) =>
      states, labels := [w], [];
    case Stopped =>
      var top := MaxExists(w.db.inbox.Keys);
      assert Step(w, Start(Some(top + 1)), w.(node := Waiting(Some(top + 1))), maxAttempts);
      states, labels := [w, w.(node := Waiting(Some(top + 1)))], [Start(Some(top + 1))];
    case Holding(offset, batch) =>
      AdmittedExtends(w.db, batch, 0);
      assert batch[0] in batch;
      var stored := w.(db := Admitted(w.db, batch, 0), node := Waiting(NextOffset(offset, batch)));
      assert Step(w, Store(0), stored, maxAttempts);
      states, labels := [w, stored], [Store(0)];
  }

  lemma LateIdCanBeLost(w: World, id: nat, maxAttempts: nat)
    requires Inv(w, maxAttempts) && !InOrder(w, id) && id !in w.db.inbox && (w.node.Holding? ==> !InBatch(w.node.batch, id))
    ensures !NeverLost(w, id, maxAttempts)
  {
    var states, labels := OffsetPasses(w, id, maxAttempts);
    var dropped := DroppedByRequest(states[|labels|], id, maxAttempts);
    var all, steps := states + [dropped], labels + [NoAnswer(true)];
    forall i | 0 <= i < |steps| ensures Step(all[i], steps[i], all[i + 1], maxAttempts) {
      if i < |labels| {
        assert Step(states[i], labels[i], states[i + 1], maxAttempts);
      }
    }
    assert Continues(w, all, steps, maxAttempts);
  }

  /** In any run, an issued update survives every continuation if and only if it was issued above
      every id that was stored or held at that moment. */
  lemma NeverLostIff(states: seq<World>, labels: seq<Label>, maxAttempts: nat, n: nat)
    requires ValidRun(states, labels, maxAttempts) && n < |labels| && labels[n].Issue?
    ensures NeverLost(states[n + 1], labels[n].id, maxAttempts) <==> InOrder(states[n], labels[n].id)
  {
    var w, id := states[n + 1], labels[n].id;
    RunKeepsInv(states, labels, maxAttempts, n);
    RunKeepsInv(states, labels, maxAttempts, n + 1);
    assert Step(states[n], labels[n], states[n + 1], maxAttempts);
    if InOrder(states[n], id) {
      forall more, steps | Continues(w, more, steps, maxAttempts) ensures Present(more[|steps|], id) {
        SafeFromThenOn(w, more, steps, maxAttempts, |steps|, id);
      }
    } else {
      assert !InOrder(w, id);
      LateIdCanBeLost(w, id, maxAttempts);
    }
  }

  /** Such a run: an id issued below a batch that is held, while no offset is in force at all, is
      dropped by the request after the batch is stored. */
  lemma HeldBatchLosesLateId() returns (states: seq<World>, labels: seq<Label>)
    ensures ValidRun(states, labels, 1) && |labels| == 6
    ensures labels[3] == Issue(3, "late") && states[3].node.Holding? && states[3].node.offset.None?
    ensures labels[5] == Answer([]) && 3 in states[6].issued && !Present(states[6], 3)
  {
    var u := Update(5, "first");
    var empty := Db(map[], map[]);
    var stored := Db(map[5 := FreshRow(u, 0)], map[]);
    labels := [Issue(5, "first"), Start(None), Answer([u]), Issue(3, "late"), Store(0), Answer([])];
    var one, both := map[5 := "first"], map[5 := "first"][3 := "late"];
    states := [World(map[], {}, empty, Stopped), World(one, {5}, empty, Stopped), World(one, {5}, empty, Waiting(None)),
               World(one, {5}, empty, Holding(None, [u])), World(both, {5, 3}, empty, Holding(None, [u])),
               World(both, {5, 3}, stored, Waiting(Some(6))), World(both, {}, stored, Waiting(Some(6)))];
    assert Step(states[0], labels[0], states[1], 1);
    assert Step(states[1], labels[1], states[2], 1);
    assert IsAnswer([u], {5}, one) && Step(states[2], labels[2], states[3], 1);
    assert Step(states[3], labels[3], states[4], 1);
    assert Admitted(empty, [u], 0) == stored by {
      assert [u][..0] == [];
    }
    assert Step(states[4], labels[4], states[5], 1);
    assert Kept({5, 3}, Some(6)) == {};
    assert Step(states[5], labels[5], states[6], 1);
  }

  // ---------------------------------------------------------------- outcomes

  lemma StepKeepsOutcomes(w: World, l: Label, w': World, maxAttempts: nat, id: nat)
    requires Step(w, l, w', maxAttempts) && id in w.db.outcomes
    ensures id in w'.db.outcomes && w'.db.outcomes[id] == w.db.outcomes[id]
  {
    if l.Store? {
      AdmittedExtends(w.db, w.node.batch, l.now);
    }
  }

  /** An update gets at most one terminal outcome. */
  lemma {:induction false} OutcomeIsFinal(states: seq<World>, labels: seq<Label>, maxAttempts: nat, i: nat, j: nat, id: nat)
    requires ValidRun(states, labels, maxAttempts) && i <= j <= |labels|
    requires id in states[i].db.outcomes
    ensures id in states[j].db.outcomes && states[j].db.outcomes[id] == states[i].db.outcomes[id]
    decreases j - i
  {
    if i < j {
      OutcomeIsFinal(states, labels, maxAttempts, i, j - 1, id);
      StepKeepsOutcomes(states[j - 1], labels[j - 1], states[j], maxAttempts, id);
    }
  }

  /** Label `i` recorded a failed attempt of the update. */
  ghost predicate RecordsFailure(states: seq<World>, labels: seq<Label>, i: nat, id: nat)
    requires |states| == |labels| + 1 && i < |labels|
  {
    labels[i].Attempt? && labels[i].id == id && !labels[i].handled && Open(states[i].db, id)
  }

  ghost function Failures(states: seq<World>, labels: seq<Label>, n: nat, id: nat): nat
    requires |states| == |labels| + 1 && n <= |labels|
  {
    if n == 0 then 0
    else Failures(states, labels, n - 1, id) + if RecordsFailure(states, labels, n - 1, id) then 1 else 0
  }

  lemma StepCountsFailures(w: World, l: Label, w': World, maxAttempts: nat, id: nat)
    requires DbOk(w.db, maxAttempts) && 0 < maxAttempts && Step(w, l, w', maxAttempts)
    ensures DbOk(w'.db, maxAttempts)
    ensures id in w.db.inbox ==> id in w'.db.inbox
    ensures id in w'.db.inbox ==>
              w'.db.inbox[id].attempts ==
              (if id in w.db.inbox then w.db.inbox[id].attempts else 0)
              + (if l.Attempt? && l.id == id && !l.handled && Open(w.db, id) then 1 else 0)
  {
    if l.Store? {
      AdmittedExtends(w.db, w.node.batch, l.now);
      ExtendsKeeps(w.db, w'.db, w.node.batch, l.now, maxAttempts);
    } else if l.Attempt? {
      AttemptKeeps(w.db, l.id, l.handled, l.now, maxAttempts);
    }
  }

  lemma {:induction false} AttemptsCountFailures(states: seq<World>, labels: seq<Label>, maxAttempts: nat, n: nat, id: nat)
    requires ValidRun(states, labels, maxAttempts) && n <= |labels|
    ensures Failures(states, labels, n, id) ==
              if id in states[n].db.inbox then states[n].db.inbox[id].attempts else 0
  {
    if n > 0 {
      AttemptsCountFailures(states, labels, maxAttempts, n - 1, id);
      RunKeepsInv(states, labels, maxAttempts, n - 1);
      assert Step(states[n - 1], labels[n - 1], states[n - 1 + 1], maxAttempts);
      StepCountsFailures(states[n - 1], labels[n - 1], states[n], maxAttempts, id);
    }
  }

  /** An update is given up only after exactly `maxAttempts` recorded failures, and as long as it
      is open it has seen fewer. */
  lemma FailedAfterExactlyMaxAttempts(states: seq<World>, labels: seq<Label>, maxAttempts: nat, n: nat, id: nat)
    requires ValidRun(states, labels, maxAttempts) && n <= |labels| && id in states[n].db.inbox
    ensures id in states[n].db.outcomes && states[n].db.outcomes[id] == Failed ==>
              Failures(states, labels, n, id) == maxAttempts
    ensures id !in states[n].db.outcomes ==> Failures(states, labels, n, id) < maxAttempts
  {
    RunKeepsInv(states, labels, maxAttempts, n);
    AttemptsCountFailures(states, labels, maxAttempts, n, id);
  }
}
