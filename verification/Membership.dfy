/** The best-known roster of one group, built from explicit membership updates and from messages,
    which may arrive late, twice and in any order. */
module Membership {
  import opened Wrappers

  datatype Status = Creator | Administrator | Member | Restricted | Left | Kicked | Unknown
  {
    predicate Active() {
      Creator? || Administrator? || Member? || Restricted?
    }

    predicate Gone() {
      Left? || Kicked?
    }
  }

  datatype Row = Row(status: Status, joinedAt: Option<int>, leftAt: Option<int>, checkedAt: int)

  datatype Person = Person(firstSeen: int, lastSeen: int, displayName: string)

  datatype Observation =
    | Explicit(at: int, status: Status)
    | Message(at: int)

  datatype Disposition = Created | Updated | Unchanged | Stale | IgnoredChat | IgnoredSender

  /** Telegram's status; a restricted user is a member only when it says so. */
  function MemberStatus(raw: string, isMember: Option<bool>): Status {
    if raw == "restricted" then
      (match isMember
       case Some(true) => Restricted
       case Some(false) => Left
       case None => Unknown)
    else if raw == "creator" then Creator
    else if raw == "administrator" then Administrator
    else if raw == "member" then Member
    else if raw == "left" then Left
    else if raw == "kicked" then Kicked
    else Unknown
  }

  /** Every status Telegram may report; a restricted user is there, gone or unknown by its own word. */
  lemma ReportedStatus(isMember: Option<bool>)
    ensures MemberStatus("creator", isMember) == Creator && MemberStatus("administrator", isMember) == Administrator
    ensures MemberStatus("member", isMember) == Member
    ensures MemberStatus("left", isMember) == Left && MemberStatus("kicked", isMember) == Kicked
    ensures MemberStatus("restricted", Some(true)) == Restricted && MemberStatus("restricted", Some(false)) == Left
    ensures MemberStatus("restricted", None) == Unknown
  {
    assert |"creator"| == 7 && |"administrator"| == 13 && |"member"| == 6 && |"left"| == 4 && |"kicked"| == 6 && |"restricted"| == 10;
    assert "member"[0] == 'm' && "kicked"[0] == 'k';
  }

  lemma OtherStatusIsUnknown(raw: string, isMember: Option<bool>)
    requires raw !in {"creator", "administrator", "member", "restricted", "left", "kicked"}
    ensures MemberStatus(raw, isMember) == Unknown
  {
  }

  /** Who is on the roster, and who is known to have left. */
  lemma ActiveOrGone(s: Status)
    ensures s.Active() <==> s == Creator || s == Administrator || s == Member || s == Restricted
    ensures s.Gone() <==> s == Left || s == Kicked
  {
  }

  // ---------------------------------------------------------------- one observation

  function Transition(row: Row, status: Status, at: int): Row {
    if status.Active() then
      Row(status, if !row.status.Active() || row.joinedAt.None? then Some(at) else row.joinedAt, None, at)
    else
      Row(status, row.joinedAt, if status.Gone() then Some(at) else row.leftAt, at)
  }

  function Observed(row: Option<Row>, o: Observation): Row {
    match (row, o)
    case (None, Explicit(at, status)) => Transition(Row(status, None, None, at), status, at)
    case (None, Message(at)) => Row(Member, Some(at), None, at)
    case (Some(r), Explicit(at, status)) =>
      if at < r.checkedAt || (at == r.checkedAt && r.status == status) then r else Transition(r, status, at)
    case (Some(r), Message(at)) =>
      if at <= r.checkedAt then r
      else if r.status.Active() then r.(checkedAt := at)
      else Transition(r, Member, at)
  }

  function DispositionOf(row: Option<Row>, o: Observation): Disposition {
    match (row, o)
    case (None, _) => Created
    case (Some(r), Explicit(at, status)) =>
      if at < r.checkedAt then Stale else if at == r.checkedAt && r.status == status then Unchanged else Updated
    case (Some(r), Message(at)) =>
      if at < r.checkedAt then Stale
      else if at == r.checkedAt then (if r.status.Active() then Unchanged else Stale)
      else Updated
  }

  /** What is true of every stored row. */
  ghost predicate Sound(r: Row) {
    && (r.status.Active() ==> r.joinedAt.Some? && r.leftAt.None?)
    && (r.status.Gone() ==> r.leftAt == Some(r.checkedAt))
    && (r.joinedAt.Some? ==> r.joinedAt.value <= r.checkedAt)
    && (r.leftAt.Some? ==> r.leftAt.value <= r.checkedAt)
  }

  lemma ObservedIsSound(row: Option<Row>, o: Observation)
    requires row.Some? ==> Sound(row.value)
    ensures Sound(Observed(row, o))
    ensures DispositionOf(row, o).Updated? <==> row.Some? && Observed(row, o) != row.value
  {
  }

  // ---------------------------------------------------------------- any delivery

  function Replay(deliveries: seq<Observation>): Option<Row> {
    if deliveries == [] then None
    else Some(Observed(Replay(deliveries[..|deliveries| - 1]), deliveries[|deliveries| - 1]))
  }

  ghost predicate Latest(deliveries: seq<Observation>, t: int) {
    && (exists o | o in deliveries :: o.at == t)
    && forall o | o in deliveries :: o.at <= t
  }

  ghost predicate Decides(deliveries: seq<Observation>, t: int, o: Observation) {
    o in deliveries && o.Explicit? && o.at == t
  }

  /** The row says what the latest observation says. Explicit updates win over a message of the same
      time, and the status is then that of one of them; with messages alone the user is in the group. */
  ghost predicate Settled(deliveries: seq<Observation>, r: Row) {
    && Latest(deliveries, r.checkedAt)
    && if exists o | o in deliveries :: Decides(deliveries, r.checkedAt, o)
       then exists o | o in deliveries :: Decides(deliveries, r.checkedAt, o) && r.status == o.status
       else r.status.Active()
  }

  lemma LatestOne(init: seq<Observation>, row: Option<Row>, o: Observation)
    requires (row.None? <==> init == []) && (row.Some? ==> Latest(init, row.value.checkedAt))
    ensures Latest(init + [o], Observed(row, o).checkedAt)
  {
    var all := init + [o];
    assert o in all && forall p :: p in all <==> p in init || p == o;
    if row.Some? && o.at < row.value.checkedAt {
      var p :| p in init && p.at == row.value.checkedAt;
      assert p in all;
    }
  }

  lemma SettledOne(init: seq<Observation>, row: Option<Row>, o: Observation)
    requires (row.None? <==> init == []) && (row.Some? ==> Settled(init, row.value))
    ensures Settled(init + [o], Observed(row, o))
  {
    var all, r := init + [o], Observed(row, o);
    LatestOne(init, row, o);
    assert o in all && forall p :: p in all <==> p in init || p == o;
    if row.Some? && r.checkedAt == row.value.checkedAt {
      assert forall p | p != o :: Decides(all, r.checkedAt, p) <==> Decides(init, r.checkedAt, p);
      if p :| p in init && Decides(init, r.checkedAt, p) && row.value.status == p.status {
        assert p in all && Decides(all, r.checkedAt, p);
      }
    }
    if o.Explicit? && o.at == r.checkedAt {
      assert Decides(all, r.checkedAt, o) && r.status == o.status;
    }
  }

  lemma {:induction false} ReplaySettles(deliveries: seq<Observation>)
    requires deliveries != []
    ensures Settled(deliveries, Replay(deliveries).value) && Sound(Replay(deliveries).value)
  {
    var init, last := deliveries[..|deliveries| - 1], deliveries[|deliveries| - 1];
    assert init + [last] == deliveries;
    if init != [] {
      ReplaySettles(init);
    }
    SettledOne(init, Replay(init), last);
    ObservedIsSound(Replay(init), last);
  }

  ghost predicate SameObservations(a: seq<Observation>, b: seq<Observation>) {
    forall o :: o in a <==> o in b
  }

  /** The explicit updates of the latest time agree on whether the user is in the group. */
  ghost predicate AgreeOnActivity(observations: seq<Observation>, t: int) {
    forall o, p | Decides(observations, t, o) && Decides(observations, t, p) :: o.status.Active() == p.status.Active()
  }

  ghost predicate AgreeOnStatus(observations: seq<Observation>, t: int) {
    forall o, p | Decides(observations, t, o) && Decides(observations, t, p) :: o.status == p.status
  }

  /** Any two deliveries of the same observations, in any order and with any repetitions, are checked at
      the same time, and agree on whether the user is in the group unless two explicit updates of that
      very time disagree on it. */
  lemma DeliveriesAgree(a: seq<Observation>, b: seq<Observation>)
    requires a != [] && SameObservations(a, b)
    ensures b != []
    ensures var r, q := Replay(a).value, Replay(b).value;
            && r.checkedAt == q.checkedAt
            && (AgreeOnActivity(a, r.checkedAt) ==> (r.status.Active() <==> q.status.Active()))
            && (AgreeOnStatus(a, r.checkedAt) && (exists o :: Decides(a, r.checkedAt, o)) ==> r.status == q.status)
            && (r.status.Gone() && q.status.Gone() ==> r.leftAt == q.leftAt)
  {
    assert a[0] in b;
    ReplaySettles(a);
    ReplaySettles(b);
    assert Replay(a).value.checkedAt == Replay(b).value.checkedAt;
    assert forall o :: Decides(a, Replay(a).value.checkedAt, o) <==> Decides(b, Replay(a).value.checkedAt, o);
  }

  lemma CheckedAtLatest(observations: seq<Observation>, t: int, a: seq<Observation>)
    requires Latest(observations, t) && SameObservations(a, observations)
    ensures a != [] && Replay(a).value.checkedAt == t && Settled(a, Replay(a).value)
    ensures forall o :: Decides(a, t, o) <==> Decides(observations, t, o)
  {
    var m :| m in observations && m.at == t;
    assert m in a;
    ReplaySettles(a);
  }

  /** Redelivering an explicit update of the latest time makes its status the final one. */
  lemma LastUpdateWins(observations: seq<Observation>, t: int, o: Observation)
    requires Latest(observations, t) && Decides(observations, t, o)
    ensures SameObservations(observations + [o], observations)
    ensures Replay(observations + [o]).value.status == o.status
  {
    CheckedAtLatest(observations, t, observations);
    assert (observations + [o])[..|observations|] == observations;
  }

  /** Whether the user is in the group does not depend on the delivery. */
  ghost predicate ActiveIsSettled(observations: seq<Observation>) {
    forall a, b | SameObservations(a, observations) && SameObservations(b, observations) ::
      Replay(a).Some? && Replay(b).Some? ==> (Replay(a).value.status.Active() <==> Replay(b).value.status.Active())
  }

  /** The active bit is the same for every delivery exactly when the explicit updates of the latest time
      agree on it; in particular whenever no two different updates carry the same time. */
  lemma ActiveIsSettledIff(observations: seq<Observation>, t: int)
    requires Latest(observations, t)
    ensures ActiveIsSettled(observations) <==> AgreeOnActivity(observations, t)
  {
    if AgreeOnActivity(observations, t) {
      forall a, b | SameObservations(a, observations) && SameObservations(b, observations) && Replay(a).Some? && Replay(b).Some?
        ensures Replay(a).value.status.Active() <==> Replay(b).value.status.Active()
      {
        CheckedAtLatest(observations, t, a);
        DeliveriesAgree(a, b);
      }
    } else {
      var o, p :| Decides(observations, t, o) && Decides(observations, t, p) && o.status.Active() != p.status.Active();
      LastUpdateWins(observations, t, o);
      LastUpdateWins(observations, t, p);
    }
  }

  /** The input that shows it: a user who joins and is removed within one second. */
  lemma JoinedAndRemovedInOneSecond()
    ensures var joined, removed := Explicit(5, Member), Explicit(5, Left);
            && Replay([joined, removed]).value.status == Left && Replay([removed, joined]).value.status == Member
            && !ActiveIsSettled([joined, removed])
  {
    var joined, removed := Explicit(5, Member), Explicit(5, Left);
    assert [joined, removed][..1] == [joined] && [removed, joined][..1] == [removed];
    assert [joined][..0] == [] && [removed][..0] == [];
    assert Replay([joined]) == Some(Row(Member, Some(5), None, 5)) && Replay([removed]) == Some(Row(Left, None, Some(5), 5));
    assert SameObservations([removed, joined], [joined, removed]);
  }

  // ---------------------------------------------------------------- the full status

  /** The full status does not depend on the delivery. */
  ghost predicate StatusIsSettled(observations: seq<Observation>) {
    forall a, b | SameObservations(a, observations) && SameObservations(b, observations) ::
      Replay(a).Some? && Replay(b).Some? ==> Replay(a).value.status == Replay(b).value.status
  }

  /** An explicit update that gives a role a later message may keep or never see. */
  ghost predicate GivesRole(o: Observation) {
    o.Explicit? && o.status.Active() && o.status != Member
  }

  lemma {:induction false} NoRoleMeansMember(deliveries: seq<Observation>)
    requires forall o | o in deliveries :: !GivesRole(o)
    ensures Replay(deliveries).Some? && Replay(deliveries).value.status.Active() ==> Replay(deliveries).value.status == Member
  {
    if deliveries != [] {
      var init, last := deliveries[..|deliveries| - 1], deliveries[|deliveries| - 1];
      NoRoleMeansMember(init);
      assert !GivesRole(last);
    }
  }

  lemma {:induction false} LateDeliveriesAreStale(first: seq<Observation>, rest: seq<Observation>)
    requires first != [] && first[|first| - 1].Message?
    requires forall o | o in first + rest :: o.at <= first[|first| - 1].at
    requires forall o | o in rest && o.Explicit? :: o.at < first[|first| - 1].at
    requires Replay(first).value.checkedAt == first[|first| - 1].at
    ensures Replay(first + rest) == Replay(first)
  {
    if rest == [] {
      assert first + rest == first;
    } else {
      var init, last := rest[..|rest| - 1], rest[|rest| - 1];
      LateDeliveriesAreStale(first, init);
      assert (first + rest)[..|first + rest| - 1] == first + init && (first + rest)[|first + rest| - 1] == last;
      assert last in rest;
    }
  }

  /** A role given before a later message survives only if it is delivered before that message. */
  lemma RoleDependsOnDelivery(observations: seq<Observation>, role: Observation, m: Observation)
    requires role in observations && GivesRole(role)
    requires m in observations && m.Message? && forall o | o in observations :: o.at <= m.at && (o.Explicit? ==> o.at < m.at)
    ensures !StatusIsSettled(observations)
  {
    var before, after := [role, m], [m];
    assert before[..1] == [role] && after[..0] == [] && [role][..0] == [];
    assert Replay([role]).value.status == role.status;
    assert Replay(before).value == Replay([role]).value.(checkedAt := m.at);
    LateDeliveriesAreStale(before, observations);
    LateDeliveriesAreStale(after, observations);
    assert SameObservations(before + observations, observations) && SameObservations(after + observations, observations);
  }

  lemma UndecidedStatus(observations: seq<Observation>, t: int, a: seq<Observation>)
    requires Latest(observations, t) && SameObservations(a, observations)
    requires forall o | o in observations :: !GivesRole(o) && !Decides(observations, t, o)
    ensures a != [] && Replay(a).value.status == Member
  {
    CheckedAtLatest(observations, t, a);
    NoRoleMeansMember(a);
    assert forall o | o in a :: !Decides(a, t, o);
  }

  lemma UndecidedRole(observations: seq<Observation>, t: int, role: Observation)
    requires Latest(observations, t) && role in observations && GivesRole(role)
    requires forall o | o in observations :: !Decides(observations, t, o)
    ensures !StatusIsSettled(observations)
  {
    var m :| m in observations && m.at == t;
    assert !Decides(observations, t, m);
    forall o | o in observations ensures o.at <= m.at && (o.Explicit? ==> o.at < m.at) {
      assert !Decides(observations, t, o);
    }
    RoleDependsOnDelivery(observations, role, m);
  }

  lemma DecidedStatusIff(observations: seq<Observation>, t: int, o: Observation)
    requires Latest(observations, t) && Decides(observations, t, o)
    ensures StatusIsSettled(observations) <==> AgreeOnStatus(observations, t)
  {
    if AgreeOnStatus(observations, t) {
      forall a | SameObservations(a, observations) ensures a != [] && Replay(a).value.status == o.status {
        CheckedAtLatest(observations, t, a);
        assert o in a && Decides(a, t, o);
      }
    } else {
      var p, q :| Decides(observations, t, p) && Decides(observations, t, q) && p.status != q.status;
      LastUpdateWins(observations, t, p);
      LastUpdateWins(observations, t, q);
    }
  }

  /** The full status is the same for every delivery exactly when the explicit updates of the latest
      time all give one status, or, with no explicit update at that time, no update gives a role beyond
      plain membership. */
  lemma StatusIsSettledIff(observations: seq<Observation>, t: int)
    requires Latest(observations, t)
    ensures StatusIsSettled(observations) <==>
              && AgreeOnStatus(observations, t)
              && ((exists o | o in observations :: Decides(observations, t, o)) || forall o | o in observations :: !GivesRole(o))
  {
    if o :| o in observations && Decides(observations, t, o) {
      DecidedStatusIff(observations, t, o);
    } else if role :| role in observations && GivesRole(role) {
      UndecidedRole(observations, t, role);
    } else {
      forall a | SameObservations(a, observations) ensures a != [] && Replay(a).value.status == Member {
        UndecidedStatus(observations, t, a);
      }
    }
  }

  // ---------------------------------------------------------------- the store

  function SeenAt(p: Option<Person>, name: string, at: int): Person {
    if p.None? then Person(at, at, name)
    else
      Person(if p.value.firstSeen <= at then p.value.firstSeen else at,
             if p.value.lastSeen <= at then at else p.value.lastSeen,
             if p.value.lastSeen <= at then name else p.value.displayName)
  }

  function Lookup<T>(table: map<int, T>, id: int): Option<T> {
    if id in table then Some(table[id]) else None
  }

  datatype Sender = Sender(id: int, displayName: string)

  class MembershipStore {
    const targetChatId: int
    var users: map<int, Person>
    var rows: map<int, Row>

    ghost predicate Valid()
      reads this
    {
      && rows.Keys <= users.Keys
      && forall id | id in rows :: Sound(rows[id]) && users[id].firstSeen <= rows[id].checkedAt <= users[id].lastSeen
    }

    constructor (targetChatId: int)
      ensures Valid() && this.targetChatId == targetChatId && rows == map[] && users == map[]
    {
      this.targetChatId := targetChatId;
      users, rows := map[], map[];
    }

    predicate IsTargetGroup(chatId: int, chatType: string) {
      chatId == targetChatId && (chatType == "group" || chatType == "supergroup")
    }

    /** The user and the row of one observation, and nobody else's. */
    twostate predicate Noted(sender: Sender, o: Observation, d: Disposition)
      reads this
    {
      && d == DispositionOf(Lookup(old(rows), sender.id), o)
      && rows == old(rows)[sender.id := Observed(Lookup(old(rows), sender.id), o)]
      && users == old(users)[sender.id := SeenAt(Lookup(old(users), sender.id), sender.displayName, o.at)]
    }

    method ApplyChatMemberUpdate(chatId: int, chatType: string, sender: Sender, raw: string, isMember: Option<bool>, at: int)
      returns (d: Disposition)
      requires Valid()
      modifies this
      ensures Valid()
      ensures chatId != targetChatId || chatType !in ["group", "supergroup"] ==> d == IgnoredChat && rows == old(rows) && users == old(users)
      ensures chatId == targetChatId && chatType in ["group", "supergroup"] ==> Noted(sender, Explicit(at, MemberStatus(raw, isMember)), d)
    {
      if !IsTargetGroup(chatId, chatType) {
        return IgnoredChat;
      }
      UpsertUser(sender, at);
      var status := MemberStatus(raw, isMember);
      ObservedIsSound(Lookup(rows, sender.id), Explicit(at, status));
      if sender.id !in rows {
        rows := rows[sender.id := Row(status, None, None, at)];
        ApplyTransition(sender.id, status, at);
        return Created;
      }
      var row := rows[sender.id];
      assert rows[sender.id := row] == rows;
      if at < row.checkedAt {
        return Stale;
      }
      if at == row.checkedAt && row.status == status {
        return Unchanged;
      }
      ApplyTransition(sender.id, status, at);
      return Updated;
    }

    method ObserveMessageSender(chatId: int, chatType: string, from_: Option<Sender>, at: int) returns (d: Disposition)
      requires Valid()
      modifies this
      ensures Valid()
      ensures chatId != targetChatId || chatType !in ["group", "supergroup"] ==> d == IgnoredChat && rows == old(rows) && users == old(users)
      ensures chatId == targetChatId && chatType in ["group", "supergroup"] && from_.None? ==> d == IgnoredSender && rows == old(rows) && users == old(users)
      ensures chatId == targetChatId && chatType in ["group", "supergroup"] && from_.Some? ==> Noted(from_.value, Message(at), d)
    {
      if !IsTargetGroup(chatId, chatType) {
        return IgnoredChat;
      }
      if from_.None? {
        return IgnoredSender;
      }
      var sender := from_.value;
      UpsertUser(sender, at);
      ObservedIsSound(Lookup(rows, sender.id), Message(at));
      if sender.id !in rows {
        rows := rows[sender.id := Row(Member, Some(at), None, at)];
        return Created;
      }
      var row := rows[sender.id];
      assert rows[sender.id := row] == rows;
      if at < row.checkedAt {
        return Stale;
      }
      if at == row.checkedAt {
        return if row.status.Active() then Unchanged else Stale;
      }
      if row.status.Active() {
        rows := rows[sender.id := row.(checkedAt := at)];
      } else {
        ApplyTransition(sender.id, Member, at);
      }
      return Updated;
    }

    method UpsertUser(sender: Sender, at: int)
      requires Valid()
      modifies this`users
      ensures Valid()
      ensures users == old(users)[sender.id := SeenAt(Lookup(old(users), sender.id), sender.displayName, at)]
    {
      if sender.id !in users {
        users := users[sender.id := Person(at, at, sender.displayName)];
        return;
      }
      var stored := users[sender.id];
      stored := stored.(firstSeen := if stored.firstSeen <= at then stored.firstSeen else at);
      if at >= stored.lastSeen {
        stored := stored.(displayName := sender.displayName, lastSeen := at);
      }
      users := users[sender.id := stored];
    }

    method ApplyTransition(id: int, status: Status, at: int)
      requires id in rows
      modifies this`rows
      ensures rows == old(rows)[id := Transition(old(rows)[id], status, at)]
    {
      var row := rows[id];
      var wasActive := row.status.Active();
      row := row.(status := status, checkedAt := at);
      if status.Active() {
        if !wasActive || row.joinedAt.None? {
          row := row.(joinedAt := Some(at));
        }
        row := row.(leftAt := None);
      } else if status.Gone() {
        row := row.(leftAt := Some(at));
      }
      rows := rows[id := row];
    }
  }
}
