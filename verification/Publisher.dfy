/** Publishing a dispatched schedule envelope and its reminders: a few messages sent one after the
    other, around a small stored state, any of which may be the last thing that happens. */
module Publisher {
  import opened Wrappers
  import opened Schedule
  import D = ScheduleDiff
  import R = Reminders

  const DAY := 86400
  const EVENING := 20 * 3600

  /** What leaves the process: the pinned card, a notice of changes, the evening summary, a reminder. */
  datatype Message =
    | Card(id: int)
    | Notice(changes: seq<D.Change>)
    | Summary(day: int)
    | Reminder(marker: R.Marker)

  /** The stored state; the bot's card has no key. */
  datatype State = State(previous: Option<D.Envelope>, lastDigest: Option<int>, sent: seq<R.Marker>, cards: map<Option<string>, int>)

  datatype Call = Call(envelope: D.Envelope, day: int, now: int, quiet: bool, key: Option<string>)

  datatype Tick = Tick(day: int, now: int, quiet: bool, key: Option<string>)

  const Empty := State(None, None, [], map[])

  // ---------------------------------------------------------------- decisions

  predicate Stale(s: State, c: Call) {
    s.previous.Some? && c.envelope.fetchedAt <= s.previous.value.fetchedAt
  }

  predicate MarksDigest(s: State, c: Call) {
    c.envelope.forceDigest || (EVENING <= c.now && s.lastDigest != Some(c.day))
  }

  predicate Actionable(kind: D.ChangeKind) {
    kind.Cancelled? || kind.Added? || kind.Time? || kind.Room? || kind.Building? || kind.SubjectName?
  }

  predicate Soon(l: Option<Lesson>, instant: int) {
    l.Some? && instant <= l.value.day * DAY + l.value.startsAt <= instant + DAY
  }

  function Urgent(changes: seq<D.Change>, instant: int): seq<D.Change> {
    if changes == [] then []
    else
      var last := changes[|changes| - 1];
      Urgent(changes[..|changes| - 1], instant) +
      if Actionable(last.kind) && (Soon(last.before, instant) || Soon(last.after, instant)) then [last] else []
  }

  function Announced(c: Call, changes: seq<D.Change>): seq<D.Change> {
    if c.quiet then Urgent(changes, c.day * DAY + c.now) else changes
  }

  function DueReminder(lessons: seq<Lesson>, sent: seq<R.Marker>, day: int, now: int, quiet: bool): Option<R.Reminder> {
    if quiet then None else R.Due(R.Blocks(lessons, day), day, now, sent)
  }

  function DueAt(s: State, c: Call): Option<R.Reminder> {
    DueReminder(c.envelope.lessons, s.sent, c.day, c.now, c.quiet)
  }

  function ReminderMessage(r: Option<R.Reminder>): seq<Message> {
    if r.Some? then [Reminder(r.value.marker)] else []
  }

  /** Everything a call that gets to its end sends, in order. */
  function Messages(s: State, c: Call, changes: seq<D.Change>, card: int): seq<Message> {
    [Card(card)]
    + (if Announced(c, changes) == [] then [] else [Notice(Announced(c, changes))])
    + (if MarksDigest(s, c) && !c.envelope.forceDigest && !c.quiet then [Summary(c.day)] else [])
    + ReminderMessage(DueAt(s, c))
  }

  function Final(s: State, c: Call, card: int): State {
    State(Some(c.envelope), if MarksDigest(s, c) then Some(c.day) else s.lastDigest,
          R.Remember(s.sent, DueAt(s, c)), s.cards[c.key := card])
  }

  /** The changes a call compares out: none for a forced rebaseline. */
  ghost predicate Compared(x: Rules, s: State, c: Call, changes: seq<D.Change>) {
    if c.envelope.forceDigest || s.previous.None? then changes == []
    else D.IsOverlapReport(x, s.previous.value, c.envelope, c.day, changes)
  }

  /** A call sent a prefix of its messages; its baseline moves only after all of them. */
  ghost predicate Published(x: Rules, s: State, c: Call, changes: seq<D.Change>, card: int, done: bool, s': State, out: seq<Message>) {
    && !Stale(s, c) && Compared(x, s, c, changes)
    && out <= Messages(s, c, changes, card)
    && if done then out == Messages(s, c, changes, card) && s' == Final(s, c, card)
       else s' == s || (out != [] && s' == s.(cards := s.cards[c.key := card]))
  }

  function TickReminder(s: State, t: Tick): Option<R.Reminder> {
    if s.previous.None? then None else DueReminder(s.previous.value.lessons, s.sent, t.day, t.now, t.quiet)
  }

  function TickMessages(s: State, t: Tick, card: int): seq<Message> {
    (if t.key in s.cards then [Card(card)] else []) + ReminderMessage(TickReminder(s, t))
  }

  /** A reminder run refreshes an existing card and never touches the baseline or the digest day. */
  ghost predicate Ticked(s: State, t: Tick, card: int, done: bool, s': State, out: seq<Message>) {
    if s.previous.None? || (TickReminder(s, t).None? && t.key !in s.cards) then s' == s && out == []
    else
      && out <= TickMessages(s, t, card)
      && if done then
           out == TickMessages(s, t, card) &&
           s' == s.(sent := R.Remember(s.sent, TickReminder(s, t)), cards := if t.key in s.cards then s.cards[t.key := card] else s.cards)
         else s' == s
  }

  // ---------------------------------------------------------------- what is sent when

  /** A change that quiet mode still announces: not of teacher or type, and of a lesson that starts
      within the next twenty-four hours. */
  lemma {:induction false} UrgentIff(changes: seq<D.Change>, instant: int, c: D.Change)
    ensures c in Urgent(changes, instant) <==>
              && c in changes && c.kind != D.Teacher && c.kind != D.LessonType
              && ((c.before.Some? && 0 <= c.before.value.day * 86400 + c.before.value.startsAt - instant <= 86400)
                  || (c.after.Some? && 0 <= c.after.value.day * 86400 + c.after.value.startsAt - instant <= 86400))
  {
    if changes != [] {
      UrgentIff(changes[..|changes| - 1], instant, c);
    }
  }

  /** A call that gets to its end announces the changes, in quiet mode the urgent ones, if there are any. */
  lemma WhenNoticed(s: State, c: Call, changes: seq<D.Change>, card: int)
    ensures var news := if c.quiet then Urgent(changes, c.day * 86400 + c.now) else changes;
            && (news != [] ==> Notice(news) in Messages(s, c, changes, card))
            && forall m | m in Messages(s, c, changes, card) && m.Notice? :: m == Notice(news) && news != []
  {
    NoticeAlone(s, c, changes, card, Announced(c, changes));
  }

  lemma NoticeAlone(s: State, c: Call, changes: seq<D.Change>, card: int, news: seq<D.Change>)
    requires news == Announced(c, changes)
    ensures news != [] ==> Notice(news) in Messages(s, c, changes, card)
    ensures forall m | m in Messages(s, c, changes, card) && m.Notice? :: m == Notice(news) && news != []
  {
    var out := Messages(s, c, changes, card);
    if news != [] {
      assert out[1] == Notice(news);
    }
  }

  /** Outside quiet mode it sends the summary of an evening not marked yet, from eight o'clock; no
      summary comes with a forced digest. */
  lemma WhenSummed(s: State, c: Call, changes: seq<D.Change>, card: int)
    ensures Summary(c.day) in Messages(s, c, changes, card) <==>
              !c.quiet && !c.envelope.forceDigest && 72000 <= c.now && s.lastDigest != Some(c.day)
    ensures forall m | m in Messages(s, c, changes, card) && m.Summary? :: m.day == c.day
  {
  }

  /** Outside quiet mode it sends the reminder that is due. */
  lemma WhenReminded(s: State, c: Call, changes: seq<D.Change>, card: int, marker: R.Marker)
    ensures Reminder(marker) in Messages(s, c, changes, card) <==>
              !c.quiet && var r := R.Due(R.Blocks(c.envelope.lessons, c.day), c.day, c.now, s.sent); r.Some? && r.value.marker == marker
  {
  }

  function Rank(m: Message): nat {
    match m
    case Card(_) => 0
    case Notice(_) => 1
    case Summary(_) => 2
    case Reminder(_) => 3
  }

  /** The card comes first, then the notice, the summary and the reminder, each at most once. */
  lemma InWhichOrder(s: State, c: Call, changes: seq<D.Change>, card: int)
    ensures Messages(s, c, changes, card)[0] == Card(card)
    ensures forall i, j | 0 <= i < j < |Messages(s, c, changes, card)| ::
              Rank(Messages(s, c, changes, card)[i]) < Rank(Messages(s, c, changes, card)[j])
  {
  }

  /** A reminder run sends the refreshed card when there is one, then the reminder that is due. */
  lemma WhatATickSends(s: State, t: Tick, card: int, marker: R.Marker)
    requires s.previous.Some?
    ensures Card(card) in TickMessages(s, t, card) <==> t.key in s.cards
    ensures Reminder(marker) in TickMessages(s, t, card) <==>
              !t.quiet && var r := R.Due(R.Blocks(s.previous.value.lessons, t.day), t.day, t.now, s.sent); r.Some? && r.value.marker == marker
  {
  }

  /** The state a finished call leaves. */
  lemma WhatIsStored(s: State, c: Call, card: int)
    ensures var s' := Final(s, c, card);
            && s'.previous == Some(c.envelope)
            && s'.lastDigest == (if c.envelope.forceDigest || (72000 <= c.now && s.lastDigest != Some(c.day)) then Some(c.day) else s.lastDigest)
            && c.key in s'.cards && s'.cards[c.key] == card && s'.cards.Keys == s.cards.Keys + {c.key}
            && (forall k | k in s.cards && k != c.key :: s'.cards[k] == s.cards[k])
  {
  }

  // ---------------------------------------------------------------- the two workflows

  datatype Outcome = Completed | Refused | Interrupted

  class Bridge {
    var state: State
    var log: seq<Message>

    constructor ()
      ensures state == Empty && log == []
    {
      state, log := Empty, [];
    }

    /** What a run starts from: a missing or damaged file reads as a first run. */
    method LoadState(readable: bool)
      modifies this`state
      ensures state == if readable then old(state) else Empty
    {
      if !readable {
        state := Empty;
      }
    }

    /** `upsert` is the card's message id, if that request succeeds; `budget` is how many of the
        saves and sends after it complete. */
    method PublishDispatched(x: Rules, c: Call, upsert: Option<int>, budget: nat)
      returns (outcome: Outcome, ghost changes: seq<D.Change>)
      modifies this
      ensures outcome.Refused? <==> Stale(old(state), c)
      ensures outcome.Refused? ==> state == old(state) && log == old(log)
      ensures !outcome.Refused? ==>
                old(log) <= log &&
                Published(x, old(state), c, changes, OrZero(upsert), outcome.Completed?, state, log[|old(log)|..])
      ensures !Stale(old(state), c) && upsert.Some? && 5 <= budget ==> outcome.Completed?
    {
      changes := [];
      if Stale(state, c) {
        return Refused, changes;
      }
      var compared: seq<D.Change> := [];
      if !c.envelope.forceDigest {
        compared := D.OverlappingChanges(x, state.previous, c.envelope, c.day);
      }
      changes := compared;
      if upsert.None? {
        assert log[|old(log)|..] == [];
        return Interrupted, changes;
      }
      var digest := MarksDigest(state, c);
      log := log + [Card(upsert.value)];
      assert log[|old(log)|..] == [Card(upsert.value)] <= Messages(old(state), c, changes, upsert.value);
      if budget == 0 {
        return Interrupted, changes;
      }
      state := state.(cards := state.cards[c.key := upsert.value]);
      var done := Finish(c, compared, digest, budget - 1, upsert.value, old(state), old(log));
      outcome := if done then Completed else Interrupted;
    }

    /** The messages after the card, then the save that moves the baseline. */
    method Finish(c: Call, changes: seq<D.Change>, digest: bool, budget: nat, ghost card: int, ghost was: State, ghost before: seq<Message>)
      returns (done: bool)
      requires state == was.(cards := was.cards[c.key := card]) && log == before + [Card(card)] && digest == MarksDigest(was, c)
      modifies this
      ensures before <= log && log[|before|..] <= Messages(was, c, changes, card) && log[|before|..] != []
      ensures done ==> log[|before|..] == Messages(was, c, changes, card) && state == Final(was, c, card)
      ensures !done ==> state == old(state)
      ensures 4 <= budget ==> done
    {
      var notices := Announced(c, changes);
      var queue: seq<Message> := if notices == [] then [] else [Notice(notices)];
      if digest && !c.envelope.forceDigest && !c.quiet {
        queue := queue + [Summary(c.day)];
      }
      var reminder := DueReminder(c.envelope.lessons, state.sent, c.day, c.now, c.quiet);
      queue := queue + ReminderMessage(reminder);
      assert [Card(card)] + queue == Messages(was, c, changes, card);
      var ok := SendAll(queue, budget);
      assert log[|before|..] == [Card(card)] + if ok then queue else queue[..budget];
      if !ok || budget == |queue| {
        return false;
      }
      state := state.(previous := Some(c.envelope), lastDigest := if digest then Some(c.day) else state.lastDigest,
                      sent := R.Remember(state.sent, reminder));
      done := true;
    }

    /** Send one after the other until one fails. */
    method SendAll(queue: seq<Message>, budget: nat) returns (ok: bool)
      modifies this`log
      ensures ok <==> |queue| <= budget
      ensures log == old(log) + if ok then queue else queue[..budget]
    {
      for k := 0 to |queue|
        invariant k <= budget && log == old(log) + queue[..k]
      {
        if k == budget {
          return false;
        }
        log := log + [queue[k]];
        assert queue[..k + 1] == queue[..k] + [queue[k]];
      }
      assert queue[..|queue|] == queue;
      ok := true;
    }

    method PublishDueReminder(t: Tick, upsert: Option<int>, budget: nat) returns (outcome: Outcome)
      modifies this
      ensures old(log) <= log && Ticked(old(state), t, OrZero(upsert), outcome.Completed?, state, log[|old(log)|..])
      ensures upsert.Some? && 3 <= budget ==> outcome.Completed?
    {
      assert log[|log|..] == [];
      if state.previous.None? {
        return Completed;
      }
      var reminder := R.DueReminder(state.previous.value.lessons, t.day, t.now, state.sent);
      if t.quiet {
        reminder := None;
      }
      if reminder.None? && t.key !in state.cards {
        return Completed;
      }
      var queue: seq<Message> := [];
      if t.key in state.cards {
        if upsert.None? {
          return Interrupted;
        }
        queue := [Card(upsert.value)];
      }
      queue := queue + ReminderMessage(reminder);
      var ok := SendAll(queue, budget);
      assert log[|old(log)|..] <= queue;
      if !ok || budget == |queue| {
        return Interrupted;
      }
      assert log[|old(log)|..] == queue;
      state := state.(sent := R.Remember(state.sent, reminder),
                      cards := if t.key in state.cards then state.cards[t.key := upsert.value] else state.cards);
      outcome := Completed;
    }
  }

  function OrZero(id: Option<int>): int {
    if id.Some? then id.value else 0
  }

  // ---------------------------------------------------------------- any sequence of runs

  datatype Event =
    | Publish(call: Call, changes: seq<D.Change>, card: int, done: bool, out: seq<Message>)
    | Refuse(call: Call)
    | Remind(tick: Tick, card: int, done: bool, out: seq<Message>)
    | Lose

  /** The event is a run that may send something. */
  predicate Runs(e: Event) {
    e.Publish? || e.Remind?
  }

  ghost predicate Step(x: Rules, s: State, e: Event, s': State) {
    match e
    case Publish(c, changes, card, done, out) => Published(x, s, c, changes, card, done, s', out)
    case Refuse(c) => Stale(s, c) && s' == s
    case Remind(t, card, done, out) => Ticked(s, t, card, done, s', out)
    case Lose => s' == Empty
  }

  /** The state file was lost or damaged after event `i` and before event `k`. */
  ghost predicate LostBetween(events: seq<Event>, i: nat, k: nat) {
    exists j | i < j < k :: j < |events| && events[j].Lose?
  }

  ghost predicate Run(x: Rules, states: seq<State>, events: seq<Event>) {
    && |states| == |events| + 1
    && forall i | 0 <= i < |events| :: Step(x, states[i], events[i], states[i + 1])
  }

  predicate Accepted(e: Event) {
    e.Publish? && e.done
  }

  /** As long as the state file is not lost, an envelope that was published in full is never accepted
      again and the baseline never goes back in time, whatever is interrupted in between. */
  lemma {:induction false} BaselineOnlyAdvances(x: Rules, states: seq<State>, events: seq<Event>, i: nat, k: nat)
    requires Run(x, states, events) && i < k < |states| && Accepted(events[i])
    ensures LostBetween(events, i, k) ||
            (states[k].previous.Some? && events[i].call.envelope.fetchedAt <= states[k].previous.value.fetchedAt)
    ensures LostBetween(events, i, k) || (k < |events| && events[k].Publish? ==>
            events[i].call.envelope.fetchedAt < events[k].call.envelope.fetchedAt)
    decreases k
  {
    assert Step(x, states[i], events[i], states[i + 1]);
    if i + 1 < k {
      BaselineOnlyAdvances(x, states, events, i, k - 1);
      assert Step(x, states[k - 1], events[k - 1], states[k - 1 + 1]);
      assert events[k - 1].Lose? || LostBetween(events, i, k - 1) ==> LostBetween(events, i, k);
    }
    if k < |events| {
      assert Step(x, states[k], events[k], states[k + 1]);
    }
  }

  /** Nothing between two accepted envelopes is skipped: the later one is compared with the earlier
      one, and what the comparison finds is sent before the baseline moves. Only after the state file
      was lost is the later one a new beginning that reports nothing. */
  lemma AcceptedEnvelopesAreChained(x: Rules, states: seq<State>, events: seq<Event>, i: nat, k: nat)
    requires Run(x, states, events) && i < k < |events| && Accepted(events[i]) && Accepted(events[k])
    requires forall j | i < j < k :: !Accepted(events[j])
    ensures var (e, f) := (events[i], events[k]);
            if LostBetween(events, i, k) then states[k].previous.None? && f.changes == []
            else
              && states[k].previous == Some(e.call.envelope)
              && (!f.call.envelope.forceDigest ==> D.IsOverlapReport(x, e.call.envelope, f.call.envelope, f.call.day, f.changes))
              && (!f.call.envelope.forceDigest && Announced(f.call, f.changes) != [] ==> Notice(Announced(f.call, f.changes)) in f.out)
  {
    assert Step(x, states[i], events[i], states[i + 1]);
    BaselineStays(x, states, events, i, k);
    assert Step(x, states[k], events[k], states[k + 1]);
  }

  lemma {:induction false} BaselineStays(x: Rules, states: seq<State>, events: seq<Event>, i: nat, k: nat)
    requires Run(x, states, events) && i < k < |states| && forall j | i < j < k :: !Accepted(events[j])
    ensures if LostBetween(events, i, k) then states[k].previous.None?
            else states[k].previous == states[i + 1].previous
    decreases k
  {
    if i + 1 < k {
      BaselineStays(x, states, events, i, k - 1);
      assert !Accepted(events[k - 1]);
      assert Step(x, states[k - 1], events[k - 1], states[k - 1 + 1]);
      assert LostBetween(events, i, k) <==> events[k - 1].Lose? || LostBetween(events, i, k - 1);
    }
  }

  /** The publisher's clock never goes back to an earlier day. */
  ghost predicate DaysGrow(events: seq<Event>) {
    forall i, k | 0 <= i < k < |events| && events[i].Publish? && events[k].Publish? :: events[i].call.day <= events[k].call.day
  }

  lemma {:induction false} DigestDayStays(x: Rules, states: seq<State>, events: seq<Event>, i: nat, k: nat, day: int)
    requires Run(x, states, events) && i <= k < |states| && states[i].lastDigest == Some(day)
    requires forall j | i <= j < k :: !events[j].Lose? && (events[j].Publish? ==> events[j].call.day == day)
    ensures states[k].lastDigest == Some(day)
    decreases k
  {
    if i < k {
      DigestDayStays(x, states, events, i, k - 1, day);
      assert Step(x, states[k - 1], events[k - 1], states[k - 1 + 1]);
    }
  }

  /** Once a completed run has marked the day, no later run of that day sends the evening summary, as
      long as the state file is not lost. A
      forced digest and a quiet evening mark the day too, although they send no summary. */
  lemma MarkedDayStaysSilent(x: Rules, states: seq<State>, events: seq<Event>, i: nat, k: nat)
    requires Run(x, states, events) && DaysGrow(events) && i < k < |events|
    requires Accepted(events[i]) && (events[i].call.envelope.forceDigest || EVENING <= events[i].call.now)
    requires events[k].Publish? && events[k].call.day == events[i].call.day
    ensures LostBetween(events, i, k) || Summary(events[k].call.day) !in events[k].out
  {
    if LostBetween(events, i, k) {
      return;
    }
    var day := events[i].call.day;
    assert Step(x, states[i], events[i], states[i + 1]);
    AcceptedMarksTheDay(x, states[i], events[i], states[i + 1]);
    forall j | i + 1 <= j < k ensures !events[j].Lose? && (events[j].Publish? ==> events[j].call.day == day) {
      assert events[j].Publish? ==> events[i].call.day <= events[j].call.day <= events[k].call.day;
    }
    DigestDayStays(x, states, events, i + 1, k, day);
    assert Step(x, states[k], events[k], states[k + 1]);
    if Summary(day) in events[k].out {
      SummaryNamesTheDay(states[k], events[k], day);
    }
  }

  lemma AcceptedMarksTheDay(x: Rules, s: State, e: Event, s': State)
    requires Step(x, s, e, s') && Accepted(e) && (e.call.envelope.forceDigest || EVENING <= e.call.now)
    ensures s'.lastDigest == Some(e.call.day)
  {
  }

  /** So a day's summary is repeated only if the run that sent it first did not reach its end, or the
      state file was lost since. */
  lemma SummaryTwiceMeansInterrupted(x: Rules, states: seq<State>, events: seq<Event>, i: nat, k: nat, day: int)
    requires Run(x, states, events) && DaysGrow(events) && i < k < |events|
    requires events[i].Publish? && events[k].Publish? && Summary(day) in events[i].out && Summary(day) in events[k].out
    ensures !events[i].done || LostBetween(events, i, k)
  {
    assert Step(x, states[i], events[i], states[i + 1]);
    assert Step(x, states[k], events[k], states[k + 1]);
    SummaryNamesTheDay(states[i], events[i], day);
    SummaryNamesTheDay(states[k], events[k], day);
    if events[i].done {
      MarkedDayStaysSilent(x, states, events, i, k);
    }
  }

  lemma SummaryNamesTheDay(s: State, e: Event, day: int)
    requires e.Publish? && e.out <= Messages(s, e.call, e.changes, e.card) && Summary(day) in e.out
    ensures e.call.day == day && EVENING <= e.call.now && !e.call.quiet && !e.call.envelope.forceDigest
    ensures s.lastDigest != Some(day)
  {
  }

  lemma NewReminder(r: Option<R.Reminder>, lessons: seq<Lesson>, sent: seq<R.Marker>, day: int, now: int, quiet: bool)
    requires r == DueReminder(lessons, sent, day, now, quiet) && r.Some?
    ensures r.value.marker !in sent
    ensures R.Remember(sent, r) != [] && R.Remember(sent, r)[|R.Remember(sent, r)| - 1] == r.value.marker
  {
  }

  lemma MessagesRemind(s: State, c: Call, changes: seq<D.Change>, card: int, out: seq<Message>, marker: R.Marker)
    requires out <= Messages(s, c, changes, card) && Reminder(marker) in out
    ensures DueAt(s, c).Some? && DueAt(s, c).value.marker == marker
  {
    assert Reminder(marker) in Messages(s, c, changes, card);
  }

  lemma PublishedReminder(x: Rules, s: State, e: Event, s': State, marker: R.Marker)
    requires e.Publish? && Step(x, s, e, s') && Reminder(marker) in e.out
    ensures marker !in s.sent
    ensures e.done ==> s'.sent != [] && s'.sent[|s'.sent| - 1] == marker
  {
    MessagesRemind(s, e.call, e.changes, e.card, e.out, marker);
    NewReminder(DueAt(s, e.call), e.call.envelope.lessons, s.sent, e.call.day, e.call.now, e.call.quiet);
  }

  lemma TickedReminder(x: Rules, s: State, e: Event, s': State, marker: R.Marker)
    requires e.Remind? && Step(x, s, e, s') && Reminder(marker) in e.out
    ensures marker !in s.sent
    ensures e.done ==> s'.sent != [] && s'.sent[|s'.sent| - 1] == marker
  {
    assert Reminder(marker) in TickMessages(s, e.tick, e.card);
    NewReminder(TickReminder(s, e.tick), s.previous.value.lessons, s.sent, e.tick.day, e.tick.now, e.tick.quiet);
  }

  /** A reminder is sent only if its marker is not remembered, and a completed run remembers it. */
  lemma RemindersAreRemembered(x: Rules, s: State, e: Event, s': State, marker: R.Marker)
    requires Step(x, s, e, s') && Runs(e) && Reminder(marker) in e.out
    ensures marker !in s.sent
    ensures e.done ==> s'.sent != [] && s'.sent[|s'.sent| - 1] == marker
  {
    if e.Publish? {
      PublishedReminder(x, s, e, s', marker);
    } else {
      TickedReminder(x, s, e, s', marker);
    }
  }

  // ---------------------------------------------------------------- reminders over many runs

  /** The run sent a reminder and reached the save that remembers it. */
  predicate Records(e: Event) {
    Runs(e) && e.done && exists i | 0 <= i < |e.out| :: e.out[i].Reminder?
  }

  function Recorded(events: seq<Event>, i: nat, k: nat): nat
    requires i <= k <= |events|
  {
    if i == k then 0 else Recorded(events, i, k - 1) + if Records(events[k - 1]) then 1 else 0
  }

  /** The marker at distance `d` from the end. */
  predicate StandsAt(sent: seq<R.Marker>, d: nat, marker: R.Marker) {
    d < |sent| && sent[|sent| - 1 - d] == marker
  }

  lemma PublishSent(x: Rules, s: State, e: Event, s': State)
    requires e.Publish? && Step(x, s, e, s')
    ensures !Records(e) ==> s'.sent == s.sent
    ensures Records(e) ==> DueAt(s, e.call).Some? && s'.sent == R.Remember(s.sent, DueAt(s, e.call))
  {
    if e.done && DueAt(s, e.call).Some? {
      assert e.out[|e.out| - 1] == Reminder(DueAt(s, e.call).value.marker);
    }
  }

  lemma RemindSent(x: Rules, s: State, e: Event, s': State)
    requires e.Remind? && Step(x, s, e, s')
    ensures !Records(e) ==> s'.sent == s.sent
    ensures Records(e) ==> TickReminder(s, e.tick).Some? && s'.sent == R.Remember(s.sent, TickReminder(s, e.tick))
  {
    if e.done && e.out != [] && TickReminder(s, e.tick).Some? {
      assert e.out[|e.out| - 1] == Reminder(TickReminder(s, e.tick).value.marker);
    }
  }

  lemma RememberShifts(sent: seq<R.Marker>, r: Option<R.Reminder>, d: nat, marker: R.Marker)
    requires r.Some? && StandsAt(sent, d, marker) && d + 1 < R.REMEMBERED
    ensures StandsAt(R.Remember(sent, r), d + 1, marker)
  {
  }

  lemma StepShifts(x: Rules, s: State, e: Event, s': State, d: nat, marker: R.Marker)
    requires Step(x, s, e, s') && !e.Lose? && StandsAt(s.sent, d, marker) && d + 1 < R.REMEMBERED
    ensures StandsAt(s'.sent, if Records(e) then d + 1 else d, marker)
  {
    match e
    case Publish(c, _, _, _, _) =>
      PublishSent(x, s, e, s');
      if Records(e) {
        RememberShifts(s.sent, DueAt(s, c), d, marker);
      }
    case Refuse(_) =>
    case Lose =>
    case Remind(t, _, _, _) =>
      RemindSent(x, s, e, s');
      if Records(e) {
        RememberShifts(s.sent, TickReminder(s, t), d, marker);
      }
  }

  lemma LastShift(x: Rules, s: State, e: Event, s': State, d: nat, marker: R.Marker)
    requires Step(x, s, e, s') && !e.Lose? && StandsAt(s.sent, d, marker) && !Records(e)
    ensures StandsAt(s'.sent, d, marker)
  {
    if e.Publish? {
      PublishSent(x, s, e, s');
    } else if e.Remind? {
      RemindSent(x, s, e, s');
    }
  }

  /** A remembered marker moves one place back with every reminder recorded after it. */
  lemma {:induction false} MarkerMovesBack(x: Rules, states: seq<State>, events: seq<Event>, i: nat, k: nat, marker: R.Marker)
    requires Run(x, states, events) && i <= k < |states| && StandsAt(states[i].sent, 0, marker)
    requires Recorded(events, i, k) < R.REMEMBERED && forall j | i <= j < k :: !events[j].Lose?
    ensures StandsAt(states[k].sent, Recorded(events, i, k), marker)
    decreases k
  {
    if i < k {
      MarkerMovesBack(x, states, events, i, k - 1, marker);
      assert Step(x, states[k - 1], events[k - 1], states[k - 1 + 1]);
      if Records(events[k - 1]) {
        StepShifts(x, states[k - 1], events[k - 1], states[k], Recorded(events, i, k - 1), marker);
      } else {
        LastShift(x, states[k - 1], events[k - 1], states[k], Recorded(events, i, k - 1), marker);
      }
    }
  }

  lemma SentInRun(x: Rules, states: seq<State>, events: seq<Event>, i: nat, marker: R.Marker)
    requires Run(x, states, events) && i < |events| && Runs(events[i]) && Reminder(marker) in events[i].out
    ensures marker !in states[i].sent
    ensures events[i].done ==> StandsAt(states[i + 1].sent, 0, marker)
  {
    assert Step(x, states[i], events[i], states[i + 1]);
    RemindersAreRemembered(x, states[i], events[i], states[i + 1], marker);
  }

  /** Whatever envelopes come in between, a reminder is sent again only if the run that sent it was
      interrupted, the state file was lost since, or at least a hundred others were remembered since. */
  lemma ReminderTwiceMeansForgotten(x: Rules, states: seq<State>, events: seq<Event>, i: nat, k: nat, marker: R.Marker)
    requires Run(x, states, events) && i < k < |events| && Runs(events[i]) && Runs(events[k])
    requires Reminder(marker) in events[i].out && Reminder(marker) in events[k].out
    ensures !events[i].done || LostBetween(events, i, k) || R.REMEMBERED <= Recorded(events, i + 1, k)
  {
    SentInRun(x, states, events, i, marker);
    SentInRun(x, states, events, k, marker);
    if events[i].done && !LostBetween(events, i, k) && Recorded(events, i + 1, k) < R.REMEMBERED {
      assert forall j | i + 1 <= j < k :: !events[j].Lose?;
      MarkerMovesBack(x, states, events, i + 1, k, marker);
    }
  }
}
