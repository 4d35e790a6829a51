/** A durable request and token quota: cost is reserved before a request and settled afterwards.
    Counters are kept per day, per month and, when that limit is on, per user and day. */
module Quota {
  import opened Wrappers

  datatype Date = Date(year: int, month: int, day: int)

  datatype Key =
    | DayKey(date: Date)
    | MonthKey(year: int, month: int)
    | UserKey(user: int, date: Date)

  /** A stored setting; anything but a non-negative number reads as zero. */
  datatype Setting = NotAnObject | Fields(requests: Option<int>, tokens: Option<int>)

  datatype Usage = Usage(requests: nat, tokens: nat)

  type Settings = map<Key, Setting>

  datatype Limits = Limits(requests: nat, tokens: nat, tokensPerRequest: nat,
                           userRequests: Option<int>, monthRequests: Option<int>, monthTokens: Option<int>)

  datatype Reservation = Reservation(date: Date, reserved: nat)

  datatype Refusal = DayRequests | DayTokens | MonthRequests | MonthTokens | BadUser | UserRequests

  function MonthOf(date: Date): Key {
    MonthKey(date.year, date.month)
  }

  function NumberOf(value: Option<int>): nat {
    if value.Some? && value.value >= 0 then value.value else 0
  }

  function UsageOf(settings: Settings, key: Key): Usage {
    if key in settings && settings[key].Fields?
    then Usage(NumberOf(settings[key].requests), NumberOf(settings[key].tokens))
    else Usage(0, 0)
  }

  function Stored(usage: Usage): Setting {
    Fields(Some(usage.requests), Some(usage.tokens))
  }

  // ---------------------------------------------------------------- the two operations

  /** Why a reservation is refused, in the order of the checks. */
  function Refused(settings: Settings, limits: Limits, date: Date, user: Option<int>): Option<Refusal> {
    var day, month := UsageOf(settings, DayKey(date)), UsageOf(settings, MonthOf(date));
    if day.requests >= limits.requests then Some(DayRequests)
    else if day.tokens + limits.tokensPerRequest > limits.tokens then Some(DayTokens)
    else if limits.monthRequests.Some? && month.requests >= limits.monthRequests.value then Some(MonthRequests)
    else if limits.monthTokens.Some? && month.tokens + limits.tokensPerRequest > limits.monthTokens.value then Some(MonthTokens)
    else if limits.userRequests.None? then None
    else if user.None? || user.value <= 0 then Some(BadUser)
    else if UsageOf(settings, UserKey(user.value, date)).requests >= limits.userRequests.value then Some(UserRequests)
    else None
  }

  function StoreUsage(settings: Settings, key: Key, reserved: nat): Settings {
    var usage := UsageOf(settings, key);
    settings[key := Stored(Usage(usage.requests + 1, usage.tokens + reserved))]
  }

  function AfterReserve(settings: Settings, limits: Limits, date: Date, user: Option<int>): Settings
    requires Refused(settings, limits, date, user).None?
  {
    var s := if limits.userRequests.Some? then StoreUsage(settings, UserKey(user.value, date), 0) else settings;
    StoreUsage(StoreUsage(s, DayKey(date), limits.tokensPerRequest), MonthOf(date), limits.tokensPerRequest)
  }

  function Max0(n: int): nat {
    if n >= 0 then n else 0
  }

  function Settle(settings: Settings, key: Key, r: Reservation, actual: nat): Settings {
    if key !in settings then settings
    else
      var usage := UsageOf(settings, key);
      settings[key := Stored(usage.(tokens := Max0(usage.tokens - r.reserved + actual)))]
  }

  function AfterReconcile(settings: Settings, r: Reservation, actual: Option<int>): Settings {
    if actual.None? || actual.value < 0 then settings
    else Settle(Settle(settings, DayKey(r.date), r, actual.value), MonthOf(r.date), r, actual.value)
  }

  class DailyQuota {
    const limits: Limits
    var settings: Settings

    constructor (limits: Limits, settings: Settings)
      requires limits.requests >= 1 && limits.tokens >= 1 && limits.tokensPerRequest >= 1
      ensures this.limits == limits && this.settings == settings
    {
      this.limits, this.settings := limits, settings;
    }

    method Reserve(today: Date, user: Option<int>) returns (r: Result<Reservation, Refusal>)
      modifies this
      ensures match Refused(old(settings), limits, today, user)
              case Some(refusal) => r == Failure(refusal) && settings == old(settings)
              case None => r == Success(Reservation(today, limits.tokensPerRequest)) &&
                           settings == AfterReserve(old(settings), limits, today, user)
    {
      var usage := UsageOf(settings, DayKey(today));
      if usage.requests >= limits.requests {
        return Failure(DayRequests);
      }
      if usage.tokens + limits.tokensPerRequest > limits.tokens {
        return Failure(DayTokens);
      }
      var monthUsage := UsageOf(settings, MonthOf(today));
      if limits.monthRequests.Some? && monthUsage.requests >= limits.monthRequests.value {
        return Failure(MonthRequests);
      }
      if limits.monthTokens.Some? && monthUsage.tokens + limits.tokensPerRequest > limits.monthTokens.value {
        return Failure(MonthTokens);
      }
      if limits.userRequests.Some? {
        if user.None? || user.value <= 0 {
          return Failure(BadUser);
        }
        var userUsage := UsageOf(settings, UserKey(user.value, today));
        if userUsage.requests >= limits.userRequests.value {
          return Failure(UserRequests);
        }
        settings := settings[UserKey(user.value, today) := Stored(Usage(userUsage.requests + 1, userUsage.tokens))];
      }
      settings := settings[DayKey(today) := Stored(Usage(usage.requests + 1, usage.tokens + limits.tokensPerRequest))];
      settings := settings[MonthOf(today) := Stored(Usage(monthUsage.requests + 1, monthUsage.tokens + limits.tokensPerRequest))];
      r := Success(Reservation(today, limits.tokensPerRequest));
    }

    method Reconcile(r: Reservation, actual: Option<int>)
      modifies this
      ensures settings == AfterReconcile(old(settings), r, actual)
    {
      if actual.None? || actual.value < 0 {
        return;
      }
      var keys := [DayKey(r.date), MonthOf(r.date)];
      for i := 0 to 2
        invariant i == 0 ==> settings == old(settings)
        invariant i == 1 ==> settings == Settle(old(settings), DayKey(r.date), r, actual.value)
        invariant i == 2 ==> settings == AfterReconcile(old(settings), r, actual)
      {
        if keys[i] in settings {
          var usage := UsageOf(settings, keys[i]);
          var tokens := usage.tokens - r.reserved + actual.value;
          settings := settings[keys[i] := Stored(Usage(usage.requests, if tokens >= 0 then tokens else 0))];
        }
      }
    }
  }

  // ---------------------------------------------------------------- the ledger

  /** One accepted reservation; it costs what was reserved until it is settled. */
  datatype Entry = Entry(date: Date, user: Option<int>, reserved: nat, actual: Option<nat>)
  {
    function Charge(): nat {
      if actual.Some? then actual.value else reserved
    }

    function Overrun(): nat {
      Max0(Charge() - reserved)
    }
  }

  predicate Concerns(key: Key, e: Entry) {
    match key
    case DayKey(date) => e.date == date
    case MonthKey(year, month) => e.date.year == year && e.date.month == month
    case UserKey(user, date) => e.user == Some(user) && e.date == date
  }

  function RequestsFor(key: Key): Entry -> nat {
    e => if Concerns(key, e) then 1 else 0
  }

  /** User counters count requests only. */
  function ChargesFor(key: Key): Entry -> nat {
    e => if Concerns(key, e) && !key.UserKey? then e.Charge() else 0
  }

  function OverrunsFor(key: Key): Entry -> nat {
    e => if Concerns(key, e) then e.Overrun() else 0
  }

  function Sum<T>(items: seq<T>, weight: T -> nat): nat {
    if items == [] then 0 else Sum(items[..|items| - 1], weight) + weight(items[|items| - 1])
  }

  lemma SumOneMore<T>(items: seq<T>, x: T, weight: T -> nat)
    ensures Sum(items + [x], weight) == Sum(items, weight) + weight(x)
  {
  }

  lemma {:induction false} SumUpdate<T>(items: seq<T>, i: nat, x: T, weight: T -> nat)
    requires i < |items|
    ensures Sum(items[i := x], weight) == Sum(items, weight) - weight(items[i]) + weight(x)
  {
    var init, now := items[..|items| - 1], items[i := x];
    if i == |items| - 1 {
      assert now[..|now| - 1] == init;
    } else {
      SumUpdate(init, i, x, weight);
      assert now[..|now| - 1] == init[i := x];
    }
  }

  lemma {:induction false} SumAtMost<T>(items: seq<T>, small: T -> nat, large: T -> nat)
    requires forall i | 0 <= i < |items| :: small(items[i]) <= large(items[i])
    ensures Sum(items, small) <= Sum(items, large)
  {
    if items != [] {
      SumAtMost(items[..|items| - 1], small, large);
    }
  }

  function Expected(ledger: seq<Entry>, key: Key): Usage {
    Usage(Sum(ledger, RequestsFor(key)), Sum(ledger, ChargesFor(key)))
  }

  /** Every counter is what its entries of the ledger cost. */
  ghost predicate Booked(settings: Settings, ledger: seq<Entry>) {
    && (forall key :: UsageOf(settings, key) == Expected(ledger, key))
    && forall i | 0 <= i < |ledger| :: DayKey(ledger[i].date) in settings && MonthOf(ledger[i].date) in settings
  }

  datatype Event =
    | Reserve(limits: Limits, date: Date, user: Option<int>)
    | Reconcile(entry: nat, actual: Option<int>)

  datatype State = State(settings: Settings, ledger: seq<Entry>)

  function NewEntry(limits: Limits, date: Date, user: Option<int>): Entry {
    Entry(date, if limits.userRequests.Some? then user else None, limits.tokensPerRequest, None)
  }

  /** The settings change as the two operations change them; the ledger records what happened. */
  ghost predicate Step(s: State, event: Event, s': State) {
    match event
    case Reserve(limits, date, user) =>
      if Refused(s.settings, limits, date, user).Some? then s' == s
      else s' == State(AfterReserve(s.settings, limits, date, user), s.ledger + [NewEntry(limits, date, user)])
    case Reconcile(i, actual) =>
      // A reservation is settled at most once: by the request that made it.
      && i < |s.ledger| && s.ledger[i].actual.None?
      && s'.settings == AfterReconcile(s.settings, Reservation(s.ledger[i].date, s.ledger[i].reserved), actual)
      && s'.ledger == if actual.Some? && actual.value >= 0 then s.ledger[i := s.ledger[i].(actual := Some(actual.value))] else s.ledger
  }

  /** A reservation adds one request and its tokens to the counters it concerns, and to no other. */
  lemma ReservedUsage(settings: Settings, limits: Limits, date: Date, user: Option<int>, key: Key)
    requires Refused(settings, limits, date, user).None?
    ensures var e := NewEntry(limits, date, user);
            UsageOf(AfterReserve(settings, limits, date, user), key) ==
            Usage(UsageOf(settings, key).requests + RequestsFor(key)(e), UsageOf(settings, key).tokens + ChargesFor(key)(e))
    ensures settings.Keys <= AfterReserve(settings, limits, date, user).Keys
    ensures DayKey(date) in AfterReserve(settings, limits, date, user) && MonthOf(date) in AfterReserve(settings, limits, date, user)
  {
  }

  lemma ReserveKeepsBooked(s: State, limits: Limits, date: Date, user: Option<int>, settings: Settings)
    requires Booked(s.settings, s.ledger) && Refused(s.settings, limits, date, user).None?
    requires settings == AfterReserve(s.settings, limits, date, user)
    ensures Booked(settings, s.ledger + [NewEntry(limits, date, user)])
  {
    var e := NewEntry(limits, date, user);
    var ledger := s.ledger + [e];
    forall key ensures UsageOf(settings, key) == Expected(ledger, key) {
      SumOneMore(s.ledger, e, RequestsFor(key));
      SumOneMore(s.ledger, e, ChargesFor(key));
      ReservedUsage(s.settings, limits, date, user, key);
      assert UsageOf(s.settings, key) == Expected(s.ledger, key);
    }
    ReservedUsage(s.settings, limits, date, user, DayKey(date));
    assert forall i | 0 <= i < |ledger| :: ledger[i] == if i < |s.ledger| then s.ledger[i] else e;
  }

  /** A charge is one of the terms of its counter. */
  lemma {:induction false} TermAtMostSum<T>(items: seq<T>, i: nat, weight: T -> nat)
    requires i < |items|
    ensures weight(items[i]) <= Sum(items, weight)
  {
    if i < |items| - 1 {
      TermAtMostSum(items[..|items| - 1], i, weight);
    }
  }

  /** No counter is ever clipped at zero: the reservation is still part of it. */
  lemma NothingIsClipped(s: State, i: nat, key: Key)
    requires Booked(s.settings, s.ledger) && i < |s.ledger| && s.ledger[i].actual.None?
    requires key == DayKey(s.ledger[i].date) || key == MonthOf(s.ledger[i].date)
    ensures s.ledger[i].reserved <= UsageOf(s.settings, key).tokens
  {
    TermAtMostSum(s.ledger, i, ChargesFor(key));
    assert UsageOf(s.settings, key) == Expected(s.ledger, key);
  }

  /** Settling a reservation moves the token counters it concerns by the difference. */
  lemma SettledUsage(s: State, i: nat, actual: nat, key: Key)
    requires Booked(s.settings, s.ledger) && i < |s.ledger| && s.ledger[i].actual.None?
    ensures var e := s.ledger[i];
            var usage := UsageOf(AfterReconcile(s.settings, Reservation(e.date, e.reserved), Some(actual)), key);
            && usage.requests == UsageOf(s.settings, key).requests
            && usage.tokens == UsageOf(s.settings, key).tokens + if Concerns(key, e) && !key.UserKey? then actual - e.reserved else 0
  {
    NothingIsClipped(s, i, DayKey(s.ledger[i].date));
    NothingIsClipped(s, i, MonthOf(s.ledger[i].date));
  }

  lemma ReconcileKeepsBooked(s: State, i: nat, actual: nat)
    requires Booked(s.settings, s.ledger) && i < |s.ledger| && s.ledger[i].actual.None?
    ensures Booked(AfterReconcile(s.settings, Reservation(s.ledger[i].date, s.ledger[i].reserved), Some(actual)),
                   s.ledger[i := s.ledger[i].(actual := Some(actual))])
  {
    var was := s.ledger[i];
    var e := was.(actual := Some(actual));
    var settings := AfterReconcile(s.settings, Reservation(was.date, was.reserved), Some(actual));
    forall key ensures UsageOf(settings, key) == Expected(s.ledger[i := e], key) {
      SumUpdate(s.ledger, i, e, RequestsFor(key));
      SumUpdate(s.ledger, i, e, ChargesFor(key));
      SettledUsage(s, i, actual, key);
      assert UsageOf(s.settings, key) == Expected(s.ledger, key);
    }
  }

  // ---------------------------------------------------------------- whole runs

  ghost predicate Run(states: seq<State>, events: seq<Event>) {
    && |states| == |events| + 1
    && states[0] == State(map[], [])
    && forall i | 0 <= i < |events| :: Step(states[i], events[i], states[i + 1])
  }

  /** After any run, with any changes of limits and any reservations left unsettled, every counter is
      the sum of the charges that concern it. */
  lemma {:induction false} CountersAreTheLedger(states: seq<State>, events: seq<Event>, k: nat)
    requires Run(states, events) && k < |states|
    ensures Booked(states[k].settings, states[k].ledger)
  {
    if k > 0 {
      CountersAreTheLedger(states, events, k - 1);
      var s := states[k - 1];
      assert Step(s, events[k - 1], states[k - 1 + 1]);
      match events[k - 1]
      case Reserve(limits, date, user) =>
        if Refused(s.settings, limits, date, user).None? {
          ReserveKeepsBooked(s, limits, date, user, states[k].settings);
        }
      case Reconcile(i, actual) =>
        if actual.Some? && actual.value >= 0 {
          ReconcileKeepsBooked(s, i, actual.value);
        }
    }
  }

  /** What a run answers to a reservation, said of its ledger: it is accepted exactly when the day, the
      month and, where limited, the user have room for one more request, and day and month for its tokens. */
  lemma AcceptedIffItFits(states: seq<State>, events: seq<Event>, k: nat, limits: Limits, date: Date, user: Option<int>)
    requires Run(states, events) && k < |states|
    ensures var ledger := states[k].ledger;
            var month := MonthKey(date.year, date.month);
            Refused(states[k].settings, limits, date, user).None? <==>
              && Sum(ledger, RequestsFor(DayKey(date))) < limits.requests
              && Sum(ledger, ChargesFor(DayKey(date))) + limits.tokensPerRequest <= limits.tokens
              && (limits.monthRequests.Some? ==> Sum(ledger, RequestsFor(month)) < limits.monthRequests.value)
              && (limits.monthTokens.Some? ==> Sum(ledger, ChargesFor(month)) + limits.tokensPerRequest <= limits.monthTokens.value)
              && (limits.userRequests.Some? ==>
                    user.Some? && 0 < user.value && Sum(ledger, RequestsFor(UserKey(user.value, date))) < limits.userRequests.value)
  {
    CountersAreTheLedger(states, events, k);
    var State(settings, ledger) := states[k];
    assert UsageOf(settings, DayKey(date)) == Expected(ledger, DayKey(date));
    assert UsageOf(settings, MonthOf(date)) == Expected(ledger, MonthOf(date));
    if user.Some? {
      assert UsageOf(settings, UserKey(user.value, date)) == Expected(ledger, UserKey(user.value, date));
    }
  }

  /** Which reservations a counter adds up, and how much of each. */
  lemma WhatCounts(e: Entry, date: Date, user: int)
    ensures RequestsFor(DayKey(date))(e) == if e.date == date then 1 else 0
    ensures RequestsFor(MonthKey(date.year, date.month))(e) == if e.date.year == date.year && e.date.month == date.month then 1 else 0
    ensures RequestsFor(UserKey(user, date))(e) == if e.user == Some(user) && e.date == date then 1 else 0
    ensures e.date == date ==> ChargesFor(DayKey(date))(e) == if e.actual.Some? then e.actual.value else e.reserved
    ensures e.date.year == date.year && e.date.month == date.month ==>
              ChargesFor(MonthKey(date.year, date.month))(e) == if e.actual.Some? then e.actual.value else e.reserved
    ensures e.date != date ==> ChargesFor(DayKey(date))(e) == 0
    ensures e.date.year != date.year || e.date.month != date.month ==> ChargesFor(MonthKey(date.year, date.month))(e) == 0
    ensures ChargesFor(UserKey(user, date))(e) == 0
  {
  }

  /** By how much a settled request exceeds what it reserved; others exceed by nothing. */
  lemma WhatOverruns(e: Entry, key: Key)
    ensures OverrunsFor(key)(e) ==
              if Concerns(key, e) && e.actual.Some? && e.reserved < e.actual.value then e.actual.value - e.reserved else 0
  {
  }

  /** A stored value that is missing, of another shape or negative reads as zero. */
  lemma WhatIsRead(settings: Settings, key: Key)
    ensures key !in settings || settings[key] == NotAnObject ==> UsageOf(settings, key) == Usage(0, 0)
    ensures key in settings && settings[key].Fields? ==>
              var (f, u) := (settings[key], UsageOf(settings, key));
              && u.requests == (if f.requests.Some? && 0 <= f.requests.value then f.requests.value else 0)
              && u.tokens == (if f.tokens.Some? && 0 <= f.tokens.value then f.tokens.value else 0)
  {
  }

  /** An answer is metered when both of its counts are there and not negative. */
  lemma WhatIsMetered(prompt: Option<int>, completion: Option<int>)
    ensures Metered(Answer(prompt, completion)).Some? <==> prompt.Some? && 0 <= prompt.value && completion.Some? && 0 <= completion.value
    ensures Metered(Answer(prompt, completion)).Some? ==> Metered(Answer(prompt, completion)).value == prompt.value + completion.value
  {
  }

  /** Every reservation of the run is made under the same limits. */
  ghost predicate Under(limits: Limits, events: seq<Event>) {
    forall i | 0 <= i < |events| && events[i].Reserve? :: events[i].limits == limits
  }

  ghost predicate Fits(limits: Limits, key: Key, usage: Usage, overrun: nat) {
    match key
    case DayKey(_) => usage.requests <= limits.requests && usage.tokens <= limits.tokens + overrun
    case MonthKey(_, _) =>
      && (limits.monthRequests.Some? ==> usage.requests <= Max0(limits.monthRequests.value))
      && (limits.monthTokens.Some? ==> usage.tokens <= Max0(limits.monthTokens.value) + overrun)
    case UserKey(_, _) => limits.userRequests.Some? ==> usage.requests <= Max0(limits.userRequests.value)
  }

  /** No counter passes its limit by more than its requests cost beyond their reservations. */
  ghost predicate WithinLimit(limits: Limits, s: State, key: Key) {
    Fits(limits, key, UsageOf(s.settings, key), Sum(s.ledger, OverrunsFor(key)))
  }

  /** An accepted reservation still leaves room for itself in every counter it concerns. */
  lemma AcceptedFits(settings: Settings, limits: Limits, date: Date, user: Option<int>, key: Key, overrun: nat)
    requires Refused(settings, limits, date, user).None? && Concerns(key, NewEntry(limits, date, user))
    ensures var usage := UsageOf(settings, key);
            Fits(limits, key, Usage(usage.requests + 1, usage.tokens + if key.UserKey? then 0 else limits.tokensPerRequest), overrun)
  {
  }

  lemma ReserveKeepsWithinLimit(limits: Limits, s: State, date: Date, user: Option<int>, s': State, key: Key)
    requires WithinLimit(limits, s, key) && Refused(s.settings, limits, date, user).None?
    requires s' == State(AfterReserve(s.settings, limits, date, user), s.ledger + [NewEntry(limits, date, user)])
    ensures WithinLimit(limits, s', key)
  {
    var e := NewEntry(limits, date, user);
    SumOneMore(s.ledger, e, OverrunsFor(key));
    ReservedUsage(s.settings, limits, date, user, key);
    if Concerns(key, e) {
      AcceptedFits(s.settings, limits, date, user, key, Sum(s.ledger, OverrunsFor(key)));
    }
  }

  lemma ReconcileKeepsWithinLimit(limits: Limits, s: State, i: nat, actual: nat, s': State, key: Key)
    requires Booked(s.settings, s.ledger) && WithinLimit(limits, s, key) && i < |s.ledger| && s.ledger[i].actual.None?
    requires s' == State(AfterReconcile(s.settings, Reservation(s.ledger[i].date, s.ledger[i].reserved), Some(actual)),
                         s.ledger[i := s.ledger[i].(actual := Some(actual))])
    ensures WithinLimit(limits, s', key)
  {
    SumUpdate(s.ledger, i, s.ledger[i].(actual := Some(actual)), OverrunsFor(key));
    SettledUsage(s, i, actual, key);
  }

  lemma {:induction false} LimitsHold(limits: Limits, states: seq<State>, events: seq<Event>, k: nat, key: Key)
    requires Run(states, events) && k < |states| && Under(limits, events)
    ensures WithinLimit(limits, states[k], key)
  {
    if k > 0 {
      LimitsHold(limits, states, events, k - 1, key);
      CountersAreTheLedger(states, events, k - 1);
      var s := states[k - 1];
      assert Step(s, events[k - 1], states[k - 1 + 1]);
      match events[k - 1]
      case Reserve(_, date, user) =>
        if Refused(s.settings, limits, date, user).None? {
          ReserveKeepsWithinLimit(limits, s, date, user, states[k], key);
        }
      case Reconcile(i, actual) =>
        if actual.Some? && actual.value >= 0 {
          ReconcileKeepsWithinLimit(limits, s, i, actual.value, states[k], key);
        }
    }
  }

  // ---------------------------------------------------------------- what the counters add up to

  lemma {:induction false} SumZero<T>(items: seq<T>, weight: T -> nat)
    requires forall i | 0 <= i < |items| :: weight(items[i]) == 0
    ensures Sum(items, weight) == 0
  {
    if items != [] {
      SumZero(items[..|items| - 1], weight);
    }
  }

  lemma {:induction false} SumOnly<T>(items: seq<T>, i: nat, weight: T -> nat)
    requires i < |items| && forall j | 0 <= j < |items| && j != i :: weight(items[j]) == 0
    ensures Sum(items, weight) == weight(items[i])
  {
    if i < |items| - 1 {
      SumOnly(items[..|items| - 1], i, weight);
    } else {
      SumZero(items[..|items| - 1], weight);
    }
  }

  function Across(cost: Key -> Entry -> nat, e: Entry): Key -> nat {
    key => cost(key)(e)
  }

  function Totals(cost: Key -> Entry -> nat, ledger: seq<Entry>): Key -> nat {
    key => Sum(ledger, cost(key))
  }

  lemma {:induction false} TotalsOneMore(cost: Key -> Entry -> nat, ledger: seq<Entry>, e: Entry, keys: seq<Key>)
    ensures Sum(keys, Totals(cost, ledger + [e])) == Sum(keys, Totals(cost, ledger)) + Sum(keys, Across(cost, e))
  {
    if keys != [] {
      TotalsOneMore(cost, ledger, e, keys[..|keys| - 1]);
      SumOneMore(ledger, e, cost(keys[|keys| - 1]));
    }
  }

  /** If every entry is spread over the parts as it counts for the whole, so is the ledger. */
  lemma {:induction false} PartsMakeTheWhole(cost: Key -> Entry -> nat, ledger: seq<Entry>, parts: seq<Key>, whole: Key)
    requires forall e | e in ledger :: Sum(parts, Across(cost, e)) == cost(whole)(e)
    ensures Sum(parts, Totals(cost, ledger)) == Sum(ledger, cost(whole))
  {
    if ledger == [] {
      SumZero(parts, Totals(cost, ledger));
    } else {
      var init, e := ledger[..|ledger| - 1], ledger[|ledger| - 1];
      PartsMakeTheWhole(cost, init, parts, whole);
      assert init + [e] == ledger;
      TotalsOneMore(cost, init, e, parts);
    }
  }

  /** The parts divide the entries of the whole: none is left out and none is in two parts. */
  ghost predicate Divides(ledger: seq<Entry>, parts: seq<Key>, whole: Key) {
    && (forall i, j, e | 0 <= i < j < |parts| && e in ledger :: !(Concerns(parts[i], e) && Concerns(parts[j], e)))
    && (forall e | e in ledger :: Concerns(whole, e) <==> exists i | 0 <= i < |parts| :: Concerns(parts[i], e))
  }

  lemma DividedCost(cost: Key -> Entry -> nat, ledger: seq<Entry>, parts: seq<Key>, whole: Key, e: Entry)
    requires Divides(ledger, parts, whole) && e in ledger
    requires forall i | 0 <= i < |parts| :: cost(parts[i])(e) == if Concerns(parts[i], e) then cost(whole)(e) else 0
    requires !Concerns(whole, e) ==> cost(whole)(e) == 0
    ensures Sum(parts, Across(cost, e)) == cost(whole)(e)
  {
    if i :| 0 <= i < |parts| && Concerns(parts[i], e) {
      SumOnly(parts, i, Across(cost, e));
    } else {
      SumZero(parts, Across(cost, e));
    }
  }

  lemma {:induction false} SameSums<T>(items: seq<T>, a: T -> nat, b: T -> nat)
    requires forall i | 0 <= i < |items| :: a(items[i]) == b(items[i])
    ensures Sum(items, a) == Sum(items, b)
  {
    SumAtMost(items, a, b);
    SumAtMost(items, b, a);
  }

  function Tokens(settings: Settings): Key -> nat {
    key => UsageOf(settings, key).tokens
  }

  function Requests(settings: Settings): Key -> nat {
    key => UsageOf(settings, key).requests
  }

  ghost predicate DistinctKeys(keys: seq<Key>) {
    forall i, j | 0 <= i < j < |keys| :: keys[i] != keys[j]
  }

  /** A month's counters are the sums of its days' counters, also when a request was settled on
      another day than it was reserved on. */
  lemma {:induction false} MonthIsTheSumOfItsDays(states: seq<State>, events: seq<Event>, k: nat, days: seq<Key>, month: Key)
    requires Run(states, events) && k < |states| && month.MonthKey?
    requires DistinctKeys(days) && forall i | 0 <= i < |days| :: days[i].DayKey? && MonthOf(days[i].date) == month
    requires forall e | e in states[k].ledger && MonthOf(e.date) == month :: DayKey(e.date) in days
    ensures UsageOf(states[k].settings, month).tokens == Sum(days, Tokens(states[k].settings))
    ensures UsageOf(states[k].settings, month).requests == Sum(days, Requests(states[k].settings))
  {
    CountersAreTheLedger(states, events, k);
    var State(settings, ledger) := states[k];
    assert Divides(ledger, days, month);
    forall e | e in ledger
      ensures Sum(days, Across(ChargesFor, e)) == ChargesFor(month)(e) && Sum(days, Across(RequestsFor, e)) == RequestsFor(month)(e)
    {
      DividedCost(ChargesFor, ledger, days, month, e);
      DividedCost(RequestsFor, ledger, days, month, e);
    }
    PartsMakeTheWhole(ChargesFor, ledger, days, month);
    PartsMakeTheWhole(RequestsFor, ledger, days, month);
    SameSums(days, Tokens(settings), Totals(ChargesFor, ledger));
    SameSums(days, Requests(settings), Totals(RequestsFor, ledger));
    assert UsageOf(settings, month) == Expected(ledger, month);
  }

  lemma {:induction false} UsersAreKnown(states: seq<State>, events: seq<Event>, k: nat)
    requires Run(states, events) && k < |states|
    requires forall i | 0 <= i < |events| && events[i].Reserve? :: events[i].limits.userRequests.Some?
    ensures forall e | e in states[k].ledger :: e.user.Some?
  {
    if k > 0 {
      UsersAreKnown(states, events, k - 1);
      assert Step(states[k - 1], events[k - 1], states[k - 1 + 1]);
    }
  }

  /** With the per-user limit on, a day's requests are the sum of its users' requests. */
  lemma {:induction false} DayIsTheSumOfItsUsers(states: seq<State>, events: seq<Event>, k: nat, users: seq<Key>, day: Key)
    requires Run(states, events) && k < |states| && day.DayKey?
    requires forall i | 0 <= i < |events| && events[i].Reserve? :: events[i].limits.userRequests.Some?
    requires DistinctKeys(users) && forall i | 0 <= i < |users| :: users[i].UserKey? && users[i].date == day.date
    requires forall e | e in states[k].ledger && e.date == day.date && e.user.Some? :: UserKey(e.user.value, day.date) in users
    ensures UsageOf(states[k].settings, day).requests == Sum(users, Requests(states[k].settings))
  {
    CountersAreTheLedger(states, events, k);
    UsersAreKnown(states, events, k);
    var State(settings, ledger) := states[k];
    assert Divides(ledger, users, day);
    forall e | e in ledger ensures Sum(users, Across(RequestsFor, e)) == RequestsFor(day)(e) {
      DividedCost(RequestsFor, ledger, users, day, e);
    }
    PartsMakeTheWhole(RequestsFor, ledger, users, day);
    SameSums(users, Requests(settings), Totals(RequestsFor, ledger));
    assert UsageOf(settings, day) == Expected(ledger, day);
  }

  // ---------------------------------------------------------------- real costs

  /** What every request really cost; a settled cost is the real one. */
  ghost predicate RealCosts(ledger: seq<Entry>, spent: seq<nat>) {
    && |spent| == |ledger|
    && forall i | 0 <= i < |ledger| && ledger[i].actual.Some? :: spent[i] == ledger[i].actual.value
  }

  function RealCost(ledger: seq<Entry>, spent: seq<nat>, key: Key): nat
    requires |spent| == |ledger|
  {
    if ledger == [] then 0
    else
      var last := |ledger| - 1;
      RealCost(ledger[..last], spent[..last], key) + if Concerns(key, ledger[last]) then spent[last] else 0
  }

  /** What the requests of a counter that were never settled reserved, and what they really cost. */
  function OpenReserved(ledger: seq<Entry>, key: Key): nat {
    if ledger == [] then 0
    else
      var e := ledger[|ledger| - 1];
      OpenReserved(ledger[..|ledger| - 1], key) + if Concerns(key, e) && e.actual.None? then e.reserved else 0
  }

  function OpenCost(ledger: seq<Entry>, spent: seq<nat>, key: Key): nat
    requires |spent| == |ledger|
  {
    if ledger == [] then 0
    else
      var last := |ledger| - 1;
      OpenCost(ledger[..last], spent[..last], key) +
      if Concerns(key, ledger[last]) && ledger[last].actual.None? then spent[last] else 0
  }

  lemma {:induction false} ChargesAndCosts(ledger: seq<Entry>, spent: seq<nat>, key: Key)
    requires RealCosts(ledger, spent) && !key.UserKey?
    ensures Sum(ledger, ChargesFor(key)) + OpenCost(ledger, spent, key) == RealCost(ledger, spent, key) + OpenReserved(ledger, key)
  {
    if ledger != [] {
      var last := |ledger| - 1;
      assert RealCosts(ledger[..last], spent[..last]);
      ChargesAndCosts(ledger[..last], spent[..last], key);
    }
  }

  /** A day or month counter differs from the real cost by exactly what the unsettled requests reserved
      and did not spend: it undercounts if and only if together they cost more than they reserved. */
  lemma UndercountsIff(states: seq<State>, events: seq<Event>, k: nat, spent: seq<nat>, key: Key)
    requires Run(states, events) && k < |states| && RealCosts(states[k].ledger, spent) && !key.UserKey?
    ensures var (ledger, tokens) := (states[k].ledger, UsageOf(states[k].settings, key).tokens);
            && tokens - RealCost(ledger, spent, key) == OpenReserved(ledger, key) - OpenCost(ledger, spent, key)
            && (tokens < RealCost(ledger, spent, key) <==> OpenReserved(ledger, key) < OpenCost(ledger, spent, key))
  {
    CountersAreTheLedger(states, events, k);
    ChargesAndCosts(states[k].ledger, spent, key);
    assert UsageOf(states[k].settings, key) == Expected(states[k].ledger, key);
  }

  lemma {:induction false} OpenCostIsCovered(ledger: seq<Entry>, spent: seq<nat>, key: Key)
    requires |spent| == |ledger| && forall i | 0 <= i < |ledger| && ledger[i].actual.None? :: spent[i] <= ledger[i].reserved
    ensures OpenCost(ledger, spent, key) <= OpenReserved(ledger, key)
  {
    if ledger != [] {
      OpenCostIsCovered(ledger[..|ledger| - 1], spent[..|ledger| - 1], key);
    }
  }

  /** So requests that crashed before they were settled make the counters too high, never too low, as
      long as none of them cost more than was reserved for it. */
  lemma CrashesNeverUndercount(states: seq<State>, events: seq<Event>, k: nat, spent: seq<nat>, key: Key)
    requires Run(states, events) && k < |states| && RealCosts(states[k].ledger, spent) && !key.UserKey?
    requires forall i | 0 <= i < |spent| && states[k].ledger[i].actual.None? :: spent[i] <= states[k].ledger[i].reserved
    ensures RealCost(states[k].ledger, spent, key) <= UsageOf(states[k].settings, key).tokens
  {
    UndercountsIff(states, events, k, spent, key);
    OpenCostIsCovered(states[k].ledger, spent, key);
  }

  /** An answer without usage data leaves its reservation unsettled; if it cost more than was reserved,
      the day that was exact so far is counted too low. */
  lemma UnmeteredAnswerUndercounts(states: seq<State>, events: seq<Event>, k: nat, limits: Limits, date: Date, user: Option<int>,
                                   spent: seq<nat>, cost: nat)
    requires Run(states, events) && k + 1 < |states| && events[k] == Reserve(limits, date, user)
    requires Refused(states[k].settings, limits, date, user).None?
    requires RealCosts(states[k].ledger, spent) && UsageOf(states[k].settings, DayKey(date)).tokens == RealCost(states[k].ledger, spent, DayKey(date))
    requires limits.tokensPerRequest < cost
    ensures RealCosts(states[k + 1].ledger, spent + [cost])
    ensures UsageOf(states[k + 1].settings, DayKey(date)).tokens < RealCost(states[k + 1].ledger, spent + [cost], DayKey(date))
  {
    assert Step(states[k], events[k], states[k + 1]);
    var e := NewEntry(limits, date, user);
    ReservedUsage(states[k].settings, limits, date, user, DayKey(date));
    assert (states[k].ledger + [e])[..|spent|] == states[k].ledger && (spent + [cost])[..|spent|] == spent;
  }

  // ---------------------------------------------------------------- settling twice

  /** The counters of a settled reservation after it is settled again with `again` tokens. */
  lemma SecondSettlement(s: State, i: nat, again: nat, key: Key)
    requires Booked(s.settings, s.ledger) && i < |s.ledger| && s.ledger[i].actual.Some?
    ensures var e := s.ledger[i];
            var (was, now) := (UsageOf(s.settings, key), UsageOf(AfterReconcile(s.settings, Reservation(e.date, e.reserved), Some(again)), key));
            && now.requests == was.requests
            && now.tokens == if key == DayKey(e.date) || key == MonthOf(e.date) then Max0(was.tokens - e.reserved + again) else was.tokens
  {
  }

  /** The day or month counter of a settled reservation still is the sum of its ledger after a second
      settlement if and only if that settlement changes nothing: it gives just what was reserved, or it
      gives less and the counter was zero. It is too low when less is given and too high when more. */
  lemma SecondSettlementIsExactIff(s: State, i: nat, again: nat, key: Key)
    requires Booked(s.settings, s.ledger) && i < |s.ledger| && s.ledger[i].actual.Some?
    requires key == DayKey(s.ledger[i].date) || key == MonthOf(s.ledger[i].date)
    ensures var (e, right) := (s.ledger[i], Expected(s.ledger, key).tokens);
            var tokens := UsageOf(AfterReconcile(s.settings, Reservation(e.date, e.reserved), Some(again)), key).tokens;
            && (tokens == right <==> again == e.reserved || (again < e.reserved && right == 0))
            && (tokens < right <==> again < e.reserved && right > 0)
            && (tokens > right <==> e.reserved < again)
  {
    SecondSettlement(s, i, again, key);
    assert UsageOf(s.settings, key) == Expected(s.ledger, key);
  }

  // ---------------------------------------------------------------- one request

  datatype Answer = Answer(promptTokens: Option<int>, completionTokens: Option<int>)

  /** The metered use of an answer, when both counts are given and are not negative. */
  function Metered(a: Answer): Option<int> {
    if a.promptTokens.Some? && a.promptTokens.value >= 0 && a.completionTokens.Some? && a.completionTokens.value >= 0
    then Some(a.promptTokens.value + a.completionTokens.value) else None
  }

  /** The provider behind the quota: reserve, ask, settle. */
  class LimitedProvider {
    const quota: DailyQuota

    constructor (quota: DailyQuota)
      ensures this.quota == quota
    {
      this.quota := quota;
    }

    /** `answer` is what the provider returns; none if it raises. */
    method Chat(today: Date, user: Option<int>, answer: Option<Answer>) returns (r: Result<Option<Answer>, Refusal>)
      modifies quota
      ensures match Refused(old(quota.settings), quota.limits, today, user)
              case Some(refusal) => r == Failure(refusal) && quota.settings == old(quota.settings)
              case None =>
                var reserved := AfterReserve(old(quota.settings), quota.limits, today, user);
                && r == Success(answer)
                && quota.settings == if answer.None? then reserved
                                     else AfterReconcile(reserved, Reservation(today, quota.limits.tokensPerRequest), Metered(answer.value))
    {
      var reservation := quota.Reserve(today, user);
      if reservation.Failure? {
        return Failure(reservation.error);
      }
      if answer.None? {
        return Success(None);
      }
      quota.Reconcile(reservation.value, Metered(answer.value));
      return Success(answer);
    }
  }

  /** A request settles the reservation it made, and that once: its two transactions are steps of a run. */
  lemma ChatSettlesOnce(s: State, limits: Limits, date: Date, user: Option<int>, a: Answer)
    requires Refused(s.settings, limits, date, user).None?
    ensures var reserved := State(AfterReserve(s.settings, limits, date, user), s.ledger + [NewEntry(limits, date, user)]);
            var m := Metered(a);
            var settled := State(AfterReconcile(reserved.settings, Reservation(date, limits.tokensPerRequest), m),
                                 if m.Some? then s.ledger + [NewEntry(limits, date, user).(actual := Some(m.value))] else reserved.ledger);
            && Step(s, Reserve(limits, date, user), reserved)
            && Step(reserved, Reconcile(|s.ledger|, m), settled)
            && |settled.ledger| == |s.ledger| + 1 && (m.Some? <==> settled.ledger[|s.ledger|].actual.Some?)
  {
    var e := NewEntry(limits, date, user);
    var m := Metered(a);
    if m.Some? {
      assert (s.ledger + [e])[|s.ledger| := e.(actual := Some(m.value))] == s.ledger + [e.(actual := Some(m.value))];
    }
  }
}
