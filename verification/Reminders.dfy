/** Class reminders: the decision taken at one clock tick and its memory across ticks. */
module Reminders {
  import opened Wrappers
  import opened Schedule

  const MINUTE := 60
  const LEAD := 15 * MINUTE
  const MORNING := 120 * MINUTE
  const REMEMBERED := 100

  /** One teaching slot of a day; times are seconds after midnight. */
  datatype Block = Block(starts: int, ends: int)

  datatype Marker =
    | First(day: int, starts: int)
    | Next(day: int, ended: int, starts: int)

  datatype Reminder = Reminder(marker: Marker, named: Block)

  predicate Before(a: Block, b: Block) {
    a.starts < b.starts || (a.starts == b.starts && a.ends < b.ends)
  }

  ghost predicate Sorted(blocks: seq<Block>) {
    forall i, j | 0 <= i < j < |blocks| :: Before(blocks[i], blocks[j])
  }

  function AddBlock(b: Block, blocks: seq<Block>): seq<Block> {
    if blocks == [] || Before(b, blocks[0]) then [b] + blocks
    else if b == blocks[0] then blocks
    else [blocks[0]] + AddBlock(b, blocks[1..])
  }

  lemma {:induction false} AddBlockSorts(b: Block, blocks: seq<Block>)
    requires Sorted(blocks)
    ensures Sorted(AddBlock(b, blocks))
    ensures forall c :: c in AddBlock(b, blocks) <==> c == b || c in blocks
  {
    if blocks == [] || Before(b, blocks[0]) || b == blocks[0] {
    } else {
      AddBlockSorts(b, blocks[1..]);
      var rest := AddBlock(b, blocks[1..]);
      assert blocks == [blocks[0]] + blocks[1..];
      forall j | 0 <= j < |rest| ensures Before(blocks[0], rest[j]) {
        assert rest[j] in rest;
      }
    }
  }

  /** The distinct slots of one day, by start and end. */
  function Blocks(lessons: seq<Lesson>, day: int): seq<Block> {
    if lessons == [] then []
    else
      var rest := Blocks(lessons[1..], day);
      if lessons[0].day == day then AddBlock(Block(lessons[0].startsAt, lessons[0].endsAt), rest) else rest
  }

  lemma {:induction false} BlocksAreTheDay(lessons: seq<Lesson>, day: int)
    ensures Sorted(Blocks(lessons, day))
    ensures forall b :: b in Blocks(lessons, day) <==>
                        exists l | l in lessons :: l.day == day && b == Block(l.startsAt, l.endsAt)
  {
    if lessons != [] {
      BlocksAreTheDay(lessons[1..], day);
      var rest := Blocks(lessons[1..], day);
      AddBlockSorts(Block(lessons[0].startsAt, lessons[0].endsAt), rest);
      assert forall l :: l in lessons <==> l == lessons[0] || l in lessons[1..];
    }
  }

  // ---------------------------------------------------------------- one decision

  /** The first slot that starts at or after `t`. */
  function FirstFrom(blocks: seq<Block>, t: int): (r: Option<Block>)
    ensures r.Some? ==> r.value in blocks && t <= r.value.starts
    ensures r.None? ==> forall b | b in blocks :: b.starts < t
  {
    if blocks == [] then None
    else if t <= blocks[0].starts then Some(blocks[0])
    else FirstFrom(blocks[1..], t)
  }

  lemma {:induction false} FirstFromIsEarliest(blocks: seq<Block>, t: int)
    requires Sorted(blocks) && FirstFrom(blocks, t).Some?
    ensures forall b | b in blocks && t <= b.starts ::
              FirstFrom(blocks, t).value.starts <= b.starts
              && (FirstFrom(blocks, t).value.starts == b.starts ==> FirstFrom(blocks, t).value.ends <= b.ends)
  {
    if blocks[0].starts < t {
      FirstFromIsEarliest(blocks[1..], t);
    }
  }

  datatype Verdict = Idle | Silent | Announce(ended: Block, next: Block)

  /** The loop over the slots from the `i`-th on. */
  function Scan(blocks: seq<Block>, i: nat, now: int): Verdict
    requires i <= |blocks|
    decreases |blocks| - i
  {
    if i == |blocks| then Idle
    else
      var b := blocks[i];
      if b.starts <= now && b.ends - LEAD <= now then
        match FirstFrom(blocks, b.ends)
        case None => Silent
        case Some(next) => if next.starts <= now then Scan(blocks, i + 1, now) else Announce(b, next)
      else Scan(blocks, i + 1, now)
  }

  function Candidate(blocks: seq<Block>, day: int, now: int): Option<Reminder> {
    if blocks == [] then None
    else
      match Scan(blocks, 0, now)
      case Silent => None
      case Announce(b, next) => Some(Reminder(Next(day, b.ends, next.starts), next))
      case Idle =>
        if blocks[0].starts - MORNING <= now < blocks[0].starts
        then Some(Reminder(First(day, blocks[0].starts), blocks[0])) else None
  }

  function Due(blocks: seq<Block>, day: int, now: int, sent: seq<Marker>): Option<Reminder> {
    var c := Candidate(blocks, day, now);
    if c.Some? && c.value.marker in sent then None else c
  }

  method DueReminder(lessons: seq<Lesson>, day: int, now: int, sent: seq<Marker>) returns (r: Option<Reminder>)
    ensures r == Due(Blocks(lessons, day), day, now, sent)
  {
    var ordered: seq<Block> := [];
    for k := 0 to |lessons|
      invariant ordered == Blocks(lessons[|lessons| - k..], day)
    {
      var l := lessons[|lessons| - 1 - k];
      assert lessons[|lessons| - 1 - k..][1..] == lessons[|lessons| - k..];
      if l.day == day {
        ordered := AddBlock(Block(l.startsAt, l.endsAt), ordered);
      }
    }
    assert lessons[0..] == lessons;
    if ordered == [] {
      return None;
    }
    for i := 0 to |ordered|
      invariant Scan(ordered, 0, now) == Scan(ordered, i, now)
    {
      var b := ordered[i];
      if b.starts <= now && b.ends - LEAD <= now {
        var next := FirstFrom(ordered, b.ends);
        if next.None? {
          return None;
        }
        if next.value.starts <= now {
          continue;
        }
        var marker := Next(day, b.ends, next.value.starts);
        if marker in sent {
          return None;
        }
        return Some(Reminder(marker, next.value));
      }
    }
    var first := ordered[0];
    var marker := First(day, first.starts);
    if first.starts - MORNING <= now < first.starts && marker !in sent {
      return Some(Reminder(marker, first));
    }
    return None;
  }

  // ---------------------------------------------------------------- the scan and active slots

  /** Slot `i` wants a reminder about what follows it, or wants silence if nothing does. */
  predicate Active(blocks: seq<Block>, i: nat, now: int)
    requires i < |blocks|
  {
    && blocks[i].starts <= now && blocks[i].ends - LEAD <= now
    && (FirstFrom(blocks, blocks[i].ends).None? || now < FirstFrom(blocks, blocks[i].ends).value.starts)
  }

  /** Slot `i` is the first active one. */
  ghost predicate Leads(blocks: seq<Block>, i: nat, now: int) {
    && i < |blocks| && Active(blocks, i, now)
    && forall j: nat | j < i :: !Active(blocks, j, now)
  }

  lemma {:induction false} ScanFindsLeader(blocks: seq<Block>, i: nat, now: int) returns (lead: nat)
    requires i <= |blocks| && forall j: nat | j < i :: !Active(blocks, j, now)
    ensures Scan(blocks, i, now).Idle? ==> forall j: nat | j < |blocks| :: !Active(blocks, j, now)
    ensures !Scan(blocks, i, now).Idle? ==>
              && Leads(blocks, lead, now)
              && var next := FirstFrom(blocks, blocks[lead].ends);
                 Scan(blocks, i, now) == if next.None? then Silent else Announce(blocks[lead], next.value)
    decreases |blocks| - i
  {
    lead := i;
    if i < |blocks| && !Active(blocks, i, now) {
      lead := ScanFindsLeader(blocks, i + 1, now);
    }
  }

  /** A reminder names a slot of that day which has not started yet, and which is the next one to
      start after the slot that is ending, or the first of the day. */
  lemma RemindersNameTheFuture(lessons: seq<Lesson>, day: int, now: int, sent: seq<Marker>)
    requires Due(Blocks(lessons, day), day, now, sent).Some?
    ensures var r := Due(Blocks(lessons, day), day, now, sent).value;
            && now < r.named.starts
            && (exists l | l in lessons :: l.day == day && r.named == Block(l.startsAt, l.endsAt))
            && r.marker.day == day && r.marker.starts == r.named.starts && r.marker !in sent
            && (forall l | l in lessons && l.day == day ::
                  (r.named.starts == l.startsAt ==> r.named.ends <= l.endsAt)
                  && (r.marker.First? ==> r.named.starts <= l.startsAt)
                  && (r.marker.Next? && r.marker.ended <= l.startsAt ==> r.named.starts <= l.startsAt))
  {
    var blocks := Blocks(lessons, day);
    BlocksAreTheDay(lessons, day);
    var lead := ScanFindsLeader(blocks, 0, now);
    var r := Due(blocks, day, now, sent).value;
    assert r.named in blocks;
    if r.marker.Next? {
      FirstFromIsEarliest(blocks, r.marker.ended);
    }
    forall l | l in lessons && l.day == day
      ensures r.named.starts == l.startsAt ==> r.named.ends <= l.endsAt
      ensures r.marker.First? ==> r.named.starts <= l.startsAt
      ensures r.marker.Next? && r.marker.ended <= l.startsAt ==> r.named.starts <= l.startsAt
    {
      assert Block(l.startsAt, l.endsAt) in blocks;
    }
  }

  /** The reminder of the morning is due in the two hours before the first lesson of the day starts, once. */
  lemma MorningReminderIff(lessons: seq<Lesson>, day: int, now: int, sent: seq<Marker>, first: Lesson)
    requires first in lessons && first.day == day
    requires forall l | l in lessons && l.day == day :: first.startsAt <= l.startsAt
    ensures (exists named :: Due(Blocks(lessons, day), day, now, sent) == Some(Reminder(First(day, first.startsAt), named))) <==>
            first.startsAt - 2 * 3600 <= now < first.startsAt && First(day, first.startsAt) !in sent
  {
    var blocks := Blocks(lessons, day);
    BlocksAreTheDay(lessons, day);
    assert Block(first.startsAt, first.endsAt) in blocks;
    assert blocks[0] in blocks && blocks[0].starts == first.startsAt;
    var lead := ScanFindsLeader(blocks, 0, now);
    if first.startsAt - 2 * 3600 <= now < first.startsAt && First(day, first.startsAt) !in sent {
      assert forall j: nat | j < |blocks| :: blocks[0].starts <= blocks[j].starts;
      assert Due(blocks, day, now, sent) == Some(Reminder(First(day, first.startsAt), blocks[0]));
    }
  }

  lemma OtherSlot(lessons: seq<Lesson>, day: int, blocks: seq<Block>, i: nat, j: nat) returns (l: Lesson)
    requires blocks == Blocks(lessons, day) && i < |blocks| && j < |blocks| && i != j
    ensures l in lessons && l.day == day && blocks[j] == Block(l.startsAt, l.endsAt) != blocks[i]
    ensures j < i ==> blocks[j].starts <= blocks[i].starts
  {
    BlocksAreTheDay(lessons, day);
    assert blocks[j] in blocks;
    l :| l in lessons && l.day == day && blocks[j] == Block(l.startsAt, l.endsAt);
  }

  /** A reminder between two lessons is due from a quarter of an hour before the end of the one, once that
      has started, until the other starts, provided that whatever began before was over by then. */
  lemma BreakReminderIff(lessons: seq<Lesson>, day: int, now: int, sent: seq<Marker>, ending: Lesson, next: Lesson)
    requires ending in lessons && ending.day == day && next in lessons && next.day == day
    requires ending.startsAt < ending.endsAt <= next.startsAt
    requires forall l | l in lessons && l.day == day && ending.endsAt <= l.startsAt :: next.startsAt <= l.startsAt
    requires forall l | l in lessons && l.day == day && (l.startsAt, l.endsAt) != (ending.startsAt, ending.endsAt) ::
               l.endsAt <= ending.startsAt || (ending.startsAt < l.startsAt && ending.endsAt < l.endsAt)
    ensures (exists named :: Due(Blocks(lessons, day), day, now, sent) ==
                             Some(Reminder(Next(day, ending.endsAt, next.startsAt), named))) <==>
            && ending.startsAt <= now && ending.endsAt - 15 * 60 <= now < next.startsAt
            && Next(day, ending.endsAt, next.startsAt) !in sent
  {
    var blocks := Blocks(lessons, day);
    BlocksAreTheDay(lessons, day);
    var e := Block(ending.startsAt, ending.endsAt);
    assert e in blocks && Block(next.startsAt, next.endsAt) in blocks;
    var i: nat :| i < |blocks| && blocks[i] == e;
    FirstFromIsEarliest(blocks, e.ends);
    assert FirstFrom(blocks, e.ends).value.starts == next.startsAt;
    var lead := ScanFindsLeader(blocks, 0, now);
    forall j: nat | j < |blocks| && j != i
      ensures blocks[j].ends != e.ends && (j < i && e.starts <= now ==> !Active(blocks, j, now))
    {
      var l := OtherSlot(lessons, day, blocks, i, j);
      if j < i {
        FirstFromIsEarliest(blocks, blocks[j].ends);
      }
    }
    if ending.startsAt <= now && ending.endsAt - 15 * 60 <= now < next.startsAt && Next(day, e.ends, next.startsAt) !in sent {
      assert Active(blocks, i, now);
      assert lead == i;
    }
  }

  // ---------------------------------------------------------------- the same reminder later

  lemma LaterEndLaterNext(blocks: seq<Block>, a: int, b: int)
    requires Sorted(blocks) && a <= b
    ensures FirstFrom(blocks, b).Some? ==>
              FirstFrom(blocks, a).Some? && FirstFrom(blocks, a).value.starts <= FirstFrom(blocks, b).value.starts
  {
    if FirstFrom(blocks, b).Some? && FirstFrom(blocks, a).Some? {
      FirstFromIsEarliest(blocks, a);
    }
  }

  /** If the same slot leads at two instants, it leads at every instant in between. */
  lemma LeadersAreIntervals(blocks: seq<Block>, i: nat, t1: int, t2: int, t3: int)
    requires Sorted(blocks) && t1 <= t2 <= t3
    requires Leads(blocks, i, t1) && Leads(blocks, i, t3)
    ensures Leads(blocks, i, t2)
  {
    forall j: nat | j < i ensures !Active(blocks, j, t2) {
      assert Before(blocks[j], blocks[i]);
      assert !Active(blocks, j, t1) && !Active(blocks, j, t3);
      if blocks[i].ends <= blocks[j].ends {
        LaterEndLaterNext(blocks, blocks[i].ends, blocks[j].ends);
      }
    }
  }

  /** Two instants with the same pending marker have the same leading slot. */
  lemma SameMarkerSameLeader(blocks: seq<Block>, i: nat, k: nat, t1: int, t3: int)
    requires Sorted(blocks) && t1 <= t3
    requires Leads(blocks, i, t1) && Leads(blocks, k, t3)
    requires FirstFrom(blocks, blocks[i].ends).Some? && blocks[i].ends == blocks[k].ends
    ensures i == k
  {
    assert Active(blocks, i, t3);
    assert k <= i;
    assert k < i ==> Before(blocks[k], blocks[i]);
    assert Active(blocks, k, t1);
  }

  lemma SameCandidateBetween(blocks: seq<Block>, day: int, t1: int, t2: int, t3: int)
    requires Sorted(blocks) && t1 <= t2 <= t3
    requires Candidate(blocks, day, t1).Some? && Candidate(blocks, day, t3).Some?
    requires Candidate(blocks, day, t1).value.marker == Candidate(blocks, day, t3).value.marker
    ensures Candidate(blocks, day, t2) == Candidate(blocks, day, t1)
  {
    var i := ScanFindsLeader(blocks, 0, t1);
    var j := ScanFindsLeader(blocks, 0, t2);
    var k := ScanFindsLeader(blocks, 0, t3);
    if Candidate(blocks, day, t1).value.marker.First? {
      assert forall q: nat | q < |blocks| :: blocks[0].starts <= blocks[q].starts;
      assert forall q: nat | q < |blocks| :: !Active(blocks, q, t2);
    } else {
      SameMarkerSameLeader(blocks, i, k, t1, t3);
      LeadersAreIntervals(blocks, i, t1, t2, t3);
    }
  }

  // ---------------------------------------------------------------- many ticks

  datatype Tick = Tick(day: int, now: int)

  predicate NotAfter(a: Tick, b: Tick) {
    a.day < b.day || (a.day == b.day && a.now <= b.now)
  }

  function Remember(sent: seq<Marker>, r: Option<Reminder>): seq<Marker> {
    if r.None? then sent
    else
      var all := sent + [r.value.marker];
      if |all| <= REMEMBERED then all else all[|all| - REMEMBERED..]
  }

  /** The memory holds the last hundred markers, the newest at its end. */
  lemma LastHundred(sent: seq<Marker>, r: Reminder)
    ensures var now := Remember(sent, Some(r));
            && 0 < |now| && now[|now| - 1] == r.marker
            && |now| == (if |sent| < 100 then |sent| + 1 else 100)
            && now[..|now| - 1] == sent[|sent| + 1 - |now|..]
  {
  }

  /** The memory before each tick and the reminder sent at it, for one fixed envelope. */
  ghost predicate TickRun(lessons: seq<Lesson>, ticks: seq<Tick>, memory: seq<seq<Marker>>, out: seq<Option<Reminder>>) {
    && |memory| == |ticks| + 1 && |out| == |ticks|
    && (forall i | 0 <= i < |ticks| ::
          && out[i] == Due(Blocks(lessons, ticks[i].day), ticks[i].day, ticks[i].now, memory[i])
          && memory[i + 1] == Remember(memory[i], out[i]))
    && (forall i, j | 0 <= i < j < |ticks| :: NotAfter(ticks[i], ticks[j]))
  }

  /** While the same marker stays pending, the one just sent stays last in memory. */
  lemma {:induction false} SentStaysLast(lessons: seq<Lesson>, ticks: seq<Tick>, memory: seq<seq<Marker>>,
                                         out: seq<Option<Reminder>>, i: nat, m: nat, k: nat)
    requires TickRun(lessons, ticks, memory, out) && i < m <= k < |ticks|
    requires out[i].Some? && ticks[k].day == ticks[i].day
    requires Candidate(Blocks(lessons, ticks[k].day), ticks[k].day, ticks[k].now).Some?
    requires Candidate(Blocks(lessons, ticks[k].day), ticks[k].day, ticks[k].now).value.marker == out[i].value.marker
    ensures out[i].value.marker in memory[m]
    decreases m - i
  {
    var day := ticks[i].day;
    assert memory[i + 1] == Remember(memory[i], out[i]);
    var all := memory[i] + [out[i].value.marker];
    assert all[|all| - 1] == out[i].value.marker;
    if |all| > REMEMBERED {
      assert all[|all| - REMEMBERED..][REMEMBERED - 1] == out[i].value.marker;
    }
    if i + 1 < m {
      SentStaysLast(lessons, ticks, memory, out, i, m - 1, k);
      assert NotAfter(ticks[i], ticks[m - 1]) && NotAfter(ticks[m - 1], ticks[k]);
      BlocksAreTheDay(lessons, day);
      SameCandidateBetween(Blocks(lessons, day), day, ticks[i].now, ticks[m - 1].now, ticks[k].now);
      assert out[m - 1] == Due(Blocks(lessons, day), day, ticks[m - 1].now, memory[m - 1]);
      assert memory[m - 1 + 1] == Remember(memory[m - 1], out[m - 1]);
    }
  }

  /** Over any non-decreasing ticks, within a day or across days, and whatever was remembered at
      the start, no marker is sent twice: keeping the last hundred is always enough, for any
      number of slots. */
  lemma NoReminderTwice(lessons: seq<Lesson>, ticks: seq<Tick>, memory: seq<seq<Marker>>,
                        out: seq<Option<Reminder>>, i: nat, k: nat)
    requires TickRun(lessons, ticks, memory, out) && i < k < |ticks|
    requires out[i].Some? && out[k].Some?
    ensures out[i].value.marker != out[k].value.marker
  {
    assert out[i] == Due(Blocks(lessons, ticks[i].day), ticks[i].day, ticks[i].now, memory[i]);
    assert out[k] == Due(Blocks(lessons, ticks[k].day), ticks[k].day, ticks[k].now, memory[k]);
    if out[i].value.marker == out[k].value.marker {
      SentStaysLast(lessons, ticks, memory, out, i, k, k);
    }
  }
}
