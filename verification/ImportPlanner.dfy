/** Planning an import of a chat export: parsed records in order, known keys dropped. */
module ImportPlanner {
  import opened Wrappers
  import opened Numbers

  type Key = (int, int)

  datatype ImportedMessage = ImportedMessage(
    chatId: int,
    messageId: int,
    sentAt: int,
    senderId: Option<int>,
    senderName: Option<string>,
    text: string,
    messageType: string,
    editedAt: Option<int>,
    replyTo: Option<int>,
    topicId: Option<int>,
    mediaGroupId: Option<string>,
    filePath: Option<string>,
    fileName: Option<string>,
    mimeType: Option<string>,
    fileSize: Option<nat>,
    forwardedFrom: Option<string>)
  {
    function UniqueKey(): Key {
      (chatId, messageId)
    }
  }

  /** One raw record: not an object at all, or an object that parses or does not. */
  datatype RawRecord =
    | NotAnObject
    | Object(id: Option<int>, parsed: Result<ImportedMessage, string>)

  datatype ImportFailure = ImportFailure(messageId: Option<int>, reason: string)

  datatype ImportReport = ImportReport(
    chatId: int, found: nat, planned: nat, duplicates: nat, users: nat,
    documents: nat, photos: nat, videos: nat, topics: nat, mediaGroups: nat,
    failures: seq<ImportFailure>, dateFrom: Option<int>, dateTo: Option<int>)

  datatype ImportPlan = ImportPlan(messages: seq<ImportedMessage>, report: ImportReport)

  function Keys(messages: seq<ImportedMessage>): set<Key> {
    set m | m in messages :: m.UniqueKey()
  }

  ghost predicate KeysDistinct(messages: seq<ImportedMessage>) {
    forall i, j | 0 <= i < j < |messages| :: messages[i].UniqueKey() != messages[j].UniqueKey()
  }

  function Parsed(raw: RawRecord, chatId: int): Option<ImportedMessage> {
    if raw.Object? && raw.parsed.Success? then Some(raw.parsed.value.(chatId := chatId)) else None
  }

  /** The first occurrence of every key that is not known yet, in export order. */
  function Planned(raws: seq<RawRecord>, chatId: int, known: set<Key>): seq<ImportedMessage> {
    if raws == [] then []
    else
      var before := Planned(raws[..|raws| - 1], chatId, known);
      var m := Parsed(raws[|raws| - 1], chatId);
      if m.Some? && m.value.UniqueKey() !in known + Keys(before) then before + [m.value] else before
  }

  function Failures(raws: seq<RawRecord>): seq<ImportFailure> {
    if raws == [] then []
    else
      var last := raws[|raws| - 1];
      Failures(raws[..|raws| - 1]) +
      match last
      case NotAnObject => [ImportFailure(None, "message is not an object")]
      case Object(id, Failure(reason)) => [ImportFailure(id, reason)]
      case Object(_, Success(_)) => []
  }

  lemma {:induction false} PlannedKeysDistinct(raws: seq<RawRecord>, chatId: int, known: set<Key>)
    ensures KeysDistinct(Planned(raws, chatId, known))
    ensures Keys(Planned(raws, chatId, known)) !! known
    ensures forall m | m in Planned(raws, chatId, known) :: m.chatId == chatId
  {
    if raws != [] {
      var before := Planned(raws[..|raws| - 1], chatId, known);
      PlannedKeysDistinct(raws[..|raws| - 1], chatId, known);
      assert forall i | 0 <= i < |before| :: before[i].UniqueKey() in Keys(before);
    }
  }

  /** Record `i` is the first to carry the key of message `m`. */
  ghost predicate FirstOf(raws: seq<RawRecord>, chatId: int, i: nat, m: ImportedMessage) {
    && i < |raws| && Parsed(raws[i], chatId) == Some(m)
    && forall j | 0 <= j < i && Parsed(raws[j], chatId).Some? ::
         Parsed(raws[j], chatId).value.UniqueKey() != m.UniqueKey()
  }

  /** No parsed record is forgotten: its key is known or planned. */
  lemma {:induction false} NoKeyForgotten(raws: seq<RawRecord>, chatId: int, known: set<Key>, i: nat)
    requires i < |raws| && Parsed(raws[i], chatId).Some?
    ensures Parsed(raws[i], chatId).value.UniqueKey() in known + Keys(Planned(raws, chatId, known))
    decreases |raws|
  {
    var init := raws[..|raws| - 1];
    var plan := Planned(raws, chatId, known);
    assert forall m | m in Planned(init, chatId, known) :: m in plan;
    if i < |init| {
      NoKeyForgotten(init, chatId, known, i);
    }
  }

  /** Every planned message is the first record that carries its key. */
  lemma {:induction false} PlannedIsFirst(raws: seq<RawRecord>, chatId: int, known: set<Key>, m: ImportedMessage) returns (i: nat)
    requires m in Planned(raws, chatId, known)
    ensures FirstOf(raws, chatId, i, m)
    decreases |raws|
  {
    var init := raws[..|raws| - 1];
    if m in Planned(init, chatId, known) {
      i := PlannedIsFirst(init, chatId, known, m);
    } else {
      i := |raws| - 1;
      forall j | 0 <= j < i && Parsed(raws[j], chatId).Some?
        ensures Parsed(raws[j], chatId).value.UniqueKey() != m.UniqueKey()
      {
        NoKeyForgotten(init, chatId, known, j);
        assert init[j] == raws[j];
      }
    }
  }

  function CountType(messages: seq<ImportedMessage>, t: string): nat {
    if messages == [] then 0
    else CountType(messages[..|messages| - 1], t) + if messages[|messages| - 1].messageType == t then 1 else 0
  }

  function Senders(messages: seq<ImportedMessage>): set<int> {
    set m | m in messages && m.senderId.Some? :: m.senderId.value
  }

  function Topics(messages: seq<ImportedMessage>): set<int> {
    set m | m in messages && m.topicId.Some? :: m.topicId.value
  }

  function MediaGroups(messages: seq<ImportedMessage>): set<string> {
    set m | m in messages && m.mediaGroupId.Some? && m.mediaGroupId.value != "" :: m.mediaGroupId.value
  }

  /** Who and what the report counts: senders, topics and non-empty album names. */
  lemma WhatIsCounted(messages: seq<ImportedMessage>)
    ensures forall id :: id in Senders(messages) <==> exists m | m in messages :: m.senderId == Some(id)
    ensures forall t :: t in Topics(messages) <==> exists m | m in messages :: m.topicId == Some(t)
    ensures forall g :: g in MediaGroups(messages) <==> g != "" && exists m | m in messages :: m.mediaGroupId == Some(g)
  {
  }

  lemma PlanOne(raws: seq<RawRecord>, chatId: int, known: set<Key>, k: nat)
    requires k < |raws|
    ensures var before := Planned(raws[..k], chatId, known);
            var m := Parsed(raws[k], chatId);
            Planned(raws[..k + 1], chatId, known) ==
              if m.Some? && m.value.UniqueKey() !in known + Keys(before) then before + [m.value] else before
    ensures Failures(raws[..k + 1]) == Failures(raws[..k]) +
              match raws[k]
              case NotAnObject => [ImportFailure(None, "message is not an object")]
              case Object(id, Failure(reason)) => [ImportFailure(id, reason)]
              case Object(_, Success(_)) => []
  {
    assert raws[..k + 1][..k] == raws[..k];
  }

  /** The first and the last instant at which one of the messages was sent. */
  ghost predicate IsSpan(messages: seq<ImportedMessage>, from: Option<int>, to: Option<int>) {
    && (from.None? <==> messages == []) && (to.None? <==> messages == [])
    && (from.Some? ==> (exists m | m in messages :: m.sentAt == from.value) && forall m | m in messages :: from.value <= m.sentAt)
    && (to.Some? ==> (exists m | m in messages :: m.sentAt == to.value) && forall m | m in messages :: m.sentAt <= to.value)
  }

  function Span(messages: seq<ImportedMessage>): (r: (Option<int>, Option<int>))
    ensures IsSpan(messages, r.0, r.1)
  {
    if messages == [] then (None, None)
    else
      var init, at := messages[..|messages| - 1], messages[|messages| - 1].sentAt;
      var (from, to) := Span(init);
      assert forall m :: m in messages <==> m in init || m == messages[|messages| - 1];
      (Some(if from.Some? then Min(from.value, at) else at), Some(if to.Some? then Max(to.value, at) else at))
  }

  /** The per-type counters agree with the planned messages. */
  ghost predicate Counts(counts: map<string, nat>, messages: seq<ImportedMessage>) {
    forall t :: Count(counts, t) == CountType(messages, t)
  }

  function Count(counts: map<string, nat>, t: string): nat {
    if t in counts then counts[t] else 0
  }

  lemma KeysOne(messages: seq<ImportedMessage>, m: ImportedMessage)
    ensures Keys(messages + [m]) == Keys(messages) + {m.UniqueKey()}
  {
  }

  lemma CountOne(counts: map<string, nat>, messages: seq<ImportedMessage>, m: ImportedMessage)
    requires Counts(counts, messages)
    ensures Counts(Counted(counts, m.messageType), messages + [m])
  {
  }

  function Counted(counts: map<string, nat>, t: string): map<string, nat> {
    counts[t := Count(counts, t) + 1]
  }

  /** What the planning loop holds after the first `k` records. */
  ghost predicate PlannedSoFar(raws: seq<RawRecord>, chatId: int, existing: set<Key>, k: nat, seen: set<Key>,
                               planned: seq<ImportedMessage>, failures: seq<ImportFailure>, duplicates: nat, counts: map<string, nat>) {
    && k <= |raws|
    && planned == Planned(raws[..k], chatId, existing) && failures == Failures(raws[..k])
    && seen == existing + Keys(planned)
    && k == |planned| + duplicates + |failures|
    && Counts(counts, planned)
  }

  /** A parsed record with a key not seen before is planned. */
  lemma PlanNext(raws: seq<RawRecord>, chatId: int, existing: set<Key>, k: nat, seen: set<Key>, planned: seq<ImportedMessage>,
                 failures: seq<ImportFailure>, duplicates: nat, counts: map<string, nat>, m: ImportedMessage)
    requires PlannedSoFar(raws, chatId, existing, k, seen, planned, failures, duplicates, counts) && k < |raws|
    requires Parsed(raws[k], chatId) == Some(m) && m.UniqueKey() !in seen
    ensures PlannedSoFar(raws, chatId, existing, k + 1, seen + {m.UniqueKey()}, planned + [m], failures, duplicates,
                         Counted(counts, m.messageType))
  {
    PlanOne(raws, chatId, existing, k);
    CountOne(counts, planned, m);
    KeysOne(planned, m);
  }

  method CollectPlan(raws: seq<RawRecord>, chatId: int, existing: set<Key>)
    returns (planned: seq<ImportedMessage>, failures: seq<ImportFailure>, duplicates: nat, counts: map<string, nat>)
    ensures planned == Planned(raws, chatId, existing) && failures == Failures(raws)
    ensures |raws| == |planned| + duplicates + |failures|
    ensures Counts(counts, planned)
  {
    var seen := existing;
    planned, failures, duplicates, counts := [], [], 0, map[];
    for k := 0 to |raws|
      invariant PlannedSoFar(raws, chatId, existing, k, seen, planned, failures, duplicates, counts)
    {
      var raw := raws[k];
      if raw.NotAnObject? || raw.parsed.Failure? || raw.parsed.value.(chatId := chatId).UniqueKey() in seen {
        PlanOne(raws, chatId, existing, k);
      }
      if raw.NotAnObject? {
        failures := failures + [ImportFailure(None, "message is not an object")];
      } else if raw.parsed.Failure? {
        failures := failures + [ImportFailure(raw.id, raw.parsed.error)];
      } else {
        var message := raw.parsed.value.(chatId := chatId);
        if message.UniqueKey() in seen {
          duplicates := duplicates + 1;
        } else {
          PlanNext(raws, chatId, existing, k, seen, planned, failures, duplicates, counts, message);
          seen := seen + {message.UniqueKey()};
          planned := planned + [message];
          counts := Counted(counts, message.messageType);
        }
      }
    }
    assert raws[..|raws|] == raws;
  }

  method PlanImport(raws: seq<RawRecord>, chatId: int, existing: set<Key>) returns (plan: ImportPlan)
    ensures plan.messages == Planned(raws, chatId, existing)
    ensures KeysDistinct(plan.messages) && Keys(plan.messages) !! existing
    ensures plan.report.failures == Failures(raws)
    ensures plan.report.found == |raws| && plan.report.planned == |plan.messages|
    ensures plan.report.found == plan.report.planned + plan.report.duplicates + |plan.report.failures|
    ensures plan.report.users == |Senders(plan.messages)|
    ensures plan.report.documents == CountType(plan.messages, "file")
    ensures plan.report.photos == CountType(plan.messages, "photo")
    ensures plan.report.videos == CountType(plan.messages, "video_file")
    ensures plan.report.topics == |Topics(plan.messages)|
    ensures plan.report.mediaGroups == |MediaGroups(plan.messages)|
    ensures plan.report.chatId == chatId
    ensures IsSpan(plan.messages, plan.report.dateFrom, plan.report.dateTo)
  {
    var planned, failures, duplicates, counts := CollectPlan(raws, chatId, existing);
    PlannedKeysDistinct(raws, chatId, existing);
    var report := Report(chatId, |raws|, planned, duplicates, failures, counts);
    plan := ImportPlan(planned, report);
  }

  function Report(chatId: int, found: nat, planned: seq<ImportedMessage>, duplicates: nat,
                  failures: seq<ImportFailure>, counts: map<string, nat>): (r: ImportReport)
    requires Counts(counts, planned)
    ensures r.chatId == chatId && r.found == found && r.planned == |planned| && r.duplicates == duplicates && r.failures == failures
    ensures r.users == |Senders(planned)| && r.topics == |Topics(planned)| && r.mediaGroups == |MediaGroups(planned)|
    ensures IsSpan(planned, r.dateFrom, r.dateTo)
    ensures r.documents == CountType(planned, "file")
    ensures r.photos == CountType(planned, "photo")
    ensures r.videos == CountType(planned, "video_file")
  {
    ImportReport(chatId, found, |planned|, duplicates, |Senders(planned)|,
                 Count(counts, "file"), Count(counts, "photo"), Count(counts, "video_file"),
                 |Topics(planned)|, |MediaGroups(planned)|, failures, Span(planned).0, Span(planned).1)
  }
}
