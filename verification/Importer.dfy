/** A resumable import: each batch of messages commits together with the cursor that says how far
    the run has come. A transaction commits, raises (and is rolled back) or dies with the process. */
module Importer {
  import opened Wrappers
  import opened ImportPlanner
  import opened Archive
  import opened BatchRun

  datatype Status = Running | Succeeded | Failed

  datatype Tally = Tally(created: nat, updated: nat, users: nat, topics: nat, mediaGroups: nat, files: nat)

  datatype Stats = Stats(chatId: int, planned: nat, nextIndex: nat, batches: nat, tally: Tally)

  datatype ImportRun = ImportRun(status: Status, stats: Stats)

  datatype Fate = Commit | Raise | Die

  datatype Outcome =
    | Completed(stats: Stats, resumedFrom: nat)
    | AlreadyCompleted(stats: Stats, resumedFrom: nat)
    | Rejected(reason: string)
    | Raised
    | Died

  const NoTally := Tally(0, 0, 0, 0, 0, 0)

  // ---------------------------------------------------------------- counters

  function One(b: bool): nat { if b then 1 else 0 }

  function Recorded(t: Tally, c: Created): Tally {
    Tally(t.created + One(c.message), t.updated + One(!c.message), t.users + One(c.user),
          t.topics + One(c.topic), t.mediaGroups + One(c.mediaGroup), t.files + One(c.file))
  }

  /** What a batch transaction changes: the archive and the run's counters. */
  datatype Data = Data(store: Store, tally: Tally)

  function Persist(d: Data, m: ImportedMessage): Data {
    Data(Persisted(d.store, m), Recorded(d.tally, CreatedBy(d.store, m)))
  }

  /** The messages persisted in order, once each. */
  function After(d: Data, messages: seq<ImportedMessage>): Data {
    Fold(Persist, d, messages)
  }

  lemma {:induction false} AfterPersistsAll(d: Data, messages: seq<ImportedMessage>)
    ensures After(d, messages).store == PersistedAll(d.store, messages)
  {
    if messages != [] {
      AfterPersistsAll(d, messages[..|messages| - 1]);
    }
  }

  function TopicKeys(messages: seq<ImportedMessage>): set<(int, int)> {
    set m | m in messages && m.topicId.Some? :: (m.chatId, m.topicId.value)
  }

  function MediaGroupKeys(messages: seq<ImportedMessage>): set<(int, string)> {
    set m | m in messages && m.mediaGroupId.Some? :: (m.chatId, m.mediaGroupId.value)
  }

  function FileKeys(messages: seq<ImportedMessage>): set<(Key, string)> {
    set m | m in messages && m.filePath.Some? :: (m.UniqueKey(), m.filePath.value)
  }

  /** A table gained exactly the given keys, and `count` of them are new to it. */
  ghost predicate Gained<T(!new)>(now: set<T>, was: set<T>, keys: set<T>, count: nat) {
    now == was + keys && count == |keys - was|
  }

  lemma GainedOne<T(!new)>(now: set<T>, now': set<T>, was: set<T>, keys: set<T>, keys': set<T>, count: nat, part: set<T>, isNew: bool)
    requires Gained(now, was, keys, count) && |part| <= 1 && (isNew <==> !(part <= now))
    requires now' == now + part && keys' == keys + part
    ensures Gained(now', was, keys', count + One(isNew))
  {
    if isNew {
      var x :| x in part && x !in now;
      assert |part - {x}| == 0;
      assert part == {x};
      assert keys' - was == (keys - was) + {x};
    } else {
      assert keys' - was == keys - was;
    }
  }

  ghost predicate UsersGained(d: Data, initial: Store, messages: seq<ImportedMessage>) {
    Gained(d.store.users.Keys, initial.users.Keys, Senders(messages), d.tally.users)
  }

  lemma UserKeysOne(init: seq<ImportedMessage>, last: ImportedMessage)
    ensures Senders(init + [last]) == Senders(init) + UserOf(last)
  {
  }

  lemma UserGain(d: Data, initial: Store, init: seq<ImportedMessage>, last: ImportedMessage)
    requires UsersGained(d, initial, init)
    ensures UsersGained(Persist(d, last), initial, init + [last])
  {
    UserKeysOne(init, last);
    GainedOne(d.store.users.Keys, Persist(d, last).store.users.Keys, initial.users.Keys, Senders(init), Senders(init + [last]),
              d.tally.users, UserOf(last), CreatedBy(d.store, last).user);
  }

  ghost predicate TopicsGained(d: Data, initial: Store, messages: seq<ImportedMessage>) {
    Gained(d.store.topics.Keys, initial.topics.Keys, TopicKeys(messages), d.tally.topics)
  }

  lemma TopicKeysOne(init: seq<ImportedMessage>, last: ImportedMessage)
    ensures TopicKeys(init + [last]) == TopicKeys(init) + TopicOf(last)
  {
  }

  lemma TopicGain(d: Data, initial: Store, init: seq<ImportedMessage>, last: ImportedMessage)
    requires TopicsGained(d, initial, init)
    ensures TopicsGained(Persist(d, last), initial, init + [last])
  {
    TopicKeysOne(init, last);
    GainedOne(d.store.topics.Keys, Persist(d, last).store.topics.Keys, initial.topics.Keys, TopicKeys(init), TopicKeys(init + [last]),
              d.tally.topics, TopicOf(last), CreatedBy(d.store, last).topic);
  }

  ghost predicate MediaGroupsGained(d: Data, initial: Store, messages: seq<ImportedMessage>) {
    Gained(d.store.mediaGroups.Keys, initial.mediaGroups.Keys, MediaGroupKeys(messages), d.tally.mediaGroups)
  }

  lemma MediaGroupKeysOne(init: seq<ImportedMessage>, last: ImportedMessage)
    ensures MediaGroupKeys(init + [last]) == MediaGroupKeys(init) + MediaGroupOf(last)
  {
  }

  lemma MediaGroupGain(d: Data, initial: Store, init: seq<ImportedMessage>, last: ImportedMessage)
    requires MediaGroupsGained(d, initial, init)
    ensures MediaGroupsGained(Persist(d, last), initial, init + [last])
  {
    MediaGroupKeysOne(init, last);
    GainedOne(d.store.mediaGroups.Keys, Persist(d, last).store.mediaGroups.Keys, initial.mediaGroups.Keys, MediaGroupKeys(init), MediaGroupKeys(init + [last]),
              d.tally.mediaGroups, MediaGroupOf(last), CreatedBy(d.store, last).mediaGroup);
  }

  ghost predicate FilesGained(d: Data, initial: Store, messages: seq<ImportedMessage>) {
    Gained(d.store.files.Keys, initial.files.Keys, FileKeys(messages), d.tally.files)
  }

  lemma FileKeysOne(init: seq<ImportedMessage>, last: ImportedMessage)
    ensures FileKeys(init + [last]) == FileKeys(init) + FileOf(last)
  {
  }

  lemma FileGain(d: Data, initial: Store, init: seq<ImportedMessage>, last: ImportedMessage)
    requires FilesGained(d, initial, init)
    ensures FilesGained(Persist(d, last), initial, init + [last])
  {
    FileKeysOne(init, last);
    GainedOne(d.store.files.Keys, Persist(d, last).store.files.Keys, initial.files.Keys, FileKeys(init), FileKeys(init + [last]),
              d.tally.files, FileOf(last), CreatedBy(d.store, last).file);
  }

  ghost predicate MessagesGained(d: Data, initial: Store, messages: seq<ImportedMessage>) {
    Gained(d.store.messages.Keys, initial.messages.Keys, Keys(messages), d.tally.created)
  }

  lemma MessageRow(s: Store, m: ImportedMessage)
    ensures Persisted(s, m).messages.Keys == s.messages.Keys + {m.UniqueKey()}
  {
  }

  lemma MessageGain(d: Data, initial: Store, init: seq<ImportedMessage>, last: ImportedMessage)
    requires MessagesGained(d, initial, init)
    ensures MessagesGained(Persist(d, last), initial, init + [last])
  {
    KeysOne(init, last);
    MessageRow(d.store, last);
    GainedOne(d.store.messages.Keys, Persist(d, last).store.messages.Keys, initial.messages.Keys, Keys(init), Keys(init + [last]),
              d.tally.created, {last.UniqueKey()}, CreatedBy(d.store, last).message);
  }

  /** Each table gained the keys of the messages and no others, and its counter says how many. */
  ghost predicate CountsNewRows(d: Data, initial: Store, messages: seq<ImportedMessage>) {
    && MessagesGained(d, initial, messages) && d.tally.created + d.tally.updated == |messages|
    && UsersGained(d, initial, messages) && TopicsGained(d, initial, messages)
    && MediaGroupsGained(d, initial, messages) && FilesGained(d, initial, messages)
  }

  lemma CountedUsers(initial: Store, messages: seq<ImportedMessage>)
    ensures UsersGained(After(Data(initial, NoTally), messages), initial, messages)
  {
    forall d, init, last | UsersGained(d, initial, init) ensures UsersGained(Persist(d, last), initial, init + [last]) {
      UserGain(d, initial, init, last);
    }
    FoldKeeps(Persist, Data(initial, NoTally), messages, (d, done) => UsersGained(d, initial, done));
  }

  lemma CountedTopics(initial: Store, messages: seq<ImportedMessage>)
    ensures TopicsGained(After(Data(initial, NoTally), messages), initial, messages)
  {
    forall d, init, last | TopicsGained(d, initial, init) ensures TopicsGained(Persist(d, last), initial, init + [last]) {
      TopicGain(d, initial, init, last);
    }
    FoldKeeps(Persist, Data(initial, NoTally), messages, (d, done) => TopicsGained(d, initial, done));
  }

  lemma CountedMediaGroups(initial: Store, messages: seq<ImportedMessage>)
    ensures MediaGroupsGained(After(Data(initial, NoTally), messages), initial, messages)
  {
    forall d, init, last | MediaGroupsGained(d, initial, init) ensures MediaGroupsGained(Persist(d, last), initial, init + [last]) {
      MediaGroupGain(d, initial, init, last);
    }
    FoldKeeps(Persist, Data(initial, NoTally), messages, (d, done) => MediaGroupsGained(d, initial, done));
  }

  lemma CountedFiles(initial: Store, messages: seq<ImportedMessage>)
    ensures FilesGained(After(Data(initial, NoTally), messages), initial, messages)
  {
    forall d, init, last | FilesGained(d, initial, init) ensures FilesGained(Persist(d, last), initial, init + [last]) {
      FileGain(d, initial, init, last);
    }
    FoldKeeps(Persist, Data(initial, NoTally), messages, (d, done) => FilesGained(d, initial, done));
  }

  lemma CountedMessages(initial: Store, messages: seq<ImportedMessage>)
    ensures MessagesGained(After(Data(initial, NoTally), messages), initial, messages)
  {
    forall d, init, last | MessagesGained(d, initial, init) ensures MessagesGained(Persist(d, last), initial, init + [last]) {
      MessageGain(d, initial, init, last);
    }
    FoldKeeps(Persist, Data(initial, NoTally), messages, (d, done) => MessagesGained(d, initial, done));
  }

  lemma EachCounted(initial: Store, messages: seq<ImportedMessage>)
    ensures var t := After(Data(initial, NoTally), messages).tally; t.created + t.updated == |messages|
  {
    FoldKeeps(Persist, Data(initial, NoTally), messages, (d: Data, done) => d.tally.created + d.tally.updated == |done|);
  }

  /** Whatever the batches were, each counter is the number of rows its table gained. */
  lemma CountersCountNewRows(initial: Store, messages: seq<ImportedMessage>)
    ensures CountsNewRows(After(Data(initial, NoTally), messages), initial, messages)
  {
    EachCounted(initial, messages);
    CountedMessages(initial, messages);
    CountedUsers(initial, messages);
    CountedTopics(initial, messages);
    CountedMediaGroups(initial, messages);
    CountedFiles(initial, messages);
  }

  // ---------------------------------------------------------------- any number of calls

  function InitialRun(plan: ImportPlan): ImportRun {
    ImportRun(Running, Stats(plan.report.chatId, |plan.messages|, 0, 0, NoTally))
  }

  /** A stored run can only be continued with the plan it was started for. */
  predicate Compatible(run: ImportRun, plan: ImportPlan) {
    run.stats.chatId == plan.report.chatId && run.stats.planned == |plan.messages|
  }

  function CursorOf(run: ImportRun): Cursor {
    Cursor(run.stats.nextIndex, run.stats.batches)
  }

  /** The archive and the row of one import run. */
  datatype Moment = Moment(run: ImportRun, store: Store)
  {
    function Saved(): Data {
      Data(store, run.stats.tally)
    }
  }

  /** One call committed some batches; a run only succeeds once every message is in. */
  ghost predicate Call(plan: ImportPlan, size: nat, commits: nat, was: Moment, now: Moment) {
    && Advanced(Persist, plan.messages, size, commits, CursorOf(was.run), was.Saved(), CursorOf(now.run), now.Saved())
    && now.run.stats.chatId == was.run.stats.chatId && now.run.stats.planned == was.run.stats.planned
    && (now.run.status.Succeeded? ==> Reached(CursorOf(was.run), |plan.messages|, size, commits) == |plan.messages|)
  }

  /** Every batch holds a message. */
  ghost predicate NoEmptyBatch(plan: ImportPlan, size: nat, commits: nat, was: Moment) {
    commits > 0 ==> Reached(CursorOf(was.run), |plan.messages|, size, commits - 1) < |plan.messages|
  }

  /** The first transaction and so many batches commit. */
  ghost predicate AllCommit(fate: nat -> Fate, commits: nat) {
    forall j | 0 <= j <= commits :: fate(j).Commit?
  }

  lemma OneMoreCommits(fate: nat -> Fate, commits: nat)
    requires AllCommit(fate, commits) && fate(commits + 1).Commit?
    ensures AllCommit(fate, commits + 1)
  {
  }

  /** The run is under way: so many batches of the call, none of them empty, are in. */
  ghost predicate UnderWay(plan: ImportPlan, size: nat, commits: nat, was: Moment, now: Moment) {
    now.run.status.Running? && Call(plan, size, commits, was, now) && NoEmptyBatch(plan, size, commits, was)
  }

  ghost predicate Committed(plan: ImportPlan, start: nat, end: nat, was: Moment, now: Moment)
    requires start <= end <= |plan.messages|
  {
    && now.Saved() == After(was.Saved(), plan.messages[start..end])
    && now.run.status.Running?
    && now.run.stats == was.run.stats.(nextIndex := end, batches := was.run.stats.batches + 1, tally := now.run.stats.tally)
  }

  lemma NoCommitYet(plan: ImportPlan, size: nat, was: Moment)
    requires was.run.status.Running?
    ensures Reached(CursorOf(was.run), |plan.messages|, size, 0) == ResumePoint(CursorOf(was.run), |plan.messages|)
    ensures UnderWay(plan, size, 0, was, was)
  {
  }

  lemma OneMoreCommit(plan: ImportPlan, size: nat, commits: nat, was: Moment, now: Moment, next: Moment, end: nat)
    requires UnderWay(plan, size, commits, was, now)
    requires Reached(CursorOf(was.run), |plan.messages|, size, commits) < |plan.messages|
    requires end == NextStop(Reached(CursorOf(was.run), |plan.messages|, size, commits), |plan.messages|, size)
    requires Committed(plan, Reached(CursorOf(was.run), |plan.messages|, size, commits), end, now, next)
    ensures end == Reached(CursorOf(was.run), |plan.messages|, size, commits + 1)
    ensures UnderWay(plan, size, commits + 1, was, next)
  {
    BatchRun.OneMoreBatch(Persist, plan.messages, size, commits, CursorOf(was.run), was.Saved(), CursorOf(now.run), now.Saved(), end);
  }

  lemma SameProgress(plan: ImportPlan, size: nat, commits: nat, was: Moment, now: Moment, closed: Moment)
    requires Call(plan, size, commits, was, now) && closed.store == now.store && closed.run.stats == now.run.stats
    requires closed.run.status.Succeeded? ==> Reached(CursorOf(was.run), |plan.messages|, size, commits) == |plan.messages|
    ensures Call(plan, size, commits, was, closed)
  {
  }

  /** A history of calls: each may use its own batch size and stop after any number of batches. */
  ghost predicate Calls(plan: ImportPlan, initial: Store, history: seq<Moment>, sizes: seq<nat>, commits: seq<nat>) {
    && |history| == |sizes| + 1 == |commits| + 1
    && history[0] == Moment(InitialRun(plan), initial)
    && forall i | 0 <= i < |sizes| :: Call(plan, sizes[i], commits[i], history[i], history[i + 1])
  }

  /** What holds between any two calls, whatever has failed so far. */
  ghost predicate Consistent(plan: ImportPlan, initial: Store, m: Moment) {
    && Compatible(m.run, plan)
    && Exact(Persist, plan.messages, Data(initial, NoTally), CursorOf(m.run), m.Saved())
    && (m.run.status.Succeeded? ==> m.run.stats.nextIndex == |plan.messages|)
  }

  lemma {:induction false} CallsKeepConsistent(plan: ImportPlan, initial: Store, history: seq<Moment>, sizes: seq<nat>, commits: seq<nat>, i: nat)
    requires Calls(plan, initial, history, sizes, commits) && i < |history|
    ensures Consistent(plan, initial, history[i])
  {
    if i == 0 {
      assert plan.messages[..0] == [];
    } else {
      CallsKeepConsistent(plan, initial, history, sizes, commits, i - 1);
      var was, now := history[i - 1], history[i];
      assert Call(plan, sizes[i - 1], commits[i - 1], was, history[i - 1 + 1]);
      AdvancedKeepsExact(Persist, plan.messages, Data(initial, NoTally), sizes[i - 1], commits[i - 1],
                         CursorOf(was.run), was.Saved(), CursorOf(now.run), now.Saved());
    }
  }

  /** After any failures and restarts the archive is the first `nextIndex` planned messages
      persisted once each, in order, and every counter is the number of rows its table gained. */
  lemma ImportIsExactlyOnce(plan: ImportPlan, initial: Store, history: seq<Moment>, sizes: seq<nat>, commits: seq<nat>, i: nat)
    requires Calls(plan, initial, history, sizes, commits) && i < |history|
    ensures history[i].run.stats.nextIndex <= |plan.messages|
    ensures var done := plan.messages[..history[i].run.stats.nextIndex];
            && history[i].store == PersistedAll(initial, done)
            && CountsNewRows(history[i].Saved(), initial, done)
    ensures history[i].run.status.Succeeded? ==> history[i].run.stats.nextIndex == |plan.messages|
  {
    CallsKeepConsistent(plan, initial, history, sizes, commits, i);
    var done := plan.messages[..history[i].run.stats.nextIndex];
    assert history[i].Saved() == After(Data(initial, NoTally), done);
    AfterPersistsAll(Data(initial, NoTally), done);
    CountersCountNewRows(initial, done);
  }

  /** Batch sizes and interruptions leave no trace: two histories that succeeded agree on the
      archive and on every counter. */
  lemma SucceededRunsAgree(plan: ImportPlan, initial: Store,
                           history: seq<Moment>, sizes: seq<nat>, commits: seq<nat>,
                           other: seq<Moment>, otherSizes: seq<nat>, otherCommits: seq<nat>)
    requires Calls(plan, initial, history, sizes, commits) && history[|history| - 1].run.status.Succeeded?
    requires Calls(plan, initial, other, otherSizes, otherCommits) && other[|other| - 1].run.status.Succeeded?
    ensures history[|history| - 1].store == other[|other| - 1].store
    ensures history[|history| - 1].run.stats.tally == other[|other| - 1].run.stats.tally
  {
    CallsKeepConsistent(plan, initial, history, sizes, commits, |history| - 1);
    CallsKeepConsistent(plan, initial, other, otherSizes, otherCommits, |other| - 1);
    assert history[|history| - 1].Saved() == other[|other| - 1].Saved();
  }

  // ---------------------------------------------------------------- the transactions

  class Database {
    var runs: map<string, ImportRun>
    var store: Store

    constructor (initial: Store)
      ensures runs == map[] && store == initial
    {
      runs, store := map[], initial;
    }
  }

  /** All messages of one batch, inside one transaction. */
  method PersistBatch(d: Data, batch: seq<ImportedMessage>) returns (d': Data)
    ensures d' == After(d, batch)
  {
    d' := d;
    for k := 0 to |batch|
      invariant d' == After(d, batch[..k])
    {
      assert batch[..k + 1][..k] == batch[..k];
      var store, created := PersistMessage(d'.store, batch[k]);
      d' := Data(store, Recorded(d'.tally, created));
    }
    assert batch[..|batch|] == batch;
  }

  class TelegramImporter {
    const targetChatId: int
    const batchSize: nat

    constructor (targetChatId: int, batchSize: nat)
      requires 1 <= batchSize <= 1000
      ensures this.targetChatId == targetChatId && this.batchSize == batchSize
    {
      this.targetChatId, this.batchSize := targetChatId, batchSize;
    }

    /** Why a call is refused, in the order of the checks; only the last one needs the database. */
    function Refusal(fingerprint: string, expected: Option<string>, plan: ImportPlan): Option<string> {
      if expected.Some? && expected.value != fingerprint then Some("fingerprint mismatch")
      else if plan.report.chatId != targetChatId then Some("chat mismatch")
      else None
    }

    method Run(db: Database, fingerprint: string, expected: Option<string>, plan: ImportPlan, fate: nat -> Fate) returns (outcome: Outcome)
      requires 1 <= batchSize
      modifies db
      ensures expected.Some? && expected.value != fingerprint ==>
                outcome == Rejected("fingerprint mismatch") && db.runs == old(db.runs) && db.store == old(db.store)
      ensures (expected.None? || expected.value == fingerprint) && plan.report.chatId != targetChatId ==>
                outcome == Rejected("chat mismatch") && db.runs == old(db.runs) && db.store == old(db.store)
      ensures (expected.None? || expected.value == fingerprint) && plan.report.chatId == targetChatId ==>
                RunSpec(plan, fingerprint, fate, old(db.runs), old(db.store), outcome, db.runs, db.store)
    {
      if Refusal(fingerprint, expected, plan).Some? {
        return Rejected(Refusal(fingerprint, expected, plan).value);
      }
      if !fate(0).Commit? {
        return if fate(0).Raise? then Raised else Died;
      }
      var settled := PrepareRun(db, fingerprint, plan);
      if settled.Some? {
        return settled.value;
      }
      outcome := ProcessBatches(db, fingerprint, plan, fate);
    }

    /** The first transaction: finds the run or starts it, and says whether that settles the call. */
    method PrepareRun(db: Database, fingerprint: string, plan: ImportPlan) returns (settled: Option<Outcome>)
      modifies db
      ensures db.store == old(db.store)
      ensures var was := if fingerprint in old(db.runs) then old(db.runs)[fingerprint] else InitialRun(plan);
              if !Compatible(was, plan) then settled == Some(Rejected("stored run does not match")) && db.runs == old(db.runs)
              else if was.status.Succeeded? then
                settled == Some(AlreadyCompleted(was.stats, ResumePoint(CursorOf(was), |plan.messages|))) && db.runs == old(db.runs)
              else settled.None? && db.runs == old(db.runs)[fingerprint := was.(status := Running)]
    {
      if fingerprint in db.runs {
        var run := db.runs[fingerprint];
        if !Compatible(run, plan) {
          return Some(Rejected("stored run does not match"));
        }
        if run.status.Succeeded? {
          return Some(AlreadyCompleted(run.stats, ResumePoint(CursorOf(run), |plan.messages|)));
        }
        db.runs := db.runs[fingerprint := run.(status := Running)];
      } else {
        db.runs := db.runs[fingerprint := InitialRun(plan)];
      }
      return None;
    }

    /** One batch transaction: the messages, the counters and the cursor together. */
    method CommitBatch(db: Database, fingerprint: string, plan: ImportPlan, start: nat, end: nat)
      requires fingerprint in db.runs && start <= end <= |plan.messages|
      modifies db
      ensures fingerprint in db.runs && db.runs == old(db.runs)[fingerprint := db.runs[fingerprint]]
      ensures Committed(plan, start, end, Moment(old(db.runs)[fingerprint], old(db.store)), Moment(db.runs[fingerprint], db.store))
    {
      var stats := db.runs[fingerprint].stats;
      var saved := PersistBatch(Data(db.store, stats.tally), plan.messages[start..end]);
      stats := stats.(nextIndex := end, batches := stats.batches + 1, tally := saved.tally);
      db.store := saved.store;
      db.runs := db.runs[fingerprint := ImportRun(Running, stats)];
    }

    /** The batches from the cursor on, then the transaction that closes the run. */
    method ProcessBatches(db: Database, fingerprint: string, plan: ImportPlan, fate: nat -> Fate) returns (outcome: Outcome)
      requires 1 <= batchSize && fingerprint in db.runs && db.runs[fingerprint].status.Running?
      requires fate(0).Commit?
      modifies db
      ensures fingerprint in db.runs && db.runs == old(db.runs)[fingerprint := db.runs[fingerprint]]
      ensures Processed(plan, fate, Moment(old(db.runs)[fingerprint], old(db.store)), outcome, Moment(db.runs[fingerprint], db.store))
    {
      var resumedFrom := ResumePoint(CursorOf(db.runs[fingerprint]), |plan.messages|);
      ghost var was := Moment(db.runs[fingerprint], db.store);
      var commits;
      ghost var last;
      commits, last := CommitBatches(db, fingerprint, plan, fate, resumedFrom, was);
      CloseRun(db, fingerprint, fate(commits + 1), fate(commits + 2));
      SameProgress(plan, batchSize, commits, was, last, Moment(db.runs[fingerprint], db.store));
      outcome := match fate(commits + 1)
                 case Commit => Completed(db.runs[fingerprint].stats, resumedFrom)
                 case Raise => Raised
                 case Die => Died;
    }

    method CommitNext(db: Database, fingerprint: string, plan: ImportPlan, start: nat, ghost commits: nat, ghost was: Moment, ghost now: Moment)
      returns (end: nat, ghost next: Moment)
      requires 1 <= batchSize && fingerprint in db.runs && now == Moment(db.runs[fingerprint], db.store)
      requires UnderWay(plan, batchSize, commits, was, now)
      requires start == Reached(CursorOf(was.run), |plan.messages|, batchSize, commits) < |plan.messages|
      modifies db
      ensures db.runs == old(db.runs)[fingerprint := next.run] && db.store == next.store
      ensures start < end == Reached(CursorOf(was.run), |plan.messages|, batchSize, commits + 1)
      ensures UnderWay(plan, batchSize, commits + 1, was, next)
    {
      end := NextStop(start, |plan.messages|, batchSize);
      CommitBatch(db, fingerprint, plan, start, end);
      next := Moment(db.runs[fingerprint], db.store);
      OneMoreCommit(plan, batchSize, commits, was, now, next, end);
    }

    method CommitBatches(db: Database, fingerprint: string, plan: ImportPlan, fate: nat -> Fate, resumedFrom: nat, ghost was: Moment)
      returns (commits: nat, ghost now: Moment)
      requires 1 <= batchSize && fingerprint in db.runs && was == Moment(db.runs[fingerprint], db.store) && was.run.status.Running?
      requires fate(0).Commit? && resumedFrom == ResumePoint(CursorOf(was.run), |plan.messages|)
      modifies db
      ensures db.runs == old(db.runs)[fingerprint := now.run] && db.store == now.store
      ensures UnderWay(plan, batchSize, commits, was, now)
      ensures AllCommit(fate, commits)
      ensures fate(commits + 1).Commit? ==> Reached(CursorOf(was.run), |plan.messages|, batchSize, commits) == |plan.messages|
    {
      var start := resumedFrom;
      commits, now := 0, was;
      NoCommitYet(plan, batchSize, was);
      while start < |plan.messages| && fate(commits + 1).Commit?
        invariant start == Reached(CursorOf(was.run), |plan.messages|, batchSize, commits)
        invariant db.runs == old(db.runs)[fingerprint := now.run] && db.store == now.store
        invariant UnderWay(plan, batchSize, commits, was, now)
        invariant AllCommit(fate, commits)
        decreases |plan.messages| - start
      {
        start, now := CommitNext(db, fingerprint, plan, start, commits, was, now);
        OneMoreCommits(fate, commits);
        commits := commits + 1;
      }
    }

    /** The closing transaction; when it or a batch raised, one more that marks the run as failed. */
    method CloseRun(db: Database, fingerprint: string, closing: Fate, marking: Fate)
      requires fingerprint in db.runs && db.runs[fingerprint].status.Running?
      modifies db
      ensures db.store == old(db.store)
      ensures db.runs == old(db.runs)[fingerprint := old(db.runs)[fingerprint].(status := Closing(closing, marking))]
    {
      var status := Closing(closing, marking);
      db.runs := db.runs[fingerprint := db.runs[fingerprint].(status := status)];
    }

    function Closing(closing: Fate, marking: Fate): Status {
      match closing
      case Commit => Succeeded
      case Raise => if marking.Commit? then Failed else Running
      case Die => Running
    }

    /** Some batches were committed, and the first transaction that was not decides how the call ends. */
    ghost predicate Processed(plan: ImportPlan, fate: nat -> Fate, was: Moment, outcome: Outcome, now: Moment) {
      && was.run.stats.batches <= now.run.stats.batches
      && var commits := now.run.stats.batches - was.run.stats.batches;
      && Call(plan, batchSize, commits, was, now)
      && AllCommit(fate, commits)
      && NoEmptyBatch(plan, batchSize, commits, was)
      && match fate(commits + 1)
         case Commit => now.run.status.Succeeded? &&
                        outcome == Completed(now.run.stats, ResumePoint(CursorOf(was.run), |plan.messages|))
         case Raise => outcome == Raised && now.run.status == if fate(commits + 2).Commit? then Failed else Running
         case Die => outcome == Died && now.run.status == Running
    }

    /** A first transaction that does not commit, a stored run of another plan and a finished run
        change nothing; any other call continues the stored run or a new one, and no other run. */
    ghost predicate RunSpec(plan: ImportPlan, fingerprint: string, fate: nat -> Fate, runs: map<string, ImportRun>, store: Store,
                            outcome: Outcome, runs': map<string, ImportRun>, store': Store) {
      var was := if fingerprint in runs then runs[fingerprint] else InitialRun(plan);
      if !fate(0).Commit? then
        outcome == (if fate(0).Raise? then Raised else Died) && runs' == runs && store' == store
      else if !Compatible(was, plan) then
        outcome == Rejected("stored run does not match") && runs' == runs && store' == store
      else if was.status.Succeeded? then
        outcome == AlreadyCompleted(was.stats, ResumePoint(CursorOf(was), |plan.messages|)) && runs' == runs && store' == store
      else
        && fingerprint in runs' && runs' == runs[fingerprint := runs'[fingerprint]]
        && Processed(plan, fate, Moment(was.(status := Running), store), outcome, Moment(runs'[fingerprint], store'))
    }
  }

  /** A run that was stored for a plan of another chat or of another length is refused. */
  lemma OtherPlanIsRefused(importer: TelegramImporter, plan: ImportPlan, fingerprint: string, fate: nat -> Fate,
                           runs: map<string, ImportRun>, store: Store, outcome: Outcome, runs': map<string, ImportRun>, store': Store)
    requires importer.RunSpec(plan, fingerprint, fate, runs, store, outcome, runs', store') && fate(0).Commit?
    requires fingerprint in runs
    ensures outcome == Rejected("stored run does not match") <==>
            runs[fingerprint].stats.chatId != plan.report.chatId || runs[fingerprint].stats.planned != |plan.messages|
    ensures outcome.Rejected? || outcome.AlreadyCompleted? ==> runs' == runs && store' == store
  {
  }

  /** As many batches as the messages need. */
  predicate Enough(n: nat, size: nat, batches: nat) {
    n <= batches * size && (batches > 0 ==> (batches - 1) * size < n)
  }

  lemma OneCall(plan: ImportPlan, size: nat, commits: nat, store: Store, now: Moment)
    requires Call(plan, size, commits, Moment(InitialRun(plan), store), now) && now.run.status.Succeeded?
    requires NoEmptyBatch(plan, size, commits, Moment(InitialRun(plan), store))
    ensures now.run.stats.batches == commits && Enough(|plan.messages|, size, commits)
    ensures now.run.stats.chatId == plan.report.chatId && now.run.stats.planned == |plan.messages|
  {
  }

  lemma OneCallImports(plan: ImportPlan, size: nat, commits: nat, store: Store, now: Moment)
    requires Call(plan, size, commits, Moment(InitialRun(plan), store), now) && now.run.status.Succeeded?
    ensures now.store == PersistedAll(store, plan.messages) && now.run.stats.nextIndex == |plan.messages|
    ensures CountsNewRows(now.Saved(), store, plan.messages)
  {
    var was := Moment(InitialRun(plan), store);
    AdvancedKeepsExact(Persist, plan.messages, Data(store, NoTally), size, commits,
                       CursorOf(was.run), was.Saved(), CursorOf(now.run), now.Saved());
    assert plan.messages[..|plan.messages|] == plan.messages;
    AfterPersistsAll(Data(store, NoTally), plan.messages);
    CountersCountNewRows(store, plan.messages);
  }

  /** The first call for an export, when every transaction commits: every message is imported once, in as
      many batches as their number needs. */
  lemma FirstCallImportsAll(importer: TelegramImporter, plan: ImportPlan, fingerprint: string, fate: nat -> Fate,
                            runs: map<string, ImportRun>, store: Store, outcome: Outcome, runs': map<string, ImportRun>, store': Store)
    requires importer.RunSpec(plan, fingerprint, fate, runs, store, outcome, runs', store')
    requires fingerprint !in runs && forall j :: fate(j).Commit?
    ensures outcome.Completed? && outcome.resumedFrom == 0 && store' == PersistedAll(store, plan.messages)
    ensures runs' == runs[fingerprint := ImportRun(Succeeded, outcome.stats)]
    ensures outcome.stats.chatId == plan.report.chatId && outcome.stats.planned == outcome.stats.nextIndex == |plan.messages|
    ensures CountsNewRows(Data(store', outcome.stats.tally), store, plan.messages)
    ensures Enough(|plan.messages|, importer.batchSize, outcome.stats.batches)
  {
    var was, now := Moment(InitialRun(plan), store), Moment(runs'[fingerprint], store');
    assert was == Moment(InitialRun(plan).(status := Running), store);
    assert importer.Processed(plan, fate, was, outcome, now);
    AllCommitted(importer, plan, fate, was, outcome, now);
    OneCall(plan, importer.batchSize, now.run.stats.batches, store, now);
    OneCallImports(plan, importer.batchSize, now.run.stats.batches, store, now);
  }

  lemma AllCommitted(importer: TelegramImporter, plan: ImportPlan, fate: nat -> Fate, was: Moment, outcome: Outcome, now: Moment)
    requires importer.Processed(plan, fate, was, outcome, now) && forall j :: fate(j).Commit?
    ensures was.run.stats.batches <= now.run.stats.batches && now.run.status.Succeeded?
    ensures outcome == Completed(now.run.stats, ResumePoint(CursorOf(was.run), |plan.messages|))
    ensures Call(plan, importer.batchSize, now.run.stats.batches - was.run.stats.batches, was, now)
    ensures NoEmptyBatch(plan, importer.batchSize, now.run.stats.batches - was.run.stats.batches, was)
  {
  }

  // ---------------------------------------------------------------- successive calls on one database

  datatype Snap = Snap(runs: map<string, ImportRun>, store: Store)
  {
    /** The run of one export, which starts with its first call. */
    function At(fingerprint: string, plan: ImportPlan): Moment {
      Moment(if fingerprint in runs then runs[fingerprint] else InitialRun(plan), store)
    }
  }

  /** A call of `Run` by some importer: refused before it began, or as its contract says. */
  datatype Invocation = Invocation(importer: TelegramImporter, fate: nat -> Fate, outcome: Outcome)

  ghost predicate Invoked(plan: ImportPlan, fingerprint: string, was: Snap, inv: Invocation, now: Snap) {
    || (inv.outcome.Rejected? && now == was)
    || inv.importer.RunSpec(plan, fingerprint, inv.fate, was.runs, was.store, inv.outcome, now.runs, now.store)
  }

  ghost predicate Invocations(plan: ImportPlan, fingerprint: string, snaps: seq<Snap>, invs: seq<Invocation>) {
    && |snaps| == |invs| + 1 && fingerprint !in snaps[0].runs
    && forall i | 0 <= i < |invs| :: Invoked(plan, fingerprint, snaps[i], invs[i], snaps[i + 1])
  }

  lemma UnchangedIsCall(plan: ImportPlan, initial: Store, size: nat, m: Moment)
    requires Consistent(plan, initial, m)
    ensures Call(plan, size, 0, m, m)
  {
  }

  lemma InvokedIsCall(plan: ImportPlan, fingerprint: string, initial: Store, was: Snap, inv: Invocation, now: Snap) returns (commits: nat)
    requires Invoked(plan, fingerprint, was, inv, now) && Consistent(plan, initial, was.At(fingerprint, plan))
    ensures Call(plan, inv.importer.batchSize, commits, was.At(fingerprint, plan), now.At(fingerprint, plan))
  {
    var before, after := was.At(fingerprint, plan), now.At(fingerprint, plan);
    if now == was {
      commits := 0;
      UnchangedIsCall(plan, initial, inv.importer.batchSize, before);
    } else {
      commits := after.run.stats.batches - before.run.stats.batches;
    }
  }

  function Moments(plan: ImportPlan, fingerprint: string, snaps: seq<Snap>): seq<Moment> {
    seq(|snaps|, i requires 0 <= i < |snaps| => snaps[i].At(fingerprint, plan))
  }

  /** Whatever happens to the calls, and whatever batch sizes they use, they form a history. */
  lemma {:induction false} InvocationsAreCalls(plan: ImportPlan, fingerprint: string, snaps: seq<Snap>, invs: seq<Invocation>)
    returns (sizes: seq<nat>, commits: seq<nat>)
    requires Invocations(plan, fingerprint, snaps, invs)
    ensures Calls(plan, snaps[0].store, Moments(plan, fingerprint, snaps), sizes, commits)
    decreases |invs|
  {
    var history := Moments(plan, fingerprint, snaps);
    if invs == [] {
      sizes, commits := [], [];
    } else {
      var n := |invs| - 1;
      var before := Moments(plan, fingerprint, snaps[..n + 1]);
      sizes, commits := InvocationsAreCalls(plan, fingerprint, snaps[..n + 1], invs[..n]);
      CallsKeepConsistent(plan, snaps[0].store, before, sizes, commits, n);
      assert Invoked(plan, fingerprint, snaps[n], invs[n], snaps[n + 1]);
      var last := InvokedIsCall(plan, fingerprint, snaps[0].store, snaps[n], invs[n], snaps[n + 1]);
      OneMoreCall(plan, snaps[0].store, before, sizes, commits, history[n + 1], invs[n].importer.batchSize, last);
      assert before + [history[n + 1]] == history;
      sizes, commits := sizes + [invs[n].importer.batchSize], commits + [last];
    }
  }

  lemma OneMoreCall(plan: ImportPlan, initial: Store, history: seq<Moment>, sizes: seq<nat>, commits: seq<nat>, now: Moment, size: nat, last: nat)
    requires Calls(plan, initial, history, sizes, commits) && Call(plan, size, last, history[|sizes|], now)
    ensures Calls(plan, initial, history + [now], sizes + [size], commits + [last])
  {
    var (all, steps, counts) := (history + [now], sizes + [size], commits + [last]);
    forall i | 0 <= i < |steps| ensures Call(plan, steps[i], counts[i], all[i], all[i + 1]) {
      if i < |sizes| {
        assert Call(plan, sizes[i], commits[i], history[i], history[i + 1]);
      }
    }
  }

  /** So after any calls of `Run` on a database that did not know the export, its archive is the first
      `nextIndex` planned messages persisted once each onto what it held at the start. */
  lemma InvocationsAreExactlyOnce(plan: ImportPlan, fingerprint: string, snaps: seq<Snap>, invs: seq<Invocation>, i: nat)
    requires Invocations(plan, fingerprint, snaps, invs) && i < |snaps|
    ensures var run := snaps[i].At(fingerprint, plan).run;
            && run.stats.nextIndex <= |plan.messages|
            && snaps[i].store == PersistedAll(snaps[0].store, plan.messages[..run.stats.nextIndex])
            && run.stats.tally.created + run.stats.tally.updated == run.stats.nextIndex
            && (run.status.Succeeded? ==> run.stats.nextIndex == |plan.messages|)
  {
    var sizes, commits := InvocationsAreCalls(plan, fingerprint, snaps, invs);
    ImportIsExactlyOnce(plan, snaps[0].store, Moments(plan, fingerprint, snaps), sizes, commits, i);
  }
}
