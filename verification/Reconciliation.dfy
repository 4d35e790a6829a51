/** Checking after an import that every planned message has its row, search document, file and
    reply link. */
module Reconciliation {
  import opened Wrappers
  import opened ImportPlanner
  import opened Archive

  datatype Evidence = Evidence(planned: nat, archived: nat, documents: nat, filesExpected: nat, files: nat,
                               repliesChecked: nat, replyMismatches: nat)
  {
    predicate Complete() {
      archived == planned && documents == planned && files == filesExpected && replyMismatches == 0
    }
  }

  const ChunkSize := 400

  /** A dictionary by message id: a later message replaces an earlier one. */
  function ById(messages: seq<ImportedMessage>): map<int, ImportedMessage> {
    if messages == [] then map[]
    else
      var last := messages[|messages| - 1];
      ById(messages[..|messages| - 1])[last.messageId := last]
  }

  function KeysOf(chatId: int, ids: set<int>): set<Key> {
    set id | id in ids :: (chatId, id)
  }

  function WithFile(planned: map<int, ImportedMessage>): set<int> {
    set id | id in planned && planned[id].filePath.Some?
  }

  function Replies(planned: map<int, ImportedMessage>): set<int> {
    set id | id in planned && planned[id].replyTo.Some?
  }

  function MessagesWithFiles(s: Store): set<Key> {
    set f | f in s.files :: f.0
  }

  function Mismatched(s: Store, chatId: int, planned: map<int, ImportedMessage>): set<int> {
    set id | id in Replies(planned) && (chatId, id) in s.messages && s.messages[(chatId, id)].replyTo != planned[id].replyTo
  }

  /** Look keys up in a table, a bounded chunk at a time. */
  method SelectIn(keys: seq<Key>, table: set<Key>) returns (found: set<Key>)
    ensures found == (set k | k in keys) * table
  {
    found := {};
    var start := 0;
    while start < |keys|
      invariant 0 <= start <= |keys|
      invariant found == (set k | k in keys[..start]) * table
    {
      var end := if start + ChunkSize <= |keys| then start + ChunkSize else |keys|;
      var chunk := keys[start..end];
      assert keys[..end] == keys[..start] + chunk;
      found := found + set k | k in chunk && k in table;
      start := end;
    }
    assert keys[..start] == keys;
  }

  lemma KeysOfMore(chatId: int, ids: set<int>, id: int)
    ensures KeysOf(chatId, ids + {id}) == KeysOf(chatId, ids) + {(chatId, id)}
  {
  }

  method CollectPlanned(chatId: int, messages: seq<ImportedMessage>) returns (planned: map<int, ImportedMessage>, keys: seq<Key>)
    ensures planned == ById(messages)
    ensures (set k | k in keys) == KeysOf(chatId, planned.Keys)
  {
    planned, keys := map[], [];
    for i := 0 to |messages|
      invariant planned == ById(messages[..i])
      invariant (set k | k in keys) == KeysOf(chatId, planned.Keys)
    {
      var m := messages[i];
      assert messages[..i + 1][..i] == messages[..i];
      KeysOfMore(chatId, planned.Keys, m.messageId);
      ghost var before := keys;
      if m.messageId !in planned {
        keys := keys + [(chatId, m.messageId)];
        assert (set k | k in keys) == (set k | k in before) + {(chatId, m.messageId)};
      } else {
        assert planned.Keys + {m.messageId} == planned.Keys;
      }
      planned := planned[m.messageId := m];
    }
    assert messages[..|messages|] == messages;
  }

  /** What is missing, as sets of keys; the counts of the evidence are their sizes. */
  ghost predicate Counted(s: Store, chatId: int, planned: map<int, ImportedMessage>, e: Evidence) {
    var all := KeysOf(chatId, planned.Keys);
    var archived := all * s.messages.Keys;
    && e.planned == |planned|
    && e.archived == |archived|
    && e.documents == |archived * s.documents|
    && e.filesExpected == |WithFile(planned)|
    && e.files == |KeysOf(chatId, WithFile(planned)) * archived * MessagesWithFiles(s)|
    && e.repliesChecked == |KeysOf(chatId, Replies(planned)) * archived|
    && e.replyMismatches == |Mismatched(s, chatId, planned)|
  }

  method Reconcile(s: Store, chatId: int, messages: seq<ImportedMessage>) returns (e: Evidence)
    ensures Counted(s, chatId, ById(messages), e)
  {
    var planned, keys := CollectPlanned(chatId, messages);
    var archived := SelectIn(keys, s.messages.Keys);
    var internal := Listed(archived);
    var indexed := SelectIn(internal, s.documents);
    var filed := SelectIn(internal, MessagesWithFiles(s));
    var expected := KeysOf(chatId, WithFile(planned)) * archived;
    assert expected * filed == expected * MessagesWithFiles(s);
    e := Evidence(|planned|, |archived|, |indexed|, |WithFile(planned)|, |expected * filed|,
                  |KeysOf(chatId, Replies(planned)) * archived|, |Mismatched(s, chatId, planned)|);
  }

  method Listed(keys: set<Key>) returns (list: seq<Key>)
    ensures (set k | k in list) == keys
  {
    list := [];
    var rest := keys;
    while rest != {}
      invariant (set k | k in list) + rest == keys
    {
      var k :| k in rest;
      list, rest := list + [k], rest - {k};
    }
  }

  lemma {:induction false} KeysOfSize(chatId: int, ids: set<int>)
    ensures |KeysOf(chatId, ids)| == |ids|
  {
    if KeysOf(chatId, ids) == {} {
      assert forall id | id in ids :: (chatId, id) in KeysOf(chatId, ids);
      assert ids == {};
    } else {
      var key :| key in KeysOf(chatId, ids);
      var id := key.1;
      KeysOfSize(chatId, ids - {id});
      assert KeysOf(chatId, ids) == KeysOf(chatId, ids - {id}) + {(chatId, id)};
    }
  }

  lemma SubsetOfSameSize<T>(a: set<T>, b: set<T>)
    requires a <= b
    ensures |a| == |b| <==> a == b
    ensures |a| <= |b|
  {
    assert |b| == |a| + |b - a| by {
      assert b == a + (b - a);
    }
    if |a| == |b| {
      assert |b - a| == 0;
      assert a == b;
    }
  }

  /** One planned message has everything it should have. */
  ghost predicate Kept(s: Store, chatId: int, m: ImportedMessage) {
    var key := (chatId, m.messageId);
    && key in s.messages && key in s.documents
    && (m.filePath.Some? ==> key in MessagesWithFiles(s))
    && (m.replyTo.Some? ==> s.messages[key].replyTo == m.replyTo)
  }

  /** The counts agree exactly when nothing is missing from any planned message. */
  lemma CompleteIff(s: Store, chatId: int, planned: map<int, ImportedMessage>, e: Evidence)
    requires Counted(s, chatId, planned, e)
    requires forall id | id in planned :: planned[id].messageId == id
    ensures e.Complete() <==> forall id | id in planned :: Kept(s, chatId, planned[id])
  {
    var all := KeysOf(chatId, planned.Keys);
    var archived := all * s.messages.Keys;
    var filed := KeysOf(chatId, WithFile(planned));
    KeysOfSize(chatId, planned.Keys);
    KeysOfSize(chatId, WithFile(planned));
    SubsetOfSameSize(archived, all);
    SubsetOfSameSize(archived * s.documents, all);
    SubsetOfSameSize(filed * archived * MessagesWithFiles(s), filed);
    if e.Complete() {
      forall id | id in planned ensures Kept(s, chatId, planned[id]) {
        assert (chatId, id) in all && (chatId, id) in archived * s.documents;
        if planned[id].filePath.Some? {
          assert (chatId, id) in filed;
        }
        assert id !in Mismatched(s, chatId, planned);
      }
    }
    if forall id | id in planned :: Kept(s, chatId, planned[id]) {
      AllKept(s, chatId, planned);
    }
  }

  lemma AllKept(s: Store, chatId: int, planned: map<int, ImportedMessage>)
    requires forall id | id in planned :: planned[id].messageId == id
    requires forall id | id in planned :: Kept(s, chatId, planned[id])
    ensures KeysOf(chatId, planned.Keys) <= s.messages.Keys * s.documents
    ensures KeysOf(chatId, WithFile(planned)) <= MessagesWithFiles(s)
    ensures KeysOf(chatId, WithFile(planned)) <= KeysOf(chatId, planned.Keys)
    ensures Mismatched(s, chatId, planned) == {}
  {
    forall id | id in Replies(planned) ensures id !in Mismatched(s, chatId, planned) {
      assert Kept(s, chatId, planned[id]);
    }
  }

  lemma {:induction false} ByIdHolds(messages: seq<ImportedMessage>)
    requires KeysDistinct(messages)
    requires forall m, n | m in messages && n in messages :: m.chatId == n.chatId
    ensures forall id | id in ById(messages) :: ById(messages)[id].messageId == id && ById(messages)[id] in messages
    ensures forall m | m in messages :: m.messageId in ById(messages) && ById(messages)[m.messageId] == m
  {
    if messages != [] {
      var init, last := messages[..|messages| - 1], messages[|messages| - 1];
      assert messages == init + [last];
      ByIdHolds(init);
      forall m | m in init ensures m.messageId != last.messageId {
        assert m.UniqueKey() != last.UniqueKey();
        assert m in messages && last in messages;
      }
    }
  }

  /** A live row of the initial archive that answers another message than the export says. */
  ghost predicate RepliesElsewhere(initial: Store, m: ImportedMessage) {
    && m.replyTo.Some? && m.UniqueKey() in initial.messages
    && initial.messages[m.UniqueKey()].source.Live?
    && initial.messages[m.UniqueKey()].replyTo.Some? && initial.messages[m.UniqueKey()].replyTo != m.replyTo
  }

  lemma KeptAfterImport(initial: Store, messages: seq<ImportedMessage>, m: ImportedMessage)
    requires KeysDistinct(messages) && m in messages
    ensures Kept(PersistedAll(initial, messages), m.chatId, m) <==> !RepliesElsewhere(initial, m)
  {
    PersistedAllEffect(initial, messages, m);
    var s := PersistedAll(initial, messages);
    if m.filePath.Some? {
      assert (m.UniqueKey(), m.filePath.value) in s.files;
    }
  }

  /** After a completed import the evidence is complete exactly when no planned message was already
      a live row with another reply target. */
  lemma CompletedImportReconciles(initial: Store, chatId: int, messages: seq<ImportedMessage>, e: Evidence)
    requires KeysDistinct(messages) && forall m | m in messages :: m.chatId == chatId
    requires Counted(PersistedAll(initial, messages), chatId, ById(messages), e)
    ensures e.Complete() <==> forall m | m in messages :: !RepliesElsewhere(initial, m)
  {
    var s := PersistedAll(initial, messages);
    ByIdHolds(messages);
    CompleteIff(s, chatId, ById(messages), e);
    forall m | m in messages ensures Kept(s, chatId, m) <==> !RepliesElsewhere(initial, m) {
      KeptAfterImport(initial, messages, m);
    }
    forall id | id in ById(messages) ensures ById(messages)[id] in messages { }
    forall m | m in messages ensures m.messageId in ById(messages) && ById(messages)[m.messageId] == m { }
  }
}
