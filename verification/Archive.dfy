/** The canonical archive and the upsert of one imported message. Rows are identified by their
    natural keys instead of surrogate ids. */
module Archive {
  import opened Wrappers
  import opened ImportPlanner
  import opened Numbers

  datatype Source = Export | Live

  datatype Stored = Stored(
    source: Source, messageType: string, sender: Option<int>, senderName: Option<string>,
    topic: Option<int>, mediaGroup: Option<string>, replyTo: Option<int>, forwarded: Option<string>,
    text: Option<string>, caption: Option<string>, entities: Option<string>, sentAt: int, editedAt: Option<int>)

  datatype User = User(displayName: Option<string>, firstSeen: int, lastSeen: int)

  datatype File = File(kind: string, mimeType: Option<string>, fileName: Option<string>, size: Option<nat>)

  datatype Store = Store(
    messages: map<Key, Stored>,
    users: map<int, User>,
    topics: map<(int, int), int>,
    mediaGroups: map<(int, string), int>,
    files: map<(Key, string), File>,
    documents: set<Key>)

  datatype Created = Created(message: bool, user: bool, topic: bool, mediaGroup: bool, file: bool)

  function NonEmpty(s: string): Option<string> {
    if s == "" then None else Some(s)
  }

  function FileKind(messageType: string): string {
    if messageType == "file" then "document"
    else if messageType == "video_file" then "video"
    else if |messageType| <= 24 then messageType else messageType[..24]
  }

  // ---------------------------------------------------------------- related rows

  function UserOf(m: ImportedMessage): set<int> {
    if m.senderId.Some? then {m.senderId.value} else {}
  }

  function TopicOf(m: ImportedMessage): set<(int, int)> {
    if m.topicId.Some? then {(m.chatId, m.topicId.value)} else {}
  }

  function MediaGroupOf(m: ImportedMessage): set<(int, string)> {
    if m.mediaGroupId.Some? then {(m.chatId, m.mediaGroupId.value)} else {}
  }

  function FileOf(m: ImportedMessage): set<(Key, string)> {
    if m.filePath.Some? then {(m.UniqueKey(), m.filePath.value)} else {}
  }

  function UpsertUser(users: map<int, User>, m: ImportedMessage): (r: map<int, User>)
    ensures r.Keys == users.Keys + UserOf(m)
  {
    if m.senderId.None? then users
    else
      var id := m.senderId.value;
      if id !in users then users[id := User(m.senderName, m.sentAt, m.sentAt)]
      else
        var u := users[id];
        var name := if m.senderName.Some? && m.senderName.value != "" && (u.displayName.None? || u.displayName.value == "")
                    then m.senderName else u.displayName;
        users[id := User(name, Min(u.firstSeen, m.sentAt), Max(u.lastSeen, m.sentAt))]
  }

  function UpsertTopic(topics: map<(int, int), int>, m: ImportedMessage): (r: map<(int, int), int>)
    ensures r.Keys == topics.Keys + TopicOf(m)
  {
    if m.topicId.None? then topics
    else
      var key := (m.chatId, m.topicId.value);
      topics[key := if key in topics then Min(topics[key], m.sentAt) else m.sentAt]
  }

  function UpsertMediaGroup(groups: map<(int, string), int>, m: ImportedMessage): (r: map<(int, string), int>)
    ensures r.Keys == groups.Keys + MediaGroupOf(m)
  {
    if m.mediaGroupId.None? then groups
    else
      var key := (m.chatId, m.mediaGroupId.value);
      groups[key := if key in groups then Min(groups[key], m.sentAt) else m.sentAt]
  }

  function UpsertFile(files: map<(Key, string), File>, m: ImportedMessage): (r: map<(Key, string), File>)
    ensures r.Keys == files.Keys + FileOf(m)
  {
    if m.filePath.None? then files
    else files[(m.UniqueKey(), m.filePath.value) := File(FileKind(m.messageType), m.mimeType, m.fileName, m.fileSize)]
  }

  // ---------------------------------------------------------------- the message itself

  function Body(m: ImportedMessage): (Option<string>, Option<string>) {
    if m.filePath.Some? then (None, NonEmpty(m.text)) else (NonEmpty(m.text), None)
  }

  function Forward(m: ImportedMessage): Option<string> {
    if m.forwardedFrom.Some? && m.forwardedFrom.value != "" then m.forwardedFrom else None
  }

  /** A new row, or one that came from an export, takes the imported facts. */
  function Replaced(existing: Option<Stored>, m: ImportedMessage): Stored {
    var (text, caption) := Body(m);
    Stored(Export, m.messageType, m.senderId, m.senderName,
           if m.topicId.Some? then m.topicId else if existing.Some? then existing.value.topic else None,
           if m.mediaGroupId.Some? then m.mediaGroupId else if existing.Some? then existing.value.mediaGroup else None,
           m.replyTo, Forward(m), text, caption, None, m.sentAt, m.editedAt)
  }

  /** A live row keeps what it knows and only has its gaps filled. */
  function Filled(live: Stored, m: ImportedMessage): Stored {
    var (text, caption) := if live.text.None? && live.caption.None? then Body(m) else (live.text, live.caption);
    live.(topic := if live.topic.None? then m.topicId else live.topic,
          sender := if live.sender.None? then m.senderId else live.sender,
          mediaGroup := if live.mediaGroup.None? then m.mediaGroupId else live.mediaGroup,
          replyTo := if live.replyTo.None? then m.replyTo else live.replyTo,
          senderName := if live.senderName.None? then m.senderName else live.senderName,
          text := text, caption := caption,
          forwarded := if live.forwarded.None? then Forward(m) else live.forwarded,
          editedAt := if live.editedAt.None? then m.editedAt else live.editedAt)
  }

  function Merged(existing: Option<Stored>, m: ImportedMessage): Stored {
    if existing.Some? && existing.value.source.Live? then Filled(existing.value, m) else Replaced(existing, m)
  }

  function Lookup(s: Store, key: Key): Option<Stored> {
    if key in s.messages then Some(s.messages[key]) else None
  }

  /** A live message never loses a fact to a historical export. */
  lemma LiveRowsKeepTheirFacts(live: Stored, m: ImportedMessage)
    requires live.source.Live?
    ensures var r := Merged(Some(live), m);
            && r.source.Live? && r.messageType == live.messageType && r.sentAt == live.sentAt && r.entities == live.entities
            && (live.sender.Some? ==> r.sender == live.sender)
            && (live.topic.Some? ==> r.topic == live.topic)
            && (live.mediaGroup.Some? ==> r.mediaGroup == live.mediaGroup)
            && (live.replyTo.Some? ==> r.replyTo == live.replyTo)
            && (live.forwarded.Some? ==> r.forwarded == live.forwarded)
            && (live.editedAt.Some? ==> r.editedAt == live.editedAt)
            && (live.text.Some? || live.caption.Some? ==> r.text == live.text && r.caption == live.caption)
    ensures Merged(Some(Merged(Some(live), m)), m) == Merged(Some(live), m)
  {
  }

  function Persisted(s: Store, m: ImportedMessage): Store {
    Store(s.messages[m.UniqueKey() := Merged(Lookup(s, m.UniqueKey()), m)],
          UpsertUser(s.users, m), UpsertTopic(s.topics, m), UpsertMediaGroup(s.mediaGroups, m),
          UpsertFile(s.files, m), s.documents + {m.UniqueKey()})
  }

  function CreatedBy(s: Store, m: ImportedMessage): Created {
    Created(m.UniqueKey() !in s.messages,
            m.senderId.Some? && m.senderId.value !in s.users,
            m.topicId.Some? && (m.chatId, m.topicId.value) !in s.topics,
            m.mediaGroupId.Some? && (m.chatId, m.mediaGroupId.value) !in s.mediaGroups,
            m.filePath.Some? && (m.UniqueKey(), m.filePath.value) !in s.files)
  }

  /** Upsert one message inside the caller's transaction. */
  method PersistMessage(s: Store, m: ImportedMessage) returns (s': Store, created: Created)
    ensures s' == Persisted(s, m)
    ensures created == CreatedBy(s, m)
  {
    var userCreated := m.senderId.Some? && m.senderId.value !in s.users;
    var users := UpsertUser(s.users, m);
    var topicCreated := m.topicId.Some? && (m.chatId, m.topicId.value) !in s.topics;
    var topics := UpsertTopic(s.topics, m);
    var groupCreated := m.mediaGroupId.Some? && (m.chatId, m.mediaGroupId.value) !in s.mediaGroups;
    var groups := UpsertMediaGroup(s.mediaGroups, m);
    var key := m.UniqueKey();
    var existing := Lookup(s, key);
    var messages := s.messages[key := Merged(existing, m)];
    var fileCreated := m.filePath.Some? && (key, m.filePath.value) !in s.files;
    var files := UpsertFile(s.files, m);
    s' := Store(messages, users, topics, groups, files, s.documents + {key});
    created := Created(existing.None?, userCreated, topicCreated, groupCreated, fileCreated);
  }

  /** What persisting one message does, and that it leaves every other message alone. */
  lemma PersistedEffect(s: Store, m: ImportedMessage)
    ensures Persisted(s, m).messages == s.messages[m.UniqueKey() := Merged(Lookup(s, m.UniqueKey()), m)]
    ensures Persisted(s, m).documents == s.documents + {m.UniqueKey()}
    ensures Persisted(s, m).files.Keys == s.files.Keys + FileOf(m)
  {
  }

  function PersistedAll(s: Store, messages: seq<ImportedMessage>): Store {
    if messages == [] then s else Persisted(PersistedAll(s, messages[..|messages| - 1]), messages[|messages| - 1])
  }

  lemma {:induction false} OtherKeysUntouched(s: Store, messages: seq<ImportedMessage>, key: Key)
    requires key !in Keys(messages)
    ensures Lookup(PersistedAll(s, messages), key) == Lookup(s, key)
  {
    if messages != [] {
      var init, last := messages[..|messages| - 1], messages[|messages| - 1];
      assert last.UniqueKey() in Keys(messages);
      assert forall m | m in init :: m in messages;
      OtherKeysUntouched(s, init, key);
      PersistedEffect(PersistedAll(s, init), last);
    }
  }

  /** With distinct keys, each planned message ends up merged into what the archive held for its
      key at the start, indexed and with its file recorded. */
  lemma {:induction false} PersistedAllEffect(s: Store, messages: seq<ImportedMessage>, m: ImportedMessage)
    requires KeysDistinct(messages) && m in messages
    ensures Lookup(PersistedAll(s, messages), m.UniqueKey()) == Some(Merged(Lookup(s, m.UniqueKey()), m))
    ensures m.UniqueKey() in PersistedAll(s, messages).documents
    ensures FileOf(m) <= PersistedAll(s, messages).files.Keys
  {
    var init, last := messages[..|messages| - 1], messages[|messages| - 1];
    assert messages == init + [last];
    PersistedEffect(PersistedAll(s, init), last);
    if m in init {
      PersistedAllEffect(s, init, m);
    } else {
      assert last.UniqueKey() !in Keys(init);
      OtherKeysUntouched(s, init, m.UniqueKey());
    }
  }

  // ---------------------------------------------------------------- what the archive then says

  /** The row of a message the import created, or found as an export row, in the message's own fields:
      sender, times, type, reply and forward are the message's, a non-empty text is the text without a
      file and the caption with one, and a topic or album once known is kept. */
  lemma ImportedRow(s: Store, messages: seq<ImportedMessage>, m: ImportedMessage)
    requires KeysDistinct(messages) && m in messages
    requires (m.chatId, m.messageId) in s.messages ==> s.messages[(m.chatId, m.messageId)].source == Export
    ensures (m.chatId, m.messageId) in PersistedAll(s, messages).messages
    ensures var row := PersistedAll(s, messages).messages[(m.chatId, m.messageId)];
            && row.source == Export && row.messageType == m.messageType
            && row.sender == m.senderId && row.senderName == m.senderName
            && row.sentAt == m.sentAt && row.editedAt == m.editedAt && row.replyTo == m.replyTo && row.entities == None
            && (m.forwardedFrom == None || m.forwardedFrom == Some("") ==> row.forwarded == None)
            && (m.forwardedFrom.Some? && m.forwardedFrom.value != "" ==> row.forwarded == m.forwardedFrom)
            && (m.text == "" ==> row.text == None && row.caption == None)
            && (m.text != "" && m.filePath.None? ==> row.text == Some(m.text) && row.caption == None)
            && (m.text != "" && m.filePath.Some? ==> row.text == None && row.caption == Some(m.text))
            && (m.topicId.Some? ==> row.topic == m.topicId) && (m.mediaGroupId.Some? ==> row.mediaGroup == m.mediaGroupId)
            && (m.topicId.None? ==> row.topic == if (m.chatId, m.messageId) in s.messages then s.messages[(m.chatId, m.messageId)].topic else None)
            && (m.mediaGroupId.None? ==>
                  row.mediaGroup == if (m.chatId, m.messageId) in s.messages then s.messages[(m.chatId, m.messageId)].mediaGroup else None)
  {
    PersistedAllEffect(s, messages, m);
  }

  /** A live row is only filled where it knew nothing: each gap takes the message's fact, and a missing
      body takes the text, as text without a file and as caption with one. */
  lemma FilledRow(s: Store, messages: seq<ImportedMessage>, m: ImportedMessage)
    requires KeysDistinct(messages) && m in messages
    requires (m.chatId, m.messageId) in s.messages && s.messages[(m.chatId, m.messageId)].source == Live
    ensures (m.chatId, m.messageId) in PersistedAll(s, messages).messages
    ensures var (live, row) := (s.messages[(m.chatId, m.messageId)], PersistedAll(s, messages).messages[(m.chatId, m.messageId)]);
            && row.source == Live && row.messageType == live.messageType && row.sentAt == live.sentAt && row.entities == live.entities
            && row.sender == (if live.sender == None then m.senderId else live.sender)
            && row.senderName == (if live.senderName == None then m.senderName else live.senderName)
            && row.topic == (if live.topic == None then m.topicId else live.topic)
            && row.mediaGroup == (if live.mediaGroup == None then m.mediaGroupId else live.mediaGroup)
            && row.replyTo == (if live.replyTo == None then m.replyTo else live.replyTo)
            && row.editedAt == (if live.editedAt == None then m.editedAt else live.editedAt)
            && (live.forwarded.Some? ==> row.forwarded == live.forwarded)
            && (live.forwarded.None? && m.forwardedFrom.Some? && m.forwardedFrom.value != "" ==> row.forwarded == m.forwardedFrom)
            && (live.forwarded.None? && (m.forwardedFrom.None? || m.forwardedFrom.value == "") ==> row.forwarded == None)
            && (live.text.Some? || live.caption.Some? || m.text == "" ==> row.text == live.text && row.caption == live.caption)
            && (live.text.None? && live.caption.None? && m.text != "" && m.filePath.None? ==> row.text == Some(m.text) && row.caption == None)
            && (live.text.None? && live.caption.None? && m.text != "" && m.filePath.Some? ==> row.text == None && row.caption == Some(m.text))
  {
    PersistedAllEffect(s, messages, m);
  }

  /** The file row of a planned message carries its facts, under the kind the bot uses for its type. */
  lemma {:induction false} ImportedFile(s: Store, messages: seq<ImportedMessage>, m: ImportedMessage)
    requires KeysDistinct(messages) && m in messages && m.filePath.Some?
    ensures var files := PersistedAll(s, messages).files;
            var key := ((m.chatId, m.messageId), m.filePath.value);
            && key in files
            && files[key].mimeType == m.mimeType && files[key].fileName == m.fileName && files[key].size == m.fileSize
            && (m.messageType == "file" ==> files[key].kind == "document")
            && (m.messageType == "video_file" ==> files[key].kind == "video")
            && (m.messageType != "file" && m.messageType != "video_file" ==>
                  files[key].kind == if |m.messageType| <= 24 then m.messageType else m.messageType[..24])
  {
    var init, last := messages[..|messages| - 1], messages[|messages| - 1];
    assert messages == init + [last];
    if m in init {
      ImportedFile(s, init, m);
      assert last.UniqueKey() != m.UniqueKey() by {
        var i :| 0 <= i < |init| && init[i] == m;
        assert messages[i] == m && messages[|messages| - 1] == last;
      }
    }
  }

  /** Users are seen from the earliest to the latest of their messages, before and in the import. */
  lemma {:induction false} ImportedUser(s: Store, messages: seq<ImportedMessage>, id: int)
    requires id in s.users || exists m | m in messages :: m.senderId == Some(id)
    ensures id in PersistedAll(s, messages).users
    ensures var u := PersistedAll(s, messages).users[id];
            && (forall m | m in messages && m.senderId == Some(id) :: u.firstSeen <= m.sentAt <= u.lastSeen)
            && (id in s.users ==> u.firstSeen <= s.users[id].firstSeen && s.users[id].lastSeen <= u.lastSeen)
            && ((id in s.users && u.firstSeen == s.users[id].firstSeen) || exists m | m in messages :: m.senderId == Some(id) && m.sentAt == u.firstSeen)
            && ((id in s.users && u.lastSeen == s.users[id].lastSeen) || exists m | m in messages :: m.senderId == Some(id) && m.sentAt == u.lastSeen)
  {
    if messages != [] {
      var init, last := messages[..|messages| - 1], messages[|messages| - 1];
      assert messages == init + [last];
      assert forall m :: m in messages <==> m in init || m == last;
      if id in s.users || exists m | m in init :: m.senderId == Some(id) {
        ImportedUser(s, init, id);
      } else {
        NoSuchUser(s, init, id);
      }
    }
  }

  lemma {:induction false} NoSuchUser(s: Store, messages: seq<ImportedMessage>, id: int)
    requires id !in s.users && forall m | m in messages :: m.senderId != Some(id)
    ensures id !in PersistedAll(s, messages).users
  {
    if messages != [] {
      NoSuchUser(s, messages[..|messages| - 1], id);
    }
  }

  /** Topics date from the earliest message in them. */
  lemma {:induction false} ImportedTopic(s: Store, messages: seq<ImportedMessage>, key: (int, int))
    requires key in s.topics || exists m | m in messages :: m.topicId.Some? && (m.chatId, m.topicId.value) == key
    ensures key in PersistedAll(s, messages).topics
    ensures var at := PersistedAll(s, messages).topics[key];
            && (forall m | m in messages && m.topicId.Some? && (m.chatId, m.topicId.value) == key :: at <= m.sentAt)
            && (key in s.topics ==> at <= s.topics[key])
            && ((key in s.topics && at == s.topics[key]) || exists m | m in messages :: m.topicId.Some? && (m.chatId, m.topicId.value) == key && m.sentAt == at)
  {
    if messages != [] {
      var init, last := messages[..|messages| - 1], messages[|messages| - 1];
      assert messages == init + [last];
      assert forall m :: m in messages <==> m in init || m == last;
      if key in s.topics || exists m | m in init :: m.topicId.Some? && (m.chatId, m.topicId.value) == key {
        ImportedTopic(s, init, key);
      } else {
        NoSuchTopic(s, init, key);
      }
    }
  }

  lemma {:induction false} NoSuchTopic(s: Store, messages: seq<ImportedMessage>, key: (int, int))
    requires key !in s.topics && forall m | m in messages :: !(m.topicId.Some? && (m.chatId, m.topicId.value) == key)
    ensures key !in PersistedAll(s, messages).topics
  {
    if messages != [] {
      NoSuchTopic(s, messages[..|messages| - 1], key);
    }
  }

  /** So do albums. */
  lemma {:induction false} ImportedAlbum(s: Store, messages: seq<ImportedMessage>, key: (int, string))
    requires key in s.mediaGroups || exists m | m in messages :: m.mediaGroupId.Some? && (m.chatId, m.mediaGroupId.value) == key
    ensures key in PersistedAll(s, messages).mediaGroups
    ensures var at := PersistedAll(s, messages).mediaGroups[key];
            && (forall m | m in messages && m.mediaGroupId.Some? && (m.chatId, m.mediaGroupId.value) == key :: at <= m.sentAt)
            && (key in s.mediaGroups ==> at <= s.mediaGroups[key])
            && ((key in s.mediaGroups && at == s.mediaGroups[key]) || exists m | m in messages :: m.mediaGroupId.Some? && (m.chatId, m.mediaGroupId.value) == key && m.sentAt == at)
  {
    if messages != [] {
      var init, last := messages[..|messages| - 1], messages[|messages| - 1];
      assert messages == init + [last];
      assert forall m :: m in messages <==> m in init || m == last;
      if key in s.mediaGroups || exists m | m in init :: m.mediaGroupId.Some? && (m.chatId, m.mediaGroupId.value) == key {
        ImportedAlbum(s, init, key);
      } else {
        NoSuchAlbum(s, init, key);
      }
    }
  }

  lemma {:induction false} NoSuchAlbum(s: Store, messages: seq<ImportedMessage>, key: (int, string))
    requires key !in s.mediaGroups && forall m | m in messages :: !(m.mediaGroupId.Some? && (m.chatId, m.mediaGroupId.value) == key)
    ensures key !in PersistedAll(s, messages).mediaGroups
  {
    if messages != [] {
      NoSuchAlbum(s, messages[..|messages| - 1], key);
    }
  }

  predicate Named(name: Option<string>) {
    name.Some? && name.value != ""
  }

  /** The first non-empty name among a user's messages. */
  function NameGiven(messages: seq<ImportedMessage>, id: int): (r: Option<string>)
    ensures r.Some? ==> Named(r) && exists m | m in messages :: m.senderId == Some(id) && m.senderName == r
    ensures r.None? ==> forall m | m in messages && m.senderId == Some(id) :: !Named(m.senderName)
  {
    if messages == [] then None
    else
      var before := NameGiven(messages[..|messages| - 1], id);
      var last := messages[|messages| - 1];
      assert forall m :: m in messages <==> m in messages[..|messages| - 1] || m == last;
      if before.None? && last.senderId == Some(id) && Named(last.senderName) then last.senderName else before
  }

  /** A user's name is never replaced once there is one; without one, the first non-empty name is taken. */
  lemma {:induction false} ImportedName(s: Store, messages: seq<ImportedMessage>, id: int)
    requires id in s.users
    ensures id in PersistedAll(s, messages).users
    ensures PersistedAll(s, messages).users[id].displayName ==
            if Named(s.users[id].displayName) || NameGiven(messages, id).None? then s.users[id].displayName else NameGiven(messages, id)
  {
    if messages != [] {
      ImportedName(s, messages[..|messages| - 1], id);
    }
  }

  /** A user the archive did not know gets the name of the first message, empty or not. */
  lemma FirstName(s: Store, m: ImportedMessage)
    requires m.senderId.Some? && m.senderId.value !in s.users
    ensures Persisted(s, m).users[m.senderId.value] == User(m.senderName, m.sentAt, m.sentAt)
  {
  }
}
