/**
 The backend's chat service: a conversation lives in Redis while it is active
 and in the conversations table once it is stopped.
 */
module BackendChat {
  import opened Wrappers
  import opened Contracts
  import opened Stores

  /** Widths of the `title` and `username` columns. */
  const TITLE_WIDTH := 500
  const USERNAME_WIDTH := 255

  datatype ChatError = NotFound | ValueTooLong

  predicate Fits(text: Option<string>, width: nat) {
    text.Some? ==> |text.value| <= width
  }

  // ----- what each operation does, on values -----

  /** Row first, then Redis, then the event; a rejected row stops all three. */
  function NewChat(b: Backing, id: Id, message: string, username: Option<string>): Result<Backing, ChatError> {
    if !Fits(Some(message), TITLE_WIDTH) || !Fits(username, USERNAME_WIDTH) then Err(ValueTooLong)
    else
      var messages := [UserMessage(message)];
      Ok(b.(
         rows := b.rows[id := Row(Some(message), username, messages)],
         redis := b.redis[id := Chat(id, Some(message), messages, IsActive, IsThinking)],
         chatEvents := b.chatEvents + [ChatRequest(id, message, [])]))
  }

  /** Title and messages of a conversation: from Redis if it is there, else from its row. */
  function Existing(b: Backing, id: Id): Option<(Option<string>, seq<Message>)> {
    if id in b.redis then Some((b.redis[id].title, b.redis[id].messages))
    else if id in b.rows then Some((b.rows[id].title, b.rows[id].messages))
    else None
  }

  function ContinueChat(b: Backing, id: Id, message: string): Result<Backing, ChatError> {
    match Existing(b, id)
    case None => Err(NotFound)
    case Some((title, messages)) =>
      Ok(b.(
         redis := b.redis[id := Chat(id, title, messages + [UserMessage(message)], IsActive, IsThinking)],
         chatEvents := b.chatEvents + [ChatRequest(id, message, messages)]))
  }

  /** Keyed upsert of title and messages; an absent title leaves the column as it was. */
  function SaveRow(b: Backing, id: Id, title: Option<string>, messages: seq<Message>): Result<Backing, ChatError> {
    if !Fits(title, TITLE_WIDTH) then Err(ValueTooLong)
    else
      var row := if id in b.rows then b.rows[id] else Row(None, None, []);
      Ok(b.(rows := b.rows[id := row.(title := if title.Some? then title else row.title, messages := messages)]))
  }

  function StopChat(b: Backing, id: Id): Result<Backing, ChatError> {
    if id !in b.redis then Err(NotFound)
    else
      match SaveRow(b, id, b.redis[id].title, b.redis[id].messages)
      case Err(e) => Err(e)
      case Ok(saved) => Ok(saved.(redis := saved.redis - {id}))
  }

  /** What a read returns. */
  function View(b: Backing, id: Id): Result<Chat, ChatError> {
    if id in b.redis then Ok(b.redis[id])
    else if id in b.rows then Ok(Chat(id, b.rows[id].title, b.rows[id].messages, IsStopped, HasReplied))
    else Err(NotFound)
  }

  /** What a read leaves behind: a chat that has replied is copied to its row, if it has one. */
  function AfterGet(b: Backing, id: Id): Backing {
    if id in b.redis && b.redis[id].agentStatus.HasReplied? && id in b.rows
    then b.(rows := b.rows[id := b.rows[id].(messages := b.redis[id].messages)])
    else b
  }

  /** The log of a conversation, wherever it lives. */
  function Log(b: Backing, id: Id): seq<Message> {
    if id in b.redis then b.redis[id].messages
    else if id in b.rows then b.rows[id].messages
    else []
  }

  // ----- the service itself -----

  class ChatService {
    const store: Store

    constructor (store: Store)
      ensures this.store == store
    {
      this.store := store;
    }

    /** The fresh id is a parameter. */
    method Create(id: Id, message: string, username: Option<string>) returns (r: Result<Id, ChatError>)
      modifies store
      ensures var after := NewChat(old(store.Value()), id, message, username);
              && store.Value() == (if after.Ok? then after.value else old(store.Value()))
              && r == (if after.Ok? then Ok(id) else Err(after.error))
    {
      var messages := [UserMessage(message)];
      if |message| > TITLE_WIDTH || (username.Some? && |username.value| > USERNAME_WIDTH) {
        return Err(ValueTooLong);
      }
      store.rows := store.rows[id := Row(Some(message), username, messages)];
      store.Set(id, Chat(id, Some(message), messages, IsActive, IsThinking));
      store.PublishChat(ChatRequest(id, message, []));
      return Ok(id);
    }

    method Continue(id: Id, message: string) returns (r: Result<(), ChatError>)
      modifies store
      ensures var after := ContinueChat(old(store.Value()), id, message);
              && store.Value() == (if after.Ok? then after.value else old(store.Value()))
              && r == (if after.Ok? then Ok(()) else Err(after.error))
    {
      var existing: seq<Message>;
      var title: Option<string>;
      var cached := store.Get(id);
      if cached.Some? {
        existing, title := cached.value.messages, cached.value.title;
      } else {
        if id !in store.rows {
          return Err(NotFound);
        }
        existing, title := store.rows[id].messages, store.rows[id].title;
      }
      store.Set(id, Chat(id, title, existing + [UserMessage(message)], IsActive, IsThinking));
      store.PublishChat(ChatRequest(id, message, existing));
      return Ok(());
    }

    method Stop(id: Id) returns (r: Result<(), ChatError>)
      modifies store
      ensures var after := StopChat(old(store.Value()), id);
              && store.Value() == (if after.Ok? then after.value else old(store.Value()))
              && r == (if after.Ok? then Ok(()) else Err(after.error))
    {
      var current := store.Get(id);
      if current.None? {
        return Err(NotFound);
      }
      var chat := current.value;
      if chat.title.Some? && |chat.title.value| > TITLE_WIDTH {
        return Err(ValueTooLong);
      }
      var row := if id in store.rows then store.rows[id] else Row(None, None, []);
      if chat.title.Some? {
        row := row.(title := chat.title);
      }
      store.rows := store.rows[id := row.(messages := chat.messages)];
      store.Delete(id);
      return Ok(());
    }

    /** A read always returns the conversation's log and never changes it. */
    method Read(id: Id) returns (r: Result<Chat, ChatError>)
      modifies store`rows
      ensures r == View(old(store.Value()), id)
      ensures store.Value() == AfterGet(old(store.Value()), id)
      ensures r.Ok? ==> r.value.messages == Log(store.Value(), id) == Log(old(store.Value()), id)
    {
      var cached := store.Get(id);
      if cached.Some? {
        if cached.value.agentStatus.HasReplied? && id in store.rows {
          store.rows := store.rows[id := store.rows[id].(messages := cached.value.messages)];
        }
        return Ok(cached.value);
      }
      if id !in store.rows {
        return Err(NotFound);
      }
      var row := store.rows[id];
      return Ok(Chat(id, row.title, row.messages, IsStopped, HasReplied));
    }
  }

  // ----- what a read shows after each operation -----

  /** Nothing of any other conversation has changed. */
  ghost predicate OthersSame(before: Backing, after: Backing, id: Id) {
    forall other | other != id ::
      && Lookup(after.redis, other) == Lookup(before.redis, other)
      && Lookup(after.rows, other) == Lookup(before.rows, other)
  }

  /** A new chat is active, thinks about its one message, which is also its title, and belongs to its user. */
  lemma NewChatIsSeen(b: Backing, id: Id, message: string, username: Option<string>)
    ensures NewChat(b, id, message, username).Ok? <==>
            |message| <= 500 && (username.Some? ==> |username.value| <= 255)
    ensures NewChat(b, id, message, username).Ok? ==>
              var after := NewChat(b, id, message, username).value;
              var sent := Message(User, Text(message), None, None);
              && View(after, id) == Ok(Chat(id, Some(message), [sent], IsActive, IsThinking))
              && id in after.rows && after.rows[id] == Row(Some(message), username, [sent])
              && after.chatEvents == b.chatEvents + [ChatRequest(id, message, [])]
              && after.acceptEvents == b.acceptEvents
              && OthersSame(b, after, id)
  {
  }

  /** A continue can be made of whatever can be read, and shows that chat as active and with one message more. */
  lemma ContinueIsSeen(b: Backing, id: Id, message: string)
    requires id in b.redis ==> b.redis[id].id == id
    ensures ContinueChat(b, id, message).Ok? <==> View(b, id).Ok?
    ensures ContinueChat(b, id, message).Ok? ==>
              var after, was := ContinueChat(b, id, message).value, View(b, id).value;
              var sent := Message(User, Text(message), None, None);
              && View(after, id) ==
                 Ok(was.(messages := was.messages + [sent], status := IsActive, agentStatus := IsThinking))
              && after.rows == b.rows
              && after.chatEvents == b.chatEvents + [ChatRequest(id, message, was.messages)]
              && after.acceptEvents == b.acceptEvents
              && OthersSame(b, after, id)
  {
  }

  /** A stopped chat shows the same messages as stopped and replied, and still belongs to its user. */
  lemma StopIsSeen(b: Backing, id: Id)
    requires id in b.redis ==> b.redis[id].id == id
    ensures StopChat(b, id).Ok? <==>
            id in b.redis && (b.redis[id].title.Some? ==> |b.redis[id].title.value| <= 500)
    ensures StopChat(b, id).Ok? ==>
              var after, was := StopChat(b, id).value, b.redis[id];
              && id !in after.redis && id in after.rows
              && View(after, id).Ok?
              && View(after, id).value ==
                 was.(title := View(after, id).value.title, status := IsStopped, agentStatus := HasReplied)
              && (was.title.Some? ==> View(after, id).value.title == was.title)
              && (was.title.None? && id in b.rows ==> View(after, id).value.title == b.rows[id].title)
              && after.rows[id].username == (if id in b.rows then b.rows[id].username else None)
              && after.chatEvents == b.chatEvents && after.acceptEvents == b.acceptEvents
              && OthersSame(b, after, id)
  {
  }

  /** What a read shows, and that it copies a chat to its row exactly if the agent has replied. */
  lemma ReadIsSeen(b: Backing, id: Id)
    ensures id in b.redis ==> View(b, id) == Ok(b.redis[id])
    ensures id !in b.redis && id in b.rows ==>
              View(b, id) == Ok(Chat(id, b.rows[id].title, b.rows[id].messages, IsStopped, HasReplied))
    ensures id !in b.redis && id !in b.rows ==> View(b, id) == Err(NotFound)
    ensures var after := AfterGet(b, id);
            && after.redis == b.redis && after.rows.Keys == b.rows.Keys && OthersSame(b, after, id)
            && after.chatEvents == b.chatEvents && after.acceptEvents == b.acceptEvents
            && (id in b.rows ==>
                  after.rows[id] == b.rows[id].(messages :=
                    if id in b.redis && b.redis[id].agentStatus == HasReplied then b.redis[id].messages
                    else b.rows[id].messages))
  {
  }

  // ----- eviction cannot be noticed -----

  /** Stopping moves the log to the row and changes no other conversation. */
  lemma StopKeepsLogs(b: Backing, id: Id, other: Id)
    requires StopChat(b, id).Ok?
    ensures var after := StopChat(b, id).value;
            && id !in after.redis && id in after.rows
            && Log(after, other) == Log(b, other)
            && after.chatEvents == b.chatEvents && after.acceptEvents == b.acceptEvents
  {
  }

  /**
   Stop followed by continue leaves the same Redis value, the same log and the
   same event as a continue of the live conversation, whenever the row carries
   the live title.
   */
  lemma StopIsUnnoticed(b: Backing, id: Id, message: string)
    requires StopChat(b, id).Ok?
    requires id in b.rows && b.rows[id].title == b.redis[id].title
    ensures var stopped := StopChat(b, id).value;
            var live, reloaded := ContinueChat(b, id, message), ContinueChat(stopped, id, message);
            && live.Ok? && reloaded.Ok?
            && reloaded.value.redis == live.value.redis
            && reloaded.value.chatEvents == live.value.chatEvents
            && Log(reloaded.value, id) == Log(b, id) + [UserMessage(message)]
            && View(stopped, id).Ok? && View(stopped, id).value.messages == b.redis[id].messages
  {
    var stopped := StopChat(b, id).value;
    assert Existing(stopped, id) == Existing(b, id);
    var live := ContinueChat(b, id, message).value;
    assert stopped.redis[id := live.redis[id]] == live.redis;
  }

  // ----- why stops and reads must not overlap other calls -----

  /**
   If a continue runs between the read and the write of a stop, the row gets the
   messages read before and the key is deleted: the user's message is lost, in
   every conversation, although both calls succeed and its event is published.
   */
  lemma OverlappingStopLosesMessage(b: Backing, id: Id, message: string)
    requires id in b.redis && Fits(b.redis[id].title, TITLE_WIDTH)
    ensures var read := b.redis[id];
            var continued := ContinueChat(b, id, message);
            && continued.Ok?
            && var saved := SaveRow(continued.value, id, read.title, read.messages);
            && saved.Ok?
            && var final := saved.value.(redis := saved.value.redis - {id});
            && Log(continued.value, id) == read.messages + [UserMessage(message)]
            && Log(final, id) == read.messages
            && !Extends(Log(continued.value, id), Log(final, id))
            && final.chatEvents == b.chatEvents + [ChatRequest(id, message, read.messages)]
  {
  }

  /**
   The copy that a read leaves to the background can also come too late: if the chat
   has gone on and been stopped before the row is written, everything after the read is lost.
   */
  lemma LateCopyLosesTurns(read: Backing, b: Backing, id: Id)
    requires id in read.redis && read.redis[id].agentStatus.HasReplied?
    requires StopChat(b, id).Ok? && |b.redis[id].messages| > |read.redis[id].messages|
    ensures var stopped := StopChat(b, id).value;
            var late := stopped.(rows := stopped.rows[id := stopped.rows[id].(messages := read.redis[id].messages)]);
            && Log(stopped, id) == Log(b, id)
            && Log(late, id) == read.redis[id].messages
            && !Extends(Log(b, id), Log(late, id))
  {
    ExtendsAt(Log(b, id), read.redis[id].messages);
  }
}
