/**
 Redis, the conversations table and the two queues, as the services see them:
 whole-value get and set, keyed upsert, and first-in first-out queues.
 */
module Stores {
  import opened Wrappers
  import opened Contracts

  /** The contents of all of them at one moment. */
  datatype Backing = Backing(
    redis: map<Id, Chat>,
    rows: map<Id, Row>,
    chatEvents: seq<ChatRequest>,
    acceptEvents: seq<AcceptEvent>)

  class Store {
    var redis: map<Id, Chat>
    var rows: map<Id, Row>
    var chatEvents: seq<ChatRequest>
    var acceptEvents: seq<AcceptEvent>

    /** Every value written to Redis so far, oldest first. */
    ghost var writes: seq<(Id, Chat)>

    constructor ()
      ensures Value() == Backing(map[], map[], [], []) && writes == []
    {
      redis, rows, chatEvents, acceptEvents := map[], map[], [], [];
      writes := [];
    }

    function Value(): Backing
      reads this
    {
      Backing(redis, rows, chatEvents, acceptEvents)
    }

    method Get(id: Id) returns (chat: Option<Chat>)
      ensures chat == Lookup(redis, id)
    {
      chat := Lookup(redis, id);
    }

    method Set(id: Id, chat: Chat)
      modifies `redis, `writes
      ensures redis == old(redis)[id := chat]
      ensures writes == old(writes) + [(id, chat)]
    {
      redis := redis[id := chat];
      writes := writes + [(id, chat)];
    }

    method Delete(id: Id)
      modifies `redis
      ensures redis == old(redis) - {id}
    {
      redis := redis - {id};
    }

    method PublishChat(event: ChatRequest)
      modifies `chatEvents
      ensures chatEvents == old(chatEvents) + [event]
    {
      chatEvents := chatEvents + [event];
    }

    method PublishAccept(event: AcceptEvent)
      modifies `acceptEvents
      ensures acceptEvents == old(acceptEvents) + [event]
    {
      acceptEvents := acceptEvents + [event];
    }
  }
}
