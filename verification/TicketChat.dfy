/**
 The ticket-agent's side of a conversation: it loads the chat without `node`,
 lets its graph create the items, and closes the turn with one reply.
 */
module TicketChat {
  import opened Wrappers
  import opened Contracts
  import opened TurnLog
  import opened Stores
  import opened ArchitectChat

  /** What the extract node found: the ids of the created epic and tickets. */
  datatype Extracted = Extracted(epicId: string, ticketIds: seq<string>)

  // ----- on values -----

  /** A chat as the ticket-agent reads it: its message type has no `node`. */
  function Projected(chat: Chat): Chat {
    chat.(messages := EraseAll(chat.messages))
  }

  function TicketContent(error: Option<string>, result: Option<Extracted>): Content {
    if Truthy(error) then Text("Error creating tickets: " + error.value)
    else if result.Some? then FinalReply(result.value.epicId, result.value.ticketIds)
    else Text("Ticket creation produced no result.")
  }

  function TicketReply(error: Option<string>, result: Option<Extracted>): Message {
    Message(Agent, TicketContent(error, result), Some(HasReplied), None)
  }

  /** The whole chat as the ticket-agent saves it at the end. */
  function TurnClosed(chat: Chat, error: Option<string>, result: Option<Extracted>): Chat {
    Replied(chat, TicketReply(error, result))
  }

  /** The last state of a stream of states, if any, decides the result. */
  function ResultOf(states: seq<Option<Extracted>>): Option<Extracted> {
    if states == [] then None else states[|states| - 1]
  }

  /**
   The save closes an open turn and extends the log apart from `node`, but hides
   every earlier plan from the architect-agent.
   */
  lemma TicketSaveClosesTurn(chat: Chat, error: Option<string>, result: Option<Extracted>)
    requires Scan(chat.messages) == Open
    ensures var saved := TurnClosed(Projected(chat), error, result);
            && Scan(saved.messages) == Closed
            && Extends(chat.messages, saved.messages) && |saved.messages| == |chat.messages| + 1
            && IsReplyMessage(saved.messages[|chat.messages|])
            && LatestPlan(saved.messages).None?
            && saved.agentStatus == HasReplied
  {
    var erased, reply := EraseAll(chat.messages), TicketReply(error, result);
    ScanErased(chat.messages);
    ScanAppend(erased, reply);
    ExtendsAt(chat.messages, erased + [reply]);
    ErasedHidesPlans(chat.messages);
    LatestPlanSkips(erased, reply);
  }

  /** The ticket-agent reads everything of a chat but `node`, and saves it back as it was. */
  lemma ProjectedKeepsRest(chat: Chat)
    ensures var read := Projected(chat);
            && read == chat.(messages := read.messages) && |read.messages| == |chat.messages|
            && forall i | 0 <= i < |chat.messages| ::
                 && read.messages[i].actor == chat.messages[i].actor
                 && read.messages[i].content == chat.messages[i].content
                 && read.messages[i].agentStatus == chat.messages[i].agentStatus
                 && read.messages[i].node == None
  {
    ErasedKeepsRest(chat.messages);
  }

  /**
   What the user is told at the end: the error, if it has a text; else the ids that the
   last state of the stream carries; else that there are none.
   */
  lemma ReplyTellsLastState(chat: Chat, states: seq<Option<Extracted>>, error: Option<string>)
    ensures var saved := TurnClosed(chat, error, ResultOf(states));
            var reply := saved.messages[|chat.messages|];
            && saved == chat.(messages := chat.messages + [reply], agentStatus := HasReplied)
            && (error.Some? && error.value != "" ==>
                  reply.content == Text("Error creating tickets: " + error.value))
            && (error == None || error == Some("") ==>
                  reply.content ==
                  if states == [] || states[|states| - 1] == None then Text("Ticket creation produced no result.")
                  else FinalReply(states[|states| - 1].value.epicId, states[|states| - 1].value.ticketIds))
  {
  }

  // ----- the service -----

  class TicketService {
    const store: Store

    constructor (store: Store)
      ensures this.store == store
    {
      this.store := store;
    }

    method LoadChat(id: Id, failure: Option<string>) returns (r: Result<ChatObject, RunError>)
      ensures failure.Some? ==> r == Err(RedisFailed(failure.value))
      ensures failure.None? && id !in store.redis ==> r == Err(ConversationNotFound)
      ensures failure.None? && id in store.redis ==>
                r.Ok? && fresh(r.value) && r.value.Value() == Projected(store.redis[id])
    {
      if failure.Some? {
        return Err(RedisFailed(failure.value));
      }
      var raw := store.Get(id);
      if raw.None? {
        return Err(ConversationNotFound);
      }
      var chatObj := new ChatObject(Projected(raw.value));
      return Ok(chatObj);
    }

    method AppendReplyMessage(
      id: Id, chatObj: ChatObject, error: Option<string>, finalReply: Option<Extracted>, failure: Option<string>)
      returns (raised: Option<string>)
      modifies chatObj`messages, chatObj`agentStatus, store`redis, store`writes
      ensures raised == failure
      ensures chatObj.Value() == TurnClosed(old(chatObj.Value()), error, finalReply)
      ensures store.redis == if failure.None? then old(store.redis)[id := chatObj.Value()] else old(store.redis)
      ensures store.writes == old(store.writes) + if failure.None? then [(id, chatObj.Value())] else []
    {
      var content: Content;
      if error.Some? && error.value != "" {
        content := Text("Error creating tickets: " + error.value);
      } else if finalReply.Some? {
        content := FinalReply(finalReply.value.epicId, finalReply.value.ticketIds);
      } else {
        content := Text("Ticket creation produced no result.");
      }
      chatObj.messages := chatObj.messages + [Message(Agent, content, Some(HasReplied), None)];
      chatObj.agentStatus := HasReplied;
      if failure.None? {
        store.Set(id, chatObj.Value());
      }
      return failure;
    }

    /**
     `states` are the results the graph's states carry, in order, and `error` the
     exception that ended the stream, if one did; `load` and `last` are those that the
     accesses to Redis raise. Only one value is written, at the end.
     */
    method Execute(
      event: AcceptEvent, states: seq<Option<Extracted>>, error: Option<string>,
      load: Option<string>, last: Option<string>)
      returns (r: Result<(), RunError>)
      modifies store`redis, store`writes
      ensures load.Some? || last.Some? || event.conversationId !in old(store.redis) ==>
                && r == Err(if load.Some? then RedisFailed(load.value)
                            else if event.conversationId !in old(store.redis) then ConversationNotFound
                            else RedisFailed(last.value))
                && store.redis == old(store.redis) && store.writes == old(store.writes)
      ensures load.None? && last.None? && event.conversationId in old(store.redis) ==>
                var id := event.conversationId;
                var saved := TurnClosed(Projected(old(store.redis)[id]), error, ResultOf(states));
                && r.Ok?
                && store.redis == old(store.redis)[id := saved]
                && store.writes == old(store.writes) + [(id, saved)]
      ensures load.None? && last.None? && event.conversationId in old(store.redis) && !Truthy(error) && states != [] ==>
                var messages := store.redis[event.conversationId].messages;
                && |messages| == |old(store.redis)[event.conversationId].messages| + 1
                && messages[|messages| - 1].content ==
                   match states[|states| - 1]
                   case Some(x) => FinalReply(x.epicId, x.ticketIds)
                   case None => Text("Ticket creation produced no result.")
    {
      var id := event.conversationId;
      var loaded := LoadChat(id, load);
      if loaded.Err? {
        return Err(loaded.error);
      }
      var finalState: Option<Option<Extracted>> := None;
      for i := 0 to |states|
        invariant finalState == if i == 0 then None else Some(states[i - 1])
      {
        finalState := Some(states[i]);
      }
      var reply := if finalState.Some? then finalState.value else None;
      var raised := AppendReplyMessage(id, loaded.value, error, reply, last);
      return if raised.Some? then Err(RedisFailed(raised.value)) else Ok(());
    }
  }
}
