/**
 The hand-off protocol: any number of conversations, each written by the
 backend, by concurrent runs of the architect-agent and by the ticket-agent,
 over two queues and without locks. One step is what happens between two
 awaits; steps interleave freely.
 */
module HandOff {
  import opened Wrappers
  import opened Contracts
  import opened Stores
  import opened BackendChat
  import opened ArchitectGraph
  import opened ArchitectLog
  import opened ArchitectChat
  import opened TicketChat

  /** A run of the architect-agent, from its event to its last write. */
  datatype Task =
    /** Spawned, the chat not yet read. */
    | Started(request: ChatRequest)
    /** The chat was read; the thinking mark is not yet written. */
    | Fetched(request: ChatRequest, chat: Chat)
    /** Everything logged so far is saved. */
    | Working(request: ChatRequest, chat: Chat, visits: seq<Visit>)
    /** The last visit is logged in the private copy only. */
    | Unsaved(request: ChatRequest, chat: Chat, visits: seq<Visit>)
    /** The reply is in the private copy only. */
    | Replying(request: ChatRequest, chat: Chat, visits: seq<Visit>)

  /** The event that the ticket-agent is working on; it takes one at a time. */
  datatype TicketTask =
    | TicketPicked(event: AcceptEvent)
    | TicketLoaded(event: AcceptEvent, chat: Chat)

  /**
   `seen` are the conversations whose client has seen the latest reply.
   `erased` and `failed` are auxiliary records: how long each log was when the
   ticket-agent last saved it, and the conversations whose turn was dropped because
   an access to Redis failed.
   */
  datatype System = System(
    store: Backing,
    tasks: map<nat, Task>,
    ticket: Option<TicketTask>,
    seen: set<Id>,
    erased: map<Id, nat>,
    failed: set<Id>)

  const INITIAL := System(Backing(map[], map[], [], []), map[], None, {}, map[], {})

  datatype Action =
    | Create(id: Id, message: string, username: Option<string>)
    | Continue(id: Id, message: string)
    | Stop(id: Id)
    | Read(id: Id)
    | Poll(id: Id)
    | Spawn(task: nat)
    | Fetch(task: nat)
    | MarkThinking(task: nat)
    | RunNext(task: nat, answer: Answer)
    | Save(task: nat)
    | SaveFails(task: nat, error: string)
    | NodeFails(task: nat, error: string)
    | Finish(task: nat)
    | WriteReply(task: nat)
    /** The load, the thinking mark or the last write raises; the run ends there. */
    | RunFails(task: nat)
    | PickAccept
    | LoadForTickets
    | CloseTurn(failure: Option<string>, result: Option<Extracted>)
    /** The load or the save raises; the event is done with. */
    | TicketFails

  /** A read of the conversation would show that the agent has replied. */
  predicate ShowsReply(b: Backing, id: Id) {
    View(b, id).Ok? && View(b, id).value.agentStatus.HasReplied?
  }

  /** No run of the architect-agent is working on `id`. */
  predicate NoRun(s: System, id: Id) {
    forall t | t in s.tasks :: s.tasks[t].request.conversationId != id
  }

  /**
   When a step can happen. Four of the conditions are assumptions about the
   environment: fresh ids are unused, a client continues or stops only after it
   has seen the latest reply, an accept event is delivered only after the run that
   published it is over, and that run's save does not fail. Any other access of an
   agent to Redis may.
   */
  predicate Enabled(s: System, a: Action) {
    match a
    case Create(id, _, _) => id !in s.store.rows
    case Continue(id, _) => id in s.seen
    case Stop(id) => id in s.seen
    case Read(_) => true
    case Poll(_) => true
    case Spawn(t) => t !in s.tasks && s.store.chatEvents != []
    case Fetch(t) => t in s.tasks && s.tasks[t].Started?
    case MarkThinking(t) => t in s.tasks && s.tasks[t].Fetched?
    case RunNext(t, a) => t in s.tasks && s.tasks[t].Working? && NextNode(s.tasks[t].visits).Some? && a.raises.None?
    case Save(t) => t in s.tasks && s.tasks[t].Unsaved?
    case SaveFails(t, _) =>
      t in s.tasks && s.tasks[t].Unsaved? && s.tasks[t].visits != [] && Published(s.tasks[t].visits) == []
    case NodeFails(t, _) => t in s.tasks && s.tasks[t].Working? && NextNode(s.tasks[t].visits).Some?
    case Finish(t) => t in s.tasks && s.tasks[t].Working? && NextNode(s.tasks[t].visits).None?
    case WriteReply(t) => t in s.tasks && s.tasks[t].Replying?
    case RunFails(t) => t in s.tasks && (s.tasks[t].Started? || s.tasks[t].Fetched? || s.tasks[t].Replying?)
    case PickAccept => CanPick(s) && NoRun(s, s.store.acceptEvents[0].conversationId)
    case LoadForTickets => s.ticket.Some? && s.ticket.value.TicketPicked?
    case CloseTurn(_, _) => s.ticket.Some? && s.ticket.value.TicketLoaded?
    case TicketFails => s.ticket.Some?
  }

  predicate CanPick(s: System) {
    s.ticket.None? && s.store.acceptEvents != []
  }

  // ----- what each step does -----

  /** A backend call: its new stores, or the old ones if it was refused. */
  function Outcome(b: Backing, r: Result<Backing, ChatError>): Backing {
    if r.Ok? then r.value else b
  }

  function SeeReply(s: System, id: Id): System {
    if ShowsReply(s.store, id) then s.(seen := s.seen + {id}) else s
  }

  function SetRedis(s: System, id: Id, chat: Chat): System {
    s.(store := s.store.(redis := s.store.redis[id := chat]))
  }

  /** A run is over when its conclusion is known: it leaves, or has a reply to write. */
  function Concluded(s: System, t: nat, recorded: nat, error: Option<string>): System
    requires t in s.tasks && (s.tasks[t].Working? || s.tasks[t].Unsaved?) && recorded <= |s.tasks[t].visits|
  {
    var task := s.tasks[t];
    match Conclusion(task.visits, recorded, error)
    case None =>
      s.(tasks := s.tasks - {t},
         failed := if error.Some? then s.failed + {task.request.conversationId} else s.failed)
    case Some(reply) => s.(tasks := s.tasks[t := Replying(task.request, Replied(task.chat, reply), task.visits)])
  }

  function ApplyRun(s: System, t: nat, a: Answer): System
    requires t in s.tasks && s.tasks[t].Working? && NextNode(s.tasks[t].visits).Some?
  {
    var task := s.tasks[t];
    var visit := Visit(NextNode(task.visits).value, StateAfter(InitialState(task.request), task.visits), a);
    var logged := task.chat.(messages := task.chat.messages + [ThinkingMessage(visit.node, visit.Output())]);
    s.(tasks := s.tasks[t := Unsaved(task.request, logged, task.visits + [visit])],
       store := s.store.(acceptEvents :=
         s.store.acceptEvents + if visit.node == IntentNode then AcceptsOf(visit.before, a) else []))
  }

  function ApplyPick(s: System): System
    requires CanPick(s)
  {
    s.(ticket := Some(TicketPicked(s.store.acceptEvents[0])),
       store := s.store.(acceptEvents := s.store.acceptEvents[1..]))
  }

  function Apply(s: System, a: Action): System
    requires Enabled(s, a)
  {
    match a
    case Create(id, message, username) => s.(store := Outcome(s.store, NewChat(s.store, id, message, username)))
    case Continue(id, message) =>
      var r := ContinueChat(s.store, id, message);
      if r.Ok? then s.(store := r.value, seen := s.seen - {id}) else s
    case Stop(id) => s.(store := Outcome(s.store, StopChat(s.store, id)))
    case Read(id) => SeeReply(s, id).(store := AfterGet(s.store, id))
    case Poll(id) => if id in s.store.redis then SeeReply(s, id) else s
    case Spawn(t) =>
      s.(tasks := s.tasks[t := Started(s.store.chatEvents[0])],
         store := s.store.(chatEvents := s.store.chatEvents[1..]))
    case Fetch(t) =>
      var request := s.tasks[t].request;
      if request.conversationId in s.store.redis
      then s.(tasks := s.tasks[t := Fetched(request, Loaded(s.store.redis[request.conversationId]))])
      else s.(tasks := s.tasks - {t})
    case MarkThinking(t) =>
      var task := s.tasks[t];
      SetRedis(s, task.request.conversationId, task.chat).(tasks := s.tasks[t := Working(task.request, task.chat, [])])
    case RunNext(t, answer) => ApplyRun(s, t, answer)
    case Save(t) =>
      var task := s.tasks[t];
      SetRedis(s, task.request.conversationId, task.chat)
        .(tasks := s.tasks[t := Working(task.request, task.chat, task.visits)])
    case SaveFails(t, error) => Concluded(s, t, |s.tasks[t].visits| - 1, Some(error))
    case NodeFails(t, error) => Concluded(s, t, |s.tasks[t].visits|, Some(error))
    case Finish(t) => Concluded(s, t, |s.tasks[t].visits|, None)
    case WriteReply(t) =>
      SetRedis(s, s.tasks[t].request.conversationId, s.tasks[t].chat).(tasks := s.tasks - {t})
    case RunFails(t) =>
      s.(tasks := s.tasks - {t}, failed := s.failed + {s.tasks[t].request.conversationId})
    case PickAccept => ApplyPick(s)
    case LoadForTickets =>
      var event := s.ticket.value.event;
      s.(ticket :=
         if event.conversationId in s.store.redis
         then Some(TicketLoaded(event, Projected(s.store.redis[event.conversationId])))
         else None)
    case CloseTurn(error, result) =>
      var id := s.ticket.value.event.conversationId;
      var saved := TurnClosed(s.ticket.value.chat, error, result);
      SetRedis(s, id, saved).(ticket := None, erased := s.erased[id := |saved.messages|])
    case TicketFails =>
      s.(ticket := None, failed := s.failed + {s.ticket.value.event.conversationId})
  }

  /** An action that is not enabled does nothing. */
  function Step(s: System, a: Action): System {
    if Enabled(s, a) then Apply(s, a) else s
  }

  /** The state after a schedule; every reachable state is one. */
  function Exec(s: System, schedule: seq<Action>): System {
    if schedule == [] then s else Step(Exec(s, schedule[..|schedule| - 1]), schedule[|schedule| - 1])
  }

  lemma {:induction false} ExecSplits(s: System, first: seq<Action>, second: seq<Action>)
    ensures Exec(s, first + second) == Exec(Exec(s, first), second)
  {
    var both := first + second;
    if second == [] {
      assert both == first;
    } else {
      ExecSplits(s, first, second[..|second| - 1]);
      assert both[..|both| - 1] == first + second[..|second| - 1];
    }
  }

  // ----- one conversation of a system -----

  /** Everything in the system that concerns one conversation. */
  datatype Conv = Conv(
    id: Id,
    redis: Option<Chat>,
    row: Option<Row>,
    events: seq<ChatRequest>,
    tasks: map<nat, Task>,
    accepts: seq<AcceptEvent>,
    ticket: Option<TicketTask>,
    seen: bool,
    erased: nat,
    failed: bool)

  function EventsOf(queue: seq<ChatRequest>, id: Id): seq<ChatRequest> {
    if queue == [] then []
    else (if queue[0].conversationId == id then [queue[0]] else []) + EventsOf(queue[1..], id)
  }

  function AcceptsFor(queue: seq<AcceptEvent>, id: Id): seq<AcceptEvent> {
    if queue == [] then []
    else (if queue[0].conversationId == id then [queue[0]] else []) + AcceptsFor(queue[1..], id)
  }

  function RunsOf(tasks: map<nat, Task>, id: Id): map<nat, Task> {
    map t | t in tasks && tasks[t].request.conversationId == id :: tasks[t]
  }

  function TicketOf(ticket: Option<TicketTask>, id: Id): Option<TicketTask> {
    if ticket.Some? && ticket.value.event.conversationId == id then ticket else None
  }

  function Of(s: System, id: Id): Conv {
    Conv(id, Lookup(s.store.redis, id), Lookup(s.store.rows, id), EventsOf(s.store.chatEvents, id),
         RunsOf(s.tasks, id), AcceptsFor(s.store.acceptEvents, id), TicketOf(s.ticket, id), id in s.seen,
         if id in s.erased then s.erased[id] else 0, id in s.failed)
  }

  lemma {:induction false} EventsAppend(queue: seq<ChatRequest>, e: ChatRequest, id: Id)
    ensures EventsOf(queue + [e], id) == EventsOf(queue, id) + if e.conversationId == id then [e] else []
  {
    if queue != [] {
      EventsAppend(queue[1..], e, id);
      assert (queue + [e])[1..] == queue[1..] + [e];
    }
  }

  lemma {:induction false} AcceptsAppend(queue: seq<AcceptEvent>, more: seq<AcceptEvent>, id: Id)
    ensures AcceptsFor(queue + more, id) == AcceptsFor(queue, id) + AcceptsFor(more, id)
  {
    if queue == [] {
      assert queue + more == more;
    } else {
      var rest := queue[1..];
      AcceptsAppend(rest, more, id);
      assert (queue + more)[1..] == rest + more && (queue + more)[0] == queue[0];
      var first := if queue[0].conversationId == id then [queue[0]] else [];
      assert AcceptsFor(queue + more, id) == first + AcceptsFor(rest + more, id);
    }
  }

  /** The log of a conversation, from Redis if the key is there, else from the row. */
  function LogOf(v: Conv): seq<Message> {
    if v.redis.Some? then v.redis.value.messages
    else if v.row.Some? then v.row.value.messages
    else []
  }

  lemma {:induction false} LogOfIsLog(s: System, id: Id)
    ensures LogOf(Of(s, id)) == Log(s.store, id)
  {
  }
}
