/**
 The invariant of one conversation: who holds its turn, and what that party may
 rely on.
 */
module TurnHolder {
  import opened Wrappers
  import opened Contracts
  import opened TurnLog
  import opened BackendChat
  import opened ArchitectGraph
  import opened ArchitectLog
  import opened LogHistory
  import opened GraphTrace
  import opened ArchitectChat
  import opened TicketChat
  import opened PlanContent
  import opened HandOff

  // ----- the messages of a log -----

  /** `hidden` messages were saved by the ticket-agent: agent messages before that point have lost `node`. */
  ghost predicate MessageOk(m: Message, hidden: bool) {
    && (m.actor.User? ==> IsUserMessage(m))
    && (m.actor.Agent? ==> (m.node.None? <==> hidden))
    && (m.content.PlanReply? ==>
          IsReplyMessage(m) && WellMade(m.content.reply) && (m.node.Some? ==> m.node == Some(ReplyNode)))
  }

  ghost predicate LogOk(log: seq<Message>, erased: nat) {
    erased <= |log| && forall k | 0 <= k < |log| :: MessageOk(log[k], k < erased)
  }

  lemma {:induction false} LogOkAppend(log: seq<Message>, erased: nat, m: Message)
    requires LogOk(log, erased) && MessageOk(m, false)
    ensures LogOk(log + [m], erased)
  {
  }

  lemma {:induction false} LogOkErased(log: seq<Message>, erased: nat, reply: Message)
    requires LogOk(log, erased) && MessageOk(reply, true)
    ensures LogOk(EraseAll(log) + [reply], |log| + 1)
  {
    forall k | 0 <= k < |log| + 1
      ensures MessageOk((EraseAll(log) + [reply])[k], true)
    {
      if k < |log| {
        assert MessageOk(log[k], k < erased);
      }
    }
  }

  // ----- who holds the turn -----

  /** The conversation waits for its user: it is stopped, or its agent has replied. */
  predicate Settled(v: Conv) {
    v.redis.None? || v.redis.value.agentStatus.HasReplied?
  }

  predicate Idle(v: Conv) {
    v.events == [] && v.tasks == map[] && v.accepts == [] && v.ticket.None?
  }

  /** The log that a request was made for. */
  function Base(request: ChatRequest): seq<Message> {
    request.history + [UserMessage(request.message)]
  }

  ghost predicate Queued(v: Conv)
    requires v.redis.Some?
  {
    && v.tasks == map[] && v.accepts == [] && v.ticket.None?
    && |v.events| == 1
    && v.events[0].conversationId == v.id
    && v.redis.value.messages == Base(v.events[0])
  }

  ghost predicate RunOk(request: ChatRequest, chat: Chat, visits: seq<Visit>) {
    && Path(InitialState(request), visits)
    && chat.messages == Base(request) + Thinking(visits)
  }

  /** The private copy of a run is the live chat, or one logged message ahead of it. */
  ghost predicate TaskOk(v: Conv, task: Task)
    requires v.redis.Some?
  {
    var live := v.redis.value;
    && task.request.conversationId == v.id
    && match task
       case Started(request) => v.accepts == [] && live.messages == Base(request)
       case Fetched(request, chat) => v.accepts == [] && chat == live && live.messages == Base(request)
       case Working(request, chat, visits) =>
         chat == live && RunOk(request, chat, visits) && v.accepts == Published(visits)
       case Unsaved(request, chat, visits) =>
         && visits != [] && RunOk(request, chat, visits) && v.accepts == Published(visits)
         && live == chat.(messages := Base(request) + Thinking(visits[..|visits| - 1]))
       case Replying(request, chat, visits) =>
         && v.accepts == []
         && WritesTurn(request, visits, chat.messages) && ClosedPart(live.messages) == request.history
         && live.messages <= chat.messages
         && (forall k | |live.messages| <= k < |chat.messages| :: chat.messages[k].actor.Agent?)
         && chat == live.(messages := chat.messages, agentStatus := HasReplied)
         && LogOk(chat.messages, v.erased) && Scan(chat.messages) == Closed
  }

  ghost predicate Running(v: Conv)
    requires v.redis.Some?
  {
    && v.events == [] && v.ticket.None?
    && exists t :: v.tasks.Keys == {t} && TaskOk(v, v.tasks[t])
  }

  /** The accept event waits for the ticket-agent; it carries the latest visible plan. */
  ghost predicate Accepted(v: Conv)
    requires v.redis.Some?
  {
    && v.events == [] && v.tasks == map[] && v.ticket.None?
    && |v.accepts| == 1
    && v.accepts[0].conversationId == v.id
    && LatestPlan(v.redis.value.messages) == Some(v.accepts[0].content)
  }

  ghost predicate Ticketing(v: Conv)
    requires v.redis.Some?
  {
    && v.events == [] && v.tasks == map[] && v.accepts == []
    && v.ticket.Some?
    && v.ticket.value.event.conversationId == v.id
    && LatestPlan(v.redis.value.messages) == Some(v.ticket.value.event.content)
    && (v.ticket.value.TicketLoaded? ==> v.ticket.value.chat == Projected(v.redis.value))
  }

  const ACCEPT_MESSAGE := ThinkingMessage(IntentNode, NOTHING.(userIntent := Some(Accept)))

  /** A user message that was read as an accept, where no plan was visible. */
  ghost predicate AcceptedNothing(log: seq<Message>) {
    && |log| >= 2
    && IsUserMessage(log[|log| - 2])
    && log[|log| - 1] == ACCEPT_MESSAGE
    && LatestPlan(log).None?
  }

  /** Nobody holds the turn: an access to Redis failed, or there was nothing to accept. */
  ghost predicate Lost(v: Conv)
    requires v.redis.Some?
  {
    Idle(v) && (v.failed || AcceptedNothing(v.redis.value.messages))
  }

  ghost predicate HolderOk(v: Conv) {
    if Settled(v) then Idle(v) && !v.failed
    else Lost(v) || (!v.failed && (Queued(v) || Running(v) || Accepted(v) || Ticketing(v)))
  }

  // ----- the invariant -----

  predicate Blank(v: Conv) {
    v == Conv(v.id, None, None, [], map[], [], None, false, 0, false)
  }

  ghost predicate TwoCopies(v: Conv) {
    v.redis.Some? ==>
      && v.row.Some?
      && v.redis.value.id == v.id
      && v.redis.value.title == v.row.value.title
      && Extends(v.row.value.messages, v.redis.value.messages)
  }

  ghost predicate Inv(v: Conv) {
    if v.row.None? then Blank(v)
    else
      && Fits(v.row.value.title, TITLE_WIDTH)
      && TwoCopies(v)
      && LogOf(v) != []
      && LogOk(LogOf(v), v.erased)
      && Written(v.id, ClosedPart(LogOf(v)), v.erased)
      && Scan(LogOf(v)) == (if Settled(v) then Closed else Open)
      && HolderOk(v)
      && (v.seen ==> Settled(v))
  }

  // ----- the backend's steps, on one conversation -----

  lemma {:induction false} CreateKeeps(id: Id, message: string, username: Option<string>)
    requires |message| <= TITLE_WIDTH
    ensures Inv(Conv(id, Some(Chat(id, Some(message), [UserMessage(message)], IsActive, IsThinking)),
                     Some(Row(Some(message), username, [UserMessage(message)])),
                     [ChatRequest(id, message, [])], map[], [], None, false, 0, false))
  {
    var log := [UserMessage(message)];
    FirstMessage(message);
    PrefixExtends(log, log);
    var v := Conv(id, Some(Chat(id, Some(message), log, IsActive, IsThinking)), Some(Row(Some(message), username, log)),
                  [ChatRequest(id, message, [])], map[], [], None, false, 0, false);
    assert Base(v.events[0]) == log;
    assert Queued(v);
    assert log[..0] == [] && ClosedPart(log) == [];
    WrittenByNobody(id, []);
  }

  lemma {:induction false} FirstMessage(message: string)
    ensures Scan([UserMessage(message)]) == Open && LogOk([UserMessage(message)], 0)
  {
    ScanAppend([], UserMessage(message));
    assert [] + [UserMessage(message)] == [UserMessage(message)];
  }

  lemma {:induction false} ContinueKeeps(v: Conv, message: string, v': Conv)
    requires Inv(v) && v.row.Some? && v.seen
    requires var title := if v.redis.Some? then v.redis.value.title else v.row.value.title;
             v' == v.(redis := Some(Chat(v.id, title, LogOf(v) + [UserMessage(message)], IsActive, IsThinking)),
                      events := v.events + [ChatRequest(v.id, message, LogOf(v))],
                      seen := false)
    ensures Inv(v')
    ensures Queued(v')
  {
    hide Written, TaskOk;
    ScanAppend(LogOf(v), UserMessage(message));
    LogOkAppend(LogOf(v), v.erased, UserMessage(message));
    PrefixExtends(LogOf(v), LogOf(v'));
    PrefixExtends(v.row.value.messages, v.row.value.messages);
    assert LogOf(v')[..|LogOf(v)|] == LogOf(v);
    if v.redis.Some? {
      ExtendsTransitive(v.row.value.messages, LogOf(v), LogOf(v'));
    }
  }

  lemma {:induction false} StopKeeps(v: Conv, v': Conv)
    requires Inv(v) && v.redis.Some? && v.seen
    requires v' == v.(redis := None, row := Some(v.row.value.(messages := v.redis.value.messages)))
    ensures Inv(v')
  {
  }

  /** A poll may tell the client of the reply. */
  lemma {:induction false} SeenKeeps(v: Conv)
    requires Inv(v) && v.redis.Some? && Settled(v)
    ensures Inv(v.(seen := true))
  {
    hide Written, ClosedPart, LogOk;
  }

  /** A read may copy the live messages to the row, and may tell the client of the reply. */
  lemma {:induction false} ReadKeeps(v: Conv, v': Conv)
    requires Inv(v) && v.row.Some? && Settled(v)
    requires v' == v.(row := if v.redis.Some? then Some(v.row.value.(messages := v.redis.value.messages)) else v.row,
                      seen := true)
    ensures Inv(v')
  {
    PrefixExtends(LogOf(v), LogOf(v));
  }

  // ----- the architect-agent's steps -----

  lemma {:induction false} SpawnKeeps(v: Conv, t: nat, v': Conv)
    requires Inv(v) && v.events != []
    requires v' == v.(events := v.events[1..], tasks := v.tasks[t := Started(v.events[0])])
    ensures Inv(v')
  {
    assert !Settled(v) && Queued(v);
    assert v'.tasks.Keys == {t} && TaskOk(v', v'.tasks[t]);
  }

  /** A conversation with a run has just that run. */
  lemma {:induction false} OnlyRun(v: Conv, t: nat)
    requires Inv(v) && t in v.tasks
    ensures v.redis.Some? && !Settled(v) && Running(v)
    ensures v.tasks.Keys == {t} && TaskOk(v, v.tasks[t])
    ensures v.events == [] && v.ticket.None?
  {
  }

  /** Replace the run's task, and possibly the live chat. */
  lemma {:induction false} RunMoves(v: Conv, t: nat, v': Conv)
    requires Inv(v) && t in v.tasks
    requires t in v'.tasks && v'.tasks == v.tasks[t := v'.tasks[t]]
    requires v'.redis.Some? && v'.redis.value.agentStatus.IsThinking?
    requires v' == v.(tasks := v'.tasks, redis := v'.redis, accepts := v'.accepts)
    requires TaskOk(v', v'.tasks[t])
    requires v'.redis.value == v.redis.value.(messages := v'.redis.value.messages)
    requires Extends(v.redis.value.messages, v'.redis.value.messages)
    requires LogOk(LogOf(v'), v.erased) && Scan(LogOf(v')) == Open
    requires ClosedPart(LogOf(v')) == ClosedPart(LogOf(v))
    ensures Inv(v')
  {
    hide Written, ClosedPart;
    OnlyRun(v, t);
    assert v'.tasks.Keys == {t};
    assert Running(v');
    ExtendsTransitive(v.row.value.messages, v.redis.value.messages, v'.redis.value.messages);
  }

  lemma {:induction false} FetchKeeps(v: Conv, t: nat, v': Conv)
    requires Inv(v) && t in v.tasks && v.tasks[t].Started?
    ensures v.redis.Some?
    requires v.redis.Some? ==>
               v' == v.(tasks := v.tasks[t := Fetched(v.tasks[t].request, Loaded(v.redis.value))])
    ensures Inv(v')
  {
    OnlyRun(v, t);
    PrefixExtends(LogOf(v), LogOf(v));
    RunMoves(v, t, v');
  }

  lemma {:induction false} MarkKeeps(v: Conv, t: nat, v': Conv)
    requires Inv(v) && t in v.tasks && v.tasks[t].Fetched?
    requires v' == v.(redis := Some(v.tasks[t].chat),
                      tasks := v.tasks[t := Working(v.tasks[t].request, v.tasks[t].chat, [])])
    ensures Inv(v')
  {
    hide RunNode, Merge, Route, NodeText, Written, ClosedPart, LogOk;
    OnlyRun(v, t);
    PrefixExtends(LogOf(v), LogOf(v));
    assert Base(v.tasks[t].request) + Thinking([]) == Base(v.tasks[t].request);
    RunMoves(v, t, v');
  }

  /** A run after one more visit, logged in its private copy only. */
  function Visited(task: Task, visit: Visit): Task
    requires task.Working?
  {
    Unsaved(task.request,
            task.chat.(messages := task.chat.messages + [ThinkingMessage(visit.node, visit.Output())]),
            task.visits + [visit])
  }

  /** What a visit publishes. */
  function PublishedBy(visit: Visit): seq<AcceptEvent> {
    if visit.node == IntentNode then AcceptsOf(visit.before, visit.answer) else []
  }

  lemma {:induction false} VisitedOk(request: ChatRequest, chat: Chat, visits: seq<Visit>, visit: Visit)
    requires RunOk(request, chat, visits) && NextNode(visits) == Some(visit.node)
    requires visit.before == StateAfter(InitialState(request), visits)
    ensures var logged := chat.(messages := chat.messages + [ThinkingMessage(visit.node, visit.Output())]);
            && RunOk(request, logged, visits + [visit])
            && (visits + [visit])[..|visits|] == visits
    ensures Published(visits + [visit]) == Published(visits) + PublishedBy(visit)
  {
    hide RunNode, Merge, Route, NodeText;
    DriverStep(InitialState(request), visits, visit);
    ThinkingAppend(visits, visit);
  }

  lemma {:induction false} RunNextKeeps(v: Conv, t: nat, visit: Visit, v': Conv)
    requires Inv(v) && t in v.tasks && v.tasks[t].Working?
    requires var task := v.tasks[t];
             && NextNode(task.visits) == Some(visit.node)
             && visit.before == StateAfter(InitialState(task.request), task.visits)
             && v' == v.(tasks := v.tasks[t := Visited(task, visit)], accepts := v.accepts + PublishedBy(visit))
    ensures Inv(v')
  {
    hide RunNode, Merge, Route, NodeText, Inv, RunOk, Published, PublishedBy, NextNode;
    var task := v.tasks[t];
    OpenRun(v, t);
    VisitedOk(task.request, task.chat, task.visits, visit);
    RunOkBase(task.request, task.chat, task.visits);
    PrefixExtends(LogOf(v), LogOf(v));
    RunMoves(v, t, v');
  }

  lemma {:induction false} SaveKeeps(v: Conv, t: nat, v': Conv)
    requires Inv(v) && t in v.tasks && v.tasks[t].Unsaved?
    requires var task := v.tasks[t];
             v' == v.(redis := Some(task.chat), tasks := v.tasks[t := Working(task.request, task.chat, task.visits)])
    ensures Inv(v')
  {
    OnlyRun(v, t);
    UnsavedIsAhead(v, t);
    RunMoves(v, t, v');
  }

  /** The unsaved copy is the live log and one more thinking message. */
  /** What the invariant says of the conversation of a run. */
  lemma {:induction false} OpenRun(v: Conv, t: nat)
    requires Inv(v) && t in v.tasks
    ensures v.redis.Some? && TaskOk(v, v.tasks[t]) && v.redis.value.agentStatus.IsThinking?
    ensures LogOk(LogOf(v), v.erased) && Scan(LogOf(v)) == Open
  {
    hide Written, ClosedPart;
    OnlyRun(v, t);
  }

  lemma {:induction false} RunOkBase(request: ChatRequest, chat: Chat, visits: seq<Visit>)
    requires RunOk(request, chat, visits)
    ensures chat.messages == Base(request) + Thinking(visits)
  {
  }

  lemma {:induction false} UnsavedMessages(v: Conv, t: nat)
    requires Inv(v) && t in v.tasks && v.tasks[t].Unsaved?
    ensures v.redis.Some?
    ensures var task := v.tasks[t];
            var n := |task.visits| - 1;
            && n >= 0
            && task.chat.messages == LogOf(v) + [ThinkingMessage(task.visits[n].node, task.visits[n].Output())]
  {
    hide RunNode, Merge, Route, NodeText, Inv, Path;
    OnlyRun(v, t);
    var task := v.tasks[t];
    var n := |task.visits| - 1;
    assert task.visits == task.visits[..n] + [task.visits[n]];
    ThinkingAppend(task.visits[..n], task.visits[n]);
  }

  /** The unsaved copy is the live log and one more thinking message. */
  lemma {:induction false} UnsavedIsAhead(v: Conv, t: nat)
    requires Inv(v) && t in v.tasks && v.tasks[t].Unsaved?
    ensures v.redis.Some?
    ensures var task := v.tasks[t];
            var n := |task.visits| - 1;
            && n >= 0
            && task.chat.messages == LogOf(v) + [ThinkingMessage(task.visits[n].node, task.visits[n].Output())]
            && LogOk(task.chat.messages, v.erased) && Scan(task.chat.messages) == Open
            && Extends(LogOf(v), task.chat.messages)
            && ClosedPart(task.chat.messages) == ClosedPart(LogOf(v))
  {
    hide RunNode, Merge, Route, NodeText, Inv, ClosedPart, TaskOk;
    OpenRun(v, t);
    UnsavedMessages(v, t);
    var task := v.tasks[t];
    var n := |task.visits| - 1;
    var m := ThinkingMessage(task.visits[n].node, task.visits[n].Output());
    ScanAppend(LogOf(v), m);
    ClosedPartStays(LogOf(v), [m]);
    LogOkAppend(LogOf(v), v.erased, m);
    PrefixExtends(LogOf(v), task.chat.messages);
  }

  /** The live log of a run is its history and an open turn. */
  lemma {:induction false} RunPart(v: Conv, t: nat)
    requires Inv(v) && t in v.tasks && (v.tasks[t].Working? || v.tasks[t].Unsaved?)
    ensures ClosedPart(LogOf(v)) == v.tasks[t].request.history
  {
    hide RunNode, Merge, Route, NodeText, Written, LogOk;
    OnlyRun(v, t);
    var task := v.tasks[t];
    var made := if task.Working? then task.visits else task.visits[..|task.visits| - 1];
    ThinkingIsThinking(made);
    OpenTurnPart(task.request.history, task.request.message, Thinking(made));
  }

  /** The private copy of a run, saved or not. */
  lemma {:induction false} PrivateLog(v: Conv, t: nat)
    requires Inv(v) && t in v.tasks && (v.tasks[t].Working? || v.tasks[t].Unsaved?)
    ensures v.redis.Some?
    ensures var task := v.tasks[t];
            && task.chat.messages == Base(task.request) + Thinking(task.visits)
            && task.request.conversationId == v.id
            && LogOk(task.chat.messages, v.erased) && Scan(task.chat.messages) == Open
            && LogOf(v) <= task.chat.messages
            && (forall k | |LogOf(v)| <= k < |task.chat.messages| :: task.chat.messages[k].actor.Agent?)
            && task.chat == v.redis.value.(messages := task.chat.messages)
  {
    hide RunNode, Merge, Route, NodeText, Written, ClosedPart;
    OnlyRun(v, t);
    if v.tasks[t].Unsaved? {
      UnsavedIsAhead(v, t);
    }
  }

  lemma {:induction false} ReplyWrites(turn: ClosedTurn, log: seq<Message>)
    requires turn.Valid() && log == Base(turn.request) + Thinking(turn.visits)
    ensures WritesTurn(turn.request, turn.visits, log + [turn.Reply()])
  {
    hide Conclusion, Ends, Path, Thinking;
    assert turn == ClosedTurn(turn.request, turn.visits, turn.recorded, turn.error);
    assert log + [turn.Reply()] == turn.request.history + turn.Messages();
  }

  /** A run ends with a reply in its private copy. */
  lemma {:induction false} ReplyKeeps(v: Conv, t: nat, turn: ClosedTurn, v': Conv)
    requires Inv(v) && t in v.tasks
    requires v.tasks[t].Working? || v.tasks[t].Unsaved?
    requires turn.request == v.tasks[t].request && turn.visits == v.tasks[t].visits && turn.Valid()
    requires IsReplyMessage(turn.Reply()) && MessageOk(turn.Reply(), false)
    requires Published(v.tasks[t].visits) == []
    requires var task := v.tasks[t];
             v' == v.(tasks := v.tasks[t := Replying(task.request, Replied(task.chat, turn.Reply()), task.visits)])
    ensures Inv(v')
  {
    hide RunNode, Merge, Route, NodeText, Conclusion, Ends, NextNode, Path, Thinking, Published;
    hide Written, WritesTurn, ClosedPart;
    var task, reply := v.tasks[t], turn.Reply();
    var log := task.chat.messages;
    PrivateLog(v, t);
    RunPart(v, t);
    ReplyWrites(turn, log);
    ScanAppend(log, reply);
    LogOkAppend(log, v.erased, reply);
    PrefixExtends(LogOf(v), LogOf(v));
    OnlyRun(v, t);
    assert v'.tasks[t].chat.messages == log + [reply];
    RunMoves(v, t, v');
  }

  /** A run is dropped because an access to Redis failed. */
  lemma {:induction false} FailKeeps(v: Conv, t: nat, v': Conv)
    requires Inv(v) && t in v.tasks && v.accepts == []
    requires v' == v.(tasks := v.tasks - {t}, failed := true)
    ensures Inv(v') && v'.redis.Some? && Lost(v')
  {
    hide Written, ClosedPart, LogOk;
    OnlyRun(v, t);
    assert v'.tasks == map[];
  }

  /** A run leaves without a reply: its accept is in the queue, or nobody holds the turn any more. */
  lemma {:induction false} AcceptKeeps(v: Conv, t: nat, v': Conv)
    requires Inv(v) && t in v.tasks && v.tasks[t].Working?
    requires v.tasks[t].visits != [] && v.tasks[t].visits[0].answer.intent == Accept
    requires v' == v.(tasks := v.tasks - {t})
    ensures Inv(v')
    ensures v'.redis.Some?
    ensures if LatestPlan(v.tasks[t].request.history).Some? then Accepted(v') else Lost(v')
  {
    hide Written, ClosedPart, LogOk, RunNode, Merge, Route, NodeText;
    OnlyRun(v, t);
    var task := v.tasks[t];
    var init := InitialState(task.request);
    assert v'.tasks == map[];
    IntentIsAnswer(init, task.visits);
    AcceptStops(init, task.visits);
    AcceptLog(task.request, task.visits);
  }

  /** The log of an accepting run: the accept message comes last, and the latest plan is that of the history. */
  lemma {:induction false} AcceptLog(request: ChatRequest, visits: seq<Visit>)
    requires Path(InitialState(request), visits) && |visits| == 1 && visits[0].answer.intent == Accept
    ensures var log := Base(request) + Thinking(visits);
            && log == request.history + [UserMessage(request.message), ACCEPT_MESSAGE]
            && LatestPlan(log) == LatestPlan(request.history)
            && Published(visits) ==
               match LatestPlan(request.history)
               case Some(plan) => [AcceptEvent(request.conversationId, plan)]
               case None => []
  {
    StartAt(InitialState(request), visits);
    assert Thinking(visits) == [ACCEPT_MESSAGE];
    LatestPlanSkips(request.history, UserMessage(request.message));
    LatestPlanSkips(Base(request), ACCEPT_MESSAGE);
  }

  lemma {:induction false} WriteKeeps(v: Conv, t: nat, v': Conv)
    requires Inv(v) && t in v.tasks && v.tasks[t].Replying?
    requires v' == v.(redis := Some(v.tasks[t].chat), tasks := v.tasks - {t})
    ensures Inv(v')
  {
    hide WritesTurn, Written;
    OnlyRun(v, t);
    var task := v.tasks[t];
    WrittenGrows(task.request, task.visits, task.chat.messages, v.erased);
    assert v'.tasks == map[];
    PrefixExtends(LogOf(v), LogOf(v'));
    ExtendsTransitive(v.row.value.messages, LogOf(v), LogOf(v'));
  }

  // ----- the ticket-agent's steps -----

  lemma {:induction false} PickKeeps(v: Conv, v': Conv)
    requires Inv(v) && v.accepts != [] && v.tasks == map[]
    requires v' == v.(accepts := v.accepts[1..], ticket := Some(TicketPicked(v.accepts[0])))
    ensures Inv(v')
  {
    hide Written, ClosedPart, LogOk, TaskOk;
  }

  lemma {:induction false} LoadKeeps(v: Conv, v': Conv)
    requires Inv(v) && v.ticket.Some? && v.ticket.value.TicketPicked?
    ensures v.redis.Some?
    requires v.redis.Some? ==>
               v' == v.(ticket := Some(TicketLoaded(v.ticket.value.event, Projected(v.redis.value))))
    ensures Inv(v')
  {
  }

  lemma {:induction false} CloseKeeps(v: Conv, error: Option<string>, result: Option<Extracted>, v': Conv)
    requires Inv(v) && v.ticket.Some? && v.ticket.value.TicketLoaded?
    requires var saved := TurnClosed(v.ticket.value.chat, error, result);
             v' == v.(redis := Some(saved), ticket := None, erased := |saved.messages|)
    ensures Inv(v')
    ensures Extends(LogOf(v), LogOf(v')) && LatestPlan(LogOf(v')).None?
  {
    hide Written, ClosedPart, TaskOk;
    TicketSaveClosesTurn(v.redis.value, error, result);
    ClosedPartClosed(LogOf(v'));
    WrittenByNobody(v.id, LogOf(v'));
    LogOkErased(LogOf(v), v.erased, TicketReply(error, result));
    ExtendsTransitive(v.row.value.messages, LogOf(v), LogOf(v'));
  }

  lemma {:induction false} TicketFailKeeps(v: Conv, v': Conv)
    requires Inv(v) && v.ticket.Some?
    requires v' == v.(ticket := None, failed := true)
    ensures Inv(v') && v'.redis.Some? && Lost(v')
  {
    hide Written, ClosedPart, LogOk, TaskOk;
  }
}
