/** The invariant holds in every reachable state, for every conversation at once. */
module HandOffSafety {
  import opened Wrappers
  import opened Contracts
  import opened TurnLog
  import opened Stores
  import opened BackendChat
  import opened ArchitectGraph
  import opened ArchitectLog
  import opened LogHistory
  import opened ArchitectChat
  import opened TicketChat
  import opened HandOff
  import opened TurnHolder

  // ----- a step touches one conversation -----

  /** The conversation an enabled action is about. */
  function Subject(s: System, a: Action): Id
    requires Enabled(s, a)
  {
    match a
    case Create(id, _, _) => id
    case Continue(id, _) => id
    case Stop(id) => id
    case Read(id) => id
    case Poll(id) => id
    case Spawn(_) => s.store.chatEvents[0].conversationId
    case Fetch(t) => s.tasks[t].request.conversationId
    case MarkThinking(t) => s.tasks[t].request.conversationId
    case RunNext(t, _) => s.tasks[t].request.conversationId
    case Save(t) => s.tasks[t].request.conversationId
    case SaveFails(t, _) => s.tasks[t].request.conversationId
    case NodeFails(t, _) => s.tasks[t].request.conversationId
    case Finish(t) => s.tasks[t].request.conversationId
    case WriteReply(t) => s.tasks[t].request.conversationId
    case RunFails(t) => s.tasks[t].request.conversationId
    case PickAccept => s.store.acceptEvents[0].conversationId
    case LoadForTickets => s.ticket.value.event.conversationId
    case CloseTurn(_, _) => s.ticket.value.event.conversationId
    case TicketFails => s.ticket.value.event.conversationId
  }

  lemma {:induction false} RunsUpdated(tasks: map<nat, Task>, t: nat, task: Task, id: Id)
    requires t in tasks ==> tasks[t].request.conversationId == task.request.conversationId
    ensures RunsOf(tasks[t := task], id) ==
            if task.request.conversationId == id then RunsOf(tasks, id)[t := task] else RunsOf(tasks, id)
  {
  }

  lemma {:induction false} RunsRemoved(tasks: map<nat, Task>, t: nat, id: Id)
    requires t in tasks
    ensures RunsOf(tasks - {t}, id) ==
            if tasks[t].request.conversationId == id then RunsOf(tasks, id) - {t} else RunsOf(tasks, id)
  {
  }

  /** A run publishes for its own conversation only. */
  lemma {:induction false} RunPublishesOwn(s: System, t: nat, a: Answer, id: Id)
    requires Enabled(s, RunNext(t, a))
    ensures var task := s.tasks[t];
            var node := NextNode(task.visits).value;
            var st := StateAfter(InitialState(task.request), task.visits);
            var published := if node == IntentNode then AcceptsOf(st, a) else [];
            && ApplyRun(s, t, a).store.acceptEvents == s.store.acceptEvents + published
            && AcceptsFor(s.store.acceptEvents + published, id) ==
               AcceptsFor(s.store.acceptEvents, id) + (if task.request.conversationId == id then published else [])
  {
    var task := s.tasks[t];
    var node := NextNode(task.visits).value;
    var st := StateAfter(InitialState(task.request), task.visits);
    var published := if node == IntentNode then AcceptsOf(st, a) else [];
    assert node == IntentNode ==> task.visits == [];
    AcceptsAppend(s.store.acceptEvents, published, id);
  }

  lemma {:induction false} ConcludedElsewhere(s: System, t: nat, recorded: nat, error: Option<string>, id: Id)
    requires t in s.tasks && (s.tasks[t].Working? || s.tasks[t].Unsaved?) && recorded <= |s.tasks[t].visits|
    requires s.tasks[t].request.conversationId != id
    ensures Of(Concluded(s, t, recorded, error), id) == Of(s, id)
  {
    RunsRemoved(s.tasks, t, id);
    if Conclusion(s.tasks[t].visits, recorded, error).Some? {
      RunsUpdated(s.tasks, t, Concluded(s, t, recorded, error).tasks[t], id);
    }
  }

  predicate IsBackend(a: Action) {
    a.Create? || a.Continue? || a.Stop? || a.Read? || a.Poll?
  }

  predicate IsTicket(a: Action) {
    a.PickAccept? || a.LoadForTickets? || a.CloseTurn? || a.TicketFails?
  }

  predicate IsEnd(a: Action) {
    a.SaveFails? || a.NodeFails? || a.Finish? || a.RunFails?
  }

  lemma {:induction false} CreateElsewhere(s: System, other: Id, message: string, username: Option<string>, id: Id)
    requires other != id && Enabled(s, Create(other, message, username))
    ensures Of(Apply(s, Create(other, message, username)), id) == Of(s, id)
  {
    EventsAppend(s.store.chatEvents, ChatRequest(other, message, []), id);
  }

  lemma {:induction false} ContinueElsewhere(s: System, other: Id, message: string, id: Id)
    requires other != id && Enabled(s, Continue(other, message))
    ensures Of(Apply(s, Continue(other, message)), id) == Of(s, id)
  {
    EventsAppend(s.store.chatEvents, ChatRequest(other, message, Log(s.store, other)), id);
  }

  lemma {:induction false} StopElsewhere(s: System, other: Id, id: Id)
    requires other != id && Enabled(s, Stop(other))
    ensures Of(Apply(s, Stop(other)), id) == Of(s, id)
  {
  }

  lemma {:induction false} ReadElsewhere(s: System, other: Id, id: Id)
    requires other != id
    ensures Of(Apply(s, Read(other)), id) == Of(s, id)
  {
    hide AfterGet, ShowsReply;
    AfterGetElsewhere(s.store, other, id);
  }

  lemma {:induction false} AfterGetElsewhere(b: Backing, other: Id, id: Id)
    requires other != id
    ensures AfterGet(b, other) == b.(rows := AfterGet(b, other).rows)
    ensures Lookup(AfterGet(b, other).rows, id) == Lookup(b.rows, id)
  {
  }

  lemma {:induction false} PollElsewhere(s: System, other: Id, id: Id)
    requires other != id
    ensures Of(Apply(s, Poll(other)), id) == Of(s, id)
  {
  }

  lemma {:induction false} BackendElsewhere(s: System, a: Action, id: Id)
    requires Enabled(s, a) && IsBackend(a) && Subject(s, a) != id
    ensures Of(Apply(s, a), id) == Of(s, id)
  {
    hide Apply, Of;
    match a
    case Read(other) => ReadElsewhere(s, other, id);
    case Poll(other) => PollElsewhere(s, other, id);
    case Stop(other) => StopElsewhere(s, other, id);
    case Create(other, message, username) => CreateElsewhere(s, other, message, username, id);
    case Continue(other, message) => ContinueElsewhere(s, other, message, id);
  }

  lemma {:induction false} FetchElsewhere(s: System, t: nat, id: Id)
    requires Enabled(s, Fetch(t)) && s.tasks[t].request.conversationId != id
    ensures Of(Apply(s, Fetch(t)), id) == Of(s, id)
  {
    RunsRemoved(s.tasks, t, id);
    if s.tasks[t].request.conversationId in s.store.redis {
      RunsUpdated(s.tasks, t, Apply(s, Fetch(t)).tasks[t], id);
    }
  }

  lemma {:induction false} RunNextElsewhere(s: System, t: nat, answer: Answer, id: Id)
    requires Enabled(s, RunNext(t, answer)) && s.tasks[t].request.conversationId != id
    ensures Of(Apply(s, RunNext(t, answer)), id) == Of(s, id)
  {
    hide RunNode, Merge, Route, NodeText;
    RunsUpdated(s.tasks, t, Apply(s, RunNext(t, answer)).tasks[t], id);
    RunPublishesOwn(s, t, answer, id);
  }

  lemma {:induction false} RunElsewhere(s: System, a: Action, id: Id)
    requires Enabled(s, a) && !IsBackend(a) && !IsTicket(a) && !IsEnd(a) && Subject(s, a) != id
    ensures Of(Apply(s, a), id) == Of(s, id)
  {
    if a.Fetch? {
      FetchElsewhere(s, a.task, id);
    } else if a.RunNext? {
      RunNextElsewhere(s, a.task, a.answer, id);
    } else if a.Spawn? {
      RunsUpdated(s.tasks, a.task, Started(s.store.chatEvents[0]), id);
    } else if a.WriteReply? {
      RunsRemoved(s.tasks, a.task, id);
    } else {
      RunsUpdated(s.tasks, a.task, Apply(s, a).tasks[a.task], id);
    }
  }

  lemma {:induction false} EndElsewhere(s: System, a: Action, id: Id)
    requires Enabled(s, a) && IsEnd(a) && Subject(s, a) != id
    ensures Of(Apply(s, a), id) == Of(s, id)
  {
    match a
    case SaveFails(t, error) => ConcludedElsewhere(s, t, |s.tasks[t].visits| - 1, Some(error), id);
    case NodeFails(t, error) => ConcludedElsewhere(s, t, |s.tasks[t].visits|, Some(error), id);
    case Finish(t) => ConcludedElsewhere(s, t, |s.tasks[t].visits|, None, id);
    case RunFails(t) => RunsRemoved(s.tasks, t, id);
  }

  lemma {:induction false} TicketElsewhere(s: System, a: Action, id: Id)
    requires Enabled(s, a) && IsTicket(a) && Subject(s, a) != id
    ensures Of(Apply(s, a), id) == Of(s, id)
  {
  }

  /** A step changes nothing that concerns another conversation. */
  lemma {:induction false} OthersUntouched(s: System, a: Action, id: Id)
    requires Enabled(s, a) && Subject(s, a) != id
    ensures Of(Apply(s, a), id) == Of(s, id)
  {
    if IsBackend(a) {
      BackendElsewhere(s, a, id);
    } else if IsTicket(a) {
      TicketElsewhere(s, a, id);
    } else if IsEnd(a) {
      EndElsewhere(s, a, id);
    } else {
      RunElsewhere(s, a, id);
    }
  }

  // ----- and keeps the invariant of that conversation -----

  lemma {:induction false} NoRowIsBlank(v: Conv)
    requires Inv(v) && v.row.None?
    ensures Blank(v)
  {
  }

  lemma {:induction false} CreateStepKeeps(s: System, id: Id, message: string, username: Option<string>)
    requires Enabled(s, Create(id, message, username)) && Inv(Of(s, id))
    ensures Inv(Of(Apply(s, Create(id, message, username)), id))
  {
    hide Inv;
    NoRowIsBlank(Of(s, id));
    EventsAppend(s.store.chatEvents, ChatRequest(id, message, []), id);
    if NewChat(s.store, id, message, username).Ok? {
      CreateKeeps(id, message, username);
      var log := [UserMessage(message)];
      assert Of(Apply(s, Create(id, message, username)), id) ==
             Conv(id, Some(Chat(id, Some(message), log, IsActive, IsThinking)), Some(Row(Some(message), username, log)),
                  [ChatRequest(id, message, [])], map[], [], None, false, 0, false);
    } else {
      assert Apply(s, Create(id, message, username)) == s;
    }
  }

  lemma {:induction false} ContinueStepKeeps(s: System, id: Id, message: string)
    requires Enabled(s, Continue(id, message)) && Inv(Of(s, id))
    ensures Inv(Of(Apply(s, Continue(id, message)), id))
  {
    var v := Of(s, id);
    assert v.row.Some? && v.seen;
    LogOfIsLog(s, id);
    EventsAppend(s.store.chatEvents, ChatRequest(id, message, LogOf(v)), id);
    ContinueKeeps(v, message, Of(Apply(s, Continue(id, message)), id));
  }

  lemma {:induction false} StopStepKeeps(s: System, id: Id)
    requires Enabled(s, Stop(id)) && Inv(Of(s, id))
    ensures Inv(Of(Apply(s, Stop(id)), id))
  {
    var v := Of(s, id);
    if v.redis.Some? {
      StopKeeps(v, Of(Apply(s, Stop(id)), id));
    }
  }

  /** What a read does to its conversation. */
  lemma {:induction false} ReadOf(s: System, id: Id)
    ensures var v, v' := Of(s, id), Of(Apply(s, Read(id)), id);
            if v.row.Some? && Settled(v) then
              v' == v.(row := if v.redis.Some? then Some(v.row.value.(messages := v.redis.value.messages)) else v.row,
                       seen := true)
            else v' == v.(seen := v'.seen) && (v'.seen != v.seen ==> v.redis.Some? && Settled(v))
  {
  }

  lemma {:induction false} ReadStepKeeps(s: System, id: Id)
    requires Inv(Of(s, id))
    ensures Inv(Of(Apply(s, Read(id)), id))
  {
    var v := Of(s, id);
    ReadOf(s, id);
    if v.row.Some? && Settled(v) {
      ReadKeeps(v, Of(Apply(s, Read(id)), id));
    }
  }

  lemma {:induction false} PollStepKeeps(s: System, id: Id)
    requires Inv(Of(s, id))
    ensures Inv(Of(Apply(s, Poll(id)), id))
  {
    hide Inv;
    var v, v' := Of(s, id), Of(Apply(s, Poll(id)), id);
    if v.redis.Some? && Settled(v) {
      assert v' == v.(seen := true);
      SeenKeeps(v);
    } else {
      assert v' == v;
    }
  }

  lemma {:induction false} BackendStepKeeps(s: System, a: Action)
    requires Enabled(s, a) && IsBackend(a)
    requires Inv(Of(s, Subject(s, a)))
    ensures Inv(Of(Apply(s, a), Subject(s, a)))
  {
    hide Inv, Of;
    match a
    case Create(id, message, username) => CreateStepKeeps(s, id, message, username);
    case Continue(id, message) => ContinueStepKeeps(s, id, message);
    case Stop(id) => StopStepKeeps(s, id);
    case Read(id) => ReadStepKeeps(s, id);
    case Poll(id) => PollStepKeeps(s, id);
  }

  lemma {:induction false} RunStepKeeps(s: System, a: Action)
    requires Enabled(s, a) && !IsBackend(a) && !IsTicket(a) && !IsEnd(a)
    requires Inv(Of(s, Subject(s, a)))
    ensures Inv(Of(Apply(s, a), Subject(s, a)))
  {
    hide RunNode, Merge, Route, NodeText, Inv;
    var id := Subject(s, a);
    var v, v' := Of(s, id), Of(Apply(s, a), id);
    var t := a.task;
    if a.WriteReply? {
      RunsRemoved(s.tasks, t, id);
      WriteKeeps(v, t, v');
    } else if a.Spawn? {
      RunsUpdated(s.tasks, t, Started(s.store.chatEvents[0]), id);
      SpawnKeeps(v, t, v');
    } else if a.Fetch? {
      OnlyRun(v, t);
      RunsUpdated(s.tasks, t, Apply(s, a).tasks[t], id);
      FetchKeeps(v, t, v');
    } else if a.MarkThinking? {
      RunsUpdated(s.tasks, t, Apply(s, a).tasks[t], id);
      MarkKeeps(v, t, v');
    } else if a.RunNext? {
      RunsUpdated(s.tasks, t, Apply(s, a).tasks[t], id);
      RunPublishesOwn(s, t, a.answer, id);
      var task := s.tasks[t];
      var st := StateAfter(InitialState(task.request), task.visits);
      RunNextKeeps(v, t, Visit(NextNode(task.visits).value, st, a.answer), v');
    } else {
      RunsUpdated(s.tasks, t, Apply(s, a).tasks[t], id);
      SaveKeeps(v, t, v');
    }
  }

  /** What the end of a run does to its conversation. */
  lemma {:induction false} ConcludedOf(s: System, t: nat, recorded: nat, error: Option<string>, id: Id)
    requires t in s.tasks && (s.tasks[t].Working? || s.tasks[t].Unsaved?) && recorded <= |s.tasks[t].visits|
    requires id == s.tasks[t].request.conversationId
    ensures var v, task := Of(s, id), s.tasks[t];
            t in v.tasks && v.tasks[t] == task &&
            Of(Concluded(s, t, recorded, error), id) ==
            match Conclusion(task.visits, recorded, error)
            case None => v.(tasks := v.tasks - {t}, failed := v.failed || error.Some?)
            case Some(reply) =>
              v.(tasks := v.tasks[t := Replying(task.request, Replied(task.chat, reply), task.visits)])
  {
    var task := s.tasks[t];
    match Conclusion(task.visits, recorded, error)
    case None => RunsRemoved(s.tasks, t, id);
    case Some(reply) => RunsUpdated(s.tasks, t, Replying(task.request, Replied(task.chat, reply), task.visits), id);
  }

  /** The turn that a run makes if it ends with a reply. */
  lemma {:induction false} ConcludedTurn(request: ChatRequest, visits: seq<Visit>, recorded: nat, error: Option<string>)
    requires Path(InitialState(request), visits) && recorded <= |visits| && Ends(visits, recorded, error)
    requires Conclusion(visits, recorded, error).Some?
    ensures var turn := ClosedTurn(request, visits, recorded, error);
            turn.Valid() && IsReplyMessage(turn.Reply()) && MessageOk(turn.Reply(), false)
  {
    RunOutcome(request, visits, recorded, error);
    PrefixIsPath(InitialState(request), visits, recorded);
    ReplyIsWellMade(request, visits[..recorded], IntentOf(visits), CommentOf(visits), error);
  }

  lemma {:induction false} ConcludedKeeps(s: System, t: nat, recorded: nat, error: Option<string>, id: Id)
    requires t in s.tasks && (s.tasks[t].Working? || s.tasks[t].Unsaved?) && recorded <= |s.tasks[t].visits|
    requires id == s.tasks[t].request.conversationId && Inv(Of(s, id))
    requires Ends(s.tasks[t].visits, recorded, error)
    requires error.Some? ==> NextNode(s.tasks[t].visits).Some? || Published(s.tasks[t].visits) == []
    requires s.tasks[t].Unsaved? ==> error.Some?
    ensures Inv(Of(Concluded(s, t, recorded, error), id))
  {
    hide RunNode, Merge, Route, NodeText, Conclusion, Written, ClosedPart, LogOk;
    var v, v' := Of(s, id), Of(Concluded(s, t, recorded, error), id);
    var task := s.tasks[t];
    ConcludedOf(s, t, recorded, error, id);
    OnlyRun(v, t);
    assert TaskOk(v, task);
    RunOutcome(task.request, task.visits, recorded, error);
    if Conclusion(task.visits, recorded, error).Some? {
      ConcludedTurn(task.request, task.visits, recorded, error);
      ReplyKeeps(v, t, ClosedTurn(task.request, task.visits, recorded, error), v');
    } else if error.Some? {
      FailKeeps(v, t, v');
    } else {
      AcceptKeeps(v, t, v');
    }
  }

  lemma {:induction false} PrefixIsPath(init: GraphState, visits: seq<Visit>, k: nat)
    requires Path(init, visits) && k <= |visits|
    ensures Path(init, visits[..k])
  {
    if k < |visits| {
      PathAt(init, visits, k);
    } else {
      assert visits[..k] == visits;
    }
  }

  lemma {:induction false} CloseStepKeeps(s: System, error: Option<string>, result: Option<Extracted>)
    requires Enabled(s, CloseTurn(error, result))
    requires Inv(Of(s, s.ticket.value.event.conversationId))
    ensures Inv(Of(Apply(s, CloseTurn(error, result)), s.ticket.value.event.conversationId))
  {
    hide Inv;
    var id := s.ticket.value.event.conversationId;
    CloseKeeps(Of(s, id), error, result, Of(Apply(s, CloseTurn(error, result)), id));
  }

  lemma {:induction false} TicketStepKeeps(s: System, a: Action)
    requires Enabled(s, a) && IsTicket(a)
    requires Inv(Of(s, Subject(s, a)))
    ensures Inv(Of(Apply(s, a), Subject(s, a)))
  {
    hide Inv;
    var id := Subject(s, a);
    var v, v' := Of(s, id), Of(Apply(s, a), id);
    match a
    case PickAccept =>
      assert v.tasks == map[];
      PickKeeps(v, v');
    case LoadForTickets => LoadKeeps(v, v');
    case CloseTurn(error, result) => CloseStepKeeps(s, error, result);
    case TicketFails => TicketFailKeeps(v, v');
  }

  lemma {:induction false} RunFailsKeeps(s: System, t: nat)
    requires Enabled(s, RunFails(t)) && Inv(Of(s, s.tasks[t].request.conversationId))
    ensures Inv(Of(Apply(s, RunFails(t)), s.tasks[t].request.conversationId))
  {
    var id := s.tasks[t].request.conversationId;
    RunsRemoved(s.tasks, t, id);
    OnlyRun(Of(s, id), t);
    FailKeeps(Of(s, id), t, Of(Apply(s, RunFails(t)), id));
  }

  lemma {:induction false} EndStepKeeps(s: System, a: Action)
    requires Enabled(s, a) && IsEnd(a)
    requires Inv(Of(s, Subject(s, a)))
    ensures Inv(Of(Apply(s, a), Subject(s, a)))
  {
    hide Inv, Of, Concluded, Published, NextNode;
    match a
    case SaveFails(t, error) => ConcludedKeeps(s, t, |s.tasks[t].visits| - 1, Some(error), Subject(s, a));
    case NodeFails(t, error) => ConcludedKeeps(s, t, |s.tasks[t].visits|, Some(error), Subject(s, a));
    case Finish(t) => ConcludedKeeps(s, t, |s.tasks[t].visits|, None, Subject(s, a));
    case RunFails(t) => RunFailsKeeps(s, t);
  }

  lemma {:induction false} SubjectKeeps(s: System, a: Action)
    requires Enabled(s, a) && Inv(Of(s, Subject(s, a)))
    ensures Inv(Of(Apply(s, a), Subject(s, a)))
  {
    if IsBackend(a) {
      BackendStepKeeps(s, a);
    } else if IsTicket(a) {
      TicketStepKeeps(s, a);
    } else if IsEnd(a) {
      EndStepKeeps(s, a);
    } else {
      RunStepKeeps(s, a);
    }
  }

  /** One step keeps the invariant of every conversation. */
  lemma {:induction false} StepKeeps(s: System, a: Action, id: Id)
    requires Inv(Of(s, id))
    ensures Inv(Of(Step(s, a), id))
  {
    if Enabled(s, a) {
      if Subject(s, a) == id {
        SubjectKeeps(s, a);
      } else {
        OthersUntouched(s, a, id);
      }
    }
  }

  /** The invariant holds in every reachable state, for every conversation. */
  lemma {:induction false} Always(schedule: seq<Action>, id: Id)
    ensures Inv(Of(Exec(INITIAL, schedule), id))
  {
    if schedule == [] {
      assert RunsOf(INITIAL.tasks, id) == map[];
    } else {
      var n := |schedule| - 1;
      Always(schedule[..n], id);
      StepKeeps(Exec(INITIAL, schedule[..n]), schedule[n], id);
    }
  }
}
