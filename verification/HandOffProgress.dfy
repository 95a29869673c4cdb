/** The protocol does not get stuck: from where a turn can still get its reply, and from where it cannot. */
module HandOffProgress {
  import opened Wrappers
  import opened Contracts
  import opened BackendChat
  import opened ArchitectGraph
  import opened ArchitectLog
  import opened ArchitectChat
  import opened TicketChat
  import opened LogHistory
  import opened HandOff
  import opened TurnHolder
  import opened HandOffSafety
  import opened HandOffTheorems

  /** Nothing fails. */
  predicate Graceful(a: Action) {
    !a.SaveFails? && !a.NodeFails? && !a.RunFails? && !a.TicketFails?
  }

  ghost predicate AllGraceful(schedule: seq<Action>) {
    forall i | 0 <= i < |schedule| :: Graceful(schedule[i])
  }

  predicate HasRepliedNow(s: System, id: Id) {
    id in s.store.redis && s.store.redis[id].agentStatus.HasReplied?
  }

  /** Some continuation in which nothing fails gives the conversation its reply. */
  ghost predicate CanReply(s: System, id: Id) {
    exists more :: AllGraceful(more) && HasRepliedNow(Exec(s, more), id)
  }

  /** The invariant of every conversation. */
  ghost predicate AllInv(s: System) {
    forall id :: Inv(Of(s, id))
  }

  lemma {:induction false} StepKeepsAll(s: System, a: Action)
    requires AllInv(s)
    ensures AllInv(Step(s, a))
  {
    hide Inv, Of, Step;
    forall id ensures Inv(Of(Step(s, a), id)) {
      StepKeeps(s, a, id);
    }
  }

  lemma {:induction false} InvOf(s: System, id: Id)
    requires AllInv(s)
    ensures Inv(Of(s, id))
  {
    hide Inv, Of;
  }

  lemma {:induction false} OwnRun(s: System, t: nat)
    requires t in s.tasks
    ensures var v := Of(s, s.tasks[t].request.conversationId); t in v.tasks && v.tasks[t] == s.tasks[t]
  {
  }

  lemma {:induction false} RepliedAlready(s: System, id: Id)
    requires HasRepliedNow(s, id)
    ensures CanReply(s, id)
  {
    assert AllGraceful([]) && Exec(s, []) == s;
  }

  lemma {:induction false} ReplyAfter(s: System, a: Action, id: Id)
    requires Graceful(a) && CanReply(Step(s, a), id)
    ensures CanReply(s, id)
  {
    hide Step, HasRepliedNow;
    var more :| AllGraceful(more) && HasRepliedNow(Exec(Step(s, a), more), id);
    assert [a][..0] == [];
    assert Exec(s, [a]) == Step(Exec(s, []), a);
    ExecSplits(s, [a], more);
    assert AllGraceful([a] + more);
  }

  // ----- runs that cannot get there -----

  /** The run has accepted, where its history shows no plan. */
  predicate AcceptsNothing(task: Task) {
    && (task.Working? || task.Unsaved?)
    && task.visits != [] && task.visits[0].answer.intent == Accept
    && LatestPlan(task.request.history).None?
  }

  /** The turn is lost, or its run has accepted nothing and is about to lose it. */
  ghost predicate Doomed(v: Conv)
    requires v.redis.Some?
  {
    Lost(v) || exists t :: t in v.tasks && AcceptsNothing(v.tasks[t])
  }

  // ----- the ticket-agent -----

  lemma {:induction false} LoadedReplies(s: System, id: Id)
    requires AllInv(s) && TicketOf(s.ticket, id).Some? && s.ticket.value.TicketLoaded?
    ensures CanReply(s, id)
  {
    hide AllInv;
    RepliedAlready(Step(s, CloseTurn(None, None)), id);
    ReplyAfter(s, CloseTurn(None, None), id);
  }

  lemma {:induction false} TicketFindsChat(s: System, id: Id)
    requires AllInv(s) && TicketOf(s.ticket, id).Some?
    ensures id in s.store.redis && !Settled(Of(s, id))
    ensures Ticketing(Of(s, id))
  {
    hide Written, ClosedPart, LogOk;
    assert Inv(Of(s, id));
  }

  lemma {:induction false} PickedReplies(s: System, id: Id)
    requires AllInv(s) && TicketOf(s.ticket, id).Some?
    ensures CanReply(s, id)
  {
    hide AllInv, CanReply;
    if s.ticket.value.TicketLoaded? {
      LoadedReplies(s, id);
    } else {
      TicketFindsChat(s, id);
      StepKeepsAll(s, LoadForTickets);
      LoadedReplies(Step(s, LoadForTickets), id);
      ReplyAfter(s, LoadForTickets, id);
    }
  }

  // ----- an accept event in the queue -----

  /** How much the events before must still do: their runs to finish, and the ticket-agent to take them. */
  function RunLeft(s: System, id: Id): nat {
    if exists t :: t in s.tasks && s.tasks[t].request.conversationId == id && s.tasks[t].Unsaved? then 2
    else if NoRun(s, id) then 0 else 1
  }

  function TicketLeft(s: System): nat {
    match s.ticket
    case None => 0
    case Some(TicketPicked(_)) => 2
    case Some(TicketLoaded(_, _)) => 1
  }

  function AcceptsLeft(s: System): nat {
    6 * |s.store.acceptEvents| + TicketLeft(s)
    + if s.store.acceptEvents == [] then 0 else RunLeft(s, s.store.acceptEvents[0].conversationId)
  }

  /** A run with an event in the queue has only accepted; what is left is to save and to finish. */
  lemma {:induction false} AcceptingRunEnds(v: Conv, t: nat)
    requires Inv(v) && v.accepts != [] && t in v.tasks
    ensures v.tasks.Keys == {t}
    ensures v.tasks[t].Working? || v.tasks[t].Unsaved?
    ensures NextNode(v.tasks[t].visits).None? && Conclusion(v.tasks[t].visits, |v.tasks[t].visits|, None).None?
  {
    hide Written, ClosedPart, LogOk, RunNode, Merge, Route, NodeText;
    OnlyRun(v, t);
    var task := v.tasks[t];
    IntentIsAnswer(InitialState(task.request), task.visits);
    AcceptStops(InitialState(task.request), task.visits);
  }

  /** The conversation of an event in the queue has no second run. */
  lemma {:induction false} OnlyTask(s: System, other: Id, t: nat)
    requires Inv(Of(s, other)) && AcceptsFor(s.store.acceptEvents, other) != []
    requires t in s.tasks && s.tasks[t].request.conversationId == other
    ensures s.tasks[t].Working? || s.tasks[t].Unsaved?
    ensures NextNode(s.tasks[t].visits).None? && Conclusion(s.tasks[t].visits, |s.tasks[t].visits|, None).None?
    ensures forall u | u in s.tasks && s.tasks[u].request.conversationId == other :: u == t
  {
    hide Inv, Conclusion, NextNode;
    OwnRun(s, t);
    AcceptingRunEnds(Of(s, other), t);
    forall u | u in s.tasks && s.tasks[u].request.conversationId == other ensures u == t {
      OwnRun(s, u);
    }
  }

  lemma {:induction false} SaveMoves(s: System, t: nat)
    requires Enabled(s, Save(t))
    requires forall u | u in s.tasks && s.tasks[u].request.conversationId == s.tasks[t].request.conversationId :: u == t
    ensures RunLeft(Step(s, Save(t)), s.tasks[t].request.conversationId) < RunLeft(s, s.tasks[t].request.conversationId)
  {
    hide Path, NextNode, Conclusion;
  }

  lemma {:induction false} FinishMoves(s: System, t: nat)
    requires Enabled(s, Finish(t)) && Conclusion(s.tasks[t].visits, |s.tasks[t].visits|, None).None?
    requires forall u | u in s.tasks && s.tasks[u].request.conversationId == s.tasks[t].request.conversationId :: u == t
    ensures RunLeft(Step(s, Finish(t)), s.tasks[t].request.conversationId)
            < RunLeft(s, s.tasks[t].request.conversationId)
  {
    hide Path, NextNode, Conclusion;
    assert Step(s, Finish(t)).tasks == s.tasks - {t};
  }

  /** Another conversation's run before its accept is taken: one step of it, which changes nothing else. */
  lemma {:induction false} HeadRunMoves(s: System, other: Id, t: nat) returns (a: Action)
    requires AllInv(s) && AcceptsFor(s.store.acceptEvents, other) != []
    requires t in s.tasks && s.tasks[t].request.conversationId == other
    ensures Graceful(a) && Enabled(s, a) && Subject(s, a) == other
    ensures Step(s, a).store.acceptEvents == s.store.acceptEvents && Step(s, a).ticket == s.ticket
    ensures RunLeft(Step(s, a), other) < RunLeft(s, other)
  {
    hide Inv, AllInv, NextNode, Conclusion, RunLeft, Of;
    InvOf(s, other);
    OnlyTask(s, other, t);
    if s.tasks[t].Unsaved? {
      SaveMoves(s, t);
      a := Save(t);
    } else {
      FinishMoves(s, t);
      a := Finish(t);
    }
  }

  lemma {:induction false} AcceptedHasNoRun(s: System, id: Id, t: nat)
    requires Of(s, id).redis.Some? && Accepted(Of(s, id)) && t in s.tasks
    ensures s.tasks[t].request.conversationId != id
  {
    assert t !in Of(s, id).tasks;
  }

  lemma {:induction false} StaysAccepted(s: System, a: Action, id: Id)
    requires AllInv(s) && Of(s, id).redis.Some? && Accepted(Of(s, id))
    requires Enabled(s, a) && Subject(s, a) != id
    ensures AllInv(Step(s, a)) && Of(Step(s, a), id) == Of(s, id)
  {
    hide AllInv, Inv, Of;
    StepKeepsAll(s, a);
    OthersUntouched(s, a, id);
  }

  /** The ticket-agent takes the events one by one, and so gets to the conversation's own. */
  lemma {:induction false} AcceptedReplies(s: System, id: Id)
    requires AllInv(s) && Of(s, id).redis.Some? && Accepted(Of(s, id))
    ensures CanReply(s, id)
    decreases AcceptsLeft(s)
  {
    hide AllInv, CanReply, Inv;
    var a: Action;
    if s.ticket.Some? {
      a := BusyTicketMoves(s);
    } else {
      var head := s.store.acceptEvents[0].conversationId;
      AcceptIsOwn(s.store.acceptEvents, 0);
      if t :| t in s.tasks && s.tasks[t].request.conversationId == head {
        AcceptedHasNoRun(s, id, t);
        a := HeadRunMoves(s, head, t);
      } else {
        a := PickAccept;
        if head == id {
          StepKeepsAll(s, a);
          PickedReplies(Step(s, a), id);
          ReplyAfter(s, a, id);
          return;
        }
        PickIsProgress(s);
      }
    }
    StaysAccepted(s, a, id);
    AcceptedReplies(Step(s, a), id);
    ReplyAfter(s, a, id);
  }

  lemma {:induction false} PickIsProgress(s: System)
    requires Enabled(s, PickAccept)
    ensures AcceptsLeft(Step(s, PickAccept)) < AcceptsLeft(s)
  {
  }

  lemma {:induction false} BusyTicketMoves(s: System) returns (a: Action)
    requires AllInv(s) && s.ticket.Some?
    ensures Graceful(a) && Enabled(s, a) && Subject(s, a) == s.ticket.value.event.conversationId
    ensures Step(s, a).store.acceptEvents == s.store.acceptEvents && Step(s, a).tasks == s.tasks
    ensures TicketLeft(Step(s, a)) < TicketLeft(s)
  {
    hide AllInv;
    a := if s.ticket.value.TicketPicked? then LoadForTickets else CloseTurn(None, None);
  }

  // ----- a run of the architect-agent -----

  function Rank(next: Option<NodeName>): nat {
    match next
    case None => 0
    case Some(ReplyNode) => 1
    case Some(PlanReviewNode) => 2
    case Some(PlanNode) => 3
    case Some(SolutionReviewNode) => 4
    case Some(SolutionNode) => 5
    case Some(IntentNode) => 6
  }

  function TaskLeft(task: Task): nat {
    match task
    case Started(_) => 15
    case Fetched(_, _) => 14
    case Working(_, _, visits) => 2 * Rank(NextNode(visits))
    case Unsaved(_, _, visits) => 2 * Rank(NextNode(visits)) + 1
    case Replying(_, _, _) => 0
  }

  /** A model that plans and approves at once. */
  const APPROVAL := Answer(None, UserIntent.Plan, None, Solution("", []), true, [], [], "epic")

  lemma {:induction false} ApprovalAdvances(v: Visit)
    requires v.answer == APPROVAL
    ensures Rank(Route(v.node, v.After())) < Rank(Some(v.node))
  {
  }

  lemma {:induction false} RunNextAdvances(s: System, t: nat)
    requires Enabled(s, RunNext(t, APPROVAL)) && !AcceptsNothing(s.tasks[t])
    ensures t in Step(s, RunNext(t, APPROVAL)).tasks
    ensures var task := Step(s, RunNext(t, APPROVAL)).tasks[t];
            && task.Unsaved? && task.request == s.tasks[t].request
            && TaskLeft(task) < TaskLeft(s.tasks[t]) && !AcceptsNothing(task)
  {
    hide RunNode, Merge, Route, NodeText;
    var task := s.tasks[t];
    var visit := Visit(NextNode(task.visits).value, StateAfter(InitialState(task.request), task.visits), APPROVAL);
    ApprovalAdvances(visit);
    assert (task.visits + [visit])[|task.visits|] == visit;
  }

  lemma {:induction false} ReplyIsReady(v: Conv, t: nat)
    requires Inv(v) && t in v.tasks && v.tasks[t].Replying?
    ensures v.tasks[t].chat.agentStatus.HasReplied?
  {
    hide Written, ClosedPart, LogOk, WritesTurn, RunNode, Merge, Route, NodeText;
    OnlyRun(v, t);
  }

  lemma {:induction false} ReplyingReplies(s: System, t: nat)
    requires AllInv(s) && t in s.tasks && s.tasks[t].Replying?
    ensures CanReply(s, s.tasks[t].request.conversationId)
  {
    hide AllInv, Inv, CanReply, Of;
    var id := s.tasks[t].request.conversationId;
    InvOf(s, id);
    OwnRun(s, t);
    ReplyIsReady(Of(s, id), t);
    RepliedAlready(Step(s, WriteReply(t)), id);
    ReplyAfter(s, WriteReply(t), id);
  }

  /** A run that is at its end, and has not accepted nothing, leaves a reply to write or an accept in the queue. */
  lemma {:induction false} FinishReplies(s: System, t: nat)
    requires AllInv(s) && Enabled(s, Finish(t)) && !AcceptsNothing(s.tasks[t])
    ensures CanReply(s, s.tasks[t].request.conversationId)
  {
    hide CanReply, RunNode, Merge, Route, NodeText, Conclusion, Inv;
    var task := s.tasks[t];
    var id := task.request.conversationId;
    StepKeepsAll(s, Finish(t));
    assert Inv(Of(s, id));
    if Conclusion(task.visits, |task.visits|, None).Some? {
      assert Step(s, Finish(t)).tasks[t].Replying?;
      ReplyingReplies(Step(s, Finish(t)), t);
    } else {
      EndedInAccept(s, t);
      AcceptEnds(s, t);
      AcceptedReplies(Step(s, Finish(t)), id);
    }
    ReplyAfter(s, Finish(t), id);
  }

  lemma {:induction false} EndedInAccept(s: System, t: nat)
    requires Enabled(s, Finish(t)) && !AcceptsNothing(s.tasks[t])
    requires Inv(Of(s, s.tasks[t].request.conversationId))
    requires Conclusion(s.tasks[t].visits, |s.tasks[t].visits|, None).None?
    ensures IntentOf(s.tasks[t].visits) == Some(Accept) && LatestPlan(s.tasks[t].request.history).Some?
  {
    hide Written, ClosedPart, LogOk, RunNode, Merge, Route, NodeText;
    var task := s.tasks[t];
    var v := Of(s, task.request.conversationId);
    assert t in v.tasks;
    OnlyRun(v, t);
    RunOutcome(task.request, task.visits, |task.visits|, None);
  }

  /** One step of the run's own, until there is a reply to write or an accept to wait for. */
  lemma {:induction false} RunReplies(s: System, t: nat)
    requires AllInv(s) && t in s.tasks && !AcceptsNothing(s.tasks[t])
    ensures CanReply(s, s.tasks[t].request.conversationId)
    decreases TaskLeft(s.tasks[t])
  {
    hide AllInv, CanReply, RunNode, Merge, Route, NodeText;
    var task := s.tasks[t];
    var id := task.request.conversationId;
    if task.Replying? {
      ReplyingReplies(s, t);
    } else if task.Working? && NextNode(task.visits).None? {
      FinishReplies(s, t);
    } else {
      var a := NextOf(s, t);
      StepKeepsAll(s, a);
      RunReplies(Step(s, a), t);
      ReplyAfter(s, a, id);
    }
  }

  /** The next step of a run that is not at its end. */
  lemma {:induction false} NextOf(s: System, t: nat) returns (a: Action)
    requires AllInv(s) && t in s.tasks && !AcceptsNothing(s.tasks[t]) && !s.tasks[t].Replying?
    requires s.tasks[t].Working? ==> NextNode(s.tasks[t].visits).Some?
    ensures Graceful(a) && t in Step(s, a).tasks
    ensures var task := Step(s, a).tasks[t];
            && task.request == s.tasks[t].request
            && TaskLeft(task) < TaskLeft(s.tasks[t]) && !AcceptsNothing(task)
  {
    hide Inv, RunNode, Merge, Route, NodeText, NextNode, TaskLeft, Path;
    var task := s.tasks[t];
    if task.Started? {
      RunFindsChat(s, t);
      a := Fetch(t);
      assert Step(s, a).tasks[t].Fetched?;
    } else if task.Fetched? {
      a := MarkThinking(t);
      assert Step(s, a).tasks[t].Working? && Step(s, a).tasks[t].visits == [];
    } else if task.Unsaved? {
      a := Save(t);
      assert Step(s, a).tasks[t] == Working(task.request, task.chat, task.visits);
    } else {
      a := RunNext(t, APPROVAL);
      RunNextAdvances(s, t);
    }
    LessLeft(s.tasks[t], Step(s, a).tasks[t]);
  }

  lemma {:induction false} RunFindsChat(s: System, t: nat)
    requires AllInv(s) && t in s.tasks
    ensures s.tasks[t].request.conversationId in s.store.redis
  {
    hide AllInv, Inv;
    var id := s.tasks[t].request.conversationId;
    InvOf(s, id);
    OwnRun(s, t);
    OnlyRun(Of(s, id), t);
  }

  lemma {:induction false} LessLeft(before: Task, after: Task)
    ensures before.Started? && after.Fetched? ==> TaskLeft(after) < TaskLeft(before)
    ensures before.Fetched? && after.Working? && after.visits == [] ==> TaskLeft(after) < TaskLeft(before)
    ensures before.Unsaved? && after.Working? && after.visits == before.visits ==> TaskLeft(after) < TaskLeft(before)
  {
  }

  // ----- a chat event in the queue -----

  lemma {:induction false} FreshTask(tasks: map<nat, Task>) returns (t: nat)
    ensures t !in tasks
  {
    t := Above(tasks.Keys);
    assert t !in tasks.Keys;
  }

  lemma {:induction false} Above(keys: set<nat>) returns (t: nat)
    ensures forall k | k in keys :: k < t
    decreases keys
  {
    if keys == {} {
      t := 0;
    } else {
      var k :| k in keys;
      var u := Above(keys - {k});
      t := if k < u then u else k + 1;
      forall j | j in keys ensures j < t {
        assert j == k || j in keys - {k};
      }
    }
  }

  /** The events before are taken first; their runs need not have finished. */
  lemma {:induction false} QueuedReplies(s: System, id: Id)
    requires AllInv(s) && EventsOf(s.store.chatEvents, id) != []
    ensures CanReply(s, id)
    decreases |s.store.chatEvents|
  {
    hide AllInv, CanReply;
    var t := FreshTask(s.tasks);
    StepKeepsAll(s, Spawn(t));
    if s.store.chatEvents[0].conversationId == id {
      RunReplies(Step(s, Spawn(t)), t);
    } else {
      QueuedReplies(Step(s, Spawn(t)), id);
    }
    ReplyAfter(s, Spawn(t), id);
  }

  // ----- and where there is no reply to come -----

  lemma {:induction false} DoomedRun(v: Conv, t: nat)
    requires Inv(v) && t in v.tasks && AcceptsNothing(v.tasks[t])
    ensures v.redis.Some? && v.tasks.Keys == {t} && v.events == [] && v.accepts == [] && v.ticket.None?
    ensures NextNode(v.tasks[t].visits).None? && !v.seen && v.row.Some? && !Settled(v)
  {
    hide Written, ClosedPart, LogOk, RunNode, Merge, Route, NodeText;
    OnlyRun(v, t);
    var task := v.tasks[t];
    IntentIsAnswer(InitialState(task.request), task.visits);
    AcceptStops(InitialState(task.request), task.visits);
    AcceptLog(task.request, task.visits);
  }

  /** Only three kinds of step are left to a run that has accepted nothing: its save, its end, and reads. */
  lemma {:induction false} DoomedRunStep(s: System, a: Action, id: Id, t: nat)
    requires Inv(Of(s, id)) && t in Of(s, id).tasks && AcceptsNothing(Of(s, id).tasks[t])
    requires Enabled(s, a) && Subject(s, a) == id && Graceful(a)
    ensures a == Save(t) || a == Finish(t) || a.Read? || a.Poll?
  {
    DoomedRun(Of(s, id), t);
    hide Inv, RunNode, Merge, Route, NodeText;
    if !IsBackend(a) {
      StepHasHolder(s, a);
    }
  }

  /** Whose turn each agent's step takes. */
  lemma {:induction false} StepHasHolder(s: System, a: Action)
    requires Enabled(s, a) && !IsBackend(a)
    ensures var v := Of(s, Subject(s, a));
            if a.Spawn? then v.events != []
            else if a.PickAccept? then v.accepts != []
            else if IsTicket(a) then v.ticket.Some?
            else a.task in v.tasks
  {
    if a.Spawn? {
      EventIsOwn(s.store.chatEvents, 0);
    } else if a.PickAccept? {
      AcceptIsOwn(s.store.acceptEvents, 0);
    }
  }

  lemma {:induction false} DoomedRunStays(s: System, a: Action, id: Id, t: nat)
    requires Inv(Of(s, id)) && t in Of(s, id).tasks && AcceptsNothing(Of(s, id).tasks[t])
    requires Enabled(s, a) && Subject(s, a) == id && Graceful(a)
    ensures Of(Step(s, a), id).redis.Some? && Doomed(Of(Step(s, a), id))
  {
    hide Inv, RunNode, Merge, Route, NodeText, Lost, NextNode;
    DoomedRunStep(s, a, id, t);
    DoomedRun(Of(s, id), t);
    if a.Finish? {
      FinishLoses(s, id, t);
    } else {
      assert t in Step(s, a).tasks && AcceptsNothing(Step(s, a).tasks[t]);
      OwnRun(Step(s, a), t);
    }
  }

  lemma {:induction false} FinishLoses(s: System, id: Id, t: nat)
    requires Inv(Of(s, id)) && t in Of(s, id).tasks && AcceptsNothing(Of(s, id).tasks[t])
    requires Enabled(s, Finish(t)) && s.tasks[t].request.conversationId == id
    ensures Of(Step(s, Finish(t)), id).redis.Some? && Doomed(Of(Step(s, Finish(t)), id))
  {
    hide Inv, RunNode, Merge, Route, NodeText, Lost, NextNode, Accepted;
    AcceptEnds(s, t);
  }

  lemma {:induction false} LostStays(s: System, a: Action, id: Id)
    requires Inv(Of(s, id)) && Of(s, id).redis.Some? && !Settled(Of(s, id)) && Lost(Of(s, id))
    ensures Of(Step(s, a), id) == Of(s, id)
  {
    hide Written, ClosedPart, LogOk, HolderOk;
    LostStep(s, a, id);
  }

  lemma {:induction false} DoomedStays(s: System, a: Action, id: Id)
    requires Inv(Of(s, id)) && IsThinkingNow(s, id) && Doomed(Of(s, id)) && Graceful(a)
    ensures IsThinkingNow(Step(s, a), id) && Doomed(Of(Step(s, a), id))
  {
    var v := Of(s, id);
    StepKeeps(s, a, id);
    if Lost(v) {
      LostStays(s, a, id);
      SameConv(s, Step(s, a), id);
    } else if Enabled(s, a) {
      if Subject(s, a) != id {
        OthersUntouched(s, a, id);
        SameConv(s, Step(s, a), id);
      } else {
        var t :| t in v.tasks && AcceptsNothing(v.tasks[t]);
        DoomedRunStays(s, a, id, t);
        DoomedThinks(Step(s, a), id);
      }
    }
  }

  lemma {:induction false} SameConv(s: System, s': System, id: Id)
    requires Of(s', id) == Of(s, id)
    ensures IsThinkingNow(s', id) == IsThinkingNow(s, id)
  {
    assert Lookup(s.store.redis, id) == Lookup(s'.store.redis, id);
  }

  lemma {:induction false} LostIsUnsettled(v: Conv)
    requires Inv(v) && v.redis.Some? && Lost(v)
    ensures !Settled(v)
  {
    hide Written, ClosedPart, LogOk;
  }

  lemma {:induction false} DoomedThinks(s: System, id: Id)
    requires Inv(Of(s, id)) && Of(s, id).redis.Some? && Doomed(Of(s, id))
    ensures IsThinkingNow(s, id)
  {
    hide Inv;
    var v := Of(s, id);
    if Lost(v) {
      LostIsUnsettled(v);
    } else {
      var t :| t in v.tasks && AcceptsNothing(v.tasks[t]);
      DoomedRun(v, t);
    }
  }

  lemma {:induction false} DoomedForEver(s: System, more: seq<Action>, id: Id)
    requires Inv(Of(s, id)) && IsThinkingNow(s, id) && Doomed(Of(s, id)) && AllGraceful(more)
    ensures Inv(Of(Exec(s, more), id)) && IsThinkingNow(Exec(s, more), id) && Doomed(Of(Exec(s, more), id))
  {
    hide Inv, Doomed, Step, Of;
    if more != [] {
      var n := |more| - 1;
      DoomedForEver(s, more[..n], id);
      DoomedStays(Exec(s, more[..n]), more[n], id);
      StepKeeps(Exec(s, more[..n]), more[n], id);
    }
  }

  // ----- the theorem -----

  /** Who holds an open turn that is not doomed. */
  lemma {:induction false} HolderReplies(s: System, id: Id)
    requires AllInv(s) && IsThinkingNow(s, id) && !Doomed(Of(s, id))
    ensures CanReply(s, id)
  {
    var v := Of(s, id);
    hide AllInv, CanReply, Written, ClosedPart, LogOk;
    InvOf(s, id);
    if Queued(v) {
      QueuedReplies(s, id);
    } else if Running(v) {
      var t :| v.tasks.Keys == {t} && TaskOk(v, v.tasks[t]);
      assert t in v.tasks && !AcceptsNothing(v.tasks[t]);
      RunReplies(s, t);
    } else if Accepted(v) {
      AcceptedReplies(s, id);
    } else {
      PickedReplies(s, id);
    }
  }

  /**
   From every reachable state an open turn can still get its reply, without anything
   failing, if and only if it is not lost and its run has not accepted where no plan
   was visible.
   */
  lemma {:induction false} RepliesIfAndOnlyIfNotDoomed(schedule: seq<Action>, id: Id)
    requires IsThinkingNow(Exec(INITIAL, schedule), id)
    ensures CanReply(Exec(INITIAL, schedule), id) <==> !Doomed(Of(Exec(INITIAL, schedule), id))
  {
    hide Exec, Inv, Doomed;
    var s := Exec(INITIAL, schedule);
    forall c ensures Inv(Of(s, c)) {
      Always(schedule, c);
    }
    if Doomed(Of(s, id)) {
      if CanReply(s, id) {
        var more :| AllGraceful(more) && HasRepliedNow(Exec(s, more), id);
        DoomedForEver(s, more, id);
      }
    } else {
      HolderReplies(s, id);
    }
  }

  // ----- what a client can do -----

  /** A client that has seen the reply can continue, and can stop if the key is there; whoever looks can see a reply. */
  lemma {:induction false} ClientCanGoOn(schedule: seq<Action>, id: Id, message: string)
    requires id in Exec(INITIAL, schedule).seen
    ensures var s := Exec(INITIAL, schedule);
            var continued, stopped := Step(s, Continue(id, message)), Step(s, Stop(id));
            && IsThinkingNow(continued, id) && id !in continued.seen
            && Log(continued.store, id) == Log(s.store, id) + [UserMessage(message)]
            && id !in stopped.store.redis && id in stopped.seen
            && Log(stopped.store, id) == Log(s.store, id)
            && id in stopped.store.rows && stopped.store.rows[id].messages == Log(s.store, id)
  {
    hide Written, ClosedPart, LogOk, HolderOk;
    var s := Exec(INITIAL, schedule);
    Always(schedule, id);
  }

  /** A conversation can be created under every id that is not used, and each read or poll of a reply is noticed. */
  lemma {:induction false} ClientCanStart(s: System, id: Id, message: string, username: Option<string>)
    ensures id !in s.store.rows && |message| <= 500 && (username.Some? ==> |username.value| <= 255) ==>
              Step(s, Create(id, message, username)).store == NewChat(s.store, id, message, username).value
    ensures HasRepliedNow(s, id) ==> id in Step(s, Read(id)).seen && id in Step(s, Poll(id)).seen
    ensures id !in s.store.redis && id in s.store.rows ==> id in Step(s, Read(id)).seen
    ensures Step(s, Poll(id)).store == s.store && Step(s, Read(id)).store == AfterGet(s.store, id)
  {
  }

  // ----- what a failure leads to -----

  /** The reply of a run that was broken off by an exception with a text. */
  predicate TellsError(m: Message, error: string) {
    m.actor.Agent? && m.agentStatus == Some(HasReplied) && m.content == Text("Error: " + error)
  }

  lemma {:induction false} BrokenRunTells(s: System, t: nat, recorded: nat, error: string)
    requires t in s.tasks && (s.tasks[t].Working? || s.tasks[t].Unsaved?) && recorded <= |s.tasks[t].visits|
    requires Inv(Of(s, s.tasks[t].request.conversationId)) && error != ""
    requires Ends(s.tasks[t].visits, recorded, Some(error))
    ensures var reply := Conclusion(s.tasks[t].visits, recorded, Some(error));
            reply.Some? && TellsError(reply.value, error)
  {
    hide Inv, RunNode, Merge, Route, NodeText, NextNode, Path, Conclusion;
    var task := s.tasks[t];
    OwnRun(s, t);
    OnlyRun(Of(s, task.request.conversationId), t);
    RunOutcome(task.request, task.visits, recorded, Some(error));
    ReplyTellsOutcome(task.request, task.visits, recorded, Some(error));
  }

  lemma {:induction false} BrokenRunReplies(s: System, t: nat, recorded: nat, error: string)
    requires t in s.tasks && (s.tasks[t].Working? || s.tasks[t].Unsaved?) && recorded <= |s.tasks[t].visits|
    requires Inv(Of(s, s.tasks[t].request.conversationId)) && error != ""
    requires Ends(s.tasks[t].visits, recorded, Some(error))
    ensures var task := s.tasks[t];
            var after := Step(Concluded(s, t, recorded, Some(error)), WriteReply(t));
            var id := task.request.conversationId;
            && after.tasks == s.tasks - {t} && after.failed == s.failed
            && HasRepliedNow(after, id)
            && var log := after.store.redis[id].messages;
               && |log| == |task.chat.messages| + 1 && task.chat.messages <= log
               && TellsError(log[|log| - 1], error)
  {
    hide Inv, RunNode, Merge, Route, NodeText, NextNode, Path, Conclusion, Of, Ends;
    var task := s.tasks[t];
    BrokenRunTells(s, t, recorded, error);
    var concluded := Concluded(s, t, recorded, Some(error));
    assert concluded.tasks[t] ==
           Replying(task.request, Replied(task.chat, Conclusion(task.visits, recorded, Some(error)).value),
                    task.visits);
    assert concluded.tasks - {t} == s.tasks - {t};
  }

  /** Whenever a run is about to execute a node, an exception of that node can end it, and its text is the reply. */
  lemma {:induction false} NodeFailureIsTold(schedule: seq<Action>, t: nat, error: string)
    requires var s := Exec(INITIAL, schedule);
             t in s.tasks && s.tasks[t].Working? && NextNode(s.tasks[t].visits).Some? && error != ""
    ensures var s := Exec(INITIAL, schedule);
            var id := s.tasks[t].request.conversationId;
            var after := Step(Step(s, NodeFails(t, error)), WriteReply(t));
            && HasRepliedNow(after, id)
            && var log := after.store.redis[id].messages;
               log != [] && TellsError(log[|log| - 1], error) && s.tasks[t].chat.messages <= log
  {
    hide Inv, NextNode, Exec, Step, Concluded, TellsError, HasRepliedNow;
    var s := Exec(INITIAL, schedule);
    Always(schedule, s.tasks[t].request.conversationId);
    NodeFailureConcludes(s, t, error);
    BrokenRunReplies(s, t, |s.tasks[t].visits|, error);
  }

  lemma {:induction false} NodeFailureConcludes(s: System, t: nat, error: string)
    requires t in s.tasks && s.tasks[t].Working? && NextNode(s.tasks[t].visits).Some?
    ensures Step(s, NodeFails(t, error)) == Concluded(s, t, |s.tasks[t].visits|, Some(error))
  {
    hide NextNode, Concluded;
  }

  /** So can a failed save, unless the run has published an accept; what was not saved is saved with the reply. */
  lemma {:induction false} SaveFailureIsTold(schedule: seq<Action>, t: nat, error: string)
    requires var s := Exec(INITIAL, schedule);
             t in s.tasks && s.tasks[t].Unsaved? && Published(s.tasks[t].visits) == [] && error != ""
    ensures var s := Exec(INITIAL, schedule);
            var id := s.tasks[t].request.conversationId;
            var after := Step(Step(s, SaveFails(t, error)), WriteReply(t));
            && HasRepliedNow(after, id)
            && var log := after.store.redis[id].messages;
               log != [] && TellsError(log[|log| - 1], error) && s.tasks[t].chat.messages <= log
  {
    hide Inv, NextNode, Published, Exec, TellsError, HasRepliedNow;
    var s := Exec(INITIAL, schedule);
    Always(schedule, s.tasks[t].request.conversationId);
    UnsavedHasVisits(s, t);
    SaveFailureConcludes(s, t, error);
    BrokenRunReplies(s, t, |s.tasks[t].visits| - 1, error);
  }

  lemma {:induction false} SaveFailureConcludes(s: System, t: nat, error: string)
    requires t in s.tasks && s.tasks[t].Unsaved? && s.tasks[t].visits != [] && Published(s.tasks[t].visits) == []
    ensures Step(s, SaveFails(t, error)) == Concluded(s, t, |s.tasks[t].visits| - 1, Some(error))
  {
    hide Published, Concluded;
  }

  lemma {:induction false} UnsavedHasVisits(s: System, t: nat)
    requires t in s.tasks && s.tasks[t].Unsaved? && Inv(Of(s, s.tasks[t].request.conversationId))
    ensures s.tasks[t].visits != []
  {
    hide Inv;
    OwnRun(s, t);
    OnlyRun(Of(s, s.tasks[t].request.conversationId), t);
  }

  /** A failed load, thinking mark or last write of a run loses the turn, whenever there is one to fail. */
  lemma {:induction false} RunFailureLoses(schedule: seq<Action>, t: nat)
    requires var s := Exec(INITIAL, schedule);
             t in s.tasks && (s.tasks[t].Started? || s.tasks[t].Fetched? || s.tasks[t].Replying?)
    ensures var s := Exec(INITIAL, schedule);
            var id := s.tasks[t].request.conversationId;
            var after := Step(s, RunFails(t));
            && after.store == s.store && after.tasks == s.tasks - {t}
            && IsThinkingNow(after, id) && Tokens(after, id) == 0 && id in after.failed
  {
    hide Inv;
    var s := Exec(INITIAL, schedule);
    var id := s.tasks[t].request.conversationId;
    assert (schedule + [RunFails(t)])[..|schedule|] == schedule;
    SingleTurnHolder(schedule + [RunFails(t)], id);
  }

  /** So does a failed load or save of the ticket-agent. */
  lemma {:induction false} TicketFailureLoses(schedule: seq<Action>)
    requires Exec(INITIAL, schedule).ticket.Some?
    ensures var s := Exec(INITIAL, schedule);
            var id := s.ticket.value.event.conversationId;
            var after := Step(s, TicketFails);
            && after.store == s.store && after.ticket == None
            && IsThinkingNow(after, id) && Tokens(after, id) == 0 && id in after.failed
  {
    hide Inv;
    var s := Exec(INITIAL, schedule);
    var id := s.ticket.value.event.conversationId;
    assert (schedule + [TicketFails])[..|schedule|] == schedule;
    SingleTurnHolder(schedule + [TicketFails], id);
  }
}
