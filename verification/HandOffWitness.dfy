/**
 Runs that show the protocol's rules at work: every path of the graph can be
 run, a conversation can reach an accepted plan, and the delivery rule for accept
 events cannot be dropped.
 */
module HandOffWitness {
  import opened Wrappers
  import opened Contracts
  import opened BackendChat
  import opened ArchitectGraph
  import opened ArchitectLog
  import opened ArchitectChat
  import opened TicketChat
  import opened HandOff
  import opened TurnHolder
  import opened HandOffProgress

  lemma {:induction false} ExecAppend(s: System, schedule: seq<Action>, a: Action)
    ensures Exec(s, schedule + [a]) == Step(Exec(s, schedule), a)
  {
    assert (schedule + [a])[..|schedule|] == schedule;
  }

  lemma {:induction false} ExecTwo(s: System, a: Action, b: Action)
    ensures Exec(s, [a, b]) == Step(Step(s, a), b)
  {
    ExecAppend(s, [], a);
    ExecAppend(s, [a], b);
    assert [] + [a] == [a] && [a] + [b] == [a, b];
  }

  // ----- single steps, spelled out -----

  lemma {:induction false} StepLoad(s: System, event: AcceptEvent)
    requires s.ticket == Some(TicketPicked(event)) && event.conversationId in s.store.redis
    ensures Step(s, LoadForTickets) ==
            s.(ticket := Some(TicketLoaded(event, Projected(s.store.redis[event.conversationId]))))
  {
  }

  lemma {:induction false} StepClose(s: System, event: AcceptEvent, chat: Chat)
    requires s.ticket == Some(TicketLoaded(event, chat))
    ensures Step(s, CloseTurn(None, None)).store.redis ==
            s.store.redis[event.conversationId := TurnClosed(chat, None, None)]
  {
  }

  lemma {:induction false} StepSave(s: System, t: nat, request: ChatRequest, chat: Chat, visits: seq<Visit>)
    requires t in s.tasks && s.tasks[t] == Unsaved(request, chat, visits)
    ensures Step(s, Save(t)) ==
            s.(tasks := s.tasks[t := Working(request, chat, visits)],
               store := s.store.(redis := s.store.redis[request.conversationId := chat]))
  {
  }

  lemma {:induction false} StepRun(s: System, t: nat, a: Answer)
    requires Enabled(s, RunNext(t, a))
    ensures Step(s, RunNext(t, a)) == ApplyRun(s, t, a)
  {
  }

  lemma {:induction false} StepSpawn(s: System, t: nat)
    requires t !in s.tasks && s.store.chatEvents != []
    ensures Step(s, Spawn(t)) ==
            s.(tasks := s.tasks[t := Started(s.store.chatEvents[0])],
               store := s.store.(chatEvents := s.store.chatEvents[1..]))
  {
  }

  lemma {:induction false} StepFetch(s: System, t: nat, request: ChatRequest)
    requires t in s.tasks && s.tasks[t] == Started(request) && request.conversationId in s.store.redis
    ensures Step(s, Fetch(t)) ==
            s.(tasks := s.tasks[t := Fetched(request, Loaded(s.store.redis[request.conversationId]))])
  {
  }

  lemma {:induction false} StepMark(s: System, t: nat, request: ChatRequest, chat: Chat)
    requires t in s.tasks && s.tasks[t] == Fetched(request, chat)
    ensures Step(s, MarkThinking(t)) ==
            s.(tasks := s.tasks[t := Working(request, chat, [])],
               store := s.store.(redis := s.store.redis[request.conversationId := chat]))
  {
  }

  lemma {:induction false} StepFinish(
    s: System, t: nat, request: ChatRequest, chat: Chat, visits: seq<Visit>, reply: Message)
    requires t in s.tasks && s.tasks[t] == Working(request, chat, visits) && NextNode(visits).None?
    requires Conclusion(visits, |visits|, None) == Some(reply)
    ensures Step(s, Finish(t)) == s.(tasks := s.tasks[t := Replying(request, Replied(chat, reply), visits)])
  {
  }

  lemma {:induction false} StepWrite(s: System, t: nat, request: ChatRequest, chat: Chat, visits: seq<Visit>)
    requires t in s.tasks && s.tasks[t] == Replying(request, chat, visits)
    ensures Step(s, WriteReply(t)) ==
            s.(tasks := s.tasks - {t}, store := s.store.(redis := s.store.redis[request.conversationId := chat]))
  {
  }

  // ----- without the delivery rule -----

  /** What the schedule of the race leads to, step by step. */
  datatype Race = Race(published: System, picked: System, loaded: System, saved: System, closed: System)

  function RaceFrom(s: System, t: nat, a: Answer): Race
    requires Enabled(s, RunNext(t, a)) && CanPick(ApplyRun(s, t, a))
  {
    var published := ApplyRun(s, t, a);
    var picked := ApplyPick(published);
    var loaded := Step(picked, LoadForTickets);
    var saved := Step(loaded, Save(t));
    Race(published, picked, loaded, saved, Step(saved, CloseTurn(None, None)))
  }

  /** A run that is about to read an accept, where its conversation shows a plan. */
  ghost predicate AboutToAccept(s: System, t: nat, a: Answer) {
    && t in s.tasks && s.tasks[t].Working? && s.tasks[t].visits == []
    && a.raises.None? && a.intent == Accept
    && LatestPlan(s.tasks[t].request.history).Some?
    && s.ticket.None? && s.store.acceptEvents == []
    && var id := s.tasks[t].request.conversationId;
    && id in s.store.redis && s.tasks[t].chat == s.store.redis[id]
  }

  /** The accept is published and logged in the private copy, but not saved. */
  lemma {:induction false} RacePublishes(s: System, t: nat, a: Answer)
    requires AboutToAccept(s, t, a)
    ensures Enabled(s, RunNext(t, a))
    ensures var task := s.tasks[t];
            var id := task.request.conversationId;
            ApplyRun(s, t, a) == s.(
              tasks := s.tasks[t := Unsaved(
                         task.request, task.chat.(messages := task.chat.messages + [ACCEPT_MESSAGE]),
                         [Visit(IntentNode, InitialState(task.request), a)])],
              store := s.store.(acceptEvents := [AcceptEvent(id, LatestPlan(task.request.history).value)]))
  {
    var visit := Visit(IntentNode, InitialState(s.tasks[t].request), a);
    assert visit.Output() == NOTHING.(userIntent := Some(Accept));
    assert [] + [visit] == [visit];
  }

  lemma {:induction false} RaceIsEarly(s: System, t: nat, a: Answer)
    requires AboutToAccept(s, t, a)
    ensures Enabled(s, RunNext(t, a)) && CanPick(ApplyRun(s, t, a)) && !Enabled(ApplyRun(s, t, a), PickAccept)
  {
    RacePublishes(s, t, a);
    assert t in ApplyRun(s, t, a).tasks;
  }

  /** From there on: picked and loaded, then saved by the run, then overwritten. */
  lemma {:induction false} RaceOverwrites(s: System, t: nat, a: Answer)
    requires AboutToAccept(s, t, a) && Enabled(s, RunNext(t, a)) && CanPick(ApplyRun(s, t, a))
    ensures var race, id := RaceFrom(s, t, a), s.tasks[t].request.conversationId;
            && Log(race.saved.store, id) == Log(s.store, id) + [ACCEPT_MESSAGE]
            && Log(race.closed.store, id) == EraseAll(Log(s.store, id)) + [TicketReply(None, None)]
  {
    RacePublishes(s, t, a);
    RaceSteps(s, t, a);
    var race, id := RaceFrom(s, t, a), s.tasks[t].request.conversationId;
    var live := s.store.redis[id];
    assert race.saved.store.redis[id] == live.(messages := live.messages + [ACCEPT_MESSAGE]);
    assert race.closed.store.redis[id] == TurnClosed(Projected(live), None, None);
  }

  lemma {:induction false} RaceSteps(s: System, t: nat, a: Answer)
    requires AboutToAccept(s, t, a) && Enabled(s, RunNext(t, a)) && CanPick(ApplyRun(s, t, a))
    ensures var race, id := RaceFrom(s, t, a), s.tasks[t].request.conversationId;
            var live := s.store.redis[id];
            && race.saved.store.redis == s.store.redis[id := live.(messages := live.messages + [ACCEPT_MESSAGE])]
            && race.closed.store.redis == race.saved.store.redis[id := TurnClosed(Projected(live), None, None)]
  {
    var race, task := RaceFrom(s, t, a), s.tasks[t];
    var live := s.store.redis[task.request.conversationId];
    RacePublishes(s, t, a);
    var event := race.published.store.acceptEvents[0];
    StepLoad(race.picked, event);
    var logged := live.(messages := live.messages + [ACCEPT_MESSAGE]);
    StepSave(race.loaded, t, task.request, logged, [Visit(IntentNode, InitialState(task.request), a)]);
    StepClose(race.saved, event, Projected(live));
  }

  /**
   If the ticket-agent picks an accept event up before the run that published it
   has saved, its whole-object save removes a message that was already in Redis.
   This happens from every state in which a run is about to accept a visible plan.
   */
  lemma {:induction false} EarlyDeliveryLosesMessage(s: System, t: nat, a: Answer)
    requires AboutToAccept(s, t, a)
    ensures Enabled(s, RunNext(t, a)) && CanPick(ApplyRun(s, t, a)) && !Enabled(ApplyRun(s, t, a), PickAccept)
    ensures var race, id := RaceFrom(s, t, a), s.tasks[t].request.conversationId;
            && Log(race.saved.store, id) == Log(s.store, id) + [ACCEPT_MESSAGE]
            && Log(race.closed.store, id) == EraseAll(Log(s.store, id)) + [TicketReply(None, None)]
            && !Extends(Log(race.saved.store, id), Log(race.closed.store, id))
  {
    var id := s.tasks[t].request.conversationId;
    RaceIsEarly(s, t, a);
    RaceOverwrites(s, t, a);
    DifferentLast(Log(s.store, id), ACCEPT_MESSAGE, TicketReply(None, None));
  }

  /**
   If the save of an accept fails after its event was published, the run also replies
   with the error: the user may go on while the ticket-agent still has the turn to come.
   */
  lemma {:induction false} FailedAcceptSharesTurn(s: System, t: nat, a: Answer, error: string)
    requires AboutToAccept(s, t, a) && error != ""
    ensures Enabled(s, RunNext(t, a)) && !Enabled(ApplyRun(s, t, a), SaveFails(t, error))
    ensures var task, id := s.tasks[t], s.tasks[t].request.conversationId;
            var replied := Step(Concluded(ApplyRun(s, t, a), t, 0, Some(error)), WriteReply(t));
            && replied.tasks == s.tasks - {t}
            && id in replied.store.redis && replied.store.redis[id].agentStatus.HasReplied?
            && replied.store.acceptEvents == [AcceptEvent(id, LatestPlan(task.request.history).value)]
  {
    RacePublishes(s, t, a);
    var task := s.tasks[t];
    var visits := [Visit(IntentNode, InitialState(task.request), a)];
    var published := ApplyRun(s, t, a);
    var chat := published.tasks[t].chat;
    var reply := ReplyMessage(Some(error), None, ReplyNode);
    assert visits[..0] == [];
    assert Conclusion(visits, 0, Some(error)) == Some(reply);
    var concluded := Concluded(published, t, 0, Some(error));
    StepWrite(concluded, t, task.request, Replied(chat, reply), visits);
    assert concluded.tasks - {t} == s.tasks - {t};
  }

  lemma {:induction false} DifferentLast(log: seq<Message>, m: Message, other: Message)
    requires Erase(m) != Erase(other)
    ensures !Extends(log + [m], EraseAll(log) + [other])
  {
    ExtendsAt(log + [m], EraseAll(log) + [other]);
    assert (log + [m])[|log|] == m && (EraseAll(log) + [other])[|log|] == other;
  }

  // ----- every path can be run -----

  /** `after` is `before` with the run `t` advanced by `visits` and everything saved. */
  ghost predicate Advanced(before: System, after: System, t: nat, visits: seq<Visit>)
    requires t in before.tasks && before.tasks[t].Working?
  {
    var task := before.tasks[t];
    var chat := task.chat.(messages := task.chat.messages + Thinking(visits));
    after == before.(
      tasks := before.tasks[t := Working(task.request, chat, visits)],
      store := before.store.(
        redis := if visits == [] then before.store.redis else before.store.redis[task.request.conversationId := chat],
        acceptEvents := before.store.acceptEvents + Published(visits)))
  }

  lemma {:induction false} AdvancedByNothing(s: System, t: nat)
    requires t in s.tasks && s.tasks[t].Working? && s.tasks[t].visits == []
    ensures Exec(s, []) == s && Advanced(s, s, t, [])
  {
    var task := s.tasks[t];
    assert task.chat.(messages := task.chat.messages + Thinking([])) == task.chat;
    assert s.tasks[t := task] == s.tasks;
  }

  /** Whatever the model answers, there is a schedule in which the run goes that way. */
  lemma {:induction false} PathCanRun(s: System, t: nat, visits: seq<Visit>) returns (schedule: seq<Action>)
    requires t in s.tasks && s.tasks[t].Working? && s.tasks[t].visits == []
    requires Path(InitialState(s.tasks[t].request), visits)
    requires forall i | 0 <= i < |visits| :: visits[i].answer.raises.None?
    ensures Advanced(s, Exec(s, schedule), t, visits)
  {
    hide *;
    if visits == [] {
      schedule := [];
      AdvancedByNothing(s, t);
    } else {
      var n := |visits| - 1;
      var front, last := visits[..n], visits[n];
      PathAt(InitialState(s.tasks[t].request), visits, n);
      schedule := PathCanRun(s, t, front);
      var before := Exec(s, schedule);
      AdvanceOne(s, before, t, front, last);
      ExecAppend(s, schedule, RunNext(t, last.answer));
      ExecAppend(s, schedule + [RunNext(t, last.answer)], Save(t));
      schedule := schedule + [RunNext(t, last.answer)] + [Save(t)];
      assert visits == front + [last];
    }
  }

  lemma {:induction false} AdvanceOne(s: System, before: System, t: nat, visits: seq<Visit>, v: Visit)
    requires t in s.tasks && s.tasks[t].Working? && s.tasks[t].visits == []
    requires Path(InitialState(s.tasks[t].request), visits) && Advanced(s, before, t, visits)
    requires NextNode(visits) == Some(v.node) && v.before == StateAfter(InitialState(s.tasks[t].request), visits)
    requires v.answer.raises.None?
    ensures Advanced(s, Step(Step(before, RunNext(t, v.answer)), Save(t)), t, visits + [v])
  {
    var task := s.tasks[t];
    AdvanceRuns(s, before, t, visits, v);
    var longer := task.chat.(messages := task.chat.messages + Thinking(visits + [v]));
    StepSave(Step(before, RunNext(t, v.answer)), t, task.request, longer, visits + [v]);
  }

  /** The run's next visit, logged in the private copy. */
  lemma {:induction false} AdvanceRuns(s: System, before: System, t: nat, visits: seq<Visit>, v: Visit)
    requires t in s.tasks && s.tasks[t].Working? && s.tasks[t].visits == []
    requires Path(InitialState(s.tasks[t].request), visits) && Advanced(s, before, t, visits)
    requires NextNode(visits) == Some(v.node) && v.before == StateAfter(InitialState(s.tasks[t].request), visits)
    requires v.answer.raises.None?
    ensures var task := s.tasks[t];
            var chat := task.chat.(messages := task.chat.messages + Thinking(visits + [v]));
            Step(before, RunNext(t, v.answer)) == before.(
              tasks := s.tasks[t := Unsaved(task.request, chat, visits + [v])],
              store := before.store.(acceptEvents := s.store.acceptEvents + Published(visits + [v])))
  {
    hide RunNode, Merge, Route, NodeText;
    var task := s.tasks[t];
    DriverStep(InitialState(task.request), visits, v);
    ThinkingAppend(visits, v);
    StepRun(before, t, v.answer);
    assert task.chat.messages + Thinking(visits) + [ThinkingMessage(v.node, v.Output())] ==
           task.chat.messages + Thinking(visits + [v]);
    assert s.store.acceptEvents + Published(visits)
           + (if v.node == IntentNode then AcceptsOf(v.before, v.answer) else [])
           == s.store.acceptEvents + Published(visits + [v]);
  }

  // ----- a conversation that gets as far as an accept -----

  const ACCEPTANCE := APPROVAL.(intent := Accept)

  /** The shortest full run: both reviews approve at once. */
  lemma {:induction false} ShortRun(request: ChatRequest) returns (visits: seq<Visit>)
    ensures Path(InitialState(request), visits) && NextNode(visits).None?
    ensures forall i | 0 <= i < |visits| :: visits[i].answer.raises.None?
    ensures Published(visits) == []
    ensures var end := Conclusion(visits, |visits|, None); end.Some? && IsVisiblePlan(end.value)
  {
    var init := InitialState(request);
    visits := [];
    assert Path(init, []) && NextNode([]) == Some(IntentNode);
    hide RunNode, Merge, Route, NodeText, Path, NextNode;
    visits := RunOn(init, visits, IntentNode);
    visits := RunOn(init, visits, SolutionNode);
    visits := RunOn(init, visits, SolutionReviewNode);
    visits := RunOn(init, visits, PlanNode);
    visits := RunOn(init, visits, PlanReviewNode);
    visits := RunOn(init, visits, ReplyNode);
    FinalReplyIsLast(init, visits);
    RunOutcome(request, visits, |visits|, None);
    assert visits[..|visits|] == visits;
  }

  /** One approved visit more. */
  lemma {:induction false} RunOn(init: GraphState, visits: seq<Visit>, node: NodeName) returns (longer: seq<Visit>)
    requires Path(init, visits) && NextNode(visits) == Some(node)
    requires forall i | 0 <= i < |visits| :: visits[i].answer == APPROVAL
    requires visits != [] ==> visits[0].node == IntentNode
    ensures Path(init, longer) && longer != [] && longer[|longer| - 1].node == node
    ensures forall i | 0 <= i < |longer| :: longer[i].answer == APPROVAL
    ensures longer[0].node == IntentNode
    ensures NextNode(longer) ==
            match node
            case IntentNode => Some(SolutionNode)
            case SolutionNode => Some(SolutionReviewNode)
            case SolutionReviewNode => Some(PlanNode)
            case PlanNode => Some(PlanReviewNode)
            case PlanReviewNode => Some(ReplyNode)
            case ReplyNode => None
  {
    longer := Extend(init, visits, APPROVAL);
    ExtendIsPath(init, visits, APPROVAL);
  }

  /** A queued event becomes a run that is ready for its first node. */
  lemma {:induction false} StartRun(s: System, request: ChatRequest)
    requires s.store.chatEvents == [request] && s.tasks == map[]
    requires request.conversationId in s.store.redis
    ensures var chat := Loaded(s.store.redis[request.conversationId]);
            Step(Step(Step(s, Spawn(0)), Fetch(0)), MarkThinking(0)) ==
            s.(tasks := map[0 := Working(request, chat, [])],
               store := s.store.(chatEvents := [], redis := s.store.redis[request.conversationId := chat]))
  {
    var chat := Loaded(s.store.redis[request.conversationId]);
    StepSpawn(s, 0);
    var spawned := Step(s, Spawn(0));
    StepFetch(spawned, 0, request);
    StepMark(Step(spawned, Fetch(0)), 0, request, chat);
  }

  /** A run that has reached its end writes its reply and leaves. */
  lemma {:induction false} EndRun(s: System, request: ChatRequest, chat: Chat, visits: seq<Visit>)
    requires s.tasks == map[0 := Working(request, chat, visits)] && NextNode(visits).None?
    requires Conclusion(visits, |visits|, None).Some?
    ensures Step(Step(s, Finish(0)), WriteReply(0)) ==
            s.(tasks := map[],
               store := s.store.(redis := s.store.redis[request.conversationId :=
                 Replied(chat, Conclusion(visits, |visits|, None).value)]))
  {
    var reply := Conclusion(visits, |visits|, None).value;
    StepFinish(s, 0, request, chat, visits, reply);
    StepWrite(Step(s, Finish(0)), 0, request, Replied(chat, reply), visits);
  }

  const C: Id := "c"

  /** After creation the first run is ready. */
  lemma {:induction false} Created() returns (schedule: seq<Action>, request: ChatRequest)
    ensures var s := Exec(INITIAL, schedule);
            && s.tasks.Keys == {0} && s.tasks[0].Working? && s.tasks[0].visits == []
            && s.tasks[0].request == request && request.conversationId == C
            && C in s.store.redis && s.store.chatEvents == [] && s.store.acceptEvents == []
            && s.ticket.None?
  {
    request := ChatRequest(C, "", []);
    var created := Step(INITIAL, Create(C, "", None));
    StartRun(created, request);
    ExecTwo(INITIAL, Create(C, "", None), Spawn(0));
    ExecAppend(INITIAL, [Create(C, "", None), Spawn(0)], Fetch(0));
    ExecAppend(INITIAL, [Create(C, "", None), Spawn(0)] + [Fetch(0)], MarkThinking(0));
    schedule := [Create(C, "", None), Spawn(0)] + [Fetch(0)] + [MarkThinking(0)];
  }

  lemma {:induction false} Ran(s: System, ran: System, request: ChatRequest, visits: seq<Visit>) returns (chat: Chat)
    requires s.tasks.Keys == {0} && s.tasks[0].Working? && s.tasks[0].visits == [] && s.tasks[0].request == request
    requires Advanced(s, ran, 0, visits) && Published(visits) == []
    ensures ran.tasks == map[0 := Working(request, chat, visits)] && ran.ticket == s.ticket
    ensures ran.store.chatEvents == s.store.chatEvents && ran.store.acceptEvents == s.store.acceptEvents
    ensures forall id | id in s.store.redis :: id in ran.store.redis
  {
    hide Path, NextNode, Thinking, Published;
    chat := ran.tasks[0].chat;
    assert s.tasks[0 := ran.tasks[0]] == map[0 := ran.tasks[0]];
  }

  /** Its plan is sent. */
  lemma {:induction false} Planned() returns (schedule: seq<Action>)
    ensures var s := Exec(INITIAL, schedule);
            && s.tasks == map[] && s.ticket.None?
            && C in s.store.redis && s.store.redis[C].agentStatus.HasReplied?
            && s.store.chatEvents == [] && s.store.acceptEvents == []
            && LatestPlan(s.store.redis[C].messages).Some?
  {
    hide Step, Exec, Advanced, Path, NextNode, Conclusion, Published;
    var first, request := Created();
    var s := Exec(INITIAL, first);
    var visits := ShortRun(request);
    var second := PathCanRun(s, 0, visits);
    var ran := Exec(s, second);
    ExecSplits(INITIAL, first, second);
    var chat := Ran(s, ran, request, visits);
    EndRun(ran, request, chat, visits);
    ExecAppend(INITIAL, first + second, Finish(0));
    ExecAppend(INITIAL, first + second + [Finish(0)], WriteReply(0));
    schedule := first + second + [Finish(0)] + [WriteReply(0)];
    LatestPlanSkips(chat.messages, Conclusion(visits, |visits|, None).value);
  }

  /** The state that the race starts from is reachable: the delivery rule is needed. */
  lemma {:induction false} DeliveryRuleIsNeeded() returns (schedule: seq<Action>)
    ensures AboutToAccept(Exec(INITIAL, schedule), 0, ACCEPTANCE)
    ensures Exec(INITIAL, schedule).tasks[0].request.conversationId == C
  {
    var planned := Planned();
    var s := Exec(INITIAL, planned);
    ExecAppend(INITIAL, planned, Poll(C));
    ExecAppend(INITIAL, planned + [Poll(C)], Continue(C, ""));
    var polled := Step(s, Poll(C));
    var continued := Step(polled, Continue(C, ""));
    var request := ChatRequest(C, "", s.store.redis[C].messages);
    assert continued.store.chatEvents == [request];
    StartRun(continued, request);
    var asked := planned + [Poll(C)] + [Continue(C, "")];
    ExecAppend(INITIAL, asked, Spawn(0));
    ExecAppend(INITIAL, asked + [Spawn(0)], Fetch(0));
    ExecAppend(INITIAL, asked + [Spawn(0)] + [Fetch(0)], MarkThinking(0));
    schedule := asked + [Spawn(0)] + [Fetch(0)] + [MarkThinking(0)];
  }
}
