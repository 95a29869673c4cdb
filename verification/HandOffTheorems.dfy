/** What the protocol guarantees, over every schedule and for every conversation. */
module HandOffTheorems {
  import opened Wrappers
  import opened Contracts
  import opened TurnLog
  import opened BackendChat
  import opened ArchitectGraph
  import opened ArchitectLog
  import opened LogHistory
  import opened TicketChat
  import opened HandOff
  import opened TurnHolder
  import opened HandOffSafety
  import ChatView

  /** The key is in Redis and the agent has not replied yet. */
  predicate IsThinkingNow(s: System, id: Id) {
    id in s.store.redis && s.store.redis[id].agentStatus.IsThinking?
  }

  // ----- at most one party holds the turn -----

  /**
   Everything that could still write to a conversation: queued chat events, runs
   of the architect-agent, accept events that may be delivered, and the
   ticket-agent's run.
   */
  function Tokens(s: System, id: Id): nat {
    |EventsOf(s.store.chatEvents, id)| + |RunsOf(s.tasks, id)|
    + (if NoRun(s, id) then |AcceptsFor(s.store.acceptEvents, id)| else 0)
    + (if TicketOf(s.ticket, id).Some? then 1 else 0)
  }

  lemma {:induction false} NoRunIsEmpty(s: System, id: Id)
    ensures NoRun(s, id) <==> RunsOf(s.tasks, id) == map[]
  {
    if !NoRun(s, id) {
      var t :| t in s.tasks && s.tasks[t].request.conversationId == id;
      assert t in RunsOf(s.tasks, id);
    }
  }

  lemma {:induction false} OneKey(m: map<nat, Task>, t: nat)
    requires m.Keys == {t}
    ensures |m| == 1
  {
    assert |m.Keys| == 1;
  }

  /**
   In every reachable state a conversation has at most one turn-holder, and none
   at all while it waits for its user. While the agent is thinking it has exactly
   one, unless the turn was lost: to an accept of nothing, or to a failed access to Redis.
   */
  lemma {:induction false} SingleTurnHolder(schedule: seq<Action>, id: Id)
    ensures var s := Exec(INITIAL, schedule);
            && Tokens(s, id) <= 1
            && (!IsThinkingNow(s, id) ==> Tokens(s, id) == 0 && AcceptsFor(s.store.acceptEvents, id) == [])
            && (IsThinkingNow(s, id) ==>
                  && (Tokens(s, id) == 0 <==> Lost(Of(s, id)))
                  && (Tokens(s, id) == 0 ==> id in s.failed || AcceptedNothing(s.store.redis[id].messages)))
            && (id in s.failed ==> IsThinkingNow(s, id) && Tokens(s, id) == 0)
  {
    hide Written, ClosedPart, LogOk;
    var s := Exec(INITIAL, schedule);
    var v := Of(s, id);
    Always(schedule, id);
    NoRunIsEmpty(s, id);
    if v.row.Some? && !Settled(v) {
      if Running(v) {
        var t :| v.tasks.Keys == {t} && TaskOk(v, v.tasks[t]);
        OneKey(v.tasks, t);
        assert t in v.tasks;
      }
    }
  }

  /**
   The backend does not check that the client has seen the reply: a continue
   always succeeds and always adds a holder. The turn then has one holder exactly if
   nobody held it before, and the log is one of turns exactly if none was open.
   */
  lemma {:induction false} UnguardedContinue(schedule: seq<Action>, id: Id, message: string)
    requires id in Exec(INITIAL, schedule).store.rows
    ensures var s := Exec(INITIAL, schedule);
            var r := ContinueChat(s.store, id, message);
            && r.Ok?
            && var after := s.(store := r.value);
               && Tokens(after, id) == Tokens(s, id) + 1
               && (Tokens(after, id) <= 1 <==> (IsThinkingNow(s, id) ==> Lost(Of(s, id))))
               && (Scan(Log(after.store, id)) != Broken <==> !IsThinkingNow(s, id))
  {
    hide Written, ClosedPart, LogOk;
    var s := Exec(INITIAL, schedule);
    SingleTurnHolder(schedule, id);
    Always(schedule, id);
    LogOfIsLog(s, id);
    ScanAppend(Log(s.store, id), UserMessage(message));
    EventsAppend(s.store.chatEvents, ChatRequest(id, message, Log(s.store, id)), id);
    assert NoRun(s.(store := ContinueChat(s.store, id, message).value), id) == NoRun(s, id);
  }

  /**
   Nor does it check a stop, which always succeeds and never changes the log or the
   holders. What it leaves behind waits for its user, as a stopped conversation
   should, exactly if no turn was open, and nobody holds it exactly if nobody did before.
   */
  lemma {:induction false} UnguardedStop(schedule: seq<Action>, id: Id)
    requires id in Exec(INITIAL, schedule).store.redis
    ensures var s := Exec(INITIAL, schedule);
            var r := StopChat(s.store, id);
            && r.Ok?
            && var after := s.(store := r.value);
               && Tokens(after, id) == Tokens(s, id)
               && Log(after.store, id) == Log(s.store, id)
               && (Scan(Log(after.store, id)) == Closed <==> !IsThinkingNow(s, id))
               && (Tokens(after, id) == 0 <==> (IsThinkingNow(s, id) ==> Lost(Of(s, id))))
  {
    hide Written, ClosedPart, LogOk;
    var s := Exec(INITIAL, schedule);
    SingleTurnHolder(schedule, id);
    Always(schedule, id);
    LogOfIsLog(s, id);
    assert NoRun(s.(store := StopChat(s.store, id).value), id) == NoRun(s, id);
  }

  // ----- the log only grows -----

  lemma {:induction false} StepExtends(s: System, a: Action, id: Id)
    requires Inv(Of(s, id))
    ensures Extends(Log(s.store, id), Log(Step(s, a).store, id))
  {
    PrefixExtends(Log(s.store, id), Log(s.store, id));
    LogOfIsLog(s, id);
    LogOfIsLog(Step(s, a), id);
    if Enabled(s, a) {
      if Subject(s, a) != id {
        OthersUntouched(s, a, id);
      } else {
        SubjectExtends(s, a, Of(s, id));
      }
    }
  }

  lemma {:induction false} RunExtends(s: System, a: Action, v: Conv)
    requires Enabled(s, a) && v == Of(s, Subject(s, a)) && Inv(v)
    requires a.MarkThinking? || a.Save? || a.WriteReply?
    ensures Extends(Log(s.store, v.id), Log(Apply(s, a).store, v.id))
  {
    hide RunNode, Merge, Route, NodeText, Written, ClosedPart, LogOk;
    OnlyRun(v, a.task);
    if a.Save? {
      UnsavedIsAhead(v, a.task);
    } else {
      PrefixExtends(Log(s.store, v.id), Log(Apply(s, a).store, v.id));
    }
  }

  lemma {:induction false} SubjectExtends(s: System, a: Action, v: Conv)
    requires Enabled(s, a) && v == Of(s, Subject(s, a)) && Inv(v)
    ensures Extends(Log(s.store, v.id), Log(Apply(s, a).store, v.id))
  {
    hide *;
    if a.MarkThinking? || a.Save? || a.WriteReply? {
      RunExtends(s, a, v);
    } else if a.CloseTurn? {
      CloseExtends(s, a, v);
    } else if IsBackend(a) {
      BackendExtends(s, a, v);
    } else {
      QuietExtends(s, a, v.id);
    }
  }

  lemma {:induction false} QuietExtends(s: System, a: Action, id: Id)
    requires Enabled(s, a)
    requires !IsBackend(a) && !a.MarkThinking? && !a.Save? && !a.WriteReply? && !a.CloseTurn?
    ensures Extends(Log(s.store, id), Log(Apply(s, a).store, id))
  {
    PrefixExtends(Log(s.store, id), Log(s.store, id));
    assert Apply(s, a).store.redis == s.store.redis && Apply(s, a).store.rows == s.store.rows;
  }

  lemma {:induction false} CloseExtends(s: System, a: Action, v: Conv)
    requires Enabled(s, a) && v == Of(s, Subject(s, a)) && Inv(v) && a.CloseTurn?
    ensures Extends(Log(s.store, v.id), Log(Apply(s, a).store, v.id))
  {
    hide Written, ClosedPart, LogOk;
    CloseKeeps(v, a.failure, a.result, Of(Apply(s, a), v.id));
  }

  lemma {:induction false} BackendExtends(s: System, a: Action, v: Conv)
    requires Enabled(s, a) && IsBackend(a)
    requires v == Of(s, Subject(s, a)) && Inv(v)
    ensures Extends(Log(s.store, v.id), Log(Apply(s, a).store, v.id))
  {
    hide Written, ClosedPart, LogOk;
    assert Log(s.store, v.id) <= Log(Apply(s, a).store, v.id);
    PrefixExtends(Log(s.store, v.id), Log(Apply(s, a).store, v.id));
  }

  lemma {:induction false} ExecKeeps(s: System, schedule: seq<Action>, id: Id)
    requires Inv(Of(s, id))
    ensures Inv(Of(Exec(s, schedule), id))
    ensures Extends(Log(s.store, id), Log(Exec(s, schedule).store, id))
  {
    if schedule == [] {
      PrefixExtends(Log(s.store, id), Log(s.store, id));
    } else {
      var n := |schedule| - 1;
      var before := Exec(s, schedule[..n]);
      ExecKeeps(s, schedule[..n], id);
      StepKeeps(before, schedule[n], id);
      StepExtends(before, schedule[n], id);
      ExtendsTransitive(Log(s.store, id), Log(before.store, id), Log(Exec(s, schedule).store, id));
    }
  }

  /**
   Along every run, through stops, reloads and whole-object saves of both agents,
   the log of every conversation only grows at its end, apart from `node`.
   */
  lemma {:induction false} AppendOnly(earlier: seq<Action>, later: seq<Action>, id: Id)
    ensures Extends(Log(Exec(INITIAL, earlier).store, id), Log(Exec(INITIAL, earlier + later).store, id))
  {
    Always(earlier, id);
    ExecSplits(INITIAL, earlier, later);
    ExecKeeps(Exec(INITIAL, earlier), later, id);
  }

  // ----- the log follows the grammar of turns -----

  /**
   Every reachable log is closed turns and at most one open turn, which is there
   exactly while the agent is thinking.
   */
  lemma {:induction false} TurnGrammar(schedule: seq<Action>, id: Id) returns (turns: seq<Turn>, tail: seq<Message>)
    ensures var s := Exec(INITIAL, schedule);
            && IsLog(Log(s.store, id), turns, tail)
            && (tail != [] <==> IsThinkingNow(s, id))
  {
    var s := Exec(INITIAL, schedule);
    Always(schedule, id);
    LogOfIsLog(s, id);
    turns, tail := ScanGivesTurns(Log(s.store, id));
  }

  // ----- what a hand-off may rely on -----

  lemma {:induction false} EventIsOwn(queue: seq<ChatRequest>, i: nat)
    requires i < |queue|
    ensures queue[i] in EventsOf(queue, queue[i].conversationId)
  {
    if i > 0 {
      EventIsOwn(queue[1..], i - 1);
    }
  }

  lemma {:induction false} AcceptIsOwn(queue: seq<AcceptEvent>, i: nat)
    requires i < |queue|
    ensures queue[i] in AcceptsFor(queue, queue[i].conversationId)
  {
    if i > 0 {
      AcceptIsOwn(queue[1..], i - 1);
    }
  }

  /** Every queued chat event matches the live chat: its history and its message are the whole log. */
  lemma {:induction false} ChatEventAgrees(schedule: seq<Action>, i: nat)
    requires i < |Exec(INITIAL, schedule).store.chatEvents|
    ensures var s := Exec(INITIAL, schedule);
            var e := s.store.chatEvents[i];
            && IsThinkingNow(s, e.conversationId)
            && s.store.redis[e.conversationId].messages == e.history + [UserMessage(e.message)]
  {
    hide Written, ClosedPart, LogOk;
    var s := Exec(INITIAL, schedule);
    var e := s.store.chatEvents[i];
    Always(schedule, e.conversationId);
    EventIsOwn(s.store.chatEvents, i);
    assert Queued(Of(s, e.conversationId));
  }

  /** The visible plans of a log are exactly the plans since the ticket-agent last saved it. */
  lemma {:induction false} VisiblePlans(log: seq<Message>, erased: nat)
    requires LogOk(log, erased)
    ensures forall k | 0 <= k < |log| :: IsVisiblePlan(log[k]) <==> log[k].content.PlanReply? && k >= erased
  {
    forall k | 0 <= k < |log|
      ensures IsVisiblePlan(log[k]) <==> log[k].content.PlanReply? && k >= erased
    {
      assert MessageOk(log[k], k < erased);
    }
  }

  /** An accept event carries the latest visible plan also while its run is still there. */
  lemma {:induction false} AcceptCarriesLatest(v: Conv, e: AcceptEvent)
    requires Inv(v) && e in v.accepts
    ensures v.redis.Some? && !Settled(v)
    ensures LatestPlan(v.redis.value.messages) == Some(e.content)
  {
    hide Written, ClosedPart, LogOk;
    if Running(v) {
      var t :| v.tasks.Keys == {t} && TaskOk(v, v.tasks[t]);
      var task := v.tasks[t];
      var init := InitialState(task.request);
      IntentIsAnswer(init, task.visits);
      AcceptStops(init, task.visits);
      AcceptLog(task.request, task.visits);
      if task.Unsaved? {
        assert Thinking(task.visits[..0]) == [];
        assert v.redis.value.messages == Base(task.request);
        LatestPlanSkips(task.request.history, UserMessage(task.request.message));
      }
    }
  }

  /**
   Every accept event in the queue carries the last plan in the live chat that
   was appended since the ticket-agent last saved it.
   */
  lemma {:induction false} AcceptEventAgrees(schedule: seq<Action>, i: nat) returns (k: nat)
    requires i < |Exec(INITIAL, schedule).store.acceptEvents|
    ensures var s := Exec(INITIAL, schedule);
            var e := s.store.acceptEvents[i];
            var v := Of(s, e.conversationId);
            var log := LogOf(v);
            && IsThinkingNow(s, e.conversationId)
            && v.erased <= k < |log|
            && log[k].content == PlanReply(e.content)
            && forall j | k < j < |log| :: !log[j].content.PlanReply?
  {
    var s := Exec(INITIAL, schedule);
    var e := s.store.acceptEvents[i];
    var v := Of(s, e.conversationId);
    Always(schedule, e.conversationId);
    AcceptIsOwn(s.store.acceptEvents, i);
    AcceptCarriesLatest(v, e);
    var log := LogOf(v);
    LatestPlanIsLast(log);
    VisiblePlans(log, v.erased);
    k :| IsLatestPlanAt(log, k);
  }

  // ----- the two copies -----

  /**
   A Redis key has a row with the same title, whose messages are a prefix of the
   live ones apart from `node`; a read returns the log; and stopping before a
   continue changes nothing that anyone can see.
   */
  lemma {:induction false} TwoCopiesAgree(schedule: seq<Action>, id: Id, message: string)
    ensures var b := Exec(INITIAL, schedule).store;
            && (id in b.redis ==>
                  && id in b.rows && b.rows[id].title == b.redis[id].title
                  && Extends(b.rows[id].messages, b.redis[id].messages))
            && (id in b.rows ==> View(b, id).Ok? && View(b, id).value.messages == Log(b, id))
            && (id !in b.rows ==> View(b, id) == Err(NotFound) && Log(b, id) == [])
            && (id in b.redis ==>
                  && StopChat(b, id).Ok?
                  && var stopped, live := StopChat(b, id).value, ContinueChat(b, id, message);
                  var reloaded := ContinueChat(stopped, id, message);
                  && live.Ok? && reloaded.Ok?
                  && reloaded.value.redis == live.value.redis
                  && reloaded.value.chatEvents == live.value.chatEvents)
  {
    var s := Exec(INITIAL, schedule);
    Always(schedule, id);
    if id in s.store.redis {
      StopIsUnnoticed(s.store, id, message);
    }
  }

  /** What never changes about a row. */
  ghost predicate SameOwner(before: Row, after: Row) {
    after.title == before.title && after.username == before.username
  }

  lemma {:induction false} OwnerStep(s: System, a: Action, id: Id)
    requires Inv(Of(s, id)) && id in s.store.rows
    ensures id in Step(s, a).store.rows && SameOwner(s.store.rows[id], Step(s, a).store.rows[id])
  {
    hide Written, ClosedPart, LogOk, HolderOk;
    if Enabled(s, a) {
      RowStays(s, a, id);
      if a.Stop? && a.id == id && id in s.store.redis {
        assert s.store.redis[id].title == s.store.rows[id].title;
      }
    }
  }

  /** A conversation keeps the title and the user it was created with, through all stops, saves and reads. */
  lemma {:induction false} OwnerStays(earlier: seq<Action>, later: seq<Action>, id: Id)
    requires id in Exec(INITIAL, earlier).store.rows
    ensures id in Exec(INITIAL, earlier + later).store.rows
    ensures SameOwner(Exec(INITIAL, earlier).store.rows[id], Exec(INITIAL, earlier + later).store.rows[id])
  {
    hide Inv, Step, SameOwner;
    if later == [] {
      assert earlier + later == earlier;
      OwnerSame(Exec(INITIAL, earlier).store.rows[id]);
    } else {
      var n := |later| - 1;
      OwnerStays(earlier, later[..n], id);
      Always(earlier + later[..n], id);
      OwnerStep(Exec(INITIAL, earlier + later[..n]), later[n], id);
      assert (earlier + later)[..|earlier + later| - 1] == earlier + later[..n];
      OwnerTransitive(Exec(INITIAL, earlier).store.rows[id], Exec(INITIAL, earlier + later[..n]).store.rows[id],
                      Exec(INITIAL, earlier + later).store.rows[id]);
    }
  }

  lemma {:induction false} OwnerSame(r: Row)
    ensures SameOwner(r, r)
  {
  }

  lemma {:induction false} OwnerTransitive(a: Row, b: Row, c: Row)
    requires SameOwner(a, b) && SameOwner(b, c)
    ensures SameOwner(a, c)
  {
  }

  // ----- no agent misses its chat -----

  /** The conversation of a run, or of the ticket-agent's event. */
  predicate Concerns(s: System, id: Id) {
    (exists t :: t in s.tasks && s.tasks[t].request.conversationId == id) || TicketOf(s.ticket, id).Some?
  }

  /** While a run or the ticket-agent works on a conversation its key is there: no save revives a deleted one. */
  lemma {:induction false} WorkFindsItsChat(schedule: seq<Action>, id: Id)
    requires Concerns(Exec(INITIAL, schedule), id)
    ensures IsThinkingNow(Exec(INITIAL, schedule), id)
  {
    hide Written, ClosedPart, LogOk;
    var s := Exec(INITIAL, schedule);
    var v := Of(s, id);
    Always(schedule, id);
    if v.ticket.None? {
      var t :| t in s.tasks && s.tasks[t].request.conversationId == id;
      assert t in v.tasks;
    }
  }

  // ----- how a turn is lost -----

  /** An accepting run leaves its conversation without a turn-holder exactly if its history shows no plan. */
  lemma {:induction false} AcceptedOrLost(schedule: seq<Action>, t: nat)
    requires var s := Exec(INITIAL, schedule);
             Enabled(s, Finish(t)) && IntentOf(s.tasks[t].visits) == Some(Accept)
    ensures var s := Exec(INITIAL, schedule);
            var request := s.tasks[t].request;
            var v := Of(Apply(s, Finish(t)), request.conversationId);
            && v.redis.Some?
            && (Accepted(v) <==> LatestPlan(request.history).Some?)
            && (Lost(v) <==> LatestPlan(request.history).None?)
  {
    Always(schedule, Exec(INITIAL, schedule).tasks[t].request.conversationId);
    AcceptEnds(Exec(INITIAL, schedule), t);
  }

  lemma {:induction false} AcceptLeaves(s: System, t: nat)
    requires Enabled(s, Finish(t)) && IntentOf(s.tasks[t].visits) == Some(Accept)
    requires Path(InitialState(s.tasks[t].request), s.tasks[t].visits)
    ensures s.tasks[t].visits != [] && s.tasks[t].visits[0].answer.intent == Accept
    ensures Conclusion(s.tasks[t].visits, |s.tasks[t].visits|, None).None?
    ensures Apply(s, Finish(t)) == Concluded(s, t, |s.tasks[t].visits|, None)
  {
    IntentIsAnswer(InitialState(s.tasks[t].request), s.tasks[t].visits);
  }

  lemma {:induction false} AcceptEnds(s: System, t: nat)
    requires Enabled(s, Finish(t)) && IntentOf(s.tasks[t].visits) == Some(Accept)
    requires Inv(Of(s, s.tasks[t].request.conversationId))
    ensures var request := s.tasks[t].request;
            var v := Of(Apply(s, Finish(t)), request.conversationId);
            v.redis.Some? && if LatestPlan(request.history).Some? then Accepted(v) else Lost(v)
  {
    hide Inv, Lost, Accepted, RunNode, Merge, Route, NodeText, Conclusion, Path;
    var task := s.tasks[t];
    var id := task.request.conversationId;
    OnlyRun(Of(s, id), t);
    AcceptLeaves(s, t);
    ConcludedOf(s, t, |task.visits|, None, id);
    AcceptKeeps(Of(s, id), t, Of(Concluded(s, t, |task.visits|, None), id));
  }

  lemma {:induction false} PlanInHistory(v: Conv, t: nat)
    requires Inv(v) && t in v.tasks && v.tasks[t].Working?
    requires |v.tasks[t].visits| == 1 && v.tasks[t].visits[0].answer.intent == Accept
    ensures LatestPlan(v.tasks[t].request.history).None? <==>
            forall k | v.erased <= k < |LogOf(v)| :: !LogOf(v)[k].content.PlanReply?
  {
    hide RunNode, Merge, Route, NodeText;
    OnlyRun(v, t);
    var task := v.tasks[t];
    AcceptLog(task.request, task.visits);
    LatestPlanIsLast(LogOf(v));
    VisiblePlans(LogOf(v), v.erased);
  }

  /**
   In terms of what the log shows: an accept loses the turn exactly if no plan was
   appended since the ticket-agent last saved the chat. So it does when the user
   accepts a plan whose items have been created already.
   */
  lemma {:induction false} LostIfNothingNew(schedule: seq<Action>, t: nat)
    requires var s := Exec(INITIAL, schedule);
             Enabled(s, Finish(t)) && IntentOf(s.tasks[t].visits) == Some(Accept)
    ensures var s := Exec(INITIAL, schedule);
            var id := s.tasks[t].request.conversationId;
            var v, after := Of(s, id), Of(Apply(s, Finish(t)), id);
            && after.redis.Some?
            && (Lost(after) <==> forall k | v.erased <= k < |LogOf(v)| :: !LogOf(v)[k].content.PlanReply?)
  {
    hide Inv, Exec, Lost, Apply, Of, LogOf, LatestPlan;
    var s := Exec(INITIAL, schedule);
    var id := s.tasks[t].request.conversationId;
    AcceptedOrLost(schedule, t);
    Always(schedule, id);
    AcceptingRun(s, t);
    PlanInHistory(Of(s, id), t);
  }

  lemma {:induction false} AcceptingRun(s: System, t: nat)
    requires Enabled(s, Finish(t)) && IntentOf(s.tasks[t].visits) == Some(Accept)
    requires Inv(Of(s, s.tasks[t].request.conversationId))
    ensures var v := Of(s, s.tasks[t].request.conversationId);
            && t in v.tasks && v.tasks[t] == s.tasks[t] && v.tasks[t].Working?
            && |v.tasks[t].visits| == 1 && v.tasks[t].visits[0].answer.intent == Accept
  {
    hide RunNode, Merge, Route, NodeText, Inv;
    var task := s.tasks[t];
    OnlyRun(Of(s, task.request.conversationId), t);
    IntentIsAnswer(InitialState(task.request), task.visits);
    AcceptStops(InitialState(task.request), task.visits);
  }

  lemma {:induction false} LostStep(s: System, a: Action, id: Id)
    requires Of(s, id).row.Some? && Of(s, id).redis.Some? && !Settled(Of(s, id))
    requires Lost(Of(s, id)) && id !in s.seen
    ensures Of(Step(s, a), id) == Of(s, id)
  {
    if Enabled(s, a) {
      if Subject(s, a) != id {
        OthersUntouched(s, a, id);
      } else {
        LostHasNoStep(s, a, id);
      }
    }
  }

  /** Every step but the backend's needs an event, a run or a ticket task of its conversation. */
  lemma {:induction false} AgentStepNeedsHolder(s: System, a: Action)
    requires Enabled(s, a) && !IsBackend(a)
    ensures !Idle(Of(s, Subject(s, a)))
  {
    var v := Of(s, Subject(s, a));
    if a.Spawn? {
      EventIsOwn(s.store.chatEvents, 0);
    } else if a.PickAccept? {
      AcceptIsOwn(s.store.acceptEvents, 0);
    } else if a.LoadForTickets? || a.CloseTurn? || a.TicketFails? {
      assert v.ticket.Some?;
    } else {
      assert a.task in v.tasks;
    }
  }

  /** Only reads are left in a lost conversation. */
  lemma {:induction false} LostHasNoStep(s: System, a: Action, id: Id)
    requires Enabled(s, a) && Subject(s, a) == id
    requires Of(s, id).row.Some? && Of(s, id).redis.Some? && !Settled(Of(s, id))
    requires Lost(Of(s, id)) && id !in s.seen
    ensures a.Read? || a.Poll?
    ensures Apply(s, a) == s
  {
    if !IsBackend(a) {
      AgentStepNeedsHolder(s, a);
    }
  }

  /** A lost conversation stays as it is for ever, as long as its client keeps to the rule: no schedule changes it. */
  lemma {:induction false} LostForEver(schedule: seq<Action>, id: Id, later: seq<Action>)
    requires IsThinkingNow(Exec(INITIAL, schedule), id) && Lost(Of(Exec(INITIAL, schedule), id))
    ensures Of(Exec(Exec(INITIAL, schedule), later), id) == Of(Exec(INITIAL, schedule), id)
  {
    Always(schedule, id);
    if later != [] {
      var n := |later| - 1;
      LostForEver(schedule, id, later[..n]);
      LostStep(Exec(Exec(INITIAL, schedule), later[..n]), later[n], id);
    }
  }

  // ----- what a subscriber sees -----

  /** What a later poll delivers continues what an earlier one delivered, apart from `node`. */
  lemma {:induction false} PollsGrow(earlier: seq<Action>, later: seq<Action>, id: Id)
    requires id in Exec(INITIAL, earlier).store.redis && id in Exec(INITIAL, earlier + later).store.redis
    ensures Extends(Exec(INITIAL, earlier).store.redis[id].messages,
                    Exec(INITIAL, earlier + later).store.redis[id].messages)
  {
    AppendOnly(earlier, later, id);
  }

  /**
   After a continue, no poll delivers the reply of the turn before: when the chat
   says that the agent has replied, its last message is a reply that came after
   the user's new message.
   */
  lemma {:induction false} NoStaleReply(earlier: seq<Action>, message: string, later: seq<Action>, id: Id)
    requires id in Exec(INITIAL, earlier).seen
    ensures var s := Exec(INITIAL, earlier);
            var continued := Step(s, Continue(id, message));
            var polled := Exec(continued, later);
            var sent := |Log(s.store, id)|;
            && Log(continued.store, id) == Log(s.store, id) + [UserMessage(message)]
            && (id in polled.store.redis && polled.store.redis[id].agentStatus.HasReplied? ==>
                  var log := polled.store.redis[id].messages;
                  && |log| > sent + 1
                  && log[sent] == UserMessage(message)
                  && IsReplyMessage(log[|log| - 1]))
  {
    hide Step, Exec, Inv;
    var s := Exec(INITIAL, earlier);
    var continued := Step(s, Continue(id, message));
    var polled := Exec(continued, later);
    Always(earlier, id);
    LogOfIsLog(s, id);
    StepKeeps(s, Continue(id, message), id);
    ExecKeeps(continued, later, id);
    ContinuedLog(s, id, message);
    if id in polled.store.redis && polled.store.redis[id].agentStatus.HasReplied? {
      RepliedIsClosed(polled, id);
      ReplyIsFresh(Log(s.store, id), message, polled.store.redis[id].messages, Of(polled, id).erased);
    }
  }

  lemma {:induction false} RepliedIsClosed(s: System, id: Id)
    requires Inv(Of(s, id)) && id in s.store.redis && s.store.redis[id].agentStatus.HasReplied?
    ensures Scan(s.store.redis[id].messages) == Closed && LogOk(s.store.redis[id].messages, Of(s, id).erased)
  {
    hide Written, ClosedPart, HolderOk;
  }

  lemma {:induction false} ContinuedLog(s: System, id: Id, message: string)
    requires Inv(Of(s, id)) && id in s.seen
    ensures Log(Step(s, Continue(id, message)).store, id) == Log(s.store, id) + [UserMessage(message)]
    ensures Scan(Log(s.store, id)) == Closed
  {
    LogOfIsLog(s, id);
  }

  lemma {:induction false} ReplyIsFresh(before: seq<Message>, message: string, after: seq<Message>, erased: nat)
    requires Scan(before) == Closed && Scan(after) == Closed && LogOk(after, erased)
    requires Extends(before + [UserMessage(message)], after)
    ensures |after| > |before| + 1 && after[|before|] == UserMessage(message) && IsReplyMessage(after[|after| - 1])
  {
    var sent := before + [UserMessage(message)];
    ScanAppend(before, UserMessage(message));
    ReplyComesAfter(sent, after);
    ExtendsAt(sent, after);
    assert Erase(after[|before|]) == UserMessage(message);
    assert MessageOk(after[|before|], |before| < erased);
  }

  /** A closed log that extends an open one is longer, and ends in a reply. */
  lemma {:induction false} ReplyComesAfter(before: seq<Message>, after: seq<Message>)
    requires Scan(before) == Open && Scan(after) == Closed && Extends(before, after)
    ensures |after| > |before| && IsReplyMessage(after[|after| - 1])
  {
    ExtendsAt(before, after);
    ScanErased(before);
    ScanErased(after);
    assert |after| == |before| ==> EraseAll(before) == EraseAll(after);
    ClosedEndsInReply(after);
  }

  // ----- what the browser may rely on -----

  /** Nothing but agent messages was appended. */
  ghost predicate AgentsAppended(before: seq<Message>, after: seq<Message>) {
    Extends(before, after) && forall k | |before| <= k < |after| :: after[k].actor.Agent?
  }

  lemma {:induction false} AgentsAppendedTransitive(a: seq<Message>, b: seq<Message>, c: seq<Message>)
    requires AgentsAppended(a, b) && AgentsAppended(b, c)
    ensures AgentsAppended(a, c)
  {
    ExtendsTransitive(a, b, c);
    ExtendsAt(a, b);
    ExtendsAt(b, c);
    forall k | |a| <= k < |c| ensures c[k].actor.Agent? {
      if k < |b| {
        assert Erase(b[k]) == Erase(c[k]);
      }
    }
  }

  lemma {:induction false} RunAppendsAgents(s: System, a: Action, v: Conv)
    requires Enabled(s, a) && v == Of(s, Subject(s, a)) && Inv(v)
    requires a.MarkThinking? || a.Save? || a.WriteReply?
    ensures AgentsAppended(Log(s.store, v.id), Log(Apply(s, a).store, v.id))
  {
    hide RunNode, Merge, Route, NodeText, Written, ClosedPart, LogOk;
    SubjectExtends(s, a, v);
    OnlyRun(v, a.task);
    if a.Save? {
      UnsavedIsAhead(v, a.task);
    }
  }

  lemma {:induction false} TicketHolds(v: Conv)
    requires Inv(v) && v.ticket.Some? && v.ticket.value.TicketLoaded?
    ensures v.redis.Some? && Scan(v.redis.value.messages) == Open
    ensures v.ticket.value.chat == Projected(v.redis.value)
  {
  }

  lemma {:induction false} CloseAppendsAgents(s: System, a: Action, v: Conv)
    requires Enabled(s, a) && v == Of(s, Subject(s, a)) && Inv(v) && a.CloseTurn?
    ensures AgentsAppended(Log(s.store, v.id), Log(Apply(s, a).store, v.id))
  {
    hide Inv;
    SubjectExtends(s, a, v);
    TicketHolds(v);
    var saved := TurnClosed(Projected(v.redis.value), a.failure, a.result);
    TicketSaveClosesTurn(v.redis.value, a.failure, a.result);
    assert Log(Apply(s, a).store, v.id) == saved.messages;
  }

  lemma {:induction false} SubjectAppendsAgents(s: System, a: Action, v: Conv)
    requires Enabled(s, a) && v == Of(s, Subject(s, a)) && Inv(v)
    requires v.row.Some? && !a.Continue?
    ensures AgentsAppended(Log(s.store, v.id), Log(Apply(s, a).store, v.id))
  {
    if a.MarkThinking? || a.Save? || a.WriteReply? {
      RunAppendsAgents(s, a, v);
    } else if a.CloseTurn? {
      CloseAppendsAgents(s, a, v);
    } else {
      SubjectExtends(s, a, v);
      LogUnchanged(s, a, v.id);
    }
  }

  lemma {:induction false} LogUnchanged(s: System, a: Action, id: Id)
    requires Enabled(s, a) && id in s.store.rows && Subject(s, a) == id
    requires !a.Continue? && !a.MarkThinking? && !a.Save? && !a.WriteReply? && !a.CloseTurn?
    ensures Log(Apply(s, a).store, id) == Log(s.store, id)
  {
  }

  lemma {:induction false} NothingAppended(log: seq<Message>)
    ensures AgentsAppended(log, log)
  {
    PrefixExtends(log, log);
  }

  /** Until the next continue of a conversation, only agent messages are appended to it. */
  lemma {:induction false} OnlyAgentsUntilContinue(s: System, later: seq<Action>, id: Id)
    requires Inv(Of(s, id)) && id in s.store.rows
    requires forall i | 0 <= i < |later| :: !(later[i].Continue? && later[i].id == id)
    ensures id in Exec(s, later).store.rows
    ensures AgentsAppended(Log(s.store, id), Log(Exec(s, later).store, id))
  {
    hide Inv, Of, Log, Step, AgentsAppended;
    if later == [] {
      NothingAppended(Log(s.store, id));
    } else {
      var n := |later| - 1;
      var before := Exec(s, later[..n]);
      OnlyAgentsUntilContinue(s, later[..n], id);
      ExecKeeps(s, later[..n], id);
      AgentsStep(before, later[n], id);
      AgentsAppendedTransitive(Log(s.store, id), Log(before.store, id), Log(Step(before, later[n]).store, id));
    }
  }

  lemma {:induction false} AgentsStep(s: System, a: Action, id: Id)
    requires Inv(Of(s, id)) && id in s.store.rows && !(a.Continue? && a.id == id)
    ensures id in Step(s, a).store.rows
    ensures AgentsAppended(Log(s.store, id), Log(Step(s, a).store, id))
  {
    hide Inv, AgentsAppended;
    NothingAppended(Log(s.store, id));
    LogOfIsLog(s, id);
    LogOfIsLog(Step(s, a), id);
    if Enabled(s, a) {
      if Subject(s, a) != id {
        OthersUntouched(s, a, id);
        assert Of(Step(s, a), id).row.Some?;
      } else {
        SubjectAppendsAgents(s, a, Of(s, id));
        SubjectKeeps(s, a);
        RowStays(s, a, id);
      }
    }
  }

  lemma {:induction false} RowStays(s: System, a: Action, id: Id)
    requires Enabled(s, a) && id in s.store.rows
    ensures id in Apply(s, a).store.rows
  {
  }

  /**
   From a continue until the next one, the log is what it was, the user's message,
   and agent messages: what the browser's offset arithmetic takes for granted.
   */
  lemma {:induction false} LiveTurnIsNextTurn(earlier: seq<Action>, message: string, later: seq<Action>, id: Id)
    requires id in Exec(INITIAL, earlier).seen
    requires forall i | 0 <= i < |later| :: !(later[i].Continue? && later[i].id == id)
    ensures var s := Exec(INITIAL, earlier);
            var polled := Exec(Step(s, Continue(id, message)), later);
            && Scan(Log(s.store, id)) == Closed
            && ChatView.NextTurn(Log(s.store, id), Log(polled.store, id))
  {
    var s := Exec(INITIAL, earlier);
    var continued := Step(s, Continue(id, message));
    var polled := Exec(continued, later);
    Always(earlier, id);
    StepKeeps(s, Continue(id, message), id);
    LogOfIsLog(s, id);
    RowStays(s, Continue(id, message), id);
    OnlyAgentsUntilContinue(continued, later, id);
    assert Log(continued.store, id) == Log(s.store, id) + [UserMessage(message)];
    AppendedIsNextTurn(Log(s.store, id), message, Log(polled.store, id));
  }

  lemma {:induction false} AppendedIsNextTurn(log: seq<Message>, message: string, now: seq<Message>)
    requires AgentsAppended(log + [UserMessage(message)], now)
    ensures ChatView.NextTurn(log, now)
  {
    var sent := log + [UserMessage(message)];
    ExtendsAt(sent, now);
    assert Erase(sent[|log|]) == Erase(now[|log|]);
    assert EraseAll(now[..|log|]) == EraseAll(log) by {
      forall i | 0 <= i < |log| ensures EraseAll(now[..|log|])[i] == EraseAll(log)[i] {
        assert Erase(sent[i]) == Erase(now[i]);
      }
    }
  }

  /**
   So during a live turn every update shows exactly that turn's messages, no reply while
   the agent is thinking, and then the turn's own reply.
   */
  lemma {:induction false} BrowserShowsLiveTurn(
    earlier: seq<Action>, message: string, later: seq<Action>, id: Id, v: ChatView.View)
    requires id in Exec(INITIAL, earlier).seen
    requires forall i | 0 <= i < |later| :: !(later[i].Continue? && later[i].id == id)
    requires ChatView.Synced(v, Log(Exec(INITIAL, earlier).store, id))
    ensures var polled := Exec(Step(Exec(INITIAL, earlier), Continue(id, message)), later);
            id in polled.store.redis ==>
              var chat := polled.store.redis[id];
              ChatView.ShowsTurn(ChatView.Update(ChatView.Continue(v, message), chat),
                                 Log(Exec(INITIAL, earlier).store, id), chat)
  {
    hide Inv, Exec, Step, Of;
    hide ChatView.NextTurn, ChatView.Synced, ChatView.ShowsTurn, ChatView.Update, ChatView.Continue;
    var s := Exec(INITIAL, earlier);
    var polled := Exec(Step(s, Continue(id, message)), later);
    LiveTurnIsNextTurn(earlier, message, later, id);
    Always(earlier, id);
    StepKeeps(s, Continue(id, message), id);
    ExecKeeps(Step(s, Continue(id, message)), later, id);
    if id in polled.store.redis {
      if polled.store.redis[id].agentStatus.HasReplied? {
        RepliedIsClosed(polled, id);
      }
      ChatView.LiveUpdate(v, Log(s.store, id), message, polled.store.redis[id]);
    }
  }
}
