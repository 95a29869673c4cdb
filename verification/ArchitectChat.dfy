/**
 The architect-agent's run driver: load the chat, run the graph node by node,
 log and save after each node, and end the turn.
 */
module ArchitectChat {
  import opened Wrappers
  import opened Contracts
  import opened Stores
  import opened ArchitectGraph
  import opened ArchitectLog
  import opened GraphTrace

  /** What the driver gets when the graph does not end within the step limit. */
  const OVERRUN := "Recursion limit reached without hitting a stop condition."

  // ----- a run on values -----

  /**
   The visits made in at most `limit` node executions, when execution `i` gets `answers(i)`
   and the save after it raises `saves(i)`, if anything.
   */
  function Visits(init: GraphState, answers: nat -> Answer, saves: nat -> Option<string>, limit: nat): seq<Visit> {
    if limit == 0 then []
    else
      var visits := Visits(init, answers, saves, limit - 1);
      if |visits| == limit - 1 && !SaveFailed(visits, saves)
         && NextNode(visits).Some? && answers(limit - 1).raises.None?
      then Extend(init, visits, answers(limit - 1))
      else visits
  }

  /** The save after the last visit failed. */
  predicate SaveFailed(visits: seq<Visit>, saves: nat -> Option<string>) {
    visits != [] && saves(|visits| - 1).Some?
  }

  /** How many visits were saved, and their replies recorded. */
  function Kept(visits: seq<Visit>, saves: nat -> Option<string>): (kept: nat)
    ensures kept <= |visits|
  {
    if SaveFailed(visits, saves) then |visits| - 1 else |visits|
  }

  /** The exception that broke the run off. */
  function ErrorOf(
    visits: seq<Visit>, answers: nat -> Answer, saves: nat -> Option<string>, limit: nat): Option<string>
  {
    if SaveFailed(visits, saves) then saves(|visits| - 1)
    else if NextNode(visits).None? then None
    else if |visits| < limit then answers(|visits|).raises
    else Some(OVERRUN)
  }

  lemma {:induction false} VisitsArePath(
    init: GraphState, answers: nat -> Answer, saves: nat -> Option<string>, limit: nat)
    ensures var visits := Visits(init, answers, saves, limit);
            && Path(init, visits) && |visits| <= limit
            && (|visits| < limit ==>
                  SaveFailed(visits, saves) || NextNode(visits).None? || answers(|visits|).raises.Some?)
            && forall i | 0 <= i < |visits| - 1 :: saves(i).None?
  {
    hide RunNode, Merge, Route, NodeText;
    if limit > 0 {
      VisitsArePath(init, answers, saves, limit - 1);
      var visits := Visits(init, answers, saves, limit - 1);
      if |visits| == limit - 1 && !SaveFailed(visits, saves)
         && NextNode(visits).Some? && answers(limit - 1).raises.None? {
        ExtendIsPath(init, visits, answers(limit - 1));
      }
    }
  }

  /**
   With any step limit, and whichever nodes and saves fail, a run ends, having followed
   a prefix of a full run's template. It gets its one reply, unless it accepts and no
   exception with a text broke it off.
   */
  lemma {:induction false} AnyLimitEndsTheTurn(
    request: ChatRequest, answers: nat -> Answer, saves: nat -> Option<string>, limit: nat) returns (s: nat, p: nat)
    ensures var visits := Visits(InitialState(request), answers, saves, limit);
            var kept, error := Kept(visits, saves), ErrorOf(visits, answers, saves, limit);
            && |visits| <= limit
            && Nodes(visits) <= Template(s, p)
            && Ends(visits, kept, error)
            && (Conclusion(visits, kept, error).None? <==>
                visits != [] && visits[0].answer.intent == Accept && !Truthy(error))
  {
    VisitsArePath(InitialState(request), answers, saves, limit);
    var visits := Visits(InitialState(request), answers, saves, limit);
    s, p := PartialRun(InitialState(request), visits);
    RunOutcome(request, visits, Kept(visits, saves), ErrorOf(visits, answers, saves, limit));
  }

  /** Each execution gets its own answer. */
  lemma {:induction false} VisitsUseAnswers(
    init: GraphState, answers: nat -> Answer, saves: nat -> Option<string>, limit: nat)
    ensures var visits := Visits(init, answers, saves, limit);
            forall i | 0 <= i < |visits| :: visits[i].answer == answers(i) && answers(i).raises.None?
  {
    hide RunNode, Merge, Route, NodeText, NextNode, StateAfter;
    if limit > 0 {
      VisitsUseAnswers(init, answers, saves, limit - 1);
    }
  }

  /** Which exception breaks a run off: that of the last save, or of the next node, or of the limit. */
  lemma {:induction false} ErrorIsFirst(
    init: GraphState, answers: nat -> Answer, saves: nat -> Option<string>, limit: nat)
    ensures var visits := Visits(init, answers, saves, limit);
            var n, error := |visits|, ErrorOf(visits, answers, saves, limit);
            && (n > 0 && saves(n - 1).Some? ==> error == saves(n - 1))
            && (n == 0 || saves(n - 1).None? ==>
                  && (NextNode(visits).None? ==> error == None)
                  && (NextNode(visits).Some? && n < limit ==> error.Some? && error == answers(n).raises)
                  && (NextNode(visits).Some? && n == limit ==> error == Some(OVERRUN)))
  {
    hide RunNode, Merge, Route, NodeText, NextNode;
    VisitsArePath(init, answers, saves, limit);
  }

  function Loaded(chat: Chat): Chat {
    chat.(agentStatus := IsThinking)
  }

  /** A loaded chat with the thinking messages of `visits`. */
  function Logged(chat: Chat, visits: seq<Visit>): Chat {
    chat.(messages := chat.messages + Thinking(visits))
  }

  function Replied(chat: Chat, reply: Message): Chat {
    chat.(messages := chat.messages + [reply], agentStatus := HasReplied)
  }

  /** One value written to Redis after each visit. */
  function Saves(id: Id, chat: Chat, visits: seq<Visit>): seq<(Id, Chat)> {
    seq(|visits|, k requires 0 <= k < |visits| => (id, Logged(chat, visits[..k + 1])))
  }

  /** Each save holds the messages of all visits so far, and nothing else of the chat has changed. */
  lemma {:induction false} SavesShowProgress(id: Id, chat: Chat, visits: seq<Visit>, k: nat)
    requires k < |visits|
    ensures |Saves(id, chat, visits)| == |visits|
    ensures var saved := Saves(id, chat, visits)[k].1;
            && Saves(id, chat, visits)[k].0 == id
            && saved == chat.(messages := saved.messages)
            && |saved.messages| == |chat.messages| + k + 1 && chat.messages <= saved.messages
            && forall i | 0 <= i <= k ::
                 saved.messages[|chat.messages| + i] == ThinkingMessage(visits[i].node, visits[i].Output())
  {
    hide RunNode, NodeText;
  }

  lemma {:induction false} SavesAppend(id: Id, chat: Chat, visits: seq<Visit>, v: Visit)
    ensures Saves(id, chat, visits + [v]) == Saves(id, chat, visits) + [(id, Logged(chat, visits + [v]))]
    ensures Logged(chat, visits + [v]).messages ==
            Logged(chat, visits).messages + [ThinkingMessage(v.node, v.Output())]
  {
    var longer := visits + [v];
    forall k | 0 <= k < |visits|
      ensures Saves(id, chat, longer)[k] == Saves(id, chat, visits)[k]
    {
      assert longer[..k + 1] == visits[..k + 1];
    }
    assert longer[..|visits| + 1] == longer;
    ThinkingAppend(visits, v);
  }

  // ----- the chat object of one run -----

  /** A chat that a run holds in memory and changes in place. */
  class ChatObject {
    var id: Id
    var title: Option<string>
    var messages: seq<Message>
    var status: ChatStatus
    var agentStatus: AgentStatus

    constructor (chat: Chat)
      ensures Value() == chat
    {
      id, title, messages, status, agentStatus := chat.id, chat.title, chat.messages, chat.status, chat.agentStatus;
    }

    /** The value it is saved as. */
    function Value(): Chat
      reads this
    {
      Chat(id, title, messages, status, agentStatus)
    }
  }

  /** What leaves `execute` as an exception. */
  datatype RunError = ConversationNotFound | RedisFailed(text: string)

  /** Each access to Redis gets the exception that it raises, if any, as `failure`. */
  class ChatManager {
    const store: Store

    constructor (store: Store)
      ensures this.store == store
    {
      this.store := store;
    }

    /** Whether the read fails or the write that marks the chat, nothing has changed. */
    method LoadChat(id: Id, failure: Option<string>) returns (r: Result<ChatObject, RunError>)
      modifies store`redis, store`writes
      ensures failure.Some? || id !in old(store.redis) ==>
                && r == Err(if failure.Some? then RedisFailed(failure.value) else ConversationNotFound)
                && store.redis == old(store.redis) && store.writes == old(store.writes)
      ensures failure.None? && id in old(store.redis) ==>
                var chat := Loaded(old(store.redis)[id]);
                && r.Ok? && fresh(r.value) && r.value.Value() == chat
                && chat == old(store.redis)[id].(agentStatus := IsThinking)
                && store.redis == old(store.redis)[id := chat]
                && store.writes == old(store.writes) + [(id, chat)]
    {
      if failure.Some? {
        return Err(RedisFailed(failure.value));
      }
      var raw := store.Get(id);
      if raw.None? {
        return Err(ConversationNotFound);
      }
      var chatObj := new ChatObject(raw.value);
      chatObj.agentStatus := IsThinking;
      store.Set(id, chatObj.Value());
      return Ok(chatObj);
    }

    method SaveChat(id: Id, chatObj: ChatObject, failure: Option<string>) returns (raised: Option<string>)
      modifies store`redis, store`writes
      ensures raised == failure
      ensures store.redis == if failure.None? then old(store.redis)[id := chatObj.Value()] else old(store.redis)
      ensures store.writes == old(store.writes) + if failure.None? then [(id, chatObj.Value())] else []
    {
      if failure.None? {
        store.Set(id, chatObj.Value());
      }
      return failure;
    }

    method AppendThinkingMessage(chatObj: ChatObject, node: NodeName, out: NodeOutput)
      modifies chatObj`messages
      ensures chatObj.messages == old(chatObj.messages) + [ThinkingMessage(node, out)]
    {
      chatObj.messages := chatObj.messages + [Message(Agent, Text(NodeText(node, out)), Some(IsThinking), Some(node))];
    }

    method AppendReplyMessage(
      id: Id, chatObj: ChatObject, error: Option<string>, finalReply: Option<Content>, node: NodeName,
      failure: Option<string>) returns (raised: Option<string>)
      modifies chatObj`messages, chatObj`agentStatus, store`redis, store`writes
      ensures raised == failure
      ensures chatObj.Value() == Replied(old(chatObj.Value()), ReplyMessage(error, finalReply, node))
      ensures store.redis == if failure.None? then old(store.redis)[id := chatObj.Value()] else old(store.redis)
      ensures store.writes == old(store.writes) + if failure.None? then [(id, chatObj.Value())] else []
    {
      var content := Text("No response generated.");
      if error.Some? && error.value != "" {
        content := Text("Error: " + error.value);
      } else if finalReply.Some? {
        content := finalReply.value;
      }
      chatObj.messages := chatObj.messages + [Message(Agent, content, Some(HasReplied), Some(node))];
      chatObj.agentStatus := HasReplied;
      if failure.None? {
        store.Set(id, chatObj.Value());
      }
      return failure;
    }
  }

  // ----- intent_node, which publishes -----

  class IntentRunner {
    const store: Store

    constructor (store: Store)
      ensures this.store == store
    {
      this.store := store;
    }

    method HandleAccept(st: GraphState) returns (out: NodeOutput)
      modifies store`acceptEvents
      ensures out == NOTHING.(userIntent := Some(Accept))
      ensures var plan := LatestPlan(st.rawHistory);
              store.acceptEvents == old(store.acceptEvents) +
              if plan.Some? then [AcceptEvent(st.conversationId, plan.value)] else []
    {
      LatestPlanIsLast(st.rawHistory);
      var i := |st.rawHistory|;
      while i > 0
        invariant 0 <= i <= |st.rawHistory|
        invariant forall j | i <= j < |st.rawHistory| :: !IsVisiblePlan(st.rawHistory[j])
        invariant store.acceptEvents == old(store.acceptEvents)
      {
        var msg := st.rawHistory[i - 1];
        if msg.node == Some(ReplyNode) && msg.content.PlanReply? {
          assert IsLatestPlanAt(st.rawHistory, i - 1);
          store.PublishAccept(AcceptEvent(st.conversationId, msg.content.reply));
          break;
        }
        i := i - 1;
      }
      return NOTHING.(userIntent := Some(Accept));
    }

    method BuildUpdates(st: GraphState, intent: UserIntent) returns (updates: NodeOutput)
      ensures updates == NOTHING.(
                           userIntent := Some(intent),
                           priorSolution := if intent == Refine then PlanSolution(LatestPlan(st.rawHistory)) else None)
    {
      updates := NOTHING.(userIntent := Some(intent));
      if intent == Refine {
        LatestPlanIsLast(st.rawHistory);
        var i := |st.rawHistory|;
        while i > 0
          invariant 0 <= i <= |st.rawHistory|
          invariant forall j | i <= j < |st.rawHistory| :: !IsVisiblePlan(st.rawHistory[j])
          invariant updates == NOTHING.(userIntent := Some(intent))
        {
          var msg := st.rawHistory[i - 1];
          if msg.node == Some(ReplyNode) && msg.content.PlanReply? {
            assert IsLatestPlanAt(st.rawHistory, i - 1);
            updates := updates.(priorSolution := Some(msg.content.reply.epic.solution));
            break;
          }
          i := i - 1;
        }
      }
    }

    method Call(st: GraphState, a: Answer) returns (out: NodeOutput)
      modifies store`acceptEvents
      ensures out == IntentOutput(st, a)
      ensures store.acceptEvents == old(store.acceptEvents) + AcceptsOf(st, a)
    {
      if a.intent == Undefined {
        out := NOTHING.(
          userIntent := Some(Undefined),
          comment := Some(if Truthy(a.comment) then a.comment.value else DEFAULT_COMMENT));
      } else if a.intent == Accept {
        out := HandleAccept(st);
      } else {
        out := BuildUpdates(st, a.intent);
      }
    }
  }

  // ----- the driver -----

  class ChatService {
    const store: Store
    const manager: ChatManager
    const intentNode: IntentRunner

    constructor (store: Store)
      ensures this.store == store && manager.store == store && intentNode.store == store
    {
      this.store := store;
      this.manager := new ChatManager(store);
      this.intentNode := new IntentRunner(store);
    }

    /** Run one node; only intent_node touches the outside. */
    method RunOne(node: NodeName, st: GraphState, a: Answer) returns (out: NodeOutput)
      requires intentNode.store == store
      modifies store`acceptEvents
      ensures out == RunNode(node, st, a)
      ensures store.acceptEvents == old(store.acceptEvents) + if node == IntentNode then AcceptsOf(st, a) else []
    {
      if node == IntentNode {
        out := intentNode.Call(st, a);
      } else {
        out := RunNode(node, st, a);
      }
    }

    /** Run a node, log it and save: one turn of the driver's loop. */
    method RunAndLog(
      id: Id, chatObj: ChatObject, node: NodeName, st: GraphState, a: Answer, failure: Option<string>,
      ghost chat: Chat, ghost init: GraphState, ghost visits: seq<Visit>)
      returns (out: NodeOutput, after: GraphState, next: Option<NodeName>, raised: Option<string>)
      requires manager.store == store && intentNode.store == store
      requires Path(init, visits) && NextNode(visits) == Some(node) && st == StateAfter(init, visits)
      requires chatObj.Value() == Logged(chat, visits)
      modifies chatObj`messages, store`redis, store`writes, store`acceptEvents
      ensures Recorded(init, visits, Visit(node, st, a), out, after, next)
      ensures raised == failure
      ensures chatObj.Value() == Logged(chat, visits + [Visit(node, st, a)])
      ensures store.redis == if failure.None? then old(store.redis)[id := chatObj.Value()] else old(store.redis)
      ensures store.writes == old(store.writes) + if failure.None? then [(id, chatObj.Value())] else []
      ensures store.acceptEvents == old(store.acceptEvents) + if node == IntentNode then AcceptsOf(st, a) else []
    {
      out := RunOne(node, st, a);
      after := Merge(st, out);
      next := Route(node, after);
      DriverStep(init, visits, Visit(node, st, a));
      SavesAppend(id, chat, visits, Visit(node, st, a));
      manager.AppendThinkingMessage(chatObj, node, out);
      raised := manager.SaveChat(id, chatObj, failure);
    }

    /** The loop over the graph's updates. `answers(i)` is what node execution `i` gets from outside. */
    method Drive(
      request: ChatRequest, chatObj: ChatObject, answers: nat -> Answer, saves: nat -> Option<string>, limit: nat)
      returns (userIntent: Option<UserIntent>, comment: Option<string>, finalReply: Option<Reply>,
               error: Option<string>, ghost visits: seq<Visit>)
      requires manager.store == store && intentNode.store == store
      requires store.redis == store.redis[request.conversationId := chatObj.Value()]
      modifies chatObj`messages, store`redis, store`writes, store`acceptEvents
      ensures var id, init, chat := request.conversationId, InitialState(request), old(chatObj.Value());
              var kept := visits[..Kept(visits, saves)];
              && visits == Visits(init, answers, saves, limit) && Path(init, visits)
              && userIntent == IntentOf(visits) && comment == CommentOf(visits) && finalReply == FinalReplyOf(kept)
              && error == ErrorOf(visits, answers, saves, limit)
              && chatObj.Value() == Logged(chat, visits)
              && store.redis == old(store.redis)[id := Logged(chat, kept)]
              && store.writes == old(store.writes) + Saves(id, chat, kept)
              && store.acceptEvents == old(store.acceptEvents) + Published(visits)
    {
      hide RunNode, Merge, Route, NodeText, NextNode, StateAfter, Path, Visits;
      hide IntentOf, CommentOf, FinalReplyOf, Published, Saves;
      var id := request.conversationId;
      ghost var chat, init := chatObj.Value(), InitialState(request);
      userIntent, comment, finalReply, error, visits := None, None, None, None, [];
      ghost var kept: seq<Visit> := [];
      var st := InitialState(request);
      var next := Some(IntentNode);
      var steps := 0;
      DriverStart(init, answers, saves, id, chat);
      while next.Some? && error.None?
        invariant steps == |visits| <= limit
        invariant visits == Visits(init, answers, saves, steps) && Path(init, visits)
        invariant st == StateAfter(init, visits) && next == NextNode(visits)
        invariant userIntent == IntentOf(visits) && comment == CommentOf(visits)
        invariant kept == visits[..Kept(visits, saves)] && finalReply == FinalReplyOf(kept)
        invariant chatObj.Value() == Logged(chat, visits)
        invariant store.redis == old(store.redis)[id := Logged(chat, kept)]
        invariant store.writes == old(store.writes) + Saves(id, chat, kept)
        invariant store.acceptEvents == old(store.acceptEvents) + Published(visits)
        invariant SaveFailed(visits, saves) ==> error == saves(steps - 1)
        invariant error.Some? && !SaveFailed(visits, saves) ==>
                    && next.Some?
                    && error == (if steps == limit then Some(OVERRUN) else answers(steps).raises)
        decreases limit - steps, error.None?
      {
        var node := next.value;
        if steps == limit {
          error := Some(OVERRUN);
        } else if answers(steps).raises.Some? {
          error := answers(steps).raises;
        } else {
          var a := answers(steps);
          ghost var visit := Visit(node, st, a);
          SavesAppend(id, chat, visits, visit);
          VisitsStep(init, answers, saves, steps, visits, visit);
          var out, after, edge, raised := RunAndLog(id, chatObj, node, st, a, saves(steps), chat, init, visits);
          KeptStep(visits, visit, saves);
          if node == IntentNode {
            userIntent, comment := out.userIntent, out.comment;
          }
          error := raised;
          if raised.None? && out.finalReply.Some? {
            finalReply := out.finalReply;
          }
          st, next := after, edge;
          steps := steps + 1;
          visits := visits + [visit];
          kept := visits[..Kept(visits, saves)];
        }
      }
      VisitsStop(init, answers, saves, steps, limit);
    }

    /**
     A run loads the chat and marks it thinking, saves after every node, and
     either appends one reply or leaves the turn to the ticket-agent. `limit`
     bounds the node executions; `load`, `saves` and `last` are the exceptions that
     the accesses to Redis raise.
     */
    method Execute(
      request: ChatRequest, answers: nat -> Answer, limit: nat,
      load: Option<string>, saves: nat -> Option<string>, last: Option<string>)
      returns (r: Result<(), RunError>, ghost visits: seq<Visit>)
      requires manager.store == store && intentNode.store == store
      modifies store`redis, store`writes, store`acceptEvents
      ensures load.Some? || request.conversationId !in old(store.redis) ==>
                && r == Err(if load.Some? then RedisFailed(load.value) else ConversationNotFound)
                && store.Value() == old(store.Value()) && store.writes == old(store.writes)
      ensures load.None? && request.conversationId in old(store.redis) ==>
                var id, init := request.conversationId, InitialState(request);
                var chat, kept := Loaded(old(store.redis)[id]), Kept(visits, saves);
                var reply := Conclusion(visits, kept, ErrorOf(visits, answers, saves, limit));
                var saved := Logged(chat, visits[..kept]);
                var closing := if reply.Some? && last.None? then [Replied(Logged(chat, visits), reply.value)] else [];
                && visits == Visits(init, answers, saves, limit) && Path(init, visits)
                && r == (if reply.Some? && last.Some? then Err(RedisFailed(last.value)) else Ok(()))
                && store.redis == old(store.redis)[id := if closing != [] then closing[0] else saved]
                && store.writes == old(store.writes) + [(id, chat)] + Saves(id, chat, visits[..kept])
                                   + (if closing != [] then [(id, closing[0])] else [])
                && store.acceptEvents == old(store.acceptEvents) + Published(visits)
    {
      hide RunNode, Merge, Route, NodeText, NextNode, Path, Visits, FinalReplyOf, Published, Saves;
      visits := [];
      var id := request.conversationId;
      var loaded := manager.LoadChat(id, load);
      if loaded.Err? {
        return Err(loaded.error), [];
      }
      var chatObj := loaded.value;
      ghost var chat := chatObj.Value();
      var userIntent, comment, finalReply, error, visits' := Drive(request, chatObj, answers, saves, limit);
      visits := visits';
      if userIntent == Some(Accept) && !Truthy(error) {
        return Ok(()), visits;
      }
      var raised: Option<string>;
      if userIntent == Some(Undefined) {
        raised := manager.AppendReplyMessage(id, chatObj, error, CommentContent(comment), IntentNode, last);
      } else {
        raised := manager.AppendReplyMessage(id, chatObj, error, PlanContentOf(finalReply), ReplyNode, last);
      }
      r := if raised.Some? then Err(RedisFailed(raised.value)) else Ok(());
    }
  }

  lemma {:induction false} KeptStep(visits: seq<Visit>, v: Visit, saves: nat -> Option<string>)
    requires !SaveFailed(visits, saves)
    ensures visits[..Kept(visits, saves)] == visits
    ensures var longer := visits + [v];
            && (SaveFailed(longer, saves) <==> saves(|visits|).Some?)
            && longer[..Kept(longer, saves)] == if saves(|visits|).Some? then visits else longer
  {
  }

  lemma {:induction false} VisitsStep(
    init: GraphState, answers: nat -> Answer, saves: nat -> Option<string>, steps: nat, visits: seq<Visit>, v: Visit)
    requires visits == Visits(init, answers, saves, steps) && |visits| == steps && !SaveFailed(visits, saves)
    requires NextNode(visits) == Some(v.node) && v.before == StateAfter(init, visits)
    requires answers(steps).raises.None? && v.answer == answers(steps)
    ensures Visits(init, answers, saves, steps + 1) == visits + [v]
  {
  }

  /** How the driver's local variables follow one more visit. */
  ghost predicate Recorded(
    init: GraphState, visits: seq<Visit>, v: Visit, out: NodeOutput, after: GraphState, next: Option<NodeName>)
  {
    var longer := visits + [v];
    && Path(init, longer)
    && next == NextNode(longer) && after == StateAfter(init, longer)
    && IntentOf(longer) == (if v.node == IntentNode then out.userIntent else IntentOf(visits))
    && CommentOf(longer) == (if v.node == IntentNode then out.comment else CommentOf(visits))
    && FinalReplyOf(longer) == (if out.finalReply.Some? then out.finalReply else FinalReplyOf(visits))
    && Published(longer) == Published(visits) + (if v.node == IntentNode then AcceptsOf(v.before, v.answer) else [])
  }

  lemma {:induction false} DriverStart(
    init: GraphState, answers: nat -> Answer, saves: nat -> Option<string>, id: Id, chat: Chat)
    ensures Visits(init, answers, saves, 0) == [] && Path(init, [])
    ensures StateAfter(init, []) == init && NextNode([]) == Some(IntentNode)
    ensures IntentOf([]).None? && CommentOf([]).None? && FinalReplyOf([]).None? && Published([]) == []
    ensures Logged(chat, []) == chat && Saves(id, chat, []) == []
  {
    assert chat.messages + Thinking([]) == chat.messages;
  }

  lemma {:induction false} DriverStep(init: GraphState, visits: seq<Visit>, v: Visit)
    requires Path(init, visits) && NextNode(visits) == Some(v.node) && v.before == StateAfter(init, visits)
    ensures Recorded(init, visits, v, v.Output(), v.After(), Route(v.node, v.After()))
  {
    var longer := visits + [v];
    assert longer[..|visits|] == visits;
    Predecessor(init, longer, |visits|);
    if visits != [] {
      assert longer[0] == visits[0];
    }
  }

  /** Once a run has stopped, a higher limit changes nothing. */
  lemma {:induction false} VisitsStop(
    init: GraphState, answers: nat -> Answer, saves: nat -> Option<string>, steps: nat, limit: nat)
    requires steps <= limit && |Visits(init, answers, saves, steps)| == steps
    requires steps < limit ==>
               var visits := Visits(init, answers, saves, steps);
               SaveFailed(visits, saves) || NextNode(visits).None? || answers(steps).raises.Some?
    ensures Visits(init, answers, saves, limit) == Visits(init, answers, saves, steps)
  {
    if steps < limit - 1 {
      VisitsStop(init, answers, saves, steps, limit - 1);
    }
  }
}
