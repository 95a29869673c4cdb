# Architect chat: a verified model

A user talks to a software architect that is really four programs: a NestJS backend, an
architect-agent, a ticket-agent and a browser. They share one conversation, kept as a whole
value in Redis and as a row in PostgreSQL, and pass it on over two queues. There are no locks:
what keeps them from overwriting each other is who holds the turn. This project models that
protocol and the programs around it, and proves what they rely on.

## The parts

| files | what they model |
|---|---|
| `Contracts`, `TurnLog`, `Stores` | messages and chats, the grammar of a log, Redis, the table and the two queues |
| `BackendChat` | `newChat`, `continueChat`, `stopChat`, `getChat` |
| `ArchitectGraph`, `GraphTrace`, `PlanContent` | the six nodes, the edges with their two reject loops, and what every run has in common |
| `ArchitectLog`, `ArchitectChat` | the messages of a run, and its driver as classes that change the chat in place |
| `TicketChat` | the ticket-agent's load, save and closing reply |
| `HandOff`, `LogHistory`, `TurnHolder`, `HandOffSafety` | the protocol as a state machine, the runs a log was made by, and the invariant |
| `HandOffTheorems`, `HandOffTurns`, `HandOffProgress`, `HandOffWitness` | what follows: safety, the runs behind a log, progress, and runs that show the assumptions are needed |
| `ChatGateway`, `SubscriberView` | polling, and what a subscriber is sent while the protocol runs |
| `ChatView`, `ViewContent`, `ReviewText` | how the browser reads a log, and what it then shows |
| `PythonTokens`, `TypeScriptTokens`, `Base64Url` | the two token caches and the text form of RSA numbers |
| `TicketStore` | epics and tickets saved under the ids their caller gives them |

`HandOff.Step` interleaves any number of conversations and of architect runs; one step is what
happens between two awaits, and each run and the ticket-agent hold private copies of the chat
between steps. `HandOff.Exec` runs any schedule from the empty system, so a lemma about
`Exec(INITIAL, schedule)` speaks of every reachable state. What a model answers, which exception
it raises and which ids are drawn are arbitrary inputs.

## What the protocol assumes

The code enforces none of these; each is a condition in `HandOff.Enabled` or is built into a step.

- A client continues or stops a conversation only after a read or poll has shown it `hasReplied`
  (`seen`). The backend accepts a continue from anyone at any time: the browser, for one, lets
  its user go on after the gateway's timeout. `HandOffTheorems.UnguardedContinue` says exactly when
  such a continue leaves one holder of the turn, and when it leaves a log of turns;
  `HandOffTheorems.UnguardedStop` says the same of a stop.
- `stopChat`, `continueChat` and the update inside `getChat` happen at once, and a backend call
  that fails changes nothing. `BackendChat.OverlappingStopLosesMessage` and
  `BackendChat.LateCopyLosesTurns` show what overlaps do.
- An accept event is delivered only when the architect run that published it is over.
  `HandOffWitness.EarlyDeliveryLosesMessage` shows what happens otherwise, and
  `HandOffWitness.DeliveryRuleIsNeeded` that a conversation gets there.
- The save of a run that has published an accept does not fail
  (`HandOffWitness.FailedAcceptSharesTurn` shows what happens then). Every other read and write of
  the two agents may: the steps `SaveFails`, `RunFails` and `TicketFails`.
- Ids drawn for new conversations are fresh, publishing succeeds, keys do not expire, and events are
  delivered once.

## What turned out not to hold

- A turn can be lost: nobody holds it, and the conversation stays `isThinking` until a client breaks
  the rule above (`LostForEver`). `SingleTurnHolder` gives the two ways, a failed read or
  write of an agent, whose exception its message processor swallows, and an accept of nothing.
  `LostIfNothingNew` says exactly which accepts those are: no plan was appended since
  the ticket-agent last saved the chat, because that save drops `node` from every message.
  Accepting the same plan twice is such a case.
- An open turn does not always come to its reply, even if nothing fails:
  `HandOffProgress.RepliesIfAndOnlyIfNotDoomed` says that some continuation gives the reply exactly
  if the turn is not lost and its run has not accepted where no plan is visible.
- A read of Redis that is still pending when a client subscribes again can clear the new timer.
  `ChatGateway.SafeIfAndOnlyIfNoOldReads` and `NewSubscriptionIsSafe` say exactly when it cannot, and
  `FinalIsLast` exactly when nothing follows a timer's final message.
- Updates of one subscription grow if its reads are answered in order (`SubscriberView.UpdatesGrow`), which
  the backend's one Redis connection sees to (`backend/src/redis/services/redis.service.ts:9-12`). For a client
  that answered out of order, `UpdatesGrowUnlessOvertaken` says what an overtaken read would show.
- A review comment with a newline in it is not shown as it was written
  (`ReviewText.ReviewRoundTrip`, an if-and-only-if).
- The Python token cache serves expired tokens exactly if a request can take more than 30 s
  (`PythonTokens.ExpiredIfAndOnlyIfSlow`). It can serve a token under an expiry that is not its own
  only after an answer without `expires_in` came while it held an empty token that was not yet due
  (`ServedUnderOwnExpiry`), and can come to that from exactly the states that hold such a token,
  whatever their callers are doing (`LendsIfAndOnlyIfEmpty`).
- Zero, and no other number, is written differently from what section 2 of RFC 7518 asks for: as the empty
  text instead of "AA" (`Base64Url.StandardUnlessZero`). No number of an RSA key is zero.
- Not every plan the architect-agent sends can be stored: the ticket-service refuses empty texts
  and names over 500 characters (`TicketStore.PlanIsStored`, `TicketStore.EpicIsStorable`, both if-and-only-if).

Where the code and its documentation disagree the model follows the code. `SPECS.md:120` has a
`create_node` in the architect's graph write the final reply; in the code an accept ends that
graph and the ticket-agent writes it. The repository's `README.md:265` has the gateway poll until the agent has
replied; in the code it also gives up after 600 polls. `SPECS.md:119` has `reply_node` write to
Redis; in the code the driver does.

## Model

| member | source | states |
|---|---|---|
| HandOffTheorems.SingleTurnHolder | backend/src/chat/services/chat.service.ts:29-100 | in every reachable state a conversation has at most one party that can still write to it (queued event, run, deliverable accept, ticket run), none while it waits for its user, and none while thinking exactly if the turn was lost, to an accept of nothing or to a failed access to Redis |
| HandOffTheorems.UnguardedContinue | backend/src/chat/services/chat.service.ts:50-84 | in every reachable state a continue succeeds and adds one holder; the turn then has just one if and only if nobody held it, and the log is still one of turns if and only if none was open |
| HandOffTheorems.UnguardedStop | backend/src/chat/services/chat.service.ts:86-100 | in every reachable state with the key a stop succeeds and changes neither log nor holders; it leaves a closed log if and only if no turn was open, and no holder if and only if there was none |
| HandOffTheorems.AppendOnly | architect-agent/app/services/chat_manager.py:20-30 | along every run, through stops, reloads and both agents' whole-object saves, each log only grows at its end apart from `node` |
| HandOffTheorems.TurnGrammar | architect-agent/app/services/chat_manager.py:88-111 | every reachable log is closed turns and at most one open turn, which is there exactly while the live status is `isThinking` |
| HandOffTheorems.ChatEventAgrees | backend/src/chat/services/chat.service.ts:73-82 | each queued chat event's history and message together are the live log |
| HandOffTheorems.AcceptEventAgrees | architect-agent/app/agent/nodes/intent_node.py:46-56 | each queued accept event carries the last plan appended since the ticket-agent last saved the chat |
| HandOffTheorems.VisiblePlans | ticket-agent/app/contracts/chat_interface.py:27-31 | the plans the architect-agent can see are exactly those after the ticket-agent's last save |
| HandOffTheorems.TwoCopiesAgree | backend/src/chat/services/chat.service.ts:86-127 | a Redis key has a row with its title whose messages are a prefix of the live ones; a read returns the log; stop then continue leaves the same Redis value and event as continue alone |
| HandOffTheorems.OwnerStays | backend/src/chat/services/chat.service.ts:38-44 | along every run a conversation's row keeps the title and the user it was created with |
| HandOffTheorems.WorkFindsItsChat | architect-agent/app/services/chat_manager.py:20-27 | while a run or the ticket-agent works on a conversation its key exists and is thinking, so no load misses it and no save revives a deleted key |
| HandOffTheorems.AcceptedOrLost | architect-agent/app/services/chat_service.py:71-73 | an accepting run leaves the turn with the queued accept if its history shows a plan, and with nobody exactly if it does not |
| HandOffTheorems.LostIfNothingNew | architect-agent/app/agent/nodes/intent_node.py:43-58 | read off the log: an accept loses the turn if and only if no plan was appended since the ticket-agent's last save |
| HandOffTheorems.LostForEver | architect-agent/app/agent/nodes/intent_node.py:43-58 | while clients keep to the rule of continuing only after a reply, no schedule changes a conversation whose turn is lost |
| HandOffProgress.RepliesIfAndOnlyIfNotDoomed | architect-agent/app/services/chat_service.py:18-80 | from every reachable state with an open turn some continuation in which nothing fails reaches its reply, if and only if the turn is not lost and its run has not accepted where no plan is visible |
| HandOffProgress.RunReplies | architect-agent/app/services/chat_service.py:45-80 | any run that has not accepted nothing can go on to its reply, or to the ticket-agent's |
| HandOffProgress.AcceptedReplies | ticket-agent/app/events/rabbitmq_consumer.py:39-43 | the ticket-agent, one event at a time, gets to every accept in the queue |
| HandOffProgress.NodeFailureIsTold | architect-agent/app/services/chat_service.py:64-80 | from every reachable state an exception of a run's next node ends in a reply "Error: " and its text |
| HandOffProgress.SaveFailureIsTold | architect-agent/app/services/chat_service.py:60-80 | so does a failed save of a run that has published nothing, and what was not saved is saved with the reply |
| HandOffProgress.RunFailureLoses | architect-agent/app/events/message_processor.py:22-36 | a failed load, thinking mark or last write loses the turn and changes no store |
| HandOffProgress.TicketFailureLoses | ticket-agent/app/events/message_processor.py:13-28 | so does a failed load or save of the ticket-agent |
| HandOffProgress.ClientCanGoOn | backend/src/chat/services/chat.service.ts:50-100 | a client that has seen the reply can continue and stop in every reachable state, with these effects on log, key and row |
| HandOffTheorems.PollsGrow | architect-agent/app/services/chat_manager.py:29-30 | of two values of a conversation in Redis the later one's messages continue the earlier one's |
| HandOffTheorems.NoStaleReply | backend/src/chat/services/chat.service.ts:73-83 | after a continue has returned, a chat that says `hasReplied` holds the new user message and ends in a reply that came after it |
| HandOffTheorems.OnlyAgentsUntilContinue | backend/src/chat/services/chat.service.ts:67-79 | until the next continue nothing but agent messages is appended |
| HandOffTheorems.LiveTurnIsNextTurn | frontend/src/components/ArchitectChat.tsx:279-287 | the log after a continue is the log before it, the user's message and agent messages only, as the browser's offset takes for granted |
| HandOffTheorems.BrowserShowsLiveTurn | frontend/src/components/ArchitectChat.tsx:279-305 | in every reachable live turn a browser in step with the log shows exactly that turn's messages, no reply while the agent thinks, then the turn's own reply, and is in step again |
| HandOffTurns.TurnsAreRuns | architect-agent/app/services/chat_service.py:18-80 | since the ticket-agent's last save, the closed part of every reachable log is a chain of turns, each made by one run on the log before it |
| HandOffTurns.ReachableTurnsAreTagged | architect-agent/app/services/chat_manager.py:32-109 | every such turn in a reachable log carries the `node` tags of a full run before a plan, of one intent before a comment, and else of a prefix of a full run before one text |
| HandOffTurns.EpicSurvives | architect-agent/app/agent/nodes/reply_node.py:13-33 | along every run of the protocol the latest plan keeps its epic name and requirements, through comments, errors, refines, stops and reloads, until the ticket-agent saves or a plan that is no refinement is written |
| SubscriberView.UpdatesGrow | backend/src/chat/gateways/chat.gateway.ts:32-36 | of two updates that a timer sends the later one's messages continue the earlier one's, if its reads are answered in the order they were served |
| SubscriberView.UpdatesGrowUnlessOvertaken | backend/src/chat/gateways/chat.gateway.ts:32-36 | in whatever order a timer's reads are answered, a later update continues an earlier one if and only if it is not shorter |
| SubscriberView.NoStaleUpdate | backend/src/chat/gateways/chat.gateway.ts:20-47 | a subscription opened after a continue has returned never sends a `hasReplied` chat without the new message and a reply after it |
| HandOffSafety.OthersUntouched | architect-agent/app/events/rabbitmq_consumer.py:39-43 | a step changes nothing that concerns another conversation |
| HandOffSafety.StepKeeps | architect-agent/app/services/chat_service.py:46-80 | every step of every party keeps the invariant of every conversation |
| HandOffSafety.Always | ticket-agent/app/events/rabbitmq_consumer.py:39-43 | the invariant holds for every conversation in every reachable state |
| TurnHolder.ContinueKeeps | backend/src/chat/services/chat.service.ts:50-84 | a guarded continue keeps the invariant and makes the queued event the only holder |
| TurnHolder.AcceptKeeps | architect-agent/app/services/chat_service.py:71-73 | the end of an accepting run keeps the invariant and hands the turn to the accept event, or to nobody |
| TurnHolder.FailKeeps | architect-agent/app/events/message_processor.py:22-36 | a run that is dropped by a failed read or write keeps the invariant and leaves the turn to nobody |
| TurnHolder.TicketFailKeeps | ticket-agent/app/events/message_processor.py:13-28 | so does a ticket-agent run |
| TurnHolder.CloseKeeps | ticket-agent/app/services/chat_manager.py:20-43 | the ticket-agent's whole-object save keeps the invariant, extends the log and hides every earlier plan |
| HandOffWitness.EarlyDeliveryLosesMessage | architect-agent/app/agent/nodes/intent_node.py:43-58 | from any state about to accept a plan, a delivery before the run's save makes the ticket-agent erase a message that was already saved |
| HandOffWitness.DeliveryRuleIsNeeded | architect-agent/app/services/chat_service.py:56-60 | a state from which that race starts is reachable |
| HandOffWitness.FailedAcceptSharesTurn | architect-agent/app/services/chat_service.py:56-80 | if the save of a published accept fails, the run also replies, so the user and the ticket-agent both have the turn |
| HandOffWitness.PathCanRun | architect-agent/app/services/chat_service.py:45-63 | every path through the graph is the work of some schedule of a run |
| BackendChat.ChatService.Create | backend/src/chat/services/chat.service.ts:29-48 | row, key and event are written together, or a value too long for its column changes nothing |
| BackendChat.ChatService.Continue | backend/src/chat/services/chat.service.ts:50-84 | the message is appended to the Redis log, or to the row's if there is no key, and the event carries the log before it; an unknown id changes nothing |
| BackendChat.ChatService.Stop | backend/src/chat/services/chat.service.ts:86-100 | the live messages move to the row and the key goes; an absent title keeps the row's |
| BackendChat.ChatService.Read | backend/src/chat/services/chat.service.ts:102-127 | a read returns the log from wherever it lives and never changes any log |
| BackendChat.NewChatIsSeen | backend/src/chat/services/chat.service.ts:29-48 | a new chat reads back as active and thinking, titled by its one message; its row has the user; a message over 500 or a user over 255 characters is refused |
| BackendChat.ContinueIsSeen | backend/src/chat/services/chat.service.ts:50-84 | exactly what can be read can be continued, and reads back as the same chat, active and thinking, with one message more |
| BackendChat.StopIsSeen | backend/src/chat/services/chat.service.ts:86-127 | a stopped chat reads back with the same messages as stopped and replied, its title kept if it had none, its user unchanged |
| BackendChat.ReadIsSeen | backend/src/chat/services/chat.service.ts:102-127 | what a read shows in each case, and that it copies messages to the row exactly for a chat that has replied |
| BackendChat.StopKeepsLogs | backend/src/chat/services/chat.service.ts:86-100 | stopping changes no conversation's log and no queue |
| BackendChat.StopIsUnnoticed | backend/src/chat/services/chat.service.ts:50-100 | stop then continue gives the Redis value, log and event of a continue alone |
| BackendChat.OverlappingStopLosesMessage | backend/src/chat/services/chat.service.ts:86-100 | a continue between the read and the write of a stop loses the user's message although both succeed |
| BackendChat.LateCopyLosesTurns | backend/src/chat/services/chat.service.ts:104-112 | a read's background update of the row that lands after later turns were stopped replaces them by what was read |
| Contracts.LatestPlanIsLast | architect-agent/app/agent/nodes/intent_node.py:46-47 | the backward search finds the last visible plan, and nothing only if there is none |
| Contracts.ErasedHidesPlans | ticket-agent/app/contracts/chat_interface.py:27-31 | a chat read without `node` shows no plan at all |
| Contracts.ErasedKeepsRest | ticket-agent/app/contracts/chat_interface.py:27-31 | nothing but `node` is lost |
| TurnLog.ScanIsGrammar | architect-agent/app/services/chat_manager.py:55-109 | reading a log message by message accepts exactly the logs that are closed turns and an optional open one |
| TurnLog.ScanErased | ticket-agent/app/contracts/chat_interface.py:27-31 | erasing `node` leaves the turns as they are |
| GraphTrace.PathStage | architect-agent/app/agent/architect_graph.py:53-98 | at any moment a run is in one of five stages, with all earlier reviews of its loop rejected |
| GraphTrace.FullRun | architect-agent/app/agent/architect_graph.py:63-84 | a run that reaches `reply_node` took 2s + 2p + 2 executions in the order of the template, each loop approved in its last round only |
| GraphTrace.PartialRun | architect-agent/app/agent/architect_graph.py:63-84 | wherever a run stops its nodes are a prefix of the template, and it ends by itself only after the intent or after the reply |
| GraphTrace.ApprovedMeansApproved | architect-agent/app/agent/nodes/reply_node.py:7-26 | the reply's solution and tickets are those the last two reviews inspected and approved, and the solution did not change after its approval |
| PlanContent.ReplyHolds | architect-agent/app/agent/nodes/plan_node.py:37-48 | every field of a sent plan: the tickets are the last round's drafts, field by field, under one epic id, and the epic's name, requirements and solution by where they come from |
| GraphTrace.SolutionFeedback | architect-agent/app/agent/nodes/solution_node.py:25-38 | REVISE exactly after a rejection with comments, with those comments and the rejected solution; else REFINE exactly for a refine with a visible plan; else NEW |
| GraphTrace.PlanFeedback | architect-agent/app/agent/nodes/plan_node.py:17-35 | the planning prompt is REVISE exactly after a plan review that rejected with comments, and holds just those |
| GraphTrace.CarriedAt | architect-agent/app/agent/nodes/intent_node.py:60-69 | requirement, history and prior solution stay what the request and the intent made them, and all tickets share one epic id |
| PlanContent.MetaIsLatestPlan | architect-agent/app/agent/nodes/reply_node.py:28-33 | the search of `reply_node` picks the same message as the search of `intent_node` |
| PlanContent.CutTwice | architect-agent/app/agent/nodes/reply_node.py:21 | an epic name is cut to its first 200 characters, and cutting twice is cutting once |
| PlanContent.RunSendsWellMade | architect-agent/app/agent/nodes/reply_node.py:18-26 | every finished run sends a named epic with requirements whose id every ticket carries |
| PlanContent.RefineKeepsEpic | architect-agent/app/agent/nodes/reply_node.py:13-16 | a refine keeps the plan's epic name and requirements while its solution is the newly approved one |
| ArchitectLog.EpicContinuity | architect-agent/app/agent/nodes/reply_node.py:13-33 | along any chain of turns, whatever they ask for and however they end, the latest plan keeps the epic name and requirements, as long as no turn sends a plan that is no refinement |
| ArchitectLog.TurnIsTagged | architect-agent/app/services/chat_manager.py:32-109 | the messages a run adds carry the tags of a full run before a plan, of one intent before a comment, and else of a prefix of a full run before one text |
| ArchitectLog.RunOutcome | architect-agent/app/services/chat_service.py:71-80 | a run appends one reply and publishes nothing, or accepts and publishes the latest visible plan, if there is one; only an accept whose save fails both publishes and replies |
| ArchitectLog.ReplyTellsOutcome | architect-agent/app/services/chat_manager.py:88-109 | a finished run replies with the plan of its last node, one that asks for nothing with the model's comment or a default, one that was broken off with the error, or without it if the exception had no text |
| ArchitectLog.FinalReplyIsLast | architect-agent/app/services/chat_service.py:62-63 | a final reply exists exactly if `reply_node` was the last node |
| ArchitectLog.AcceptStops | architect-agent/app/agent/architect_graph.py:64-68 | a run whose intent is neither plan nor refine is over after one node |
| ArchitectLog.ReplyIsWellMade | architect-agent/app/services/chat_manager.py:88-99 | a plan in a reply is the well-made plan of a finished run; any other reply of the architect-agent is text |
| ArchitectLog.ReviewsParse | architect-agent/app/services/chat_manager.py:35-78 | the browser recovers caption, verdict and comments of both kinds of review if and only if no comment holds a newline |
| ArchitectLog.ReviewIsLogged | architect-agent/app/services/chat_manager.py:35-78 | for every review the browser shows its caption, "Result: Approved" exactly if it approved and else "Result: Needs revision", and what it objected to |
| ArchitectLog.NodeIsLogged | architect-agent/app/services/chat_manager.py:80-86 | the text that is logged for each other node, and for each intent |
| ArchitectChat.VisitsArePath | architect-agent/app/services/chat_service.py:45-64 | with any step limit the driver follows the edges and stops only at the end, at an exception of a node or of a save, or at the limit |
| ArchitectChat.VisitsUseAnswers | architect-agent/app/services/chat_service.py:46-47 | each node execution gets its own answer, in order |
| ArchitectChat.ErrorIsFirst | architect-agent/app/services/chat_service.py:64-69 | the error of a run is that of its last save, or of the node it was about to run, or of the limit |
| ArchitectChat.SavesShowProgress | architect-agent/app/services/chat_service.py:59-60 | the k-th save holds the messages of the first k nodes after what was there, and changes nothing else |
| ArchitectChat.AnyLimitEndsTheTurn | architect-agent/app/services/chat_service.py:45-80 | with any step limit and any failing nodes and saves a run ends on a prefix of the template, and replies unless it accepts and no exception with a text broke it off |
| ArchitectChat.ChatManager.LoadChat | architect-agent/app/services/chat_manager.py:20-27 | the loaded chat is marked thinking in memory and in Redis; a missing key or a failed access changes nothing |
| ArchitectChat.ChatManager.SaveChat | architect-agent/app/services/chat_manager.py:29-30 | one whole value is written, or none if Redis fails |
| ArchitectChat.ChatManager.AppendThinkingMessage | architect-agent/app/services/chat_manager.py:32-63 | exactly one thinking message is appended in place, with the node's tag and the text that ReviewIsLogged and NodeIsLogged describe |
| ArchitectChat.ChatManager.AppendReplyMessage | architect-agent/app/services/chat_manager.py:88-111 | exactly one reply is appended and, unless Redis fails, saved; a non-empty error wins over the content |
| ArchitectChat.IntentRunner.HandleAccept | architect-agent/app/agent/nodes/intent_node.py:43-58 | the loop publishes the latest visible plan once, or nothing |
| ArchitectChat.IntentRunner.BuildUpdates | architect-agent/app/agent/nodes/intent_node.py:60-69 | the loop finds the latest visible plan's solution, for a refine only |
| ArchitectChat.IntentRunner.Call | architect-agent/app/agent/nodes/intent_node.py:20-41 | the node returns the partial update of its intent and publishes only on accept |
| ArchitectChat.ChatService.RunAndLog | architect-agent/app/services/chat_service.py:46-63 | one node is run and logged, and saved unless Redis fails, and the driver's variables follow |
| ArchitectChat.ChatService.Drive | architect-agent/app/services/chat_service.py:40-69 | the loop makes the visits of a path, writes Redis once per saved visit, and ends with the intent, comment, error and recorded reply of that path |
| ArchitectChat.ChatService.Execute | architect-agent/app/services/chat_service.py:18-80 | the whole run, whichever node, read or write fails: every value it writes, in order, what it publishes, what it raises, and the chat it leaves |
| TicketChat.TicketSaveClosesTurn | ticket-agent/app/services/chat_manager.py:34-43 | the save closes the open turn with one reply, extends the log and hides its plans |
| TicketChat.ReplyTellsLastState | ticket-agent/app/services/ticket_service.py:42-49 | the reply is the error, or the ids that the last state of the stream carries, or that there are none |
| TicketChat.ProjectedKeepsRest | ticket-agent/app/services/chat_manager.py:11-15 | the ticket-agent reads everything of a chat but `node` |
| TicketChat.TicketService.LoadChat | ticket-agent/app/services/chat_manager.py:11-15 | the chat is read without `node`, a missing key or a failed read is an error, and nothing is written |
| TicketChat.TicketService.AppendReplyMessage | ticket-agent/app/services/chat_manager.py:20-43 | one reply is appended and, unless Redis fails, the whole chat saved; a non-empty error wins |
| TicketChat.TicketService.Execute | ticket-agent/app/services/ticket_service.py:16-49 | exactly one value is written, at the end, and without an error its last message has the ids of the last state of the stream; if a read or write fails, nothing is written |
| ChatGateway.ChatGatewayService.HandleSubscribe | backend/src/chat/gateways/chat.gateway.ts:20-47 | the client's old timer is cleared and a new one set |
| ChatGateway.ChatGatewayService.HandleDisconnect | backend/src/chat/gateways/chat.gateway.ts:49-51 | the client's timer is cleared |
| ChatGateway.ChatGatewayService.Fire | backend/src/chat/gateways/chat.gateway.ts:25-30 | a poll is counted, and either waits for its read or times the subscription out |
| ChatGateway.ChatGatewayService.Answer | backend/src/chat/gateways/chat.gateway.ts:32-43 | a chat that was found is sent whatever its status, and a reply clears the client's subscription; a missing chat or an error sends nothing |
| ChatGateway.StepMatched | backend/src/chat/gateways/chat.gateway.ts:20-59 | every step keeps live timers and subscriptions each other's inverse |
| ChatGateway.OneTimerPerClient | backend/src/chat/gateways/chat.gateway.ts:20-21 | however polls and reads interleave, a client has at most one live timer |
| ChatGateway.SubscriptionEnds | backend/src/chat/gateways/chat.gateway.ts:23-29 | however polls and reads interleave, a timer fires at most 601 times and sends at most 600 updates; it reports a timeout exactly if it fired 601 times, and then is not live |
| ChatGateway.AnswerSends | backend/src/chat/gateways/chat.gateway.ts:32-36 | an answer that brings a chat sends that chat, and any other sends nothing |
| ChatGateway.SentIsBrought | backend/src/chat/gateways/chat.gateway.ts:32-36 | over any run, what a timer sends is exactly the chats that its reads brought, each once and in order |
| ChatGateway.EveryPollReads | backend/src/chat/gateways/chat.gateway.ts:25-33 | each of a timer's first 600 polls makes one read, and none is answered twice or forgotten |
| ChatGateway.SubscribeRenews | backend/src/chat/gateways/chat.gateway.ts:20-46 | a subscribe leaves the client one new timer for that chat, and every other client its own |
| ChatGateway.DisconnectEnds | backend/src/chat/gateways/chat.gateway.ts:49-59 | a disconnect leaves the client no timer, and every other client its own |
| ChatGateway.StaysOver | backend/src/chat/gateways/chat.gateway.ts:53-59 | a cleared timer with no read under way never polls or sends again |
| ChatGateway.FinalIsLast | backend/src/chat/gateways/chat.gateway.ts:25-43 | the reply or the timeout is the last thing a timer, live or cleared, ever sends, if and only if it has no second read under way |
| ChatGateway.SafeIfAndOnlyIfNoOldReads | backend/src/chat/gateways/chat.gateway.ts:20-59 | a subscription can end only by its client leaving or after its own final message, if and only if no read by another timer of its client is under way |
| ChatGateway.NewSubscriptionIsSafe | backend/src/chat/gateways/chat.gateway.ts:20-22 | so a new subscription is safe if and only if its client has no read under way when it subscribes |
| ChatGateway.LateReadEndsNewSubscription | backend/src/chat/gateways/chat.gateway.ts:33-40 | when it is not, any such read, of a live timer or of a cleared one, that finds a reply clears the new timer before it has sent anything |
| ChatView.SplitTurns | frontend/src/components/ArchitectChat.tsx:82-108 | the loop gives one turn per reply, and on a closed log the turns join to the log again |
| ChatView.SplitJoins | frontend/src/components/ArchitectChat.tsx:82-108 | on every log of the grammar, turns and pending messages together are the log |
| ChatView.OneTurnPerReply | frontend/src/components/ArchitectChat.tsx:93-101 | on any log at all there is one turn per reply, showing that reply |
| ChatView.ChatComponent.HandleLoaded | frontend/src/components/ArchitectChat.tsx:207-229 | loading sets the shown turn, the earlier turns and the offset |
| ChatView.ChatComponent.HandleSearch | frontend/src/components/ArchitectChat.tsx:317-340 | a new chat starts from nothing shown |
| ChatView.ChatComponent.HandleContinue | frontend/src/components/ArchitectChat.tsx:342-367 | a continue files the shown turn and counts its messages as old |
| ChatView.ChatComponent.HandleUpdate | frontend/src/components/ArchitectChat.tsx:279-301 | an update shows the agent messages after the offset, and the reply when there is one |
| ChatView.LoadSyncs | frontend/src/components/ArchitectChat.tsx:208-228 | after loading a closed log the offset and the shown messages count all its agent messages |
| ChatView.UpdateShowsNewTurn | frontend/src/components/ArchitectChat.tsx:282-287 | after a continue an update shows exactly the new turn |
| ChatView.UpdateShowsReply | frontend/src/components/ArchitectChat.tsx:289-300 | the update that ends a turn shows the log's last message, as a result or as a text, and no earlier reply |
| ChatView.UpdateShowsNoReplyYet | frontend/src/components/ArchitectChat.tsx:289-300 | until then none is shown |
| ChatView.ExactIfAndOnlyIfSynced | frontend/src/components/ArchitectChat.tsx:282-283 | the slice is the new turn if and only if the view had counted the log right |
| ChatView.SessionShowsEachTurn | frontend/src/components/ArchitectChat.tsx:342-367 | after a load and any number of live rounds each round showed exactly its own turn |
| ViewContent.SplitShowsTurns | frontend/src/components/ArchitectChat.tsx:82-108 | cutting a closed log gives exactly its turns, each with its user message, agent messages and reply |
| ViewContent.LoadShowsLog | frontend/src/components/ArchitectChat.tsx:207-229 | a loaded conversation shows its last turn, and all others as completed with their thinking messages and replies |
| ViewContent.ContinueCompletes | frontend/src/components/ArchitectChat.tsx:342-367 | a continue adds the shown turn to the completed ones if and only if its user message is not empty |
| ViewContent.UpdateShowsLog | frontend/src/components/ArchitectChat.tsx:279-367 | a view that shows all turns shows them again, and the next one, after a continue and the update that ends it |
| ViewContent.FirstUpdateShowsLog | frontend/src/components/ArchitectChat.tsx:279-340 | so does the view of a new chat after its first turn |
| ReviewText.ReviewRoundTrip | frontend/src/components/ArchitectChat.tsx:48-54 | what the agent prints of a review the browser reads back, if and only if no comment holds a newline |
| ReviewText.KnownReviews | architect-agent/app/services/chat_manager.py:65-69 | the whole text of a review that approves, and of one that rejects with a comment |
| ReviewText.WhichLinesAreComments | frontend/src/components/ArchitectChat.tsx:50 | a blank line is left out, and what is left out is blank or says "Comments:" between blanks |
| PythonTokens.KeycloakTokenService.FastPath | ticket-agent/app/auth/keycloak_token_service.py:30-36 | the cached token is returned exactly if it is non-empty and more than 30 s from its stored expiry |
| PythonTokens.KeycloakTokenService.AfterAcquire | ticket-agent/app/auth/keycloak_token_service.py:37-41 | inside the lock the test is made again, and the lock stays held exactly if a request follows |
| PythonTokens.KeycloakTokenService.AfterRequest | ticket-agent/app/auth/keycloak_token_service.py:43-50 | the token is stored before `expires_in` is looked up, a failure stores nothing, and the lock is released in every case |
| PythonTokens.OneRequest | ticket-agent/app/auth/keycloak_token_service.py:37-44 | with any number of callers at most one request is in flight |
| PythonTokens.EveryCallIsAnswered | ticket-agent/app/auth/keycloak_token_service.py:29-50 | no call is forgotten: it was served, got the outcome of its own request, was cancelled or still waits |
| PythonTokens.RequestsAreSpaced | ticket-agent/app/auth/keycloak_token_service.py:38-46 | over any run, no request is sent until 30 s before the stored expiry of every token received earlier |
| PythonTokens.ServedLife | mcp-server/app/auth/keycloak_token_service.py:30-46 | whatever is answered, a token served from the cache under its own expiry has more than 30 s less its request's latency to live |
| PythonTokens.ServedUnderOwnExpiry | mcp-server/app/auth/keycloak_token_service.py:40-46 | every token is served under its own expiry in a run in which no token without `expires_in` arrives while an empty one is held that is not yet due |
| PythonTokens.LendingHasPattern | mcp-server/app/auth/keycloak_token_service.py:45-46 | such an arrival is a token without an expiry after a complete answer without a token, and no complete one in between |
| PythonTokens.ExpiredIfAndOnlyIfSlow | mcp-server/app/auth/keycloak_token_service.py:30-46 | some run with latencies up to L, and no such arrival, serves an expired token if and only if L is over 30 s |
| PythonTokens.LendsIfAndOnlyIfEmpty | ticket-agent/app/auth/keycloak_token_service.py:29-50 | from a reachable state with nothing lent yet, whatever its callers are doing, a token can come to be served under an expiry not its own before the next complete answer, if and only if the state holds an empty token more than 30 s from its expiry |
| TypeScriptTokens.KeycloakTokenService.GetToken | backend/src/auth/services/keycloak-token.service.ts:57-70 | a call gets the fresh token, the promise in flight, or starts a fetch |
| TypeScriptTokens.KeycloakTokenService.FinishFetch | backend/src/auth/services/keycloak-token.service.ts:72-91 | the expiry counts from the second the fetch started in; a failure changes no field |
| TypeScriptTokens.KeycloakTokenService.ClearInflight | backend/src/auth/services/keycloak-token.service.ts:65-67 | the shared promise is forgotten and nothing else |
| TypeScriptTokens.OneFetch | backend/src/auth/services/keycloak-token.service.ts:63-69 | with any number of callers at most one fetch is in flight |
| TypeScriptTokens.EveryCallIsAnswered | backend/src/auth/services/keycloak-token.service.ts:57-70 | every call is given a token or a promise |
| TypeScriptTokens.FetchesAreSpaced | backend/src/auth/services/keycloak-token.service.ts:57-89 | over any run, no fetch starts until 30 s before the stored expiry of every usable token received earlier |
| TypeScriptTokens.JoinedShareOutcome | backend/src/auth/services/keycloak-token.service.ts:63-69 | all callers given one promise get one outcome, whenever they look |
| TypeScriptTokens.CallNeverReuses | backend/src/auth/services/keycloak-token.service.ts:63-69 | a call without a fresh token joins the fetch in flight or starts one, and starts one exactly if every earlier fetch was shared, so the call after a failure tries again |
| TypeScriptTokens.FailureKeepsCache | backend/src/auth/services/keycloak-token.service.ts:82-85 | any number of failing fetches leave token and expiry as they were |
| TypeScriptTokens.ServedLife | backend/src/auth/services/keycloak-token.service.ts:57-88 | a token served from the cache has more than 30 s to live despite whole seconds, for any lifetime in whole seconds |
| Base64Url.LengthIsMinimal | ticket-agent/app/auth/jwks_service.py:36-38 | the octets of a number fit a length if and only if it is at least the one computed |
| Base64Url.PaddingIsRedundant | ticket-agent/app/auth/jwks_service.py:38 | the text has no padding left, and its length tells how to restore it |
| Base64Url.DecodeInverts | mcp-server/app/auth/jwks_service.py:38 | a strict base64url decoder reads every encoding back |
| Base64Url.LetterIsInTable | ticket-agent/app/auth/jwks_service.py:38 | the 64 letters are the capitals, the small letters, the digits, the hyphen and the underscore, in this order |
| Base64Url.WholeGroupsValue | mcp-server/app/auth/jwks_service.py:38 | in whole groups of octets the text is their number, written in base 64 |
| Base64Url.ShortGroups | mcp-server/app/auth/jwks_service.py:38 | octets left over are written as if zero bits followed, with padding for what is missing |
| Base64Url.RoundTrip | ticket-agent/app/auth/jwks_service.py:36-38 | every number is written without padding and read back as itself |
| Base64Url.Injective | mcp-server/app/auth/jwks_service.py:36-38 | different numbers are written differently |
| Base64Url.CanonicalText | mcp-server/app/auth/jwks_service.py:36-38 | octets are what the code writes for their number if and only if the first is not zero |
| Base64Url.StandardUnlessZero | ticket-agent/app/auth/jwks_service.py:36-38 | the text is the one the standard defines if and only if the number is not zero |
| Base64Url.KnownTexts | ticket-agent/app/auth/jwks_service.py:36-38 | 65537 is "AQAB", and zero is the empty text |
| TicketStore.TicketService.Create | ticket-service/src/ticket/services/ticket.service.ts:16-26 | a valid ticket replaces the row with its id in place or becomes the last row, so ids stay unique; one with an id that is no UUID, an empty text or too long a name is refused and changes nothing |
| TicketStore.TicketService.FindByEpic | ticket-service/src/ticket/services/ticket.service.ts:28-30 | a row is listed if and only if it is the epic's, as often as it is stored, and the list keeps the order of creation |
| TicketStore.TicketService.FindOne | ticket-service/src/ticket/services/ticket.service.ts:32-36 | the one row with that id, and an error exactly if there is none |
| TicketStore.EpicService.Create | ticket-service/src/epic/services/epic.service.ts:16-25 | a valid epic is stored under its own id; one with an id that is no UUID, an empty text or too long a name is refused and changes nothing |
| TicketStore.EpicService.FindOne | ticket-service/src/epic/services/epic.service.ts:27-31 | the one stored epic with that id, and an error exactly if there is none |
| TicketStore.StorableTickets | ticket-service/src/ticket/dto/create-ticket.dto.ts:4-36 | exactly which tickets can be stored: UUIDs, a name of 1 to 500 characters, no empty text |
| TicketStore.StorableEpics | ticket-service/src/epic/dto/create-epic.dto.ts:4-54 | exactly which epics can be stored |
| TicketStore.RandomUuidsAreAccepted | architect-agent/app/agent/nodes/plan_node.py:38-41 | the ids that the architect-agent draws pass the validation, and nothing without a UUID's shape does |
| TicketStore.LaterEpicReplaces | ticket-service/src/epic/services/epic.service.ts:16-25 | a later epic under one id replaces the earlier and changes no other |
| TicketStore.ListIsFirsts | ticket-service/src/ticket/services/ticket.service.ts:16-30 | after any calls, an unused epic's list is what was issued for it, each storable ticket once, in the order of first issue |
| TicketStore.PlanIsStored | ticket-service/src/ticket/services/ticket.service.ts:16-30 | a plan issued in any order and with any repeats is the epic's list if and only if each of its tickets can be stored |
| TicketStore.PlanKeepsOrder | ticket-service/src/ticket/services/ticket.service.ts:28-30 | issued in its own order, whatever is repeated later, a plan is listed in that order |
| TicketStore.ReplayChangesNothing | ticket-service/src/ticket/services/ticket.service.ts:16-26 | issuing any tickets again, of whichever epics and in any order, changes no field of any row, whatever was stored before |
| TicketStore.ReusedIdLosesTicket | ticket-service/src/ticket/services/ticket.service.ts:18-25 | an id used for two tickets keeps only the later one |
| TicketStore.EpicIsStored | ticket-service/src/epic/services/epic.service.ts:16-31 | the plan's epic is found as it was sent if and only if it can be stored |
| TicketStore.EpicIsStorable | ticket-service/src/epic/dto/create-epic.dto.ts:4-54 | the epic of any plan, new or refined, can be stored if and only if its id is a UUID and no requirement and no text of the solution is empty |
| TicketStore.EmptyMessageIsRefused | architect-agent/app/agent/nodes/reply_node.py:13-14 | so a new plan for an empty message has an epic that cannot be stored |

## Left out

- Timestamps of messages, rows and replies; a message is never compared by its time, and `createdAt` order is insertion order.
- `getHistory`, the list of a user's conversations.
- Redis expiry, broker redelivery, process crashes and failed publishing: the protocol assumes they do not happen.
- Overlapping and half-failed backend calls: `stopChat`, `continueChat` and the update in `getChat` are single steps, and `newChat` writes row, key and event or nothing; two overlaps are shown to lose messages.
- A write to Redis that raises although the value arrived: a failed write leaves Redis as it was.
- ArchitectChat.AnyLimitEndsTheTurn: takes LangGraph's recursion limit as a count of node executions with one fixed error text, because the library is not part of this model.
- The branches of `_parse_reply` for plain dictionaries, which no node produces.
- What the models are told beyond the choice of prompt and the values it is filled with, and what `has_prior_plan` changes in it.
- TicketChat.TicketService.Execute: takes the graph's states as arbitrary values; the tool-calling loop, the MCP server and the proxies in front of it decide them and are not part of this model.
- PythonTokens.ServedLife: assumes that the clock does not run backwards.
- TypeScriptTokens.ServedLife: reads the clock once where the code reads it twice in one synchronous stretch, and loses the fraction that a lifetime lacks to the next whole second.
- TicketStore.TicketService.Create: takes creates to be sequential, so two first inserts of one id at the same moment are not modelled; the validation library is not part of this model, and a UUID is what RFC 9562 defines, without the folding of upper-case digits that the database does.
- TicketStore.EpicService.Create: the same.
- TicketStore.PlanIsStored: assumes that the ids are unused and that each create is issued; the model that issues them decides that.
- RSA, the signing of assertions, Kong, Keycloak's configuration, cookies and the authentication middleware.
- React rendering, idle timers, reconnects and error texts of the browser; the cards and pages.
- Metrics, logging, health routes, dependency injection, containers and dashboards.
