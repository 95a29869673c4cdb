/**
 What a run of the architect-agent writes into the conversation: one thinking
 message for each node, and at the end a reply, unless the ticket-agent is to
 send it.
 */
module ArchitectLog {
  import opened Wrappers
  import opened Contracts
  import opened TurnLog
  import opened ArchitectGraph
  import opened GraphTrace
  import opened PlanContent
  import ReviewText

  const SOLUTION_REVIEW_CAPTION := "Reviewing solution architecture..."
  const PLAN_REVIEW_CAPTION := "Reviewing development tickets..."

  lemma {:induction false} SolutionCaptionClean()
    ensures ReviewText.NEWLINE !in SOLUTION_REVIEW_CAPTION && ReviewText.ARROW !in SOLUTION_REVIEW_CAPTION
  {
  }

  lemma {:induction false} PlanCaptionClean()
    ensures ReviewText.NEWLINE !in PLAN_REVIEW_CAPTION && ReviewText.ARROW !in PLAN_REVIEW_CAPTION
  {
  }

  /** The browser shows both kinds of review as they were written, if and only if no comment holds a newline. */
  lemma {:induction false} ReviewsParse(approved: bool, comments: seq<string>)
    ensures (ReviewText.Parse(ReviewText.Print(SOLUTION_REVIEW_CAPTION, approved, comments))
             == ReviewText.Parsed(SOLUTION_REVIEW_CAPTION, Some(ReviewText.Verdict(approved)), comments))
            <==> forall c | c in comments :: ReviewText.NEWLINE !in c
    ensures (ReviewText.Parse(ReviewText.Print(PLAN_REVIEW_CAPTION, approved, comments))
             == ReviewText.Parsed(PLAN_REVIEW_CAPTION, Some(ReviewText.Verdict(approved)), comments))
            <==> forall c | c in comments :: ReviewText.NEWLINE !in c
  {
    SolutionCaptionClean();
    PlanCaptionClean();
    ReviewText.ReviewRoundTrip(SOLUTION_REVIEW_CAPTION, approved, comments);
    ReviewText.ReviewRoundTrip(PLAN_REVIEW_CAPTION, approved, comments);
  }

  function Capitalized(intent: UserIntent): string {
    match intent
    case Plan => "Plan"
    case Accept => "Accept"
    case Refine => "Refine"
    case Undefined => "Undefined"
  }

  /** The text logged for a completed node; every node has one. */
  function NodeText(node: NodeName, out: NodeOutput): string {
    match node
    case IntentNode =>
      "Analyzing your request..." + ReviewText.SEPARATOR
      + "Intention: " + Capitalized(GetOr(out.userIntent, UserIntent.Plan))
    case SolutionNode => "Designing solution architecture..."
    case SolutionReviewNode =>
      ReviewText.Print(
        SOLUTION_REVIEW_CAPTION, GetOr(out.solutionApproved, false), GetOr(out.solutionReviewComments, []))
    case PlanNode => "Planning development tickets..."
    case PlanReviewNode =>
      ReviewText.Print(PLAN_REVIEW_CAPTION, GetOr(out.ticketsApproved, false), GetOr(out.ticketReviewComments, []))
    case ReplyNode => "Preparing response..."
  }

  // ----- what is logged for each node -----

  /** A review is shown with its caption, its verdict and what it objected to. */
  lemma {:induction false} ReviewIsLogged(v: Visit)
    requires v.node == SolutionReviewNode || v.node == PlanReviewNode
    ensures ThinkingMessage(v.node, v.Output()).content.Text?
    ensures var parsed := ReviewText.Parse(ThinkingMessage(v.node, v.Output()).content.text);
            && parsed.caption == (if v.node == SolutionReviewNode then "Reviewing solution architecture..."
                                  else "Reviewing development tickets...")
            && parsed.status == Some(if v.answer.approved then "Result: Approved" else "Result: Needs revision")
            && (v.answer.approved ==> parsed.comments == [])
            && (!v.answer.approved ==>
                  (parsed.comments == v.answer.comments <==>
                   forall c | c in v.answer.comments :: ReviewText.NEWLINE !in c))
  {
    ReviewText.KnownVerdicts();
    SolutionCaptionClean();
    PlanCaptionClean();
    var comments := Objections(v.answer);
    hide ReviewText.Print, ReviewText.Parse, ReviewText.Verdict;
    ReviewText.ReviewRoundTrip(SOLUTION_REVIEW_CAPTION, v.answer.approved, comments);
    ReviewText.ReviewRoundTrip(PLAN_REVIEW_CAPTION, v.answer.approved, comments);
  }

  /** The line that the browser shows for any other node. */
  lemma {:induction false} NodeIsLogged(v: Visit)
    requires v.node != SolutionReviewNode && v.node != PlanReviewNode
    ensures var text := match v.node
                        case SolutionNode => "Designing solution architecture..."
                        case PlanNode => "Planning development tickets..."
                        case ReplyNode => "Preparing response..."
                        case _ =>
                          "Analyzing your request..." + " \U{2192} " + "Intention: " +
                          match v.answer.intent
                          case Plan => "Plan"
                          case Refine => "Refine"
                          case Accept => "Accept"
                          case Undefined => "Undefined";
            ThinkingMessage(v.node, v.Output()) == Message(Agent, Text(text), Some(IsThinking), Some(v.node))
  {
    if v.node == IntentNode {
      assert v.Output().userIntent == Some(v.answer.intent);
      assert ReviewText.SEPARATOR == " \U{2192} ";
    }
  }

  function ThinkingMessage(node: NodeName, out: NodeOutput): Message {
    Message(Agent, Text(NodeText(node, out)), Some(IsThinking), Some(node))
  }

  /** The thinking messages of a run, one for each visit. */
  function Thinking(visits: seq<Visit>): seq<Message> {
    seq(|visits|, i requires 0 <= i < |visits| => ThinkingMessage(visits[i].node, visits[i].Output()))
  }

  lemma {:induction false} ThinkingAppend(visits: seq<Visit>, v: Visit)
    ensures Thinking(visits + [v]) == Thinking(visits) + [ThinkingMessage(v.node, v.Output())]
  {
  }

  lemma {:induction false} ThinkingIsThinking(visits: seq<Visit>)
    ensures forall i | 0 <= i < |Thinking(visits)| ::
              IsThinkingMessage(Thinking(visits)[i]) && !IsVisiblePlan(Thinking(visits)[i])
              && Thinking(visits)[i].content.Text? && Thinking(visits)[i].node == Some(visits[i].node)
  {
  }

  // ----- how a run ends -----

  /** A non-empty error wins over the content; with neither, a fixed text. */
  function ReplyContent(error: Option<string>, content: Option<Content>): Content {
    if Truthy(error) then Text("Error: " + error.value)
    else if content.Some? then content.value
    else Text("No response generated.")
  }

  function ReplyMessage(error: Option<string>, content: Option<Content>, node: NodeName): Message {
    Message(Agent, ReplyContent(error, content), Some(HasReplied), Some(node))
  }

  function CommentContent(comment: Option<string>): Option<Content> {
    if comment.Some? then Some(Text(comment.value)) else None
  }

  function PlanContentOf(reply: Option<Reply>): Option<Content> {
    if reply.Some? then Some(PlanReply(reply.value)) else None
  }

  /** The reply that ends a run; an accept without error leaves it to the ticket-agent. */
  function Conclude(
    intent: Option<UserIntent>, comment: Option<string>, reply: Option<Reply>, error: Option<string>): Option<Message>
  {
    if intent == Some(Accept) && !Truthy(error) then None
    else if intent == Some(Undefined) then Some(ReplyMessage(error, CommentContent(comment), IntentNode))
    else Some(ReplyMessage(error, PlanContentOf(reply), ReplyNode))
  }

  /** The intent that the first visit read. */
  function IntentOf(visits: seq<Visit>): Option<UserIntent> {
    if visits == [] then None else Some(visits[0].answer.intent)
  }

  /** The comment for a user whose intent is undefined. */
  function CommentOf(visits: seq<Visit>): Option<string> {
    if visits != [] && visits[0].answer.intent == Undefined
    then Some(if Truthy(visits[0].answer.comment) then visits[0].answer.comment.value else DEFAULT_COMMENT)
    else None
  }

  /** The latest reply that a visit to reply_node built. */
  function FinalReplyOf(visits: seq<Visit>): Option<Reply> {
    if visits == [] then None
    else
      var last := visits[|visits| - 1];
      if last.node == ReplyNode then Some(BuildReply(last.before, last.answer.freshId))
      else FinalReplyOf(visits[..|visits| - 1])
  }

  /** How a run that executed `visits` ends, if its reply was recorded for the first `recorded` of them. */
  function Conclusion(visits: seq<Visit>, recorded: nat, error: Option<string>): Option<Message>
    requires recorded <= |visits|
  {
    Conclude(IntentOf(visits), CommentOf(visits), FinalReplyOf(visits[..recorded]), error)
  }

  /** What a run published: only an accepting intent_node does. */
  function Published(visits: seq<Visit>): seq<AcceptEvent> {
    if visits == [] then [] else AcceptsOf(visits[0].before, visits[0].answer)
  }

  /** Only reply_node produces a final reply, and it is the last node. */
  lemma {:induction false} FinalReplyIsLast(init: GraphState, visits: seq<Visit>)
    requires Path(init, visits)
    ensures FinalReplyOf(visits).Some? <==> visits != [] && visits[|visits| - 1].node == ReplyNode
    ensures FinalReplyOf(visits).Some? ==> FinalReplyOf(visits) == visits[|visits| - 1].After().finalReply
  {
    if visits != [] {
      var n := |visits| - 1;
      FinalReplyIsLast(init, visits[..n]);
      if visits[n].node == ReplyNode {
        AfterReply(visits[n]);
      } else if n > 0 {
        assert visits[..n][n - 1] == visits[n - 1];
      }
    }
  }

  lemma {:induction false} IntentIsAnswer(init: GraphState, visits: seq<Visit>)
    requires Path(init, visits) && visits != []
    ensures visits[0].node == IntentNode && visits[0].before == init
    ensures visits[0].Output().userIntent == IntentOf(visits)
    ensures visits[0].Output().comment == CommentOf(visits)
  {
    StartAt(init, visits);
  }

  /** An accepting run is over after its first node. */
  lemma {:induction false} AcceptStops(init: GraphState, visits: seq<Visit>)
    requires Path(init, visits) && visits != [] && !Builds(visits[0])
    ensures |visits| == 1 && NextNode(visits).None?
  {
    var stage := PathStage(init, visits);
    StartAt(init, visits);
    EndedStops(visits);
  }

  /**
   How a run can come to an end: by itself, by an exception of its next node (or of
   the step limit), or by a failed write of its last visit, which is then not recorded.
   */
  predicate Ends(visits: seq<Visit>, recorded: nat, error: Option<string>)
    requires recorded <= |visits|
  {
    match error
    case None => recorded == |visits| && NextNode(visits).None?
    case Some(_) => (recorded == |visits| && NextNode(visits).Some?) || recorded + 1 == |visits|
  }

  /**
   A run appends one reply and publishes nothing, or accepts a plan and publishes
   just that, or accepts where no plan is visible and does neither. Both a reply and
   an event, or an error and neither, come only of an accept whose write failed.
   */
  lemma {:induction false} RunOutcome(request: ChatRequest, visits: seq<Visit>, recorded: nat, error: Option<string>)
    requires Path(InitialState(request), visits) && recorded <= |visits| && Ends(visits, recorded, error)
    ensures var reply, events := Conclusion(visits, recorded, error), Published(visits);
            var accepts := visits != [] && visits[0].answer.intent == Accept;
            var plan := LatestPlan(request.history);
            && (reply.None? <==> accepts && !Truthy(error))
            && (reply.Some? ==> IsReplyMessage(reply.value) && reply.value.node.Some?)
            && (accepts ==> |visits| == 1 && NextNode(visits).None? && (error.Some? ==> recorded == 0))
            && events == (if accepts && plan.Some? then [AcceptEvent(request.conversationId, plan.value)] else [])
  {
    var init := InitialState(request);
    if visits != [] {
      IntentIsAnswer(init, visits);
      if visits[0].answer.intent == Accept {
        AcceptStops(init, visits);
      }
    }
  }

  /**
   What the user is told. A finished run replies with the plan of its last node,
   a run that asks for nothing with its comment, and a run that was broken off with
   the error, or without it if the exception had no text.
   */
  lemma {:induction false} ReplyTellsOutcome(
    request: ChatRequest, visits: seq<Visit>, recorded: nat, error: Option<string>)
    requires Path(InitialState(request), visits) && recorded <= |visits| && Ends(visits, recorded, error)
    requires Conclusion(visits, recorded, error).Some?
    ensures var reply := Conclusion(visits, recorded, error).value;
            var refuses := visits != [] && visits[0].answer.intent == Undefined;
            && reply.node == Some(if refuses then IntentNode else ReplyNode)
            && (error.None? && !refuses ==> visits != [] && visits[|visits| - 1].After().finalReply.Some?)
            && reply.content == (
                 if error.Some? && error.value != "" then Text("Error: " + error.value)
                 else if refuses then
                   Text(if visits[0].answer.comment == None || visits[0].answer.comment == Some("") then DEFAULT_COMMENT
                        else visits[0].answer.comment.value)
                 else if error.Some? then Text("No response generated.")
                 else PlanReply(visits[|visits| - 1].After().finalReply.value))
            && (error.None? && !refuses ==> Builds(visits[0]) && visits[|visits| - 1].node == ReplyNode)
  {
    hide RunNode, Merge, Route, NodeText;
    var init := InitialState(request);
    FinalReplyIsLast(init, visits);
    assert visits[..|visits|] == visits;
    RunOutcome(request, visits, recorded, error);
    if visits != [] {
      IntentIsAnswer(init, visits);
      if Builds(visits[0]) {
        BuildingRunEnds(init, visits);
      } else {
        AcceptStops(init, visits);
      }
    }
    if error.Some? {
      UnrecordedReply(init, visits, recorded);
    }
  }

  /** A run that was broken off has no final reply on record. */
  lemma {:induction false} UnrecordedReply(init: GraphState, visits: seq<Visit>, recorded: nat)
    requires Path(init, visits) && recorded <= |visits|
    requires recorded < |visits| || NextNode(visits).Some?
    ensures Path(init, visits[..recorded]) && FinalReplyOf(visits[..recorded]).None?
  {
    if recorded < |visits| {
      PathAt(init, visits, recorded);
    } else {
      assert visits[..recorded] == visits;
    }
    FinalReplyIsLast(init, visits[..recorded]);
    if FinalReplyOf(visits[..recorded]).Some? {
      ReplyEnds(visits[..recorded]);
    }
  }

  lemma {:induction false} ReplyEnds(visits: seq<Visit>)
    requires visits != [] && visits[|visits| - 1].node == ReplyNode
    ensures NextNode(visits).None?
  {
  }

  /** A run that builds a plan is at its end exactly after `reply_node`. */
  lemma {:induction false} BuildingRunEnds(init: GraphState, visits: seq<Visit>)
    requires Path(init, visits) && visits != [] && Builds(visits[0])
    ensures NextNode(visits).None? <==> visits[|visits| - 1].node == ReplyNode
  {
    var stage := PathStage(init, visits);
    if NextNode(visits).None? {
      StageEnd(visits, stage);
      StageNode(visits, stage, |visits| - 1);
    }
  }

  lemma {:induction false} SentPlan(request: ChatRequest, visits: seq<Visit>)
    requires Path(InitialState(request), visits)
    ensures FinalReplyOf(visits).Some? ==>
              WellMade(FinalReplyOf(visits).value) && visits != [] && visits[|visits| - 1].node == ReplyNode
  {
    FinalReplyIsLast(InitialState(request), visits);
    if FinalReplyOf(visits).Some? {
      RunSendsWellMade(request, visits);
    }
  }

  /** A plan in a reply is the well-made plan of a finished run; any other content is text. */
  lemma {:induction false} ReplyIsWellMade(
    request: ChatRequest, visits: seq<Visit>,
    intent: Option<UserIntent>, comment: Option<string>, error: Option<string>)
    requires Path(InitialState(request), visits)
    requires Conclude(intent, comment, FinalReplyOf(visits), error).Some?
    ensures var m := Conclude(intent, comment, FinalReplyOf(visits), error).value;
            && !m.content.FinalReply?
            && (m.content.PlanReply? ==>
                  && WellMade(m.content.reply) && m.node == Some(ReplyNode)
                  && visits != [] && visits[|visits| - 1].node == ReplyNode
                  && FinalReplyOf(visits) == Some(m.content.reply))
  {
    SentPlan(request, visits);
  }

  // ----- a turn in the log -----

  /** A turn that a run of the architect-agent closed: its request, what it did, and how it ended. */
  datatype ClosedTurn = ClosedTurn(request: ChatRequest, visits: seq<Visit>, recorded: nat, error: Option<string>)
  {
    ghost predicate Valid() {
      && Path(InitialState(request), visits) && recorded <= |visits| && Ends(visits, recorded, error)
      && Conclusion(visits, recorded, error).Some?
    }

    function Reply(): Message
      requires recorded <= |visits| && Conclusion(visits, recorded, error).Some?
    {
      Conclusion(visits, recorded, error).value
    }

    /** The messages it added, from the user's to the reply. */
    function Messages(): seq<Message>
      requires recorded <= |visits| && Conclusion(visits, recorded, error).Some?
    {
      [UserMessage(request.message)] + Thinking(visits) + [Reply()]
    }

    /** It sent a plan that was not made from the one before. */
    predicate Restarts()
      requires recorded <= |visits| && Conclusion(visits, recorded, error).Some?
    {
      Reply().content.PlanReply? && IntentOf(visits) == Some(UserIntent.Plan)
    }
  }

  /** The tags of the messages between the user's and the reply. */
  function Tags(thinking: seq<Message>): seq<Option<NodeName>> {
    seq(|thinking|, i requires 0 <= i < |thinking| => thinking[i].node)
  }

  function Tagged(nodes: seq<NodeName>): seq<Option<NodeName>> {
    seq(|nodes|, i requires 0 <= i < |nodes| => Some(nodes[i]))
  }

  /**
   The tags that a turn leaves in the log: those of a full run and then a plan, or one
   intent and then a comment, or a prefix of a full run and then one text without a plan.
   */
  ghost predicate TurnTags(turn: seq<Message>, s: nat, p: nat) {
    && |turn| >= 2 && IsUserMessage(turn[0])
    && var thinking, reply := turn[1..|turn| - 1], turn[|turn| - 1];
       && (forall i | 0 <= i < |thinking| :: IsThinkingMessage(thinking[i]))
       && IsReplyMessage(reply)
       && s >= 1 && p >= 1
       && Tags(thinking) <= Tagged(Template(s, p))
       && (reply.content.PlanReply? ==> Tags(thinking) == Tagged(Template(s, p)) && reply.node == Some(ReplyNode))
       && (!reply.content.PlanReply? ==> reply.content.Text?)
       && (reply.node == Some(IntentNode) ==> Tags(thinking) == [Some(IntentNode)])
       && (reply.node == Some(IntentNode) || reply.node == Some(ReplyNode))
  }

  lemma {:induction false} ThinkingTags(visits: seq<Visit>)
    ensures Tags(Thinking(visits)) == Tagged(Nodes(visits))
  {
  }

  lemma {:induction false} TaggedPrefix(a: seq<NodeName>, b: seq<NodeName>)
    requires a <= b
    ensures Tagged(a) <= Tagged(b)
  {
    assert Tagged(a) == Tagged(b)[..|a|];
  }

  /** The tags of every turn; a run that ended by itself sends a plan exactly if it wrote the whole template. */
  lemma {:induction false} TurnIsTagged(turn: ClosedTurn) returns (s: nat, p: nat)
    requires turn.Valid()
    ensures TurnTags(turn.Messages(), s, p)
    ensures turn.error.None? ==>
              (turn.Reply().content.PlanReply? <==> Tags(Thinking(turn.visits)) == Tagged(Template(s, p)))
  {
    hide RunNode, Merge, Route, NodeText, Conclusion, Tags, Tagged, Template;
    var init, visits := InitialState(turn.request), turn.visits;
    var messages := turn.Messages();
    ThinkingIsThinking(visits);
    ThinkingTags(visits);
    RunOutcome(turn.request, visits, turn.recorded, turn.error);
    ReplyTellsOutcome(turn.request, visits, turn.recorded, turn.error);
    assert messages[1..|messages| - 1] == Thinking(visits);
    if turn.error.None? && Builds(visits[0]) {
      s, p := FullRun(init, visits);
      TaggedPrefix(Nodes(visits), Template(s, p));
    } else {
      s, p := PartialRun(init, visits);
      TaggedPrefix(Nodes(visits), Template(s, p));
      if visits != [] && !Builds(visits[0]) {
        AcceptStops(init, visits);
        IntentIsAnswer(init, visits);
        OneTag(visits, s, p);
      }
    }
  }

  lemma {:induction false} OneTag(visits: seq<Visit>, s: nat, p: nat)
    requires |visits| == 1 && visits[0].node == IntentNode && s >= 1
    ensures Tagged(Nodes(visits)) == [Some(IntentNode)] && |Tagged(Template(s, p))| > 1
  {
  }

  // ----- the log of a chain of turns -----

  ghost function LogBefore(history: seq<Message>, turns: seq<ClosedTurn>, i: nat): seq<Message>
    requires i <= |turns| && (i > 0 ==> turns[i - 1].Valid())
  {
    if i == 0 then history else turns[i - 1].request.history + turns[i - 1].Messages()
  }

  /** Turns that follow each other directly: each one's history is the log the one before left. */
  ghost predicate Chain(history: seq<Message>, turns: seq<ClosedTurn>) {
    && (forall i | 0 <= i < |turns| :: turns[i].Valid())
    && (forall i | 0 <= i < |turns| :: Follows(history, turns, i))
  }

  ghost predicate Follows(history: seq<Message>, turns: seq<ClosedTurn>, i: nat)
    requires i < |turns|
  {
    && turns[i].Valid() && (i > 0 ==> turns[i - 1].Valid())
    && turns[i].request.history == LogBefore(history, turns, i)
  }

  /** The latest plan after some messages that send no plan. */
  lemma {:induction false} TurnShows(turn: ClosedTurn)
    requires turn.Valid()
    ensures LatestPlan(turn.request.history + turn.Messages()) ==
            if turn.Reply().content.PlanReply? then Some(turn.Reply().content.reply)
            else LatestPlan(turn.request.history)
  {
    hide RunNode, Merge, Route, NodeText, Conclusion;
    var base := turn.request.history + [UserMessage(turn.request.message)];
    LatestPlanSkips(turn.request.history, UserMessage(turn.request.message));
    ThinkingIsThinking(turn.visits);
    LatestPlanSkipsAll(base, Thinking(turn.visits));
    LatestPlanSkips(base + Thinking(turn.visits), turn.Reply());
    assert turn.request.history + turn.Messages() == base + Thinking(turn.visits) + [turn.Reply()];
    ReplyTellsOutcome(turn.request, turn.visits, turn.recorded, turn.error);
  }

  /** A turn that sends a plan without restarting made it from the latest plan of its history. */
  lemma {:induction false} TurnKeepsEpic(turn: ClosedTurn, plan: Reply)
    requires turn.Valid() && !turn.Restarts() && turn.Reply().content.PlanReply?
    requires LatestPlan(turn.request.history) == Some(plan) && WellMade(plan)
    ensures SameEpicMeta(turn.Reply().content.reply, plan) && WellMade(turn.Reply().content.reply)
  {
    hide RunNode, Merge, Route, NodeText;
    ReplyTellsOutcome(turn.request, turn.visits, turn.recorded, turn.error);
    FinalReplyIsLast(InitialState(turn.request), turn.visits);
    var s, p := RefineKeepsEpic(turn.request, turn.visits, plan);
  }

  /** The latest plan has the epic name and the requirements of `plan`. */
  ghost predicate Continues(log: seq<Message>, plan: Reply) {
    LatestPlan(log).Some? && SameEpicMeta(LatestPlan(log).value, plan) && WellMade(LatestPlan(log).value)
  }

  lemma {:induction false} TurnContinues(turn: ClosedTurn, plan: Reply)
    requires turn.Valid() && !turn.Restarts() && Continues(turn.request.history, plan)
    ensures Continues(turn.request.history + turn.Messages(), plan)
  {
    hide RunNode, Merge, Route, NodeText, Conclusion, WellMade;
    TurnShows(turn);
    if turn.Reply().content.PlanReply? {
      TurnKeepsEpic(turn, LatestPlan(turn.request.history).value);
    }
  }

  /**
   Along any chain of turns, whatever they ask for and however they end, the latest
   plan keeps the epic name and requirements of the plan before the chain, as long as
   no turn sends a plan that is not a refinement.
   */
  lemma {:induction false} EpicContinuity(history: seq<Message>, plan: Reply, turns: seq<ClosedTurn>, k: nat)
    requires LatestPlan(history) == Some(plan) && WellMade(plan)
    requires Chain(history, turns) && k <= |turns|
    requires forall i | 0 <= i < k :: !turns[i].Restarts()
    ensures Continues(LogBefore(history, turns, k), plan)
  {
    hide *;
    ChainAt(history, turns, k);
    if k > 0 {
      EpicContinuity(history, plan, turns, k - 1);
      TurnContinues(turns[k - 1], plan);
    } else {
      StartContinues(history, plan);
    }
  }

  lemma {:induction false} ChainAt(history: seq<Message>, turns: seq<ClosedTurn>, k: nat)
    requires Chain(history, turns) && k <= |turns|
    ensures k == 0 ==> LogBefore(history, turns, k) == history
    ensures k > 0 ==>
              && turns[k - 1].Valid() && turns[k - 1].request.history == LogBefore(history, turns, k - 1)
              && LogBefore(history, turns, k) == turns[k - 1].request.history + turns[k - 1].Messages()
  {
    hide ClosedTurn.Valid;
    assert k > 0 ==> Follows(history, turns, k - 1);
  }

  lemma {:induction false} StartContinues(history: seq<Message>, plan: Reply)
    requires LatestPlan(history) == Some(plan) && WellMade(plan)
    ensures Continues(history, plan)
  {
  }
}
