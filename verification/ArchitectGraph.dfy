/**
 The architect-agent's graph: what each node returns, how a partial update is
 merged into the state, and where the edges lead. A model's answer is an
 arbitrary value of its schema.
 */
module ArchitectGraph {
  import opened Wrappers
  import opened Contracts

  const DEFAULT_COMMENT :=
    "I can help you plan software architecture. Could you describe a requirement or system you'd like to build?"
  const DEFAULT_EPIC_NAME := "Software Solution"
  const EPIC_NAME_WIDTH := 200

  datatype GraphState = GraphState(
    conversationId: Id,
    requirement: string,
    rawHistory: seq<Message>,
    userIntent: UserIntent,
    comment: Option<string>,
    priorSolution: Option<Solution>,
    solution: Option<Solution>,
    solutionReviewComments: seq<string>,
    solutionApproved: bool,
    tickets: seq<Ticket>,
    ticketReviewComments: seq<string>,
    ticketsApproved: bool,
    finalReply: Option<Reply>)

  /** What a node returns: only the fields it touches are present. */
  datatype NodeOutput = NodeOutput(
    userIntent: Option<UserIntent>,
    comment: Option<string>,
    priorSolution: Option<Solution>,
    solution: Option<Solution>,
    solutionReviewComments: Option<seq<string>>,
    solutionApproved: Option<bool>,
    tickets: Option<seq<Ticket>>,
    ticketReviewComments: Option<seq<string>>,
    ticketsApproved: Option<bool>,
    finalReply: Option<Reply>)

  const NOTHING := NodeOutput(None, None, None, None, None, None, None, None, None, None)

  /** A ticket as the planner drafts it, with the fresh id drawn for it. */
  datatype Draft = Draft(id: string, name: string, requirements: seq<string>, acceptanceCriteria: seq<string>)

  /**
   Everything one node execution may receive from outside: an exception, the
   fields of each schema, and fresh ids. A node reads only what it asks for.
   */
  datatype Answer = Answer(
    raises: Option<string>,
    intent: UserIntent,
    comment: Option<string>,
    solution: Solution,
    approved: bool,
    comments: seq<string>,
    drafts: seq<Draft>,
    freshId: string)

  function InitialState(request: ChatRequest): GraphState {
    GraphState(request.conversationId, request.message, request.history,
               UserIntent.Plan, None, None, None, [], false, [], [], false, None)
  }

  function GetOr<T>(o: Option<T>, default: T): T {
    if o.Some? then o.value else default
  }

  /** Last write wins, field by field. */
  function Merge(st: GraphState, out: NodeOutput): GraphState {
    st.(
      userIntent := GetOr(out.userIntent, st.userIntent),
      comment := if out.comment.Some? then out.comment else st.comment,
      priorSolution := if out.priorSolution.Some? then out.priorSolution else st.priorSolution,
      solution := if out.solution.Some? then out.solution else st.solution,
      solutionReviewComments := GetOr(out.solutionReviewComments, st.solutionReviewComments),
      solutionApproved := GetOr(out.solutionApproved, st.solutionApproved),
      tickets := GetOr(out.tickets, st.tickets),
      ticketReviewComments := GetOr(out.ticketReviewComments, st.ticketReviewComments),
      ticketsApproved := GetOr(out.ticketsApproved, st.ticketsApproved),
      finalReply := if out.finalReply.Some? then out.finalReply else st.finalReply)
  }

  // ----- intent_node -----

  function PlanSolution(plan: Option<Reply>): Option<Solution> {
    if plan.Some? then Some(plan.value.epic.solution) else None
  }

  function IntentOutput(st: GraphState, a: Answer): NodeOutput {
    if a.intent == Undefined then
      NOTHING.(
        userIntent := Some(Undefined),
        comment := Some(if Truthy(a.comment) then a.comment.value else DEFAULT_COMMENT))
    else if a.intent == Accept then
      NOTHING.(userIntent := Some(Accept))
    else
      NOTHING.(
        userIntent := Some(a.intent),
        priorSolution := if a.intent == Refine then PlanSolution(LatestPlan(st.rawHistory)) else None)
  }

  /** An accept publishes the latest visible plan; without one it publishes nothing. */
  function AcceptsOf(st: GraphState, a: Answer): seq<AcceptEvent> {
    match LatestPlan(st.rawHistory)
    case Some(plan) => if a.intent == Accept then [AcceptEvent(st.conversationId, plan)] else []
    case None => []
  }

  // ----- solution_node and plan_node -----

  datatype Prompt =
    | SolutionNew(requirement: string)
    | SolutionRefine(requirement: string, prior: Solution)
    | SolutionRevise(requirement: string, current: Option<Solution>, comments: seq<string>)
    | PlanNew(requirement: string, solution: Option<Solution>)
    | PlanRevise(requirement: string, solution: Option<Solution>, comments: seq<string>)

  function SolutionPrompt(st: GraphState): Prompt {
    if st.solutionReviewComments != [] then
      SolutionRevise(st.requirement, st.solution, st.solutionReviewComments)
    else if st.priorSolution.Some? then
      SolutionRefine(st.requirement, st.priorSolution.value)
    else
      SolutionNew(st.requirement)
  }

  function PlanPrompt(st: GraphState): Prompt {
    if st.ticketReviewComments != [] then
      PlanRevise(st.requirement, st.solution, st.ticketReviewComments)
    else
      PlanNew(st.requirement, st.solution)
  }

  function SolutionOutput(a: Answer): NodeOutput {
    NOTHING.(solution := Some(a.solution), solutionApproved := Some(false))
  }

  /** All tickets of one planning round carry the same fresh epic id. */
  function BuildTickets(a: Answer): seq<Ticket> {
    seq(|a.drafts|, i requires 0 <= i < |a.drafts| =>
      var d := a.drafts[i];
      Ticket(d.id, a.freshId, d.name, d.requirements, d.acceptanceCriteria))
  }

  function PlanOutput(a: Answer): NodeOutput {
    NOTHING.(tickets := Some(BuildTickets(a)), ticketsApproved := Some(false))
  }

  // ----- the two reviews -----

  function Objections(a: Answer): seq<string> {
    if a.approved then [] else a.comments
  }

  function SolutionReviewOutput(a: Answer): NodeOutput {
    NOTHING.(solutionApproved := Some(a.approved), solutionReviewComments := Some(Objections(a)))
  }

  function PlanReviewOutput(a: Answer): NodeOutput {
    NOTHING.(ticketsApproved := Some(a.approved), ticketReviewComments := Some(Objections(a)))
  }

  // ----- reply_node -----

  /** The epic's name and requirements, searched from the end of the history. */
  function ResolveEpicMeta(history: seq<Message>, name: string, requirements: seq<string>): (string, seq<string>) {
    if history == [] then (name, requirements)
    else
      var msg := history[|history| - 1];
      if msg.node == Some(ReplyNode) && msg.content.PlanReply? then
        var epic := msg.content.reply.epic;
        (if epic.name != "" then epic.name else name,
         if epic.requirements != [] then epic.requirements else requirements)
      else ResolveEpicMeta(history[..|history| - 1], name, requirements)
  }

  function Cut(name: string): string {
    if |name| <= EPIC_NAME_WIDTH then name else name[..EPIC_NAME_WIDTH]
  }

  function BuildReply(st: GraphState, freshId: string): Reply {
    var solution := GetOr(st.solution, Solution("", []));
    var (name, requirements) :=
      if st.priorSolution.Some? then ResolveEpicMeta(st.rawHistory, st.requirement, [st.requirement])
      else (st.requirement, [st.requirement]);
    var epicId := if st.tickets != [] then st.tickets[0].epicId else freshId;
    Reply(Epic(epicId, if name != "" then Cut(name) else DEFAULT_EPIC_NAME, requirements, solution), st.tickets)
  }

  // ----- nodes and edges -----

  function RunNode(node: NodeName, st: GraphState, a: Answer): NodeOutput {
    match node
    case IntentNode => IntentOutput(st, a)
    case SolutionNode => SolutionOutput(a)
    case SolutionReviewNode => SolutionReviewOutput(a)
    case PlanNode => PlanOutput(a)
    case PlanReviewNode => PlanReviewOutput(a)
    case ReplyNode => NOTHING.(finalReply := Some(BuildReply(st, a.freshId)))
  }

  function RouteIntent(st: GraphState): Option<NodeName> {
    match st.userIntent
    case Plan => Some(SolutionNode)
    case Refine => Some(SolutionNode)
    case Accept => None
    case Undefined => None
  }

  /** The node to run after `node`, given the merged state; `None` is the end. */
  function Route(node: NodeName, st: GraphState): Option<NodeName> {
    match node
    case IntentNode => RouteIntent(st)
    case SolutionNode => Some(SolutionReviewNode)
    case SolutionReviewNode => if st.solutionApproved then Some(PlanNode) else Some(SolutionNode)
    case PlanNode => Some(PlanReviewNode)
    case PlanReviewNode => if st.ticketsApproved then Some(ReplyNode) else Some(PlanNode)
    case ReplyNode => None
  }

  // ----- one run through the graph -----

  /** One completed node execution: the state it read and the answer it got. */
  datatype Visit = Visit(node: NodeName, before: GraphState, answer: Answer)
  {
    function Output(): NodeOutput {
      RunNode(node, before, answer)
    }

    function After(): GraphState {
      Merge(before, Output())
    }
  }

  function StateAfter(init: GraphState, visits: seq<Visit>): GraphState {
    if visits == [] then init else visits[|visits| - 1].After()
  }

  function NextNode(visits: seq<Visit>): Option<NodeName> {
    if visits == [] then Some(IntentNode)
    else
      var last := visits[|visits| - 1];
      Route(last.node, last.After())
  }

  /** `visits` follows the edges from `init`; every answer is arbitrary. */
  predicate Path(init: GraphState, visits: seq<Visit>) {
    visits == []
    || (var front, last := visits[..|visits| - 1], visits[|visits| - 1];
        && Path(init, front)
        && NextNode(front) == Some(last.node)
        && last.before == StateAfter(init, front))
  }

  /** Run the next node on an answer. */
  function Extend(init: GraphState, visits: seq<Visit>, a: Answer): seq<Visit>
    requires NextNode(visits).Some?
  {
    visits + [Visit(NextNode(visits).value, StateAfter(init, visits), a)]
  }

  lemma {:induction false} ExtendIsPath(init: GraphState, visits: seq<Visit>, a: Answer)
    requires Path(init, visits) && NextNode(visits).Some?
    ensures Path(init, Extend(init, visits, a))
  {
    assert Extend(init, visits, a)[..|visits|] == visits;
  }

  /** Every prefix of a path is a path, and each visit starts where the previous one ended. */
  lemma {:induction false} PathAt(init: GraphState, visits: seq<Visit>, k: nat)
    requires Path(init, visits) && k < |visits|
    ensures Path(init, visits[..k])
    ensures NextNode(visits[..k]) == Some(visits[k].node)
    ensures visits[k].before == StateAfter(init, visits[..k])
    ensures k == 0 ==> visits[k].node == IntentNode && visits[k].before == init
    ensures k > 0 ==> visits[k].before == visits[k - 1].After()
    ensures k > 0 ==> Route(visits[k - 1].node, visits[k - 1].After()) == Some(visits[k].node)
  {
    var n := |visits| - 1;
    if k < n {
      PathAt(init, visits[..n], k);
      assert visits[..n][..k] == visits[..k];
    }
  }
}
