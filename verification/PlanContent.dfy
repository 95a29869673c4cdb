/** What every plan the architect-agent sends looks like, and what a refine keeps. */
module PlanContent {
  import opened Wrappers
  import opened Contracts
  import opened ArchitectGraph
  import opened GraphTrace

  /** A plan whose epic has a name of storable width, requirements, and whose tickets all belong to it. */
  ghost predicate WellMade(r: Reply) {
    && r.epic.name != "" && |r.epic.name| <= EPIC_NAME_WIDTH
    && r.epic.requirements != []
    && forall i | 0 <= i < |r.tickets| :: r.tickets[i].epicId == r.epic.id
  }

  /** The search of reply_node and the search of intent_node pick the same message. */
  lemma {:induction false} MetaIsLatestPlan(history: seq<Message>, name: string, requirements: seq<string>)
    ensures ResolveEpicMeta(history, name, requirements) ==
            match LatestPlan(history)
            case None => (name, requirements)
            case Some(plan) =>
              (if plan.epic.name != "" then plan.epic.name else name,
               if plan.epic.requirements != [] then plan.epic.requirements else requirements)
  {
    if history != [] && !IsVisiblePlan(history[|history| - 1]) {
      MetaIsLatestPlan(history[..|history| - 1], name, requirements);
    }
  }

  /** A cut keeps the first 200 characters, and cutting twice is cutting once. */
  lemma {:induction false} CutTwice(name: string)
    ensures Cut(name) <= name && |Cut(name)| == (if |name| < 200 then |name| else 200)
    ensures Cut(Cut(name)) == Cut(name)
  {
  }

  lemma {:induction false} BuildIsWellMade(st: GraphState, freshId: string)
    requires forall i, j | 0 <= i < |st.tickets| && 0 <= j < |st.tickets| ::
               st.tickets[i].epicId == st.tickets[j].epicId
    ensures WellMade(BuildReply(st, freshId))
  {
    MetaIsLatestPlan(st.rawHistory, st.requirement, [st.requirement]);
  }

  /** Every finished run sends a well-made plan, whatever the history holds. */
  lemma {:induction false} RunSendsWellMade(request: ChatRequest, visits: seq<Visit>)
    requires Path(InitialState(request), visits) && visits != [] && visits[|visits| - 1].node == ReplyNode
    ensures var reply := visits[|visits| - 1].After().finalReply; reply.Some? && WellMade(reply.value)
  {
    var n := |visits| - 1;
    StartAt(InitialState(request), visits);
    CarriedAt(request, visits, n);
    AfterReply(visits[n]);
    BuildIsWellMade(visits[n].before, visits[n].answer.freshId);
  }

  /** The fields of the reply that a refine inherits from the plan it refines. */
  ghost predicate SameEpicMeta(a: Reply, b: Reply) {
    a.epic.name == b.epic.name && a.epic.requirements == b.epic.requirements
  }

  /**
   A finished refine run keeps the name and requirements of the latest visible
   plan, while its solution is the one its own last solution review approved.
   */
  lemma {:induction false} RefineKeepsEpic(request: ChatRequest, visits: seq<Visit>, plan: Reply)
    returns (s: nat, p: nat)
    requires Path(InitialState(request), visits) && visits != [] && visits[|visits| - 1].node == ReplyNode
    requires visits[0].answer.intent == Refine
    requires LatestPlan(request.history) == Some(plan) && WellMade(plan)
    ensures var reply := visits[|visits| - 1].After().finalReply;
            && reply.Some? && WellMade(reply.value)
            && SameEpicMeta(reply.value, plan)
            && IsFullRun(visits, s, p)
            && visits[2 * s].answer.approved
            && visits[2 * s].before.solution == Some(reply.value.epic.solution)
  {
    var init, n := InitialState(request), |visits| - 1;
    s, p := ApprovedMeansApproved(init, visits);
    RunSendsWellMade(request, visits);
    CarriedAt(request, visits, n);
    AfterReply(visits[n]);
    MetaIsLatestPlan(request.history, request.message, [request.message]);
  }

  // ----- everything a reply holds -----

  /** The plan that a run refines. */
  function Refined(request: ChatRequest, visits: seq<Visit>): Option<Reply>
    requires visits != []
  {
    if visits[0].answer.intent == Refine then LatestPlan(request.history) else None
  }

  lemma {:induction false} BuiltTickets(a: Answer)
    ensures |BuildTickets(a)| == |a.drafts|
    ensures forall i | 0 <= i < |a.drafts| ::
              var d := a.drafts[i];
              BuildTickets(a)[i] == Ticket(d.id, a.freshId, d.name, d.requirements, d.acceptanceCriteria)
  {
  }

  lemma {:induction false} BuiltEpic(st: GraphState, freshId: string, plan: Option<Reply>)
    requires st.priorSolution == PlanSolution(plan) && (plan.Some? ==> LatestPlan(st.rawHistory) == plan)
    ensures var epic := BuildReply(st, freshId).epic;
            var name := if plan.Some? && plan.value.epic.name != "" then plan.value.epic.name else st.requirement;
            && epic.id == (if st.tickets == [] then freshId else st.tickets[0].epicId)
            && (name == "" ==> epic.name == "Software Solution")
            && (name != "" ==> epic.name <= name && |epic.name| == if |name| < 200 then |name| else 200)
            && epic.requirements == (if plan.Some? && plan.value.epic.requirements != []
                                     then plan.value.epic.requirements else [st.requirement])
  {
    MetaIsLatestPlan(st.rawHistory, st.requirement, [st.requirement]);
    CutTwice(st.requirement);
    if plan.Some? {
      CutTwice(plan.value.epic.name);
    }
  }

  /**
   Every field of the plan that a finished run sends: the tickets are the last round's
   drafts under one epic id, and the epic has the name and the requirements of the plan
   that is refined, or those of the user's message.
   */
  lemma {:induction false} ReplyHolds(request: ChatRequest, visits: seq<Visit>) returns (s: nat, p: nat)
    requires Path(InitialState(request), visits) && visits != [] && visits[|visits| - 1].node == ReplyNode
    ensures IsFullRun(visits, s, p)
    ensures var reply := visits[|visits| - 1].After().finalReply;
            var planned, plan := visits[2 * s + 2 * p - 1].answer, Refined(request, visits);
            var name := if plan.Some? && plan.value.epic.name != "" then plan.value.epic.name else request.message;
            && reply.Some?
            && var Reply(epic, tickets) := reply.value;
               && |tickets| == |planned.drafts|
               && (forall i | 0 <= i < |tickets| ::
                     var d := planned.drafts[i];
                     tickets[i] == Ticket(d.id, epic.id, d.name, d.requirements, d.acceptanceCriteria))
               && epic.id == (if tickets == [] then visits[|visits| - 1].answer.freshId else planned.freshId)
               && epic.solution == visits[2 * s - 1].answer.solution
               && (name == "" ==> epic.name == "Software Solution")
               && (name != "" ==> epic.name <= name && |epic.name| == if |name| < 200 then |name| else 200)
               && epic.requirements == (if plan.Some? && plan.value.epic.requirements != []
                                        then plan.value.epic.requirements else [request.message])
  {
    hide RunNode, Merge, Route, BuildTickets, BuildReply, Path, ResolveEpicMeta;
    var n := |visits| - 1;
    s, p := ApprovedMeansApproved(InitialState(request), visits);
    BuiltTickets(visits[2 * s + 2 * p - 1].answer);
    CarriedAt(request, visits, n);
    AfterReply(visits[n]);
    BuiltEpic(visits[n].before, visits[n].answer.freshId, Refined(request, visits));
  }
}
