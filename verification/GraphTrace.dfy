/**
 What every run through the architect's graph has in common, for any number of
 rejections.
 */
module GraphTrace {
  import opened Wrappers
  import opened Contracts
  import opened ArchitectGraph

  // ----- the shape of a run -----

  /** The node at position `i` of `intent (solution solution_review)^s (plan plan_review)^p reply`. */
  function NodeAt(s: nat, p: nat, i: nat): NodeName {
    if i == 0 then IntentNode
    else if i <= 2 * s then (if i % 2 == 1 then SolutionNode else SolutionReviewNode)
    else if i <= 2 * s + 2 * p then (if i % 2 == 1 then PlanNode else PlanReviewNode)
    else ReplyNode
  }

  function Template(s: nat, p: nat): seq<NodeName> {
    seq(2 * s + 2 * p + 2, i requires 0 <= i => NodeAt(s, p, i))
  }

  function Nodes(visits: seq<Visit>): seq<NodeName> {
    seq(|visits|, i requires 0 <= i < |visits| => visits[i].node)
  }

  predicate Builds(v: Visit) {
    v.node == IntentNode && (v.answer.intent == UserIntent.Plan || v.answer.intent == Refine)
  }

  /** How far a run has come: the rounds of each finished loop. */
  datatype Stage = Start | Ended | Solving | Planning(s: nat) | Finishing(s: nat, p: nat)

  /** From position `lo` up to `hi`: work at odd positions, reviews at even ones that all rejected. */
  ghost predicate Looping(visits: seq<Visit>, lo: nat, hi: nat, work: NodeName, review: NodeName)
    requires hi <= |visits|
  {
    forall i | lo <= i < hi ::
      if i % 2 == 1 then visits[i].node == work
      else visits[i].node == review && !visits[i].answer.approved
  }

  /** A loop that ran from `lo` and was approved at `hi`. */
  ghost predicate Looped(visits: seq<Visit>, lo: nat, hi: nat, work: NodeName, review: NodeName)
    requires hi < |visits|
  {
    Looping(visits, lo, hi, work, review) && visits[hi].node == review && visits[hi].answer.approved
  }

  ghost predicate At(visits: seq<Visit>, stage: Stage) {
    match stage
    case Start => visits == []
    case Ended => |visits| == 1 && visits[0].node == IntentNode && !Builds(visits[0])
    case Solving =>
      && |visits| >= 1 && Builds(visits[0])
      && Looping(visits, 1, |visits|, SolutionNode, SolutionReviewNode)
    case Planning(s) =>
      && 1 <= s && 2 * s < |visits| && Builds(visits[0])
      && Looped(visits, 1, 2 * s, SolutionNode, SolutionReviewNode)
      && Looping(visits, 2 * s + 1, |visits|, PlanNode, PlanReviewNode)
    case Finishing(s, p) =>
      && 1 <= s && 1 <= p
      && 2 * s + 2 * p < |visits| <= 2 * s + 2 * p + 2 && Builds(visits[0])
      && Looped(visits, 1, 2 * s, SolutionNode, SolutionReviewNode)
      && Looped(visits, 2 * s + 1, 2 * s + 2 * p, PlanNode, PlanReviewNode)
      && (|visits| == 2 * s + 2 * p + 2 ==> visits[2 * s + 2 * p + 1].node == ReplyNode)
  }

  lemma {:induction false} LoopingPrefix(
    front: seq<Visit>, last: Visit, lo: nat, hi: nat, work: NodeName, review: NodeName)
    requires hi <= |front| && Looping(front, lo, hi, work, review)
    ensures Looping(front + [last], lo, hi, work, review)
  {
  }

  lemma {:induction false} StepSolving(front: seq<Visit>, last: Visit)
    requires At(front, Solving) && NextNode(front) == Some(last.node)
    ensures At(front + [last], if |front| % 2 == 0 && last.answer.approved then Planning(|front| / 2) else Solving)
  {
    var n := |front|;
    var visits := front + [last];
    LoopingPrefix(front, last, 1, n, SolutionNode, SolutionReviewNode);
    assert visits[n] == last && visits[0] == front[0];
    assert front[n - 1].node == if n == 1 then IntentNode else if n % 2 == 0 then SolutionNode else SolutionReviewNode;
    assert last.node == if n % 2 == 1 then SolutionNode else SolutionReviewNode;
  }

  lemma {:induction false} StepPlanning(front: seq<Visit>, last: Visit, s: nat)
    requires At(front, Planning(s)) && NextNode(front) == Some(last.node)
    ensures At(front + [last],
               if |front| % 2 == 0 && last.answer.approved then Finishing(s, |front| / 2 - s) else Planning(s))
  {
    var n := |front|;
    var visits := front + [last];
    LoopingPrefix(front, last, 1, 2 * s, SolutionNode, SolutionReviewNode);
    LoopingPrefix(front, last, 2 * s + 1, n, PlanNode, PlanReviewNode);
    assert visits[n] == last && visits[0] == front[0] && visits[2 * s] == front[2 * s];
    assert front[n - 1].node ==
           if n - 1 == 2 * s then SolutionReviewNode else if n % 2 == 0 then PlanNode else PlanReviewNode;
    assert last.node == if n % 2 == 1 then PlanNode else PlanReviewNode;
  }

  lemma {:induction false} StepFinishing(front: seq<Visit>, last: Visit, s: nat, p: nat)
    requires At(front, Finishing(s, p)) && NextNode(front) == Some(last.node)
    ensures At(front + [last], Finishing(s, p))
  {
    var n := |front|;
    var visits := front + [last];
    LoopingPrefix(front, last, 1, 2 * s, SolutionNode, SolutionReviewNode);
    LoopingPrefix(front, last, 2 * s + 1, 2 * s + 2 * p, PlanNode, PlanReviewNode);
    assert visits[n] == last && visits[0] == front[0];
    assert visits[2 * s] == front[2 * s] && visits[2 * s + 2 * p] == front[2 * s + 2 * p];
    assert n == 2 * s + 2 * p + 1;
  }

  lemma {:induction false} StepStart(last: Visit)
    requires NextNode([]) == Some(last.node)
    ensures At([last], if Builds(last) then Solving else Ended)
  {
  }

  lemma {:induction false} EndedStops(front: seq<Visit>)
    requires At(front, Ended)
    ensures NextNode(front).None?
  {
  }

  /** One more node execution moves a run from stage to stage. */
  lemma {:induction false} StageStep(front: seq<Visit>, last: Visit, before: Stage) returns (stage: Stage)
    requires At(front, before) && NextNode(front) == Some(last.node)
    ensures At(front + [last], stage)
  {
    var n := |front|;
    if before == Start {
      StepStart(last);
      assert front + [last] == [last];
      stage := if Builds(last) then Solving else Ended;
    } else if before == Ended {
      EndedStops(front);
      assert false;
    } else if before == Solving {
      StepSolving(front, last);
      stage := if n % 2 == 0 && last.answer.approved then Planning(n / 2) else Solving;
    } else if before.Planning? {
      StepPlanning(front, last, before.s);
      stage := if n % 2 == 0 && last.answer.approved then Finishing(before.s, n / 2 - before.s) else before;
    } else {
      StepFinishing(front, last, before.s, before.p);
      stage := before;
    }
  }

  lemma {:induction false} PathStage(init: GraphState, visits: seq<Visit>) returns (stage: Stage)
    requires Path(init, visits)
    ensures At(visits, stage)
  {
    if visits == [] {
      stage := Start;
    } else {
      var n := |visits| - 1;
      stage := PathStage(init, visits[..n]);
      assert visits[..n] + [visits[n]] == visits;
      stage := StageStep(visits[..n], visits[n], stage);
    }
  }

  /** A finished plan or refine run: `s` solution rounds, `p` planning rounds, each approved in its last round only. */
  ghost predicate IsFullRun(visits: seq<Visit>, s: nat, p: nat) {
    && 1 <= s && 1 <= p
    && Nodes(visits) == Template(s, p)
    && |visits| == 2 * s + 2 * p + 2
    && Builds(visits[0])
    && (forall k | 1 <= k <= s :: visits[2 * k].answer.approved <==> k == s)
    && (forall k | s < k <= s + p :: visits[2 * k].answer.approved <==> k == s + p)
  }

  /** A template long enough for the stage a run has reached. */
  function LongEnough(visits: seq<Visit>, stage: Stage): (nat, nat) {
    match stage
    case Start => (1, 1)
    case Ended => (1, 1)
    case Solving => (|visits|, 1)
    case Planning(s) => (s, |visits|)
    case Finishing(s, p) => (s, p)
  }

  lemma {:induction false} StageNode(visits: seq<Visit>, stage: Stage, i: nat)
    requires At(visits, stage) && i < |visits|
    ensures var (s, p) := LongEnough(visits, stage); visits[i].node == NodeAt(s, p, i)
  {
  }

  lemma {:induction false} StageTemplate(visits: seq<Visit>, stage: Stage)
    requires At(visits, stage)
    ensures var (s, p) := LongEnough(visits, stage);
            s >= 1 && p >= 1 && |visits| <= 2 * s + 2 * p + 2 && Nodes(visits) <= Template(s, p)
  {
    var (s, p) := LongEnough(visits, stage);
    forall i | 0 <= i < |visits| ensures Nodes(visits)[i] == Template(s, p)[i] {
      StageNode(visits, stage, i);
    }
    assert Nodes(visits) == Template(s, p)[..|visits|];
  }

  /**
   A run whose last node was reply_node took 2s + 2p + 2 node executions in the
   order of the template, and each review approved only in its last round.
   */
  lemma {:induction false} FullRun(init: GraphState, visits: seq<Visit>) returns (s: nat, p: nat)
    requires Path(init, visits) && visits != [] && visits[|visits| - 1].node == ReplyNode
    ensures IsFullRun(visits, s, p)
  {
    var stage := PathStage(init, visits);
    StageNode(visits, stage, |visits| - 1);
    assert stage.Finishing?;
    s, p := stage.s, stage.p;
    StageTemplate(visits, stage);
    assert |visits| == 2 * s + 2 * p + 2;
  }

  /** Where a run may end by itself: at an intent that asks for nothing, or after the reply. */
  lemma {:induction false} StageEnd(visits: seq<Visit>, stage: Stage)
    requires At(visits, stage) && visits != [] && NextNode(visits).None?
    ensures stage == Ended || (stage.Finishing? && |visits| == 2 * stage.s + 2 * stage.p + 2)
  {
    StageNode(visits, stage, |visits| - 1);
  }

  /** Wherever a run stops, its nodes are a prefix of a full run's template; it ends by itself only in two ways. */
  lemma {:induction false} PartialRun(init: GraphState, visits: seq<Visit>) returns (s: nat, p: nat)
    requires Path(init, visits)
    ensures s >= 1 && p >= 1
    ensures Nodes(visits) <= Template(s, p)
    ensures NextNode(visits).None? ==>
              || (Nodes(visits) == [IntentNode] && !Builds(visits[0]))
              || Nodes(visits) == Template(s, p)
  {
    var stage := PathStage(init, visits);
    StageTemplate(visits, stage);
    var rounds := LongEnough(visits, stage);
    s, p := rounds.0, rounds.1;
    if NextNode(visits).None? {
      StageEnd(visits, stage);
      if stage == Ended {
        assert Nodes(visits)[0] == IntentNode;
      }
    }
  }

  // ----- approved means approved -----

  lemma {:induction false} FullRunNode(visits: seq<Visit>, s: nat, p: nat, i: nat)
    requires IsFullRun(visits, s, p) && i < |visits|
    ensures visits[i].node == NodeAt(s, p, i)
  {
    assert Nodes(visits)[i] == Template(s, p)[i];
  }

  lemma {:induction false} AfterSolution(v: Visit)
    ensures v.node == SolutionNode ==> v.After().solution == Some(v.answer.solution)
    ensures v.node != SolutionNode ==> v.After().solution == v.before.solution
  {
  }

  lemma {:induction false} AfterPlan(v: Visit)
    ensures v.node == PlanNode ==> v.After().tickets == BuildTickets(v.answer)
    ensures v.node != PlanNode ==> v.After().tickets == v.before.tickets
  {
  }

  lemma {:induction false} AfterReply(v: Visit)
    requires v.node == ReplyNode
    ensures v.After().finalReply == v.Output().finalReply == Some(BuildReply(v.before, v.answer.freshId))
    ensures v.before.solution.Some? ==>
              BuildReply(v.before, v.answer.freshId).epic.solution == v.before.solution.value
    ensures BuildReply(v.before, v.answer.freshId).tickets == v.before.tickets
  {
  }

  /** How each field a review reads comes out of the visit before. */
  lemma {:induction false} FieldsAt(init: GraphState, visits: seq<Visit>, k: nat)
    requires Path(init, visits) && 0 < k < |visits|
    ensures visits[k].before.solution ==
            if visits[k - 1].node == SolutionNode then Some(visits[k - 1].answer.solution)
            else visits[k - 1].before.solution
    ensures visits[k].before.tickets ==
            if visits[k - 1].node == PlanNode then BuildTickets(visits[k - 1].answer)
            else visits[k - 1].before.tickets
  {
    PathAt(init, visits, k);
    AfterSolution(visits[k - 1]);
    AfterPlan(visits[k - 1]);
  }

  /** From its approval on, no node replaces the solution. */
  lemma {:induction false} SolutionStays(init: GraphState, visits: seq<Visit>, s: nat, p: nat, k: nat)
    requires Path(init, visits) && IsFullRun(visits, s, p)
    requires 2 * s <= k < |visits|
    ensures visits[k].before.solution == visits[2 * s].before.solution
  {
    if k > 2 * s {
      SolutionStays(init, visits, s, p, k - 1);
      FullRunNode(visits, s, p, k - 1);
      FieldsAt(init, visits, k);
    }
  }

  lemma {:induction false} SolutionReviewed(init: GraphState, visits: seq<Visit>, s: nat, p: nat)
    requires Path(init, visits) && IsFullRun(visits, s, p)
    ensures visits[2 * s].node == SolutionReviewNode && visits[2 * s].answer.approved
    ensures visits[2 * s].before.solution == Some(visits[2 * s - 1].answer.solution)
  {
    FullRunNode(visits, s, p, 2 * s);
    FullRunNode(visits, s, p, 2 * s - 1);
    FieldsAt(init, visits, 2 * s);
  }

  lemma {:induction false} TicketsReviewed(init: GraphState, visits: seq<Visit>, s: nat, p: nat)
    requires Path(init, visits) && IsFullRun(visits, s, p)
    ensures var k := 2 * s + 2 * p;
            && visits[k].node == PlanReviewNode && visits[k].answer.approved
            && visits[k].before.tickets == BuildTickets(visits[k - 1].answer)
            && visits[k + 1].before.tickets == visits[k].before.tickets
  {
    var k := 2 * s + 2 * p;
    FullRunNode(visits, s, p, k);
    FullRunNode(visits, s, p, k - 1);
    assert visits[2 * (s + p)].answer.approved;
    FieldsAt(init, visits, k);
    FieldsAt(init, visits, k + 1);
  }

  /**
   The reply of a run carries the very solution that the last solution review
   inspected and the very tickets that the last plan review inspected; both
   approved, and nothing touched the solution in between.
   */
  lemma {:induction false} ApprovedMeansApproved(init: GraphState, visits: seq<Visit>) returns (s: nat, p: nat)
    requires Path(init, visits) && visits != [] && visits[|visits| - 1].node == ReplyNode
    ensures IsFullRun(visits, s, p)
    ensures var reply := visits[|visits| - 1].After().finalReply;
            var solutionReview, planReview := visits[2 * s], visits[2 * s + 2 * p];
            && reply.Some?
            && solutionReview.node == SolutionReviewNode && solutionReview.answer.approved
            && solutionReview.before.solution == Some(reply.value.epic.solution)
            && visits[2 * s - 1].answer.solution == reply.value.epic.solution
            && planReview.node == PlanReviewNode && planReview.answer.approved
            && planReview.before.tickets == reply.value.tickets
            && BuildTickets(visits[2 * s + 2 * p - 1].answer) == reply.value.tickets
            && forall k | 2 * s <= k < |visits| :: visits[k].before.solution == Some(reply.value.epic.solution)
  {
    s, p := FullRun(init, visits);
    SolutionReviewed(init, visits, s, p);
    TicketsReviewed(init, visits, s, p);
    forall k | 2 * s <= k < |visits|
      ensures visits[k].before.solution == visits[2 * s].before.solution
    {
      SolutionStays(init, visits, s, p, k);
    }
    AfterReply(visits[|visits| - 1]);
  }

  // ----- what the state carries along -----

  /** What holds in every state a run can reach. */
  ghost predicate Sane(init: GraphState, visits: seq<Visit>) {
    var st := StateAfter(init, visits);
    && st.rawHistory == init.rawHistory
    && st.requirement == init.requirement
    && st.conversationId == init.conversationId
    && (forall i, j | 0 <= i < |st.tickets| && 0 <= j < |st.tickets| :: st.tickets[i].epicId == st.tickets[j].epicId)
    && st.priorSolution ==
       (if visits != [] && visits[0].answer.intent == Refine then PlanSolution(LatestPlan(init.rawHistory)) else None)
    && (visits != [] ==> st.userIntent == visits[0].answer.intent)
  }

  lemma {:induction false} AfterCarried(v: Visit)
    ensures var st := v.After();
            && st.rawHistory == v.before.rawHistory
            && st.requirement == v.before.requirement
            && st.conversationId == v.before.conversationId
            && st.tickets == (if v.node == PlanNode then BuildTickets(v.answer) else v.before.tickets)
            && (v.node == IntentNode ==>
                  && st.userIntent == v.answer.intent
                  && (v.answer.intent == Refine && LatestPlan(v.before.rawHistory).Some? ==>
                        st.priorSolution == PlanSolution(LatestPlan(v.before.rawHistory)))
                  && (!(v.answer.intent == Refine && LatestPlan(v.before.rawHistory).Some?) ==>
                        st.priorSolution == v.before.priorSolution))
            && (v.node != IntentNode ==>
                  st.userIntent == v.before.userIntent && st.priorSolution == v.before.priorSolution)
  {
  }

  lemma {:induction false} PathSane(request: ChatRequest, visits: seq<Visit>)
    requires Path(InitialState(request), visits)
    ensures Sane(InitialState(request), visits)
    ensures visits != [] ==> visits[0].node == IntentNode
    ensures forall k | 0 < k < |visits| :: visits[k].node != IntentNode
  {
    hide RunNode, Merge, Route;
    if visits != [] {
      var init, n := InitialState(request), |visits| - 1;
      PathSane(request, visits[..n]);
      AfterCarried(visits[n]);
      Predecessor(init, visits, n);
      if n > 0 {
        assert visits[..n][n - 1] == visits[n - 1];
        assert visits[..n][0] == visits[0];
      }
    }
  }

  // ----- feedback reaches the next round -----

  /** `review` rejected, and said why. */
  predicate Objects(review: Visit) {
    (review.node == SolutionReviewNode || review.node == PlanReviewNode)
    && !review.answer.approved && review.answer.comments != []
  }

  lemma {:induction false} AfterReviews(v: Visit)
    ensures v.After().solutionReviewComments ==
            if v.node == SolutionReviewNode then Objections(v.answer) else v.before.solutionReviewComments
    ensures v.After().ticketReviewComments ==
            if v.node == PlanReviewNode then Objections(v.answer) else v.before.ticketReviewComments
  {
  }

  lemma {:induction false} CommentsAt(init: GraphState, visits: seq<Visit>, k: nat)
    requires Path(init, visits) && 0 < k < |visits|
    ensures visits[k].before.solutionReviewComments ==
            if visits[k - 1].node == SolutionReviewNode then Objections(visits[k - 1].answer)
            else visits[k - 1].before.solutionReviewComments
    ensures visits[k].before.ticketReviewComments ==
            if visits[k - 1].node == PlanReviewNode then Objections(visits[k - 1].answer)
            else visits[k - 1].before.ticketReviewComments
  {
    PathAt(init, visits, k);
    AfterReviews(visits[k - 1]);
  }

  /** Which visits can stand before a visit, read off the edges. */
  lemma {:induction false} Predecessor(init: GraphState, visits: seq<Visit>, k: nat)
    requires Path(init, visits) && k < |visits|
    ensures k == 0 <==> visits[k].node == IntentNode
    ensures visits[k].node == SolutionNode ==>
              k > 0 && (visits[k - 1].node == IntentNode || visits[k - 1].node == SolutionReviewNode)
    ensures visits[k].node == SolutionReviewNode ==> k > 0 && visits[k - 1].node == SolutionNode
    ensures visits[k].node == PlanNode ==>
              k > 0 && (visits[k - 1].node == SolutionReviewNode || visits[k - 1].node == PlanReviewNode)
  {
    PathAt(init, visits, k);
  }

  /** The fields that no later node writes. */
  lemma {:induction false} CarriedAt(request: ChatRequest, visits: seq<Visit>, k: nat)
    requires Path(InitialState(request), visits) && 0 < k < |visits|
    ensures visits[k].before.requirement == request.message
    ensures visits[k].before.rawHistory == request.history
    ensures forall i, j | 0 <= i < |visits[k].before.tickets| && 0 <= j < |visits[k].before.tickets| ::
              visits[k].before.tickets[i].epicId == visits[k].before.tickets[j].epicId
    ensures visits[k].before.priorSolution ==
            if visits[0].answer.intent == Refine then PlanSolution(LatestPlan(request.history)) else None
  {
    PathAt(InitialState(request), visits, k);
    PathSane(request, visits[..k]);
    assert visits[..k][0] == visits[0];
  }

  lemma {:induction false} StartAt(init: GraphState, visits: seq<Visit>)
    requires Path(init, visits) && visits != []
    ensures visits[0].before == init && visits[0].node == IntentNode
  {
    PathAt(init, visits, 0);
  }

  /** There are no ticket comments before the first plan review. */
  lemma {:induction false} NoTicketComments(request: ChatRequest, visits: seq<Visit>, k: nat)
    requires Path(InitialState(request), visits) && k < |visits|
    requires forall i | 0 <= i < k :: visits[i].node != PlanReviewNode
    ensures visits[k].before.ticketReviewComments == []
  {
    if k == 0 {
      StartAt(InitialState(request), visits);
    } else {
      CommentsAt(InitialState(request), visits, k);
      NoTicketComments(request, visits, k - 1);
    }
  }

  /** A solution visit right after the intent has seen no comments. */
  lemma {:induction false} FirstSolution(request: ChatRequest, visits: seq<Visit>, k: nat)
    requires Path(InitialState(request), visits) && 0 < k < |visits| && visits[k - 1].node == IntentNode
    ensures k == 1 && visits[k].before.solutionReviewComments == []
  {
    Predecessor(InitialState(request), visits, k - 1);
    StartAt(InitialState(request), visits);
    CommentsAt(InitialState(request), visits, k);
  }

  /** A later one has the comments of the review before it, and the solution that review read. */
  lemma {:induction false} LaterSolution(init: GraphState, visits: seq<Visit>, k: nat)
    requires Path(init, visits) && 0 < k < |visits| && visits[k - 1].node == SolutionReviewNode
    ensures k >= 2
    ensures visits[k].before.solution == visits[k - 1].before.solution == Some(visits[k - 2].answer.solution)
    ensures visits[k].before.solutionReviewComments == Objections(visits[k - 1].answer)
  {
    Predecessor(init, visits, k - 1);
    CommentsAt(init, visits, k);
    FieldsAt(init, visits, k);
    FieldsAt(init, visits, k - 1);
  }

  /**
   The solution prompt is REVISE exactly when the visit before it is a review
   that rejected with comments; it then holds those comments and the solution
   that review had read. Otherwise it is REFINE exactly when this is a refine
   with a visible plan, and NEW in the remaining cases.
   */
  lemma {:induction false} SolutionFeedback(request: ChatRequest, visits: seq<Visit>, k: nat)
    requires Path(InitialState(request), visits) && k < |visits| && visits[k].node == SolutionNode
    ensures k >= 1
    ensures SolutionPrompt(visits[k].before) ==
            var prior := if visits[0].answer.intent == Refine then PlanSolution(LatestPlan(request.history)) else None;
            if Objects(visits[k - 1]) then
              SolutionRevise(request.message, visits[k - 1].before.solution, visits[k - 1].answer.comments)
            else if prior.Some? then SolutionRefine(request.message, prior.value)
            else SolutionNew(request.message)
    ensures Objects(visits[k - 1]) ==>
              k >= 2 && visits[k - 1].before.solution == Some(visits[k - 2].answer.solution)
  {
    Predecessor(InitialState(request), visits, k);
    CarriedAt(request, visits, k);
    if visits[k - 1].node == IntentNode {
      FirstSolution(request, visits, k);
    } else {
      LaterSolution(InitialState(request), visits, k);
    }
  }

  /** A solution is known from the second visit on. */
  lemma {:induction false} SolutionKnown(init: GraphState, visits: seq<Visit>, k: nat)
    requires Path(init, visits) && 2 <= k < |visits|
    requires visits[1].node == SolutionNode
    ensures visits[k].before.solution.Some?
  {
    PathAt(init, visits, k);
    AfterSolution(visits[k - 1]);
    if k > 2 {
      SolutionKnown(init, visits, k - 1);
    }
  }

  /** A planning visit comes after an approved solution loop. */
  lemma {:induction false} PlanningStarted(init: GraphState, visits: seq<Visit>, k: nat) returns (s: nat)
    requires Path(init, visits) && k < |visits| && visits[k].node == PlanNode
    ensures 1 <= s && 2 * s < k
    ensures visits[1].node == SolutionNode
    ensures Looped(visits, 1, 2 * s, SolutionNode, SolutionReviewNode)
    ensures forall i | 2 * s < i < k :: visits[i].node == PlanNode || visits[i].node == PlanReviewNode
  {
    var stage := PathStage(init, visits);
    StageNode(visits, stage, k);
    s := stage.s;
  }

  lemma {:induction false} CommentsBefore(request: ChatRequest, visits: seq<Visit>, k: nat)
    requires Path(InitialState(request), visits) && k < |visits| && visits[k].node == PlanNode
    requires k >= 1 && visits[k - 1].node == SolutionReviewNode
    ensures visits[k].before.ticketReviewComments == [] && visits[k - 1].answer.approved
  {
    var init := InitialState(request);
    var s := PlanningStarted(init, visits, k);
    StartAt(init, visits);
    NoTicketComments(request, visits, k);
  }

  /** What can precede a planning visit, and which comments its state then holds. */
  lemma {:induction false} BeforePlan(request: ChatRequest, visits: seq<Visit>, k: nat)
    requires Path(InitialState(request), visits) && k < |visits| && visits[k].node == PlanNode
    ensures k >= 3 && visits[1].node == SolutionNode
    ensures visits[k - 1].node == SolutionReviewNode || visits[k - 1].node == PlanReviewNode
    ensures visits[k].before.ticketReviewComments ==
            if visits[k - 1].node == PlanReviewNode then Objections(visits[k - 1].answer) else []
    ensures visits[k - 1].node == SolutionReviewNode ==> visits[k - 1].answer.approved
  {
    var init := InitialState(request);
    Predecessor(init, visits, k);
    CommentsAt(init, visits, k);
    var s := PlanningStarted(init, visits, k);
    if visits[k - 1].node == SolutionReviewNode {
      CommentsBefore(request, visits, k);
    }
  }

  /** The same for planning: REVISE exactly after a review that rejected with comments, holding just those. */
  lemma {:induction false} PlanFeedback(request: ChatRequest, visits: seq<Visit>, k: nat)
    requires Path(InitialState(request), visits) && k < |visits| && visits[k].node == PlanNode
    ensures k >= 3 && visits[k].before.solution.Some?
    ensures PlanPrompt(visits[k].before) ==
            if Objects(visits[k - 1]) then
              PlanRevise(request.message, visits[k].before.solution, visits[k - 1].answer.comments)
            else PlanNew(request.message, visits[k].before.solution)
  {
    BeforePlan(request, visits, k);
    SolutionKnown(InitialState(request), visits, k);
    CarriedAt(request, visits, k);
  }
}
