/**
 The data that the backend, the two agents and the browser exchange.

 Text that only a model or a user writes is a `string`; one-field wrapper
 records (a requirement, a criterion, a feature) are their text. Timestamps are
 not part of this model.
 */
module Contracts {
  import opened Wrappers

  type Id = string

  datatype UserIntent = Plan | Accept | Refine | Undefined

  datatype NodeName =
    | IntentNode
    | SolutionNode
    | SolutionReviewNode
    | PlanNode
    | PlanReviewNode
    | ReplyNode

  datatype ChatStatus = IsActive | IsStopped

  datatype AgentStatus = IsThinking | HasReplied

  datatype Actor = User | Agent

  datatype Component = Component(tech: string, features: seq<string>)

  datatype Solution = Solution(architecture: string, components: seq<Component>)

  datatype Epic = Epic(id: string, name: string, requirements: seq<string>, solution: Solution)

  datatype Ticket = Ticket(
    id: string,
    epicId: string,
    name: string,
    requirements: seq<string>,
    acceptanceCriteria: seq<string>)

  datatype Reply = Reply(epic: Epic, tickets: seq<Ticket>)

  /** The content of a message: text, a plan, or the ids of what was created. */
  datatype Content =
    | Text(text: string)
    | PlanReply(reply: Reply)
    | FinalReply(epicId: string, ticketIds: seq<string>)

  datatype Message = Message(
    actor: Actor,
    content: Content,
    agentStatus: Option<AgentStatus>,
    node: Option<NodeName>)

  datatype Chat = Chat(
    id: Id,
    title: Option<string>,
    messages: seq<Message>,
    status: ChatStatus,
    agentStatus: AgentStatus)

  /** A row of the `conversations` table. */
  datatype Row = Row(title: Option<string>, username: Option<string>, messages: seq<Message>)

  /** What the backend publishes, and what the architect-agent runs on. */
  datatype ChatRequest = ChatRequest(conversationId: Id, message: string, history: seq<Message>)

  /** What the architect-agent publishes when the user accepts a plan. */
  datatype AcceptEvent = AcceptEvent(conversationId: Id, content: Reply)

  function UserMessage(text: string): Message {
    Message(User, Text(text), None, None)
  }

  /** Python's truth value of an optional string: an empty one counts as absent. */
  predicate Truthy(text: Option<string>) {
    text.Some? && text.value != ""
  }

  // ----- the field the ticket-agent does not know -----

  /** A message as the ticket-agent reads and writes it: without `node`. */
  function Erase(m: Message): Message {
    m.(node := None)
  }

  function EraseAll(log: seq<Message>): seq<Message> {
    seq(|log|, i requires 0 <= i < |log| => Erase(log[i]))
  }

  /** Nothing but `node` is lost. */
  lemma ErasedKeepsRest(log: seq<Message>)
    ensures |EraseAll(log)| == |log|
    ensures forall i | 0 <= i < |log| ::
              EraseAll(log)[i] == Message(log[i].actor, log[i].content, log[i].agentStatus, None)
  {
  }

  /** `later` continues `earlier`, apart from `node`. */
  ghost predicate Extends(earlier: seq<Message>, later: seq<Message>) {
    EraseAll(earlier) <= EraseAll(later)
  }

  lemma ExtendsAt(earlier: seq<Message>, later: seq<Message>)
    ensures Extends(earlier, later) <==>
            |earlier| <= |later| && forall i | 0 <= i < |earlier| :: Erase(earlier[i]) == Erase(later[i])
  {
    var a, b := EraseAll(earlier), EraseAll(later);
    if Extends(earlier, later) {
      forall i | 0 <= i < |earlier| ensures Erase(earlier[i]) == Erase(later[i]) {
        assert a[i] == b[i];
      }
    }
    if |earlier| <= |later| && forall i | 0 <= i < |earlier| :: Erase(earlier[i]) == Erase(later[i]) {
      assert a == b[..|earlier|];
    }
  }

  lemma ExtendsTransitive(a: seq<Message>, b: seq<Message>, c: seq<Message>)
    requires Extends(a, b) && Extends(b, c)
    ensures Extends(a, c)
  {
    ExtendsAt(a, b);
    ExtendsAt(b, c);
    ExtendsAt(a, c);
  }

  lemma PrefixExtends(a: seq<Message>, b: seq<Message>)
    requires a <= b
    ensures Extends(a, b)
  {
    ExtendsAt(a, b);
  }

  // ----- the latest plan that is still visible -----

  /** A message that the architect-agent recognises as a plan it sent. */
  predicate IsVisiblePlan(m: Message) {
    m.node == Some(ReplyNode) && m.content.PlanReply?
  }

  /** The search from the end that intent_node and reply_node make in the history. */
  function LatestPlan(history: seq<Message>): Option<Reply> {
    if history == [] then None
    else
      var last := history[|history| - 1];
      if IsVisiblePlan(last) then Some(last.content.reply) else LatestPlan(history[..|history| - 1])
  }

  ghost predicate IsLatestPlanAt(history: seq<Message>, k: int) {
    && 0 <= k < |history|
    && IsVisiblePlan(history[k])
    && forall j | k < j < |history| :: !IsVisiblePlan(history[j])
  }

  /** The search finds the last visible plan, and nothing only if there is none. */
  lemma {:induction false} LatestPlanIsLast(history: seq<Message>)
    ensures LatestPlan(history).None? <==> forall k | 0 <= k < |history| :: !IsVisiblePlan(history[k])
    ensures forall k | IsLatestPlanAt(history, k) :: LatestPlan(history) == Some(history[k].content.reply)
    ensures LatestPlan(history).Some? ==> exists k :: IsLatestPlanAt(history, k)
  {
    if history != [] {
      var n := |history| - 1;
      var front := history[..n];
      LatestPlanIsLast(front);
      if IsVisiblePlan(history[n]) {
        assert IsLatestPlanAt(history, n);
      } else if LatestPlan(front).Some? {
        var k :| IsLatestPlanAt(front, k);
        assert IsLatestPlanAt(history, k);
      }
      forall k | IsLatestPlanAt(history, k)
        ensures LatestPlan(history) == Some(history[k].content.reply)
      {
        if k < n {
          assert front[k] == history[k];
          assert IsLatestPlanAt(front, k);
        }
      }
      if LatestPlan(history).None? {
        forall k | 0 <= k < |history| ensures !IsVisiblePlan(history[k]) {
          assert k < n ==> history[k] == front[k];
        }
      }
    }
  }

  lemma LatestPlanSkips(history: seq<Message>, m: Message)
    ensures LatestPlan(history + [m]) ==
            if IsVisiblePlan(m) then Some(m.content.reply) else LatestPlan(history)
  {
    assert (history + [m])[..|history|] == history;
  }

  lemma {:induction false} LatestPlanSkipsAll(history: seq<Message>, more: seq<Message>)
    requires forall i | 0 <= i < |more| :: !IsVisiblePlan(more[i])
    ensures LatestPlan(history + more) == LatestPlan(history)
  {
    if more == [] {
      assert history + more == history;
    } else {
      var n := |more| - 1;
      LatestPlanSkipsAll(history, more[..n]);
      assert history + more == (history + more[..n]) + [more[n]];
      LatestPlanSkips(history + more[..n], more[n]);
    }
  }

  /** After the ticket-agent has saved a chat, no plan in it is visible any more. */
  lemma ErasedHidesPlans(log: seq<Message>)
    ensures LatestPlan(EraseAll(log)).None?
  {
    LatestPlanIsLast(EraseAll(log));
  }
}
