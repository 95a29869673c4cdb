/**
 How the browser reads a log: it cuts a loaded log into turns, and during a live
 turn it shows the agent messages after an offset.
 */
module ChatView {
  import opened Wrappers
  import opened Contracts
  import opened TurnLog

  /** A turn as it is shown. */
  datatype ShownTurn = ShownTurn(
    userMessage: string,
    agentMessages: seq<Message>,
    result: Option<Content>,
    reply: Option<string>)

  datatype CompletedTurn = CompletedTurn(
    userMessage: string,
    thinkingMessages: seq<Message>,
    result: Option<Content>,
    reply: Option<string>)

  // ----- cutting a log into turns -----

  datatype SplitState = SplitState(turns: seq<ShownTurn>, userMessage: string, pending: seq<Message>)

  function ResultOf(c: Content): Option<Content> {
    if c.PlanReply? || c.FinalReply? then Some(c) else None
  }

  function ReplyOf(c: Content): Option<string> {
    if c.Text? then Some(c.text) else None
  }

  /** One message of the loop. */
  function SplitOne(st: SplitState, m: Message): SplitState {
    if m.actor.User? then
      st.(userMessage := if m.content.Text? then m.content.text else "", pending := [])
    else if m.agentStatus == Some(HasReplied) then
      var turn := ShownTurn(st.userMessage, st.pending + [m], ResultOf(m.content), ReplyOf(m.content));
      SplitState(st.turns + [turn], "", [])
    else
      st.(pending := st.pending + [m])
  }

  function Split(log: seq<Message>): SplitState {
    if log == [] then SplitState([], "", []) else SplitOne(Split(log[..|log| - 1]), log[|log| - 1])
  }

  method SplitTurns(messages: seq<Message>) returns (turns: seq<ShownTurn>)
    ensures turns == Split(messages).turns
    ensures |turns| == Replies(messages)
    ensures Scan(messages) == Closed ==> Joined(turns) == messages
  {
    turns := [];
    var userMessage := "";
    var agentMessages: seq<Message> := [];
    for i := 0 to |messages|
      invariant SplitState(turns, userMessage, agentMessages) == Split(messages[..i])
    {
      var msg := messages[i];
      assert messages[..i + 1] == messages[..i] + [msg];
      SplitAppend(messages[..i], msg);
      if msg.actor.User? {
        userMessage := if msg.content.Text? then msg.content.text else "";
        agentMessages := [];
      } else {
        agentMessages := agentMessages + [msg];
        if msg.agentStatus == Some(HasReplied) {
          turns := turns + [ShownTurn(userMessage, agentMessages, ResultOf(msg.content), ReplyOf(msg.content))];
          userMessage := "";
          agentMessages := [];
        }
      }
    }
    assert messages[..|messages|] == messages;
    SplitJoins(messages);
    OneTurnPerReply(messages);
  }

  lemma SplitAppend(log: seq<Message>, m: Message)
    ensures Split(log + [m]) == SplitOne(Split(log), m)
  {
    assert (log + [m])[..|log|] == log;
  }

  /** The log that shown turns came from. */
  function Joined(turns: seq<ShownTurn>): seq<Message> {
    if turns == [] then []
    else
      var last := turns[|turns| - 1];
      Joined(turns[..|turns| - 1]) + [UserMessage(last.userMessage)] + last.agentMessages
  }

  lemma JoinedAppend(turns: seq<ShownTurn>, t: ShownTurn)
    ensures Joined(turns + [t]) == Joined(turns) + [UserMessage(t.userMessage)] + t.agentMessages
  {
    assert (turns + [t])[..|turns|] == turns;
  }

  /** On every log of the grammar nothing is lost: the turns and the pending messages are the log. */
  lemma {:induction false} SplitJoins(log: seq<Message>)
    ensures var st := Split(log);
            && (Scan(log) == Closed ==> Joined(st.turns) == log && st.pending == [])
            && (Scan(log) == Open ==> Joined(st.turns) + [UserMessage(st.userMessage)] + st.pending == log)
  {
    if log != [] {
      var n := |log| - 1;
      var front, m := log[..n], log[n];
      SplitJoins(front);
      assert log == front + [m];
      var st := Split(front);
      if Scan(front) == Open && IsReplyMessage(m) {
        JoinedAppend(st.turns, ShownTurn(st.userMessage, st.pending + [m], ResultOf(m.content), ReplyOf(m.content)));
        assert Joined(Split(log).turns) == Joined(st.turns) + [UserMessage(st.userMessage)] + (st.pending + [m]);
      } else if Scan(front) == Closed && IsUserMessage(m) {
        assert m == UserMessage(m.content.text);
      }
    }
  }

  function Replies(log: seq<Message>): nat {
    if log == [] then 0
    else Replies(log[..|log| - 1]) + if IsReplyMessage(log[|log| - 1]) then 1 else 0
  }

  /** On any log at all there is one turn for each reply, and it ends in that reply's content. */
  lemma {:induction false} OneTurnPerReply(log: seq<Message>)
    ensures |Split(log).turns| == Replies(log)
    ensures forall i | 0 <= i < |Split(log).turns| ::
              var t := Split(log).turns[i];
              && t.agentMessages != []
              && var last := t.agentMessages[|t.agentMessages| - 1];
              IsReplyMessage(last) && t.result == ResultOf(last.content) && t.reply == ReplyOf(last.content)
  {
    if log != [] {
      OneTurnPerReply(log[..|log| - 1]);
    }
  }

  // ----- the agent messages of a log -----

  function AgentOf(log: seq<Message>): seq<Message> {
    if log == [] then []
    else AgentOf(log[..|log| - 1]) + if log[|log| - 1].actor.Agent? then [log[|log| - 1]] else []
  }

  lemma {:induction false} AgentOfConcat(a: seq<Message>, b: seq<Message>)
    ensures AgentOf(a + b) == AgentOf(a) + AgentOf(b)
  {
    if b == [] {
      assert a + b == a;
    } else {
      AgentOfConcat(a, b[..|b| - 1]);
      assert (a + b)[..|a + b| - 1] == a + b[..|b| - 1];
    }
  }

  predicate AllAgent(log: seq<Message>) {
    forall i | 0 <= i < |log| :: log[i].actor.Agent?
  }

  lemma {:induction false} AgentOfAgents(log: seq<Message>)
    requires AllAgent(log)
    ensures AgentOf(log) == log
  {
    if log != [] {
      AgentOfAgents(log[..|log| - 1]);
    }
  }

  lemma {:induction false} AgentOfErased(log: seq<Message>)
    ensures AgentOf(EraseAll(log)) == EraseAll(AgentOf(log))
  {
    if log != [] {
      var n := |log| - 1;
      AgentOfErased(log[..n]);
      assert EraseAll(log)[..n] == EraseAll(log[..n]);
    }
  }

  lemma {:induction false} ShownAreAgents(log: seq<Message>)
    ensures AllAgent(Split(log).pending)
    ensures forall i | 0 <= i < |Split(log).turns| :: AllAgent(Split(log).turns[i].agentMessages)
  {
    if log != [] {
      ShownAreAgents(log[..|log| - 1]);
    }
  }

  function Count(turns: seq<ShownTurn>): nat {
    if turns == [] then 0 else Count(turns[..|turns| - 1]) + |turns[|turns| - 1].agentMessages|
  }

  lemma {:induction false} CountIsAgents(turns: seq<ShownTurn>)
    requires forall i | 0 <= i < |turns| :: AllAgent(turns[i].agentMessages)
    ensures Count(turns) == |AgentOf(Joined(turns))|
  {
    if turns != [] {
      var n := |turns| - 1;
      var last := turns[n];
      CountIsAgents(turns[..n]);
      AgentOfConcat(Joined(turns[..n]), [UserMessage(last.userMessage)]);
      AgentOfConcat(Joined(turns[..n]) + [UserMessage(last.userMessage)], last.agentMessages);
      AgentOfAgents(last.agentMessages);
    }
  }

  // ----- the view -----

  datatype View = View(
    offset: nat,
    messages: seq<Message>,
    completed: seq<CompletedTurn>,
    userMessage: Option<string>,
    result: Option<Content>,
    reply: Option<string>)

  function Slice(s: seq<Message>, from: nat): seq<Message> {
    if from <= |s| then s[from..] else []
  }

  function ThinkingOf(messages: seq<Message>): seq<Message> {
    if messages == [] then []
    else (if messages[0].agentStatus == Some(IsThinking) then [messages[0]] else []) + ThinkingOf(messages[1..])
  }

  function Completed(turns: seq<ShownTurn>): seq<CompletedTurn> {
    seq(|turns|, i requires 0 <= i < |turns| =>
      CompletedTurn(turns[i].userMessage, ThinkingOf(turns[i].agentMessages), turns[i].result, turns[i].reply))
  }

  /** Load a conversation from the history list. */
  function Load(v: View, log: seq<Message>): View {
    var turns := Split(log).turns;
    if turns == [] then View(0, [], [], v.userMessage, None, None)
    else
      var previous, last := turns[..|turns| - 1], turns[|turns| - 1];
      View(Count(previous), last.agentMessages, Completed(previous), Some(last.userMessage), last.result,
           if last.result.None? && Truthy(last.reply) then last.reply else None)
  }

  /** Send the first message of a new chat. */
  function Search(message: string): View {
    View(0, [], [], Some(message), None, None)
  }

  /** Send a further message: the shown turn is completed and its messages are counted as old. */
  function Continue(v: View, message: string): View {
    View(v.offset + |v.messages|, [],
         v.completed + (if Truthy(v.userMessage)
                        then [CompletedTurn(v.userMessage.value, ThinkingOf(v.messages), v.result, v.reply)] else []),
         Some(message), None, None)
  }

  function LastReplied(log: seq<Message>): Option<Content> {
    if log == [] then None
    else if log[|log| - 1].agentStatus == Some(HasReplied) then Some(log[|log| - 1].content)
    else LastReplied(log[..|log| - 1])
  }

  /** A `chat-update` arrives. */
  function Update(v: View, chat: Chat): View {
    var shown := v.(messages := Slice(AgentOf(chat.messages), v.offset));
    var final := LastReplied(chat.messages);
    if chat.agentStatus.HasReplied? && final.Some? then
      match final.value
      case Text(text) => shown.(reply := Some(text))
      case _ => shown.(result := final)
    else shown
  }

  /** The component's state, changed by its handlers. */
  class ChatComponent {
    var agentMessageOffset: nat
    var messages: seq<Message>
    var completedTurns: seq<CompletedTurn>
    var userMessage: Option<string>
    var result: Option<Content>
    var reply: Option<string>

    constructor ()
      ensures Value() == View(0, [], [], None, None, None)
    {
      agentMessageOffset, messages, completedTurns := 0, [], [];
      userMessage, result, reply := None, None, None;
    }

    function Value(): View
      reads this
    {
      View(agentMessageOffset, messages, completedTurns, userMessage, result, reply)
    }

    method HandleLoaded(chat: Chat)
      modifies this
      ensures Value() == Load(old(Value()), chat.messages)
    {
      hide Split, Scan, Joined, Replies;
      agentMessageOffset, messages, completedTurns := 0, [], [];
      result, reply := None, None;
      var turns := SplitTurns(chat.messages);
      if |turns| == 0 {
        return;
      }
      var lastTurn, prevTurns := turns[|turns| - 1], turns[..|turns| - 1];
      userMessage := Some(lastTurn.userMessage);
      messages := lastTurn.agentMessages;
      if lastTurn.result.Some? {
        result := lastTurn.result;
      } else if lastTurn.reply.Some? && lastTurn.reply.value != "" {
        reply := lastTurn.reply;
      }
      completedTurns := Completed(prevTurns);
      var offset := 0;
      for i := 0 to |prevTurns|
        invariant offset == Count(prevTurns[..i])
      {
        assert prevTurns[..i + 1][..i] == prevTurns[..i];
        offset := offset + |prevTurns[i].agentMessages|;
      }
      assert prevTurns[..|prevTurns|] == prevTurns;
      agentMessageOffset := offset;
    }

    method HandleSearch(message: string)
      modifies this
      ensures Value() == Search(message)
    {
      agentMessageOffset := 0;
      result, reply, messages := None, None, [];
      userMessage := Some(message);
      completedTurns := [];
    }

    method HandleContinue(message: string)
      modifies this
      ensures Value() == Continue(old(Value()), message)
    {
      if userMessage.Some? && userMessage.value != "" {
        completedTurns := completedTurns + [CompletedTurn(userMessage.value, ThinkingOf(messages), result, reply)];
      }
      agentMessageOffset := agentMessageOffset + |messages|;
      result, reply, messages := None, None, [];
      userMessage := Some(message);
    }

    method HandleUpdate(chat: Chat)
      modifies this
      ensures Value() == Update(old(Value()), chat)
    {
      var allAgent := AgentOf(chat.messages);
      messages := if agentMessageOffset <= |allAgent| then allAgent[agentMessageOffset..] else [];
      if chat.agentStatus.HasReplied? {
        var i := |chat.messages|;
        assert chat.messages[..i] == chat.messages;
        while i > 0
          invariant 0 <= i <= |chat.messages|
          invariant LastReplied(chat.messages) == LastReplied(chat.messages[..i])
          invariant result == old(result) && reply == old(reply)
        {
          var m := chat.messages[i - 1];
          assert chat.messages[..i][..i - 1] == chat.messages[..i - 1];
          if m.agentStatus == Some(HasReplied) {
            if m.content.Text? {
              reply := Some(m.content.text);
            } else {
              result := Some(m.content);
            }
            return;
          }
          i := i - 1;
        }
      }
    }
  }

  // ----- the offset is right -----

  /** Between turns: what was shown so far is all the agent messages there are. */
  ghost predicate Synced(v: View, log: seq<Message>) {
    Scan(log) == Closed && v.offset + |v.messages| == |AgentOf(log)|
  }

  /** Loading a closed log shows its last turn and leaves the view ready to continue. */
  lemma LoadSyncs(v: View, log: seq<Message>)
    requires Scan(log) == Closed
    ensures Synced(Load(v, log), log)
    ensures log != [] ==>
              var turns := Split(log).turns;
              turns != [] && Load(v, log).messages == turns[|turns| - 1].agentMessages
  {
    var turns := Split(log).turns;
    SplitJoins(log);
    ShownAreAgents(log);
    CountIsAgents(turns);
  }

  /** `later` is `log`, a user message and then agent messages only, apart from `node` in what was there before. */
  ghost predicate NextTurn(log: seq<Message>, later: seq<Message>) {
    && |later| > |log|
    && EraseAll(later[..|log|]) == EraseAll(log)
    && later[|log|].actor.User?
    && AllAgent(later[|log| + 1..])
  }

  lemma NextTurnAgents(log: seq<Message>, later: seq<Message>)
    requires NextTurn(log, later)
    ensures |AgentOf(later)| == |AgentOf(log)| + |later| - |log| - 1
    ensures AgentOf(later)[|AgentOf(log)|..] == later[|log| + 1..]
  {
    var n := |log|;
    var before, user, rest := later[..n], [later[n]], later[n + 1..];
    assert later == before + user + rest;
    AgentOfConcat(before, user);
    AgentOfConcat(before + user, rest);
    AgentOfAgents(rest);
    AgentOfErased(before);
    AgentOfErased(log);
    assert |AgentOf(before)| == |AgentOf(log)|;
  }

  /**
   After a continue, an update shows exactly the new turn's messages; once the
   turn is closed the view is ready for the next continue.
   */
  lemma UpdateShowsNewTurn(v: View, log: seq<Message>, message: string, chat: Chat)
    requires Synced(v, log) && NextTurn(log, chat.messages)
    ensures var shown := Update(Continue(v, message), chat);
            && shown.messages == chat.messages[|log| + 1..]
            && (Scan(chat.messages) == Closed ==> Synced(shown, chat.messages))
  {
    NextTurnAgents(log, chat.messages);
  }

  /** What a reply is shown as: a plan or the created items as a result, a text as a reply. */
  ghost predicate ShowsReply(result: Option<Content>, reply: Option<string>, last: Content) {
    && result == (if last.Text? then None else Some(last))
    && reply == (if last.Text? then Some(last.text) else None)
  }

  lemma LastIsLatest(log: seq<Message>)
    requires Scan(log) == Closed && log != []
    ensures LastReplied(log) == Some(log[|log| - 1].content)
  {
  }

  /** After a continue, the update that ends the turn shows the log's last message as its reply, and no earlier one. */
  lemma UpdateShowsReply(v: View, message: string, chat: Chat)
    requires Scan(chat.messages) == Closed && chat.messages != [] && chat.agentStatus == HasReplied
    ensures var shown := Update(Continue(v, message), chat);
            ShowsReply(shown.result, shown.reply, chat.messages[|chat.messages| - 1].content)
  {
    LastIsLatest(chat.messages);
  }

  /** Until then no reply is shown, whatever replies the log holds from earlier turns. */
  lemma UpdateShowsNoReplyYet(v: View, message: string, chat: Chat)
    requires chat.agentStatus == IsThinking
    ensures var shown := Update(Continue(v, message), chat); shown.result == None && shown.reply == None
  {
  }

  /** Everything that an update during a live turn shows. */
  ghost predicate ShowsTurn(shown: View, log: seq<Message>, chat: Chat) {
    && shown.messages == Slice(chat.messages, |log| + 1)
    && (chat.agentStatus.IsThinking? ==> shown.result == None && shown.reply == None)
    && (chat.agentStatus.HasReplied? ==>
          && Synced(shown, chat.messages) && chat.messages != []
          && ShowsReply(shown.result, shown.reply, chat.messages[|chat.messages| - 1].content))
  }

  lemma LiveUpdate(v: View, log: seq<Message>, message: string, chat: Chat)
    requires Synced(v, log) && NextTurn(log, chat.messages)
    requires chat.agentStatus.HasReplied? ==> Scan(chat.messages) == Closed
    ensures ShowsTurn(Update(Continue(v, message), chat), log, chat)
  {
    hide Scan, Update, Continue;
    UpdateShowsNewTurn(v, log, message, chat);
    if chat.agentStatus.HasReplied? {
      UpdateShowsReply(v, message, chat);
    } else {
      UpdateShowsNoReplyYet(v, message, chat);
    }
  }

  lemma ShownMessages(v: View, message: string, chat: Chat)
    ensures Update(Continue(v, message), chat).messages == Slice(AgentOf(chat.messages), v.offset + |v.messages|)
  {
  }

  lemma SliceIsTail(agents: seq<Message>, from: nat, n: nat)
    requires n < |agents|
    ensures Slice(agents, from) == agents[n..] <==> from == n
  {
    if from != n {
      assert |Slice(agents, from)| != |agents[n..]|;
    }
  }

  /** The offset is right for a turn that has messages if and only if the view was in step with the log. */
  lemma ExactIfAndOnlyIfSynced(v: View, log: seq<Message>, message: string, chat: Chat)
    requires Scan(log) == Closed && NextTurn(log, chat.messages) && |chat.messages| > |log| + 1
    ensures Update(Continue(v, message), chat).messages == chat.messages[|log| + 1..] <==> Synced(v, log)
  {
    NextTurnAgents(log, chat.messages);
    ShownMessages(v, message, chat);
    var agents := AgentOf(chat.messages);
    SliceIsTail(agents, v.offset + |v.messages|, |AgentOf(log)|);
  }

  /** A live session: each round sends a message and ends with the chat of its closed turn. */
  datatype Round = Round(message: string, chat: Chat)

  function LogAfter(log: seq<Message>, rounds: seq<Round>): seq<Message> {
    if rounds == [] then log else rounds[|rounds| - 1].chat.messages
  }

  ghost predicate Session(log: seq<Message>, rounds: seq<Round>) {
    rounds == []
    || (var n := |rounds| - 1;
        && Session(log, rounds[..n])
        && NextTurn(LogAfter(log, rounds[..n]), rounds[n].chat.messages)
        && Scan(rounds[n].chat.messages) == Closed)
  }

  function ViewAfter(v: View, rounds: seq<Round>): View {
    if rounds == [] then v
    else
      var n := |rounds| - 1;
      Update(Continue(ViewAfter(v, rounds[..n]), rounds[n].message), rounds[n].chat)
  }

  /** After a load and any number of live rounds, each round showed exactly its own turn. */
  lemma {:induction false} SessionShowsEachTurn(v: View, log: seq<Message>, rounds: seq<Round>)
    requires Scan(log) == Closed && Session(log, rounds)
    ensures var view := ViewAfter(Load(v, log), rounds);
            && Synced(view, LogAfter(log, rounds))
            && (rounds != [] ==>
                  var n := |rounds| - 1;
                  var before := LogAfter(log, rounds[..n]);
                  view.messages == rounds[n].chat.messages[|before| + 1..])
  {
    if rounds == [] {
      LoadSyncs(v, log);
    } else {
      var n := |rounds| - 1;
      SessionShowsEachTurn(v, log, rounds[..n]);
      UpdateShowsNewTurn(ViewAfter(Load(v, log), rounds[..n]), LogAfter(log, rounds[..n]),
                         rounds[n].message, rounds[n].chat);
    }
  }
}
