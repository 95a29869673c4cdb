/** What the browser shows of a conversation, turn by turn, compared with the turns of its log. */
module ViewContent {
  import opened Wrappers
  import opened Contracts
  import opened TurnLog
  import opened ChatView

  // ----- cutting gives back the turns -----

  /** A shown turn is the turn of the log. */
  ghost predicate IsShown(shown: ShownTurn, t: Turn) {
    && t.user.content.Text? && shown.userMessage == t.user.content.text
    && shown.agentMessages == t.thinking + [t.reply]
    && ShowsReply(shown.result, shown.reply, t.reply.content)
  }

  lemma {:induction false} SplitThinking(log: seq<Message>, more: seq<Message>)
    requires forall i | 0 <= i < |more| :: IsThinkingMessage(more[i])
    ensures Split(log + more) == Split(log).(pending := Split(log).pending + more)
  {
    hide Split;
    if more == [] {
      assert log + more == log;
    } else {
      var n := |more| - 1;
      SplitThinking(log, more[..n]);
      assert log + more == (log + more[..n]) + [more[n]];
      SplitAppend(log + more[..n], more[n]);
    }
  }

  lemma {:induction false} SplitTurn(log: seq<Message>, t: Turn)
    requires IsTurn(t)
    ensures var before, after := Split(log), Split(log + Flat(t));
            && |after.turns| == |before.turns| + 1
            && after.turns == before.turns + [after.turns[|before.turns|]]
            && IsShown(after.turns[|before.turns|], t)
            && after.pending == []
  {
    hide Split;
    var sent := log + [t.user];
    SplitAppend(log, t.user);
    SplitThinking(sent, t.thinking);
    SplitAppend(sent + t.thinking, t.reply);
    assert log + Flat(t) == sent + t.thinking + [t.reply];
  }

  lemma {:induction false} NothingSplits()
    ensures Split(Flatten([])).turns == []
  {
  }

  /** Cutting a closed log gives exactly its turns, each with its user message, its agent messages and its reply. */
  lemma {:induction false} SplitShowsTurns(ts: seq<Turn>)
    requires AreTurns(ts)
    ensures |Split(Flatten(ts)).turns| == |ts|
    ensures forall i | 0 <= i < |ts| :: IsShown(Split(Flatten(ts)).turns[i], ts[i])
  {
    hide Split, IsShown, Flat;
    if ts == [] {
      NothingSplits();
    } else {
      var n := |ts| - 1;
      SplitShowsTurns(ts[..n]);
      SplitTurn(Flatten(ts[..n]), ts[n]);
      var before, after := Split(Flatten(ts[..n])).turns, Split(Flatten(ts)).turns;
      forall i | 0 <= i < |ts| ensures IsShown(after[i], ts[i]) {
        if i < n {
          assert after[i] == before[i] && ts[..n][i] == ts[i];
        }
      }
    }
  }

  // ----- the whole view -----

  /** An empty text may be shown as nothing. */
  ghost predicate TellsReply(result: Option<Content>, reply: Option<string>, last: Content) {
    ShowsReply(result, if last == Text("") then Some("") else reply, last)
  }

  /** A completed turn is the turn of the log, apart from `node`. */
  ghost predicate IsDone(c: CompletedTurn, t: Turn) {
    && t.user.content.Text? && c.userMessage == t.user.content.text
    && EraseAll(c.thinkingMessages) == EraseAll(t.thinking)
    && TellsReply(c.result, c.reply, t.reply.content)
  }

  ghost predicate AreDone(completed: seq<CompletedTurn>, ts: seq<Turn>) {
    |completed| == |ts| && forall i | 0 <= i < |ts| :: IsDone(completed[i], ts[i])
  }

  /** The view shows the last turn, and all others as completed. */
  ghost predicate Shows(v: View, ts: seq<Turn>) {
    && ts != []
    && var n := |ts| - 1;
       && ts[n].user.content.Text? && v.userMessage == Some(ts[n].user.content.text)
       && v.messages == ts[n].thinking + [ts[n].reply]
       && TellsReply(v.result, v.reply, ts[n].reply.content)
       && AreDone(v.completed, ts[..n])
  }

  lemma {:induction false} ThinkingOfTurn(thinking: seq<Message>, reply: Message)
    requires forall i | 0 <= i < |thinking| :: IsThinkingMessage(thinking[i])
    requires IsReplyMessage(reply)
    ensures ThinkingOf(thinking + [reply]) == thinking
  {
    var messages := thinking + [reply];
    if thinking == [] {
      assert messages[1..] == [] && ThinkingOf([]) == [];
    } else {
      ThinkingOfTurn(thinking[1..], reply);
      assert messages[1..] == thinking[1..] + [reply];
    }
  }

  lemma {:induction false} ShownIsDone(shown: ShownTurn, t: Turn)
    requires IsShown(shown, t) && IsTurn(t)
    ensures IsDone(CompletedTurn(shown.userMessage, ThinkingOf(shown.agentMessages), shown.result, shown.reply), t)
  {
    ThinkingOfTurn(t.thinking, t.reply);
  }

  /** A loaded conversation shows all turns of its log. */
  lemma {:induction false} LoadShowsLog(v: View, ts: seq<Turn>)
    requires AreTurns(ts) && ts != []
    ensures Shows(Load(v, Flatten(ts)), ts)
  {
    SplitShowsTurns(ts);
    hide Split;
    var turns, n := Split(Flatten(ts)).turns, |ts| - 1;
    forall i | 0 <= i < n ensures IsDone(Completed(turns[..n])[i], ts[..n][i]) {
      ShownIsDone(turns[i], ts[i]);
    }
    assert IsShown(turns[n], ts[n]);
  }

  /** A continue adds the shown turn to the completed ones, if and only if its user message is not empty. */
  lemma {:induction false} ContinueCompletes(v: View, ts: seq<Turn>, message: string)
    requires Shows(v, ts) && AreTurns(ts)
    ensures var n := |ts| - 1;
            var sent := Continue(v, message);
            && AreDone(sent.completed, if ts[n].user.content.text == "" then ts[..n] else ts)
            && sent.userMessage == Some(message) && sent.messages == [] && sent.result == None && sent.reply == None
  {
    var n := |ts| - 1;
    ThinkingOfTurn(ts[n].thinking, ts[n].reply);
    var done := CompletedTurn(ts[n].user.content.text, ts[n].thinking, v.result, v.reply);
    assert IsDone(done, ts[n]);
    if ts[n].user.content.text != "" {
      forall i | 0 <= i < |ts| ensures IsDone((v.completed + [done])[i], ts[i]) {
        if i < n {
          assert IsDone(v.completed[i], ts[..n][i]);
        }
      }
    }
  }

  /** The same turns, apart from `node`. */
  ghost predicate SameTurns(ts: seq<Turn>, us: seq<Turn>) {
    |ts| == |us| && forall i | 0 <= i < |ts| ::
      Erase(ts[i].user) == Erase(us[i].user) && EraseAll(ts[i].thinking) == EraseAll(us[i].thinking)
      && Erase(ts[i].reply) == Erase(us[i].reply)
  }

  lemma {:induction false} DoneAlike(completed: seq<CompletedTurn>, ts: seq<Turn>, us: seq<Turn>)
    requires AreDone(completed, ts) && SameTurns(ts, us)
    ensures AreDone(completed, us)
  {
    forall i | 0 <= i < |us| ensures IsDone(completed[i], us[i]) {
      assert IsDone(completed[i], ts[i]);
      assert Erase(ts[i].user).content == Erase(us[i].user).content;
      assert Erase(ts[i].reply).content == Erase(us[i].reply).content;
    }
  }

  lemma {:induction false} FlattenAppend(ts: seq<Turn>, t: Turn)
    ensures Flatten(ts + [t]) == Flatten(ts) + Flat(t)
  {
    assert (ts + [t])[..|ts|] == ts;
  }

  lemma {:induction false} FlattenAlike(ts: seq<Turn>, us: seq<Turn>)
    requires SameTurns(ts, us)
    ensures EraseAll(Flatten(ts)) == EraseAll(Flatten(us))
  {
    if ts != [] {
      var n := |ts| - 1;
      FlattenAlike(ts[..n], us[..n]);
      hide EraseAll;
      FlattenErased(ts);
      FlattenErased(us);
    }
  }

  lemma {:induction false} FlattenErased(ts: seq<Turn>)
    requires ts != []
    ensures var n := |ts| - 1;
            EraseAll(Flatten(ts)) ==
            EraseAll(Flatten(ts[..n])) + [Erase(ts[n].user)] + EraseAll(ts[n].thinking) + [Erase(ts[n].reply)]
  {
    var n := |ts| - 1;
    var before := Flatten(ts[..n]);
    assert Flatten(ts) == before + [ts[n].user] + ts[n].thinking + [ts[n].reply];
    ErasedConcat(before, [ts[n].user]);
    ErasedConcat(before + [ts[n].user], ts[n].thinking);
    ErasedConcat(before + [ts[n].user] + ts[n].thinking, [ts[n].reply]);
    assert EraseAll([ts[n].user]) == [Erase(ts[n].user)] && EraseAll([ts[n].reply]) == [Erase(ts[n].reply)];
  }

  lemma {:induction false} ErasedConcat(a: seq<Message>, b: seq<Message>)
    ensures EraseAll(a + b) == EraseAll(a) + EraseAll(b)
  {
  }

  /** A log and one turn more. */
  lemma {:induction false} TurnMore(log: seq<Message>, t: Turn)
    requires IsTurn(t)
    ensures var later := log + Flat(t);
            && |later| == |log| + |t.thinking| + 2 && later[..|log|] == log && later[|log|] == t.user
            && later[|log| + 1..] == t.thinking + [t.reply] && later[|later| - 1] == t.reply
            && AllAgent(later[|log| + 1..])
  {
    var later := log + Flat(t);
    assert Flat(t)[0] == t.user && Flat(t)[1..] == t.thinking + [t.reply];
    assert later[|log| + 1..] == Flat(t)[1..];
  }

  lemma {:induction false} NextTurnOf(ts: seq<Turn>, us: seq<Turn>, t: Turn)
    requires AreTurns(us + [t]) && SameTurns(ts, us)
    ensures NextTurn(Flatten(ts), Flatten(us + [t]))
    ensures Flatten(us + [t])[|Flatten(ts)| + 1..] == t.thinking + [t.reply]
    ensures Flatten(us + [t])[|Flatten(us + [t])| - 1] == t.reply
  {
    hide Flatten, Flat, EraseAll, AllAgent;
    FlattenAppend(us, t);
    FlattenAlike(ts, us);
    assert (us + [t])[|us|] == t;
    TurnMore(Flatten(us), t);
    ErasedLength(Flatten(ts));
    ErasedLength(Flatten(us));
  }

  lemma {:induction false} ErasedLength(log: seq<Message>)
    ensures |EraseAll(log)| == |log|
  {
  }

  /**
   A view that shows all turns, and counted their messages, shows them again with the
   next turn after a continue and the update that ends it; the turn before, unless its
   user message was empty, is then among the completed ones.
   */
  lemma {:induction false} UpdateShowsLog(v: View, ts: seq<Turn>, message: string, us: seq<Turn>, t: Turn, chat: Chat)
    requires AreTurns(ts) && Shows(v, ts) && Synced(v, Flatten(ts)) && ts[|ts| - 1].user.content.text != ""
    requires AreTurns(us + [t]) && SameTurns(ts, us) && t.user == UserMessage(message)
    requires chat.messages == Flatten(us + [t]) && chat.agentStatus == HasReplied
    ensures var shown := Update(Continue(v, message), chat);
            Shows(shown, us + [t]) && Synced(shown, chat.messages)
  {
    hide Flatten, AreDone, Scan, Shows;
    NextTurnOf(ts, us, t);
    TurnsScan(us + [t]);
    UpdateShowsNewTurn(v, Flatten(ts), message, chat);
    UpdateShowsReply(v, message, chat);
    ContinueCompletes(v, ts, message);
    DoneAlike(Continue(v, message).completed, ts, us);
    var shown := Update(Continue(v, message), chat);
    assert shown.completed == Continue(v, message).completed && shown.userMessage == Some(message);
    IsShownLog(shown, us, t);
  }

  lemma {:induction false} IsShownLog(v: View, us: seq<Turn>, t: Turn)
    requires AreDone(v.completed, us) && t.user.content.Text? && v.userMessage == Some(t.user.content.text)
    requires v.messages == t.thinking + [t.reply] && ShowsReply(v.result, v.reply, t.reply.content)
    ensures Shows(v, us + [t])
  {
    assert (us + [t])[..|us|] == us && (us + [t])[|us|] == t;
  }

  /** The first turn of a new chat is shown in the same way. */
  lemma {:induction false} FirstUpdateShowsLog(message: string, t: Turn, chat: Chat)
    requires IsTurn(t) && t.user == UserMessage(message)
    requires chat.messages == Flat(t) && chat.agentStatus == HasReplied
    ensures var shown := Update(Search(message), chat);
            Shows(shown, [t]) && Synced(shown, chat.messages)
  {
    hide Scan, Shows, Flatten, Update, AgentOf, Synced;
    OneTurn(t);
    EmptyIsSynced();
    NextTurnOf([], [], t);
    assert [] + [t] == [t];
    TurnsScan([t]);
    UpdateShowsNewTurn(NOTHING_SHOWN, [], message, chat);
    UpdateShowsReply(NOTHING_SHOWN, message, chat);
    SearchIsContinue(message, chat);
    IsShownLog(Update(Search(message), chat), [], t);
  }

  const NOTHING_SHOWN := View(0, [], [], None, None, None)

  lemma {:induction false} OneTurn(t: Turn)
    ensures Flatten([t]) == Flat(t) && Flatten([]) == []
  {
    FlattenAppend([], t);
    assert [] + [t] == [t] && Flatten([]) + Flat(t) == Flat(t);
  }

  lemma {:induction false} EmptyIsSynced()
    ensures Synced(NOTHING_SHOWN, [])
  {
  }

  lemma {:induction false} SearchIsContinue(message: string, chat: Chat)
    ensures Continue(NOTHING_SHOWN, message) == Search(message)
    ensures Update(Search(message), chat).completed == [] && Update(Search(message), chat).userMessage == Some(message)
  {
  }
}
