/**
 The shape of a conversation log: closed turns `User thinking* reply`, then at
 most one open turn that has no reply yet.
 */
module TurnLog {
  import opened Wrappers
  import opened Contracts

  predicate IsUserMessage(m: Message) {
    m.actor.User? && m.content.Text? && m.agentStatus.None? && m.node.None?
  }

  predicate IsThinkingMessage(m: Message) {
    m.actor.Agent? && m.agentStatus == Some(IsThinking)
  }

  predicate IsReplyMessage(m: Message) {
    m.actor.Agent? && m.agentStatus == Some(HasReplied)
  }

  datatype Turn = Turn(user: Message, thinking: seq<Message>, reply: Message)

  ghost predicate IsTurn(t: Turn) {
    && IsUserMessage(t.user)
    && (forall i | 0 <= i < |t.thinking| :: IsThinkingMessage(t.thinking[i]))
    && IsReplyMessage(t.reply)
  }

  ghost predicate AreTurns(turns: seq<Turn>) {
    forall i | 0 <= i < |turns| :: IsTurn(turns[i])
  }

  /** Nothing, or a user message and the thinking messages that followed it so far. */
  ghost predicate IsOpenTurn(tail: seq<Message>) {
    tail == []
    || (IsUserMessage(tail[0]) && forall i | 1 <= i < |tail| :: IsThinkingMessage(tail[i]))
  }

  function Flat(t: Turn): seq<Message> {
    [t.user] + t.thinking + [t.reply]
  }

  function Flatten(turns: seq<Turn>): seq<Message> {
    if turns == [] then [] else Flatten(turns[..|turns| - 1]) + Flat(turns[|turns| - 1])
  }

  /** The grammar that the log of a conversation is meant to follow. */
  ghost predicate IsLog(log: seq<Message>, turns: seq<Turn>, tail: seq<Message>) {
    AreTurns(turns) && IsOpenTurn(tail) && log == Flatten(turns) + tail
  }

  // ----- the same grammar, read one message at a time -----

  datatype Phase = Closed | Open | Broken

  function Advance(p: Phase, m: Message): Phase {
    match p
    case Closed => if IsUserMessage(m) then Open else Broken
    case Open => if IsThinkingMessage(m) then Open else if IsReplyMessage(m) then Closed else Broken
    case Broken => Broken
  }

  function Scan(log: seq<Message>): Phase {
    if log == [] then Closed else Advance(Scan(log[..|log| - 1]), log[|log| - 1])
  }

  lemma ScanAppend(log: seq<Message>, m: Message)
    ensures Scan(log + [m]) == Advance(Scan(log), m)
  {
    assert (log + [m])[..|log|] == log;
  }

  lemma {:induction false} ScanThinking(log: seq<Message>, more: seq<Message>)
    requires Scan(log) == Open
    requires forall i | 0 <= i < |more| :: IsThinkingMessage(more[i])
    ensures Scan(log + more) == Open
  {
    if more == [] {
      assert log + more == log;
    } else {
      var n := |more| - 1;
      ScanThinking(log, more[..n]);
      assert log + more == (log + more[..n]) + [more[n]];
      ScanAppend(log + more[..n], more[n]);
    }
  }

  /** Erasing `node` does not change which turns there are. */
  lemma {:induction false} ScanErased(log: seq<Message>)
    ensures Scan(log) != Broken ==> Scan(EraseAll(log)) == Scan(log)
  {
    if log != [] {
      var n := |log| - 1;
      ScanErased(log[..n]);
      assert EraseAll(log) == EraseAll(log[..n]) + [Erase(log[n])];
      ScanAppend(EraseAll(log[..n]), Erase(log[n]));
    }
  }

  /** Every log that scans has a decomposition into turns, found from the left. */
  lemma {:induction false} ScanGivesTurns(log: seq<Message>) returns (turns: seq<Turn>, tail: seq<Message>)
    requires Scan(log) != Broken
    ensures IsLog(log, turns, tail)
    ensures tail == [] <==> Scan(log) == Closed
  {
    hide Scan, Flatten;
    if log == [] {
      NothingScans();
      turns, tail := [], [];
      return;
    }
    var n := |log| - 1;
    var front, last := log[..n], log[n];
    assert log == front + [last];
    ScanAppend(front, last);
    turns, tail := ScanGivesTurns(front);
    if Scan(log) == Open {
      TailGrows(turns, tail, last);
      tail := tail + [last];
    } else {
      TurnCloses(turns, tail, last);
      turns, tail := turns + [Turn(tail[0], tail[1..], last)], [];
      assert Flatten(turns) + [] == Flatten(turns);
    }
  }

  lemma NothingScans()
    ensures Scan([]) == Closed && Flatten([]) == []
  {
  }

  lemma TailGrows(turns: seq<Turn>, tail: seq<Message>, m: Message)
    requires IsOpenTurn(tail) && if tail == [] then IsUserMessage(m) else IsThinkingMessage(m)
    ensures IsOpenTurn(tail + [m]) && Flatten(turns) + tail + [m] == Flatten(turns) + (tail + [m])
  {
    assert (tail + [m])[|tail|] == m;
  }

  /** A reply makes a turn of the open tail. */
  lemma TurnCloses(turns: seq<Turn>, tail: seq<Message>, reply: Message)
    requires AreTurns(turns) && IsOpenTurn(tail) && tail != [] && IsReplyMessage(reply)
    ensures var longer := turns + [Turn(tail[0], tail[1..], reply)];
            AreTurns(longer) && Flatten(longer) == Flatten(turns) + tail + [reply]
  {
    var t := Turn(tail[0], tail[1..], reply);
    var longer := turns + [t];
    assert longer[..|turns|] == turns && longer[|turns|] == t;
    assert tail == [tail[0]] + tail[1..];
    assert Flat(t) == tail + [reply];
  }

  lemma {:induction false} TurnsScan(turns: seq<Turn>)
    requires AreTurns(turns)
    ensures Scan(Flatten(turns)) == Closed
  {
    hide Scan;
    NothingScans();
    if turns != [] {
      var n := |turns| - 1;
      var t, before := turns[n], Flatten(turns[..n]);
      TurnsScan(turns[..n]);
      ScanAppend(before, t.user);
      ScanThinking(before + [t.user], t.thinking);
      ScanAppend(before + [t.user] + t.thinking, t.reply);
      assert before + Flat(t) == before + [t.user] + t.thinking + [t.reply];
    }
  }

  /** Reading message by message accepts exactly the logs of the grammar. */
  lemma ScanIsGrammar(log: seq<Message>)
    ensures Scan(log) == Closed <==> exists turns :: IsLog(log, turns, [])
    ensures Scan(log) == Open <==> exists turns, tail :: IsLog(log, turns, tail) && tail != []
  {
    hide Scan, Flatten;
    if Scan(log) != Broken {
      var turns, tail := ScanGivesTurns(log);
      assert IsLog(log, turns, tail);
    }
    forall turns, tail | IsLog(log, turns, tail)
      ensures Scan(log) == if tail == [] then Closed else Open
    {
      TurnsScan(turns);
      if tail == [] {
        assert log == Flatten(turns);
      } else {
        ScanAppend(Flatten(turns), tail[0]);
        ScanThinking(Flatten(turns) + [tail[0]], tail[1..]);
        assert log == Flatten(turns) + [tail[0]] + tail[1..];
      }
    }
  }

  /** In a closed log the last message is the reply that closed the last turn. */
  lemma ClosedEndsInReply(log: seq<Message>)
    requires Scan(log) == Closed && log != []
    ensures IsReplyMessage(log[|log| - 1])
  {
  }
}
