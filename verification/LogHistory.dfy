/** Where the closed part of a log comes from: the runs that made it since the ticket-agent's last save. */
module LogHistory {
  import opened Contracts
  import opened TurnLog
  import opened ArchitectGraph
  import opened ArchitectLog

  /** A log up to its last closed turn. */
  function ClosedPart(log: seq<Message>): seq<Message> {
    if log == [] || Scan(log) == Closed then log else ClosedPart(log[..|log| - 1])
  }

  lemma {:induction false} ClosedPartClosed(log: seq<Message>)
    requires Scan(log) == Closed
    ensures ClosedPart(log) == log
  {
  }

  lemma {:induction false} ClosedPartStays(log: seq<Message>, more: seq<Message>)
    requires Scan(log) == Open && forall i | 0 <= i < |more| :: IsThinkingMessage(more[i])
    ensures ClosedPart(log + more) == ClosedPart(log)
  {
    if more == [] {
      assert log + more == log;
    } else {
      var n := |more| - 1;
      ClosedPartStays(log, more[..n]);
      ScanThinking(log, more);
      assert (log + more)[..|log + more| - 1] == log + more[..n];
    }
  }

  /** The closed part of the log of an open turn is what was there before its user message. */
  lemma {:induction false} OpenTurnPart(log: seq<Message>, message: string, thinking: seq<Message>)
    requires Scan(log + [UserMessage(message)] + thinking) == Open
    requires forall i | 0 <= i < |thinking| :: IsThinkingMessage(thinking[i])
    ensures Scan(log) == Closed && ClosedPart(log + [UserMessage(message)] + thinking) == log
    decreases |thinking|
  {
    var sent := log + [UserMessage(message)];
    if thinking == [] {
      assert sent + thinking == sent;
      ScanAppend(log, UserMessage(message));
      assert sent[..|sent| - 1] == log;
    } else {
      var n := |thinking| - 1;
      assert (sent + thinking)[..|sent + thinking| - 1] == sent + thinking[..n];
      assert sent + thinking == sent + thinking[..n] + [thinking[n]];
      ScanAppend(sent + thinking[..n], thinking[n]);
      OpenTurnPart(log, message, thinking[..n]);
    }
  }

  /** From `erased` on the closed log is a chain of turns that runs of this conversation made. */
  ghost predicate Written(id: Id, log: seq<Message>, erased: nat) {
    erased <= |log| && exists turns :: Makes(id, log, erased, turns)
  }

  ghost predicate Makes(id: Id, log: seq<Message>, erased: nat, turns: seq<ClosedTurn>)
    requires erased <= |log|
  {
    && Chain(log[..erased], turns)
    && LogBefore(log[..erased], turns, |turns|) == log
    && forall i | 0 <= i < |turns| :: turns[i].request.conversationId == id
  }

  /** `log` is the history of a request and the turn that its run made. */
  ghost predicate WritesTurn(request: ChatRequest, visits: seq<Visit>, log: seq<Message>) {
    exists recorded: nat, error ::
      var turn := ClosedTurn(request, visits, recorded, error);
      turn.Valid() && log == request.history + turn.Messages()
  }

  lemma {:induction false} WrittenByNobody(id: Id, log: seq<Message>)
    ensures Written(id, log, |log|)
  {
    assert log[..|log|] == log;
    assert Chain(log[..|log|], []);
    assert Makes(id, log, |log|, []);
  }

  lemma {:induction false} ChainGrows(history: seq<Message>, turns: seq<ClosedTurn>, turn: ClosedTurn)
    requires Chain(history, turns) && turn.Valid() && turn.request.history == LogBefore(history, turns, |turns|)
    ensures Chain(history, turns + [turn])
    ensures LogBefore(history, turns + [turn], |turns| + 1) == turn.request.history + turn.Messages()
  {
    hide ClosedTurn.Valid, Conclusion, Ends, Path, LogBefore;
    assert (turns + [turn])[|turns|] == turn;
    LastLog(history, turns + [turn]);
    var longer := turns + [turn];
    forall i | 0 <= i < |longer| ensures longer[i].Valid() && Follows(history, longer, i) {
      assert i < |turns| ==> Follows(history, turns, i);
      PrefixLogs(history, turns, turn, i);
    }
  }

  lemma {:induction false} LastLog(history: seq<Message>, turns: seq<ClosedTurn>)
    requires turns != [] && turns[|turns| - 1].Valid()
    ensures LogBefore(history, turns, |turns|) ==
            turns[|turns| - 1].request.history + turns[|turns| - 1].Messages()
  {
    hide ClosedTurn.Valid, Conclusion, Ends, Path;
  }

  lemma {:induction false} PrefixLogs(history: seq<Message>, turns: seq<ClosedTurn>, turn: ClosedTurn, i: nat)
    requires i <= |turns| && (i > 0 ==> turns[i - 1].Valid())
    ensures LogBefore(history, turns + [turn], i) == LogBefore(history, turns, i)
  {
    hide ClosedTurn.Valid, Conclusion, Ends, Path;
    assert i > 0 ==> (turns + [turn])[i - 1] == turns[i - 1];
  }

  lemma {:induction false} WrittenGrows(request: ChatRequest, visits: seq<Visit>, log: seq<Message>, erased: nat)
    requires Written(request.conversationId, request.history, erased) && WritesTurn(request, visits, log)
    ensures Written(request.conversationId, log, erased)
  {
    hide Chain, LogBefore, Conclusion, Ends, Path;
    var id, history := request.conversationId, request.history;
    var turns :| Makes(id, history, erased, turns);
    var recorded: nat, error :|
      var turn := ClosedTurn(request, visits, recorded, error);
      turn.Valid() && log == history + turn.Messages();
    var turn := ClosedTurn(request, visits, recorded, error);
    assert log[..erased] == history[..erased];
    ChainGrows(history[..erased], turns, turn);
    assert Makes(id, log, erased, turns + [turn]);
  }
}
