/** What the turns in a reachable log tell of the runs that made them. */
module HandOffTurns {
  import opened Wrappers
  import opened Contracts
  import opened TurnLog
  import opened BackendChat
  import opened ArchitectGraph
  import opened ArchitectLog
  import opened LogHistory
  import opened HandOff
  import opened TurnHolder
  import opened HandOffSafety
  import opened HandOffTheorems

  // ----- replies and the turns they close -----

  lemma {:induction false} ClosedPartIsPrefix(log: seq<Message>)
    ensures ClosedPart(log) <= log && Scan(ClosedPart(log)) == Closed
  {
    if log != [] && Scan(log) != Closed {
      ClosedPartIsPrefix(log[..|log| - 1]);
    }
  }

  /** There is no reply after the closed part. */
  lemma {:induction false} ReplyIsInClosedPart(log: seq<Message>, k: nat)
    requires Scan(log) != Broken && k < |log| && IsReplyMessage(log[k])
    ensures k < |ClosedPart(log)|
  {
    if Scan(log) == Open {
      ReplyIsInClosedPart(log[..|log| - 1], k);
    }
  }

  /** A reply in a chain of turns is the last message of one of them. */
  lemma {:induction false} ReplyClosesTurn(history: seq<Message>, turns: seq<ClosedTurn>, n: nat, k: nat)
    returns (i: nat)
    requires Chain(history, turns) && n <= |turns| && |history| <= k < |LogBefore(history, turns, n)|
    requires IsReplyMessage(LogBefore(history, turns, n)[k])
    ensures i < n && turns[i].Valid() && |history| <= |turns[i].request.history|
    ensures k + 1 == |turns[i].request.history| + |turns[i].Messages()|
    ensures turns[i].request.history + turns[i].Messages() <= LogBefore(history, turns, n)
  {
    hide ClosedTurn.Valid, Chain, Conclusion, Ends;
    ChainAt(history, turns, n);
    if n > 0 {
      ChainIsLonger(history, turns, n - 1);
      var before, turn := LogBefore(history, turns, n - 1), turns[n - 1];
      if k < |before| {
        i := ReplyClosesTurn(history, turns, n - 1, k);
      } else {
        i := n - 1;
        LastIsReply(turn, k - |before|);
      }
    }
  }

  lemma {:induction false} ChainIsLonger(history: seq<Message>, turns: seq<ClosedTurn>, n: nat)
    requires Chain(history, turns) && n <= |turns|
    ensures n > 0 ==> turns[n - 1].Valid()
    ensures |history| <= |LogBefore(history, turns, n)|
  {
    hide ClosedTurn.Valid, Chain, Conclusion, Ends;
    ChainAt(history, turns, n);
    if n > 0 {
      ChainIsLonger(history, turns, n - 1);
    }
  }

  lemma {:induction false} LastIsReply(turn: ClosedTurn, j: nat)
    requires turn.Valid() && j < |turn.Messages()| && IsReplyMessage(turn.Messages()[j])
    ensures j == |turn.Messages()| - 1
  {
    ThinkingIsThinking(turn.visits);
  }

  /** Since the ticket-agent's last save every reachable log is a chain of turns, each the work of one run. */
  lemma {:induction false} TurnsAreRuns(schedule: seq<Action>, id: Id) returns (turns: seq<ClosedTurn>)
    ensures var s := Exec(INITIAL, schedule);
            var closed, erased := ClosedPart(Log(s.store, id)), Of(s, id).erased;
            erased <= |closed| && Makes(id, closed, erased, turns)
  {
    hide Chain, LogBefore, LogOk, HolderOk;
    var s := Exec(INITIAL, schedule);
    Always(schedule, id);
    LogOfIsLog(s, id);
    if id in s.store.rows {
      turns :| Makes(id, ClosedPart(Log(s.store, id)), Of(s, id).erased, turns);
    } else {
      turns := [];
      NoTurns(id);
    }
  }

  lemma {:induction false} NoTurns(id: Id)
    ensures Makes(id, [], 0, [])
  {
    var nothing: seq<Message> := [];
    assert nothing[..0] == nothing;
    assert Chain(nothing, []);
  }

  /**
   Every closed turn that the ticket-agent has not saved since carries the tags of a
   full run before a plan, of one intent before a comment, and otherwise of a prefix
   of a full run before a text.
   */
  lemma {:induction false} ReachableTurnsAreTagged(schedule: seq<Action>, id: Id, k: nat)
    returns (start: nat, s: nat, p: nat)
    requires Of(Exec(INITIAL, schedule), id).erased <= k < |Log(Exec(INITIAL, schedule).store, id)|
    requires IsReplyMessage(Log(Exec(INITIAL, schedule).store, id)[k])
    ensures Of(Exec(INITIAL, schedule), id).erased <= start < k
    ensures TurnTags(Log(Exec(INITIAL, schedule).store, id)[start..k + 1], s, p)
  {
    hide Exec, TurnTags, Chain, Conclusion, Ends, Path, Of, Log;
    var log, erased := Log(Exec(INITIAL, schedule).store, id), Of(Exec(INITIAL, schedule), id).erased;
    var turns := TurnsAreRuns(schedule, id);
    ReachableScans(schedule, id);
    ClosedPartIsPrefix(log);
    ReplyIsInClosedPart(log, k);
    start, s, p := TurnEndingAt(id, ClosedPart(log), erased, turns, k);
    assert log[start..k + 1] == ClosedPart(log)[start..k + 1];
  }

  lemma {:induction false} TurnEndingAt(id: Id, log: seq<Message>, erased: nat, turns: seq<ClosedTurn>, k: nat)
    returns (start: nat, s: nat, p: nat)
    requires erased <= k < |log| && Makes(id, log, erased, turns) && IsReplyMessage(log[k])
    ensures erased <= start < k && TurnTags(log[start..k + 1], s, p)
  {
    hide TurnTags, Chain, Conclusion, Ends, Path;
    var i := ReplyClosesTurn(log[..erased], turns, |turns|, k);
    var turn := turns[i];
    start := |turn.request.history|;
    s, p := TurnIsTagged(turn);
    TurnIsLong(turn);
    assert log[start..k + 1] == turn.Messages();
  }

  lemma {:induction false} TurnIsLong(turn: ClosedTurn)
    requires turn.Valid()
    ensures |turn.Messages()| >= 2
  {
  }

  lemma {:induction false} ReachableScans(schedule: seq<Action>, id: Id)
    ensures Scan(Log(Exec(INITIAL, schedule).store, id)) != Broken
  {
    hide Written, ClosedPart, LogOk, HolderOk;
    Always(schedule, id);
    LogOfIsLog(Exec(INITIAL, schedule), id);
  }

  // ----- the epic of a conversation -----

  /** The step hides the plans of `id`, or writes one that is not a refinement. */
  predicate Restarts(s: System, a: Action, id: Id) {
    && Enabled(s, a) && Subject(s, a) == id
    && match a
       case CloseTurn(_, _) => true
       case WriteReply(t) =>
         var Replying(_, chat, visits) := s.tasks[t];
         && IntentOf(visits) == Some(UserIntent.Plan)
         && chat.messages != [] && chat.messages[|chat.messages| - 1].content.PlanReply?
       case _ => false
  }

  /** The latest plan of a log is that of its closed part. */
  lemma {:induction false} PlanInClosedPart(log: seq<Message>, erased: nat)
    requires Scan(log) != Broken && LogOk(log, erased) && erased <= |ClosedPart(log)|
    ensures LatestPlan(ClosedPart(log)) == LatestPlan(log)
  {
    if Scan(log) == Open {
      var n := |log| - 1;
      assert MessageOk(log[n], n < erased);
      ClosedPartIsPrefix(log[..n]);
      assert LogOk(log[..n], erased) by {
        forall k | 0 <= k < n ensures MessageOk(log[..n][k], k < erased) {
          assert MessageOk(log[k], k < erased);
        }
      }
      PlanInClosedPart(log[..n], erased);
    }
  }

  lemma {:induction false} WriteContinues(v: Conv, t: nat, plan: Reply)
    requires Inv(v) && t in v.tasks && v.tasks[t].Replying?
    requires Continues(LogOf(v), plan)
    requires var messages := v.tasks[t].chat.messages;
             IntentOf(v.tasks[t].visits) == Some(UserIntent.Plan) ==>
               messages == [] || !messages[|messages| - 1].content.PlanReply?
    ensures Continues(v.tasks[t].chat.messages, plan)
  {
    hide RunNode, Merge, Route, NodeText, Conclusion, Chain, LogBefore, Ends, Path, LogOk, Continues;
    OnlyRun(v, t);
    var Replying(request, chat, visits) := v.tasks[t];
    var recorded: nat, error :|
      var turn := ClosedTurn(request, visits, recorded, error);
      turn.Valid() && chat.messages == request.history + turn.Messages();
    var turn := ClosedTurn(request, visits, recorded, error);
    assert chat.messages[|chat.messages| - 1] == turn.Reply();
    PlanInClosedPart(LogOf(v), v.erased);
    SamePlanContinues(LogOf(v), request.history, plan);
    TurnContinues(turn, plan);
  }

  lemma {:induction false} SamePlanContinues(log: seq<Message>, other: seq<Message>, plan: Reply)
    requires Continues(log, plan) && LatestPlan(other) == LatestPlan(log)
    ensures Continues(other, plan)
  {
  }

  /** Another message that is no plan. */
  lemma {:induction false} MessageContinues(log: seq<Message>, m: Message, plan: Reply)
    requires Continues(log, plan) && !IsVisiblePlan(m)
    ensures Continues(log + [m], plan)
  {
    LatestPlanSkips(log, m);
  }

  lemma {:induction false} RunStepContinues(s: System, a: Action, v: Conv, plan: Reply)
    requires Enabled(s, a) && v == Of(s, Subject(s, a)) && Inv(v) && !Restarts(s, a, v.id)
    requires a.MarkThinking? || a.Save? || a.WriteReply?
    requires Continues(LogOf(v), plan)
    ensures Continues(Log(Apply(s, a).store, v.id), plan)
  {
    hide Continues, Written, ClosedPart, LogOk, HolderOk, WritesTurn, RunNode, Merge, Route, NodeText, Scan, Path;
    OnlyRun(v, a.task);
    var task := v.tasks[a.task];
    if a.WriteReply? {
      WriteContinues(v, a.task, plan);
    } else if a.Save? {
      UnsavedIsAhead(v, a.task);
      var n := |task.visits| - 1;
      MessageContinues(LogOf(v), ThinkingMessage(task.visits[n].node, task.visits[n].Output()), plan);
    }
  }

  lemma {:induction false} SubjectContinues(s: System, a: Action, v: Conv, plan: Reply)
    requires Enabled(s, a) && v == Of(s, Subject(s, a)) && Inv(v) && !Restarts(s, a, v.id)
    requires v.row.Some? && Continues(Log(s.store, v.id), plan)
    ensures Continues(Log(Apply(s, a).store, v.id), plan)
  {
    hide Continues, Inv;
    LogOfIsLog(s, v.id);
    if a.Continue? {
      MessageContinues(LogOf(v), UserMessage(a.message), plan);
    } else if a.MarkThinking? || a.Save? || a.WriteReply? {
      RunStepContinues(s, a, v, plan);
    } else {
      LogUnchanged(s, a, v.id);
    }
  }

  lemma {:induction false} StepContinues(s: System, a: Action, id: Id, plan: Reply)
    requires Inv(Of(s, id)) && !Restarts(s, a, id)
    requires Continues(Log(s.store, id), plan)
    ensures Continues(Log(Step(s, a).store, id), plan)
  {
    hide Continues, Written, ClosedPart, LogOk, HolderOk, Restarts;
    LogOfIsLog(s, id);
    LogOfIsLog(Step(s, a), id);
    if Enabled(s, a) {
      if Subject(s, a) != id {
        OthersUntouched(s, a, id);
      } else {
        NotEmpty(Log(s.store, id), plan);
        SubjectContinues(s, a, Of(s, id), plan);
      }
    }
  }

  lemma {:induction false} NotEmpty(log: seq<Message>, plan: Reply)
    requires Continues(log, plan)
    ensures log != []
  {
  }

  /** A plan that shows in a reachable log is well made. */
  lemma {:induction false} ReachablePlanIsWellMade(schedule: seq<Action>, id: Id, plan: Reply)
    requires LatestPlan(Log(Exec(INITIAL, schedule).store, id)) == Some(plan)
    ensures Continues(Log(Exec(INITIAL, schedule).store, id), plan)
  {
    hide Written, ClosedPart, HolderOk;
    var s := Exec(INITIAL, schedule);
    var log := Log(s.store, id);
    Always(schedule, id);
    LogOfIsLog(s, id);
    LatestPlanIsLast(log);
    var k :| IsLatestPlanAt(log, k);
    assert MessageOk(log[k], k < Of(s, id).erased);
  }

  /**
   Along every run of the protocol the latest plan of a conversation keeps its epic
   name and requirements, through comments, errors, stops and reloads, until the
   ticket-agent saves or the user has a new plan made.
   */
  lemma {:induction false} EpicSurvives(earlier: seq<Action>, later: seq<Action>, id: Id, plan: Reply)
    requires LatestPlan(Log(Exec(INITIAL, earlier).store, id)) == Some(plan)
    requires forall k | 0 <= k < |later| :: !Restarts(Exec(INITIAL, earlier + later[..k]), later[k], id)
    ensures Continues(Log(Exec(INITIAL, earlier + later).store, id), plan)
  {
    hide Continues, Restarts, Step, Inv, Exec, Log, Of;
    if later == [] {
      assert earlier + later == earlier;
      ReachablePlanIsWellMade(earlier, id, plan);
    } else {
      var n := |later| - 1;
      forall k | 0 <= k < n ensures !Restarts(Exec(INITIAL, earlier + later[..n][..k]), later[..n][k], id) {
        assert later[..n][..k] == later[..k];
      }
      EpicSurvives(earlier, later[..n], id, plan);
      Always(earlier + later[..n], id);
      StepContinues(Exec(INITIAL, earlier + later[..n]), later[n], id, plan);
      OneStepMore(earlier, later);
    }
  }

  lemma {:induction false} OneStepMore(earlier: seq<Action>, later: seq<Action>)
    requires later != []
    ensures var n := |later| - 1;
            Exec(INITIAL, earlier + later) == Step(Exec(INITIAL, earlier + later[..n]), later[n])
  {
    hide Step;
    var both := earlier + later;
    assert both[..|both| - 1] == earlier + later[..|later| - 1];
  }
}
