/**
 What a subscriber is sent while the protocol runs: the gateway's reads are reads of
 the conversations that the backend and the two agents are working on.
 */
module SubscriberView {
  import opened Wrappers
  import opened Contracts
  import opened TurnLog
  import opened BackendChat
  import opened HandOff
  import opened HandOffTheorems
  import G = ChatGateway

  /**
   A step of the gateway, and all that the protocol had done when it happened; for
   the answer of a read, when Redis served that read.
   */
  datatype Moment = Moment(event: G.Event, schedule: seq<Action>)

  function Events(trace: seq<Moment>): seq<G.Event> {
    seq(|trace|, i requires 0 <= i < |trace| => trace[i].event)
  }

  function Gateway(trace: seq<Moment>): G.Gateway {
    G.Run(G.IDLE, Events(trace))
  }

  /** The chat that a read of a moment finds. */
  function Live(m: Moment, id: Id): Option<Chat> {
    Lookup(Exec(INITIAL, m.schedule).store.redis, id)
  }

  predicate Answers(m: Moment, t: G.TimerId) {
    m.event.Answer? && m.event.timer == t
  }

  /** Every chat that a read brings is the one that was in Redis under its timer's key. */
  ghost predicate Faithful(trace: seq<Moment>) {
    forall k | 0 <= k < |trace| && trace[k].event.Answer? && trace[k].event.found.Present? ::
      var t := trace[k].event.timer;
      var before := Gateway(trace[..k]);
      t < |before.closures| ==> Live(trace[k], before.closures[t].chatId) == Some(trace[k].event.found.chat)
  }

  /** The reads of a timer are answered in the order in which they were served. */
  ghost predicate InOrder(trace: seq<Moment>, t: G.TimerId) {
    forall j, k | 0 <= j < k < |trace| && Answers(trace[j], t) && Answers(trace[k], t) ::
      trace[j].schedule <= trace[k].schedule
  }

  // ----- where the lines of the record come from -----

  lemma {:induction false} RunAppend(g: G.Gateway, events: seq<G.Event>, e: G.Event)
    ensures G.Run(g, events + [e]) == G.Step(G.Run(g, events), e)
    decreases |events|
  {
    hide G.Step;
    var longer := events + [e];
    if events == [] {
      G.OneStep(g, e);
      assert longer == [e];
    } else {
      assert longer[1..] == events[1..] + [e];
      RunAppend(G.Step(g, events[0]), events[1..], e);
    }
  }

  lemma {:induction false} GatewayStep(trace: seq<Moment>)
    requires trace != []
    ensures var n := |trace| - 1; Gateway(trace) == G.Step(Gateway(trace[..n]), trace[n].event)
  {
    hide G.Run, G.Step;
    var n := |trace| - 1;
    assert Events(trace) == Events(trace[..n]) + [trace[n].event];
    RunAppend(G.IDLE, Events(trace[..n]), trace[n].event);
  }

  /** A step sets at most one timer, and no timer changes its client or its chat. */
  lemma {:induction false} ClosuresStay(g: G.Gateway, e: G.Event)
    ensures var after := G.Step(g, e).closures;
            && |g.closures| <= |after|
            && (forall t | 0 <= t < |g.closures| ::
                  after[t].chatId == g.closures[t].chatId && after[t].client == g.closures[t].client)
            && (e.Subscribe? ==> |after| == |g.closures| + 1 && after[|g.closures|] == G.Closure(e.client, e.chatId, 0))
  {
  }

  lemma {:induction false} TimersStay(trace: seq<Moment>, k: nat)
    requires k <= |trace|
    ensures var before, after := Gateway(trace[..k]).closures, Gateway(trace).closures;
            && |before| <= |after|
            && forall t | 0 <= t < |before| :: after[t].chatId == before[t].chatId
    decreases |trace| - k
  {
    hide G.Run, G.Step;
    if k == |trace| {
      assert trace[..k] == trace;
    } else {
      TimersStay(trace, k + 1);
      GatewayStep(trace[..k + 1]);
      assert trace[..k + 1][..k] == trace[..k];
      ClosuresStay(Gateway(trace[..k]), trace[k].event);
    }
  }

  /** The line of an update is written by the answer that brought its chat. */
  ghost predicate Origin(trace: seq<Moment>, k: nat, line: G.Line) {
    && k < |trace|
    && (line.what.Updated? ==>
          && trace[k].event == G.Answer(line.timer, G.Present(line.what.chat))
          && line.timer < |Gateway(trace[..k]).closures|)
  }

  lemma {:induction false} LinesOf(g: G.Gateway, e: G.Event)
    ensures var before, after := g.record, G.Step(g, e).record;
            && before <= after
            && (forall i | |before| <= i < |after| && after[i].what.Updated? ::
                  && e == G.Answer(after[i].timer, G.Present(after[i].what.chat))
                  && after[i].timer < |g.closures|
                  && |after| == |before| + 1)
  {
  }

  /** Later updates come from later answers. */
  ghost predicate Origins(trace: seq<Moment>, record: seq<G.Line>, at: seq<nat>) {
    && |at| == |record|
    && (forall i | 0 <= i < |record| :: Origin(trace, at[i], record[i]))
    && (forall i, j | 0 <= i < j < |record| && record[j].what.Updated? :: at[i] < at[j])
  }

  lemma {:induction false} FindOrigins(trace: seq<Moment>) returns (at: seq<nat>)
    ensures Origins(trace, Gateway(trace).record, at)
  {
    hide G.Run, G.Step, Gateway, Origin;
    if trace == [] {
      at := [];
      NothingRecorded();
    } else {
      var n := |trace| - 1;
      var front, g := trace[..n], Gateway(trace[..n]);
      at := FindOrigins(front);
      GatewayStep(trace);
      LinesOf(g, trace[n].event);
      var before, after := g.record, Gateway(trace).record;
      var more: seq<nat> := seq(|after| - |before|, _ => n);
      forall i | 0 <= i < |after| ensures Origin(trace, (at + more)[i], after[i]) {
        if i < |before| {
          OriginStays(trace, n, at[i], before[i]);
        } else {
          NewOrigin(trace, n, after[i]);
        }
      }
      forall i | 0 <= i < |before| ensures at[i] < n {
        OriginIndex(front, at[i], before[i]);
      }
      at := at + more;
    }
  }

  lemma {:induction false} NothingRecorded()
    ensures Gateway([]).record == []
  {
  }

  lemma {:induction false} OriginIndex(trace: seq<Moment>, k: nat, line: G.Line)
    requires Origin(trace, k, line)
    ensures k < |trace|
  {
  }

  lemma {:induction false} OriginStays(trace: seq<Moment>, n: nat, k: nat, line: G.Line)
    requires n < |trace| && Origin(trace[..n], k, line)
    ensures Origin(trace, k, line)
  {
    assert trace[..n][..k] == trace[..k];
  }

  lemma {:induction false} NewOrigin(trace: seq<Moment>, n: nat, line: G.Line)
    requires n < |trace|
    requires line.what.Updated? ==>
               && trace[n].event == G.Answer(line.timer, G.Present(line.what.chat))
               && line.timer < |Gateway(trace[..n]).closures|
    ensures Origin(trace, n, line)
  {
  }

  /** What an update shows is what Redis held when its read was served. */
  lemma {:induction false} UpdateIsLive(trace: seq<Moment>, k: nat, line: G.Line)
    requires Faithful(trace) && Origin(trace, k, line) && line.what.Updated?
    ensures line.timer < |Gateway(trace).closures|
    ensures Answers(trace[k], line.timer)
    ensures Live(trace[k], Gateway(trace).closures[line.timer].chatId) == Some(line.what.chat)
  {
    hide Gateway, Exec;
    TimersStay(trace, k);
  }

  // ----- what a subscription delivers -----

  /** If `early` had happened when one read was served and `late` when the other was, the second found a longer log. */
  lemma {:induction false} LaterReadExtends(early: seq<Action>, late: seq<Action>, id: Id)
    requires early <= late
    requires id in Exec(INITIAL, early).store.redis && id in Exec(INITIAL, late).store.redis
    ensures Extends(Exec(INITIAL, early).store.redis[id].messages, Exec(INITIAL, late).store.redis[id].messages)
  {
    var more := late[|early|..];
    assert late == early + more;
    PollsGrow(early, more, id);
  }

  /**
   Whatever else happens, of two updates that one timer sends the later one continues
   the earlier one, provided that its reads are answered in the order they were served.
   */
  lemma {:induction false} UpdatesGrow(trace: seq<Moment>, t: G.TimerId, i: nat, j: nat)
    requires Faithful(trace) && InOrder(trace, t)
    requires i < j < |Gateway(trace).record|
    requires var record := Gateway(trace).record;
             && record[i].timer == t && record[i].what.Updated?
             && record[j].timer == t && record[j].what.Updated?
    ensures var record := Gateway(trace).record;
            Extends(record[i].what.chat.messages, record[j].what.chat.messages)
  {
    hide Gateway, Exec, Faithful, Origin;
    var record := Gateway(trace).record;
    var at := FindOrigins(trace);
    OriginIndex(trace, at[j], record[j]);
    UpdateIsLive(trace, at[i], record[i]);
    UpdateIsLive(trace, at[j], record[j]);
    LaterReadExtends(trace[at[i]].schedule, trace[at[j]].schedule, Gateway(trace).closures[t].chatId);
  }

  /** Of two reads of a timer, what had happened when one was served is a part of what had when the other was. */
  ghost predicate Comparable(trace: seq<Moment>, t: G.TimerId) {
    forall j, k | 0 <= j < k < |trace| && Answers(trace[j], t) && Answers(trace[k], t) ::
      trace[j].schedule <= trace[k].schedule || trace[k].schedule <= trace[j].schedule
  }

  /**
   In whatever order a timer's reads are answered, a later update continues an earlier
   one if and only if it is not shorter; so if a read that was served later overtook it,
   exactly if nothing was appended in between.
   */
  lemma {:induction false} UpdatesGrowUnlessOvertaken(trace: seq<Moment>, t: G.TimerId, i: nat, j: nat)
    requires Faithful(trace) && Comparable(trace, t)
    requires i < j < |Gateway(trace).record|
    requires var record := Gateway(trace).record;
             && record[i].timer == t && record[i].what.Updated?
             && record[j].timer == t && record[j].what.Updated?
    ensures var record := Gateway(trace).record;
            var first, second := record[i].what.chat.messages, record[j].what.chat.messages;
            && (Extends(first, second) <==> |first| <= |second|)
            && (Extends(first, second) || Extends(second, first))
  {
    hide Gateway, Exec, Faithful, Origin;
    var record := Gateway(trace).record;
    var at := FindOrigins(trace);
    OriginIndex(trace, at[j], record[j]);
    UpdateIsLive(trace, at[i], record[i]);
    UpdateIsLive(trace, at[j], record[j]);
    var id := Gateway(trace).closures[t].chatId;
    var first, second := record[i].what.chat.messages, record[j].what.chat.messages;
    if trace[at[i]].schedule <= trace[at[j]].schedule {
      LaterReadExtends(trace[at[i]].schedule, trace[at[j]].schedule, id);
    } else {
      LaterReadExtends(trace[at[j]].schedule, trace[at[i]].schedule, id);
    }
    ExtendsAt(first, second);
    ExtendsAt(second, first);
  }

  /** A timer that is set at moment `k` answers only later. */
  lemma {:induction false} AnsweredAfterSet(trace: seq<Moment>, k: nat, j: nat, line: G.Line)
    requires k < |trace| && trace[k].event.Subscribe? && line.timer == |Gateway(trace[..k]).closures|
    requires Origin(trace, j, line) && line.what.Updated?
    ensures k < j
  {
    hide Gateway;
    if j <= k {
      assert trace[..k][..j] == trace[..j];
      TimersStay(trace[..k], j);
    }
  }

  lemma {:induction false} SubscribedTo(trace: seq<Moment>, k: nat)
    requires k < |trace| && trace[k].event.Subscribe?
    ensures var t := |Gateway(trace[..k]).closures|;
            t < |Gateway(trace).closures| && Gateway(trace).closures[t].chatId == trace[k].event.chatId
  {
    hide G.Run, G.Step, Gateway;
    GatewayStep(trace[..k + 1]);
    assert trace[..k + 1][..k] == trace[..k];
    ClosuresStay(Gateway(trace[..k]), trace[k].event);
    TimersStay(trace, k + 1);
  }

  /**
   A subscription that is opened after a continue has returned never sends the reply
   of the turn before: an update that says the agent has replied holds the user's new
   message, and ends in a reply that came after it.
   */
  lemma {:induction false} NoStaleUpdate(
    trace: seq<Moment>, k: nat, earlier: seq<Action>, message: string, id: Id, i: nat)
    requires Faithful(trace)
    requires id in Exec(INITIAL, earlier).seen
    requires k < |trace| && trace[k].event.Subscribe? && trace[k].event.chatId == id
    requires var t := |Gateway(trace[..k]).closures|;
             && (forall j | k < j < |trace| && Answers(trace[j], t) ::
                   earlier + [Continue(id, message)] <= trace[j].schedule)
             && i < |Gateway(trace).record| && Gateway(trace).record[i].timer == t
    ensures var line, sent := Gateway(trace).record[i], |Log(Exec(INITIAL, earlier).store, id)|;
            line.what.Updated? && line.what.chat.agentStatus.HasReplied? ==>
              var log := line.what.chat.messages;
              && |log| > sent + 1
              && log[sent] == UserMessage(message)
              && IsReplyMessage(log[|log| - 1])
  {
    hide Gateway, Exec, Faithful, Origin, Log;
    var line := Gateway(trace).record[i];
    if line.what.Updated? && line.what.chat.agentStatus.HasReplied? {
      var at := FindOrigins(trace);
      AnsweredAfterSet(trace, k, at[i], line);
      OriginIndex(trace, at[i], line);
      UpdateIsLive(trace, at[i], line);
      SubscribedTo(trace, k);
      FreshRead(earlier, message, trace[at[i]].schedule, id);
    }
  }

  lemma {:induction false} FreshRead(earlier: seq<Action>, message: string, schedule: seq<Action>, id: Id)
    requires id in Exec(INITIAL, earlier).seen && earlier + [Continue(id, message)] <= schedule
    ensures var s, polled := Exec(INITIAL, earlier), Exec(INITIAL, schedule);
            var sent := |Log(s.store, id)|;
            id in polled.store.redis && polled.store.redis[id].agentStatus.HasReplied? ==>
              var log := polled.store.redis[id].messages;
              && |log| > sent + 1
              && log[sent] == UserMessage(message)
              && IsReplyMessage(log[|log| - 1])
  {
    hide Log, Step;
    var first := earlier + [Continue(id, message)];
    var later := schedule[|first|..];
    assert schedule == first + later;
    ExecSplits(INITIAL, first, later);
    assert first[..|earlier|] == earlier;
    NoStaleReply(earlier, message, later, id);
  }
}
