/**
 The WebSocket gateway: a client subscribes to a chat, a timer polls Redis and
 sends what it finds, until the agent has replied or the polls run out.

 A poll is two steps, because its callback awaits Redis between them: Fired runs
 up to the read and Answered runs after it. Anything may happen in between.
 */
module ChatGateway {
  import opened Wrappers
  import opened Contracts

  const MAX_POLLS := 600

  type Client = nat
  type TimerId = nat

  /** The variables an interval's callback closes over; they outlive the interval. */
  datatype Closure = Closure(client: Client, chatId: Id, polls: nat)

  /** What one read of Redis gives. */
  datatype Found = Missing | Unreadable | Present(chat: Chat)

  datatype Activity = Polled | Updated(chat: Chat) | TimedOut

  /** One line for every poll that started and for every message sent. */
  datatype Line = Line(timer: TimerId, what: Activity)

  /** Timers are numbered in the order they are set; `pending` holds the reads not yet answered. */
  datatype Gateway = Gateway(
    subscriptions: map<Client, TimerId>,
    closures: seq<Closure>,
    live: set<TimerId>,
    pending: multiset<TimerId>,
    record: seq<Line>)

  const IDLE := Gateway(map[], [], {}, multiset{}, [])

  // ----- on values -----

  function Cleared(g: Gateway, client: Client): Gateway {
    if client in g.subscriptions
    then g.(live := g.live - {g.subscriptions[client]}, subscriptions := g.subscriptions - {client})
    else g
  }

  function Subscribed(g: Gateway, client: Client, chatId: Id): Gateway {
    var c := Cleared(g, client);
    c.(closures := c.closures + [Closure(client, chatId, 0)],
       live := c.live + {|c.closures|},
       subscriptions := c.subscriptions[client := |c.closures|])
  }

  /** A live interval elapses. */
  function Fired(g: Gateway, t: TimerId): Gateway
    requires t < |g.closures|
  {
    var closure := g.closures[t].(polls := g.closures[t].polls + 1);
    var counted := g.(closures := g.closures[t := closure], record := g.record + [Line(t, Polled)]);
    if closure.polls > MAX_POLLS
    then Cleared(counted, closure.client).(record := counted.record + [Line(t, TimedOut)])
    else counted.(pending := counted.pending + multiset{t})
  }

  /** The read that a poll of `t` was waiting for comes back; the timer may be gone by now. */
  function Answered(g: Gateway, t: TimerId, found: Found): Gateway
    requires t < |g.closures|
  {
    var read := g.(pending := g.pending - multiset{t});
    match found
    case Present(chat) =>
      var sent := read.(record := read.record + [Line(t, Updated(chat))]);
      if chat.agentStatus.HasReplied? then Cleared(sent, g.closures[t].client) else sent
    case _ => read
  }

  // ----- the gateway object -----

  class ChatGatewayService {
    var subscriptions: map<Client, TimerId>
    var closures: seq<Closure>
    var live: set<TimerId>
    var pending: multiset<TimerId>
    ghost var record: seq<Line>

    constructor ()
      ensures Value() == IDLE
    {
      subscriptions, closures, live, pending, record := map[], [], {}, multiset{}, [];
    }

    ghost function Value(): Gateway
      reads this
    {
      Gateway(subscriptions, closures, live, pending, record)
    }

    method ClearSubscription(client: Client)
      modifies `subscriptions, `live
      ensures Value() == Cleared(old(Value()), client)
    {
      if client in subscriptions {
        live := live - {subscriptions[client]};
        subscriptions := subscriptions - {client};
      }
    }

    method HandleSubscribe(client: Client, chatId: Id)
      modifies this
      ensures Value() == Subscribed(old(Value()), client, chatId)
    {
      ClearSubscription(client);
      var t := |closures|;
      closures := closures + [Closure(client, chatId, 0)];
      live := live + {t};
      subscriptions := subscriptions[client := t];
    }

    method HandleDisconnect(client: Client)
      modifies this
      ensures Value() == Cleared(old(Value()), client)
    {
      ClearSubscription(client);
    }

    /** The callback up to its read; `waits` says whether it got that far. */
    method Fire(t: TimerId) returns (waits: bool)
      requires t < |closures|
      modifies this
      ensures Value() == Fired(old(Value()), t)
      ensures waits == (pending == old(pending) + multiset{t})
    {
      var closure := closures[t];
      closures := closures[t := closure.(polls := closure.polls + 1)];
      record := record + [Line(t, Polled)];
      waits := closures[t].polls <= MAX_POLLS;
      if waits {
        pending := pending + multiset{t};
      } else {
        ClearSubscription(closure.client);
        record := record + [Line(t, TimedOut)];
        assert pending[t] != (pending + multiset{t})[t];
      }
    }

    /** The callback from its read on; `sent` is the update it sends, if any. */
    method Answer(t: TimerId, found: Found) returns (sent: Option<Chat>)
      requires t < |closures| && t in pending
      modifies this
      ensures Value() == Answered(old(Value()), t, found)
      ensures sent == if found.Present? then Some(found.chat) else None
      ensures record == old(record) + if sent.Some? then [Line(t, Updated(sent.value))] else []
    {
      pending := pending - multiset{t};
      sent := None;
      match found
      case Present(chat) =>
        sent := Some(chat);
        record := record + [Line(t, Updated(chat))];
        if chat.agentStatus.HasReplied? {
          ClearSubscription(closures[t].client);
        }
      case _ =>
    }
  }

  // ----- every run -----

  datatype Event =
    | Subscribe(client: Client, chatId: Id)
    | Disconnect(client: Client)
    | Elapse(timer: TimerId)
    | Answer(timer: TimerId, found: Found)

  /** Only a live interval elapses, and only a read that was made is answered. */
  function Step(g: Gateway, e: Event): Gateway {
    match e
    case Subscribe(client, chatId) => Subscribed(g, client, chatId)
    case Disconnect(client) => Cleared(g, client)
    case Elapse(t) => if t in g.live && t < |g.closures| then Fired(g, t) else g
    case Answer(t, found) => if t in g.pending && t < |g.closures| then Answered(g, t, found) else g
  }

  function Run(g: Gateway, events: seq<Event>): Gateway
    decreases |events|
  {
    if events == [] then g else Run(Step(g, events[0]), events[1..])
  }

  function Polls(record: seq<Line>, t: TimerId): nat {
    if record == [] then 0
    else
      Polls(record[..|record| - 1], t) + if record[|record| - 1] == Line(t, Polled) then 1 else 0
  }

  function Updates(record: seq<Line>, t: TimerId): nat {
    if record == [] then 0
    else
      var last := record[|record| - 1];
      Updates(record[..|record| - 1], t) + if last.timer == t && last.what.Updated? then 1 else 0
  }

  /** A client's subscription is a live timer of its own. */
  predicate Held(g: Gateway, c: Client) {
    c in g.subscriptions ==>
      && g.subscriptions[c] in g.live && g.subscriptions[c] < |g.closures|
      && g.closures[g.subscriptions[c]].client == c
  }

  /** A live timer is its client's subscription, and only timers that were set have reads under way. */
  predicate Kept(g: Gateway, t: TimerId) {
    && (t in g.live || t in g.pending ==> t < |g.closures|)
    && (t in g.live ==> Lookup(g.subscriptions, g.closures[t].client) == Some(t))
  }

  function TimeOuts(record: seq<Line>, t: TimerId): nat {
    if record == [] then 0
    else
      TimeOuts(record[..|record| - 1], t) + if record[|record| - 1] == Line(t, TimedOut) then 1 else 0
  }

  /** The chats that a timer sent. */
  function Sent(record: seq<Line>, t: TimerId): seq<Chat> {
    if record == [] then []
    else
      var last := record[|record| - 1];
      Sent(record[..|record| - 1], t) + if last.timer == t && last.what.Updated? then [last.what.chat] else []
  }

  /** The live timers and the subscriptions are each other's inverse. */
  ghost predicate Matched(g: Gateway) {
    (forall c :: Held(g, c)) && (forall t :: Kept(g, t))
  }

  /** How far timer `t` has come: each poll is answered at most once. */
  ghost predicate Counted(g: Gateway, t: TimerId) {
    var polls := Polls(g.record, t);
    && polls == (if t < |g.closures| then g.closures[t].polls else 0)
    && polls <= MAX_POLLS + 1
    && (t in g.live ==> polls <= MAX_POLLS)
    && Updates(g.record, t) + g.pending[t] <= polls
    && Updates(g.record, t) + g.pending[t] <= MAX_POLLS
  }

  /** The timeout is told exactly once, at the poll after the last. */
  predicate Told(g: Gateway, t: TimerId) {
    TimeOuts(g.record, t) == if Polls(g.record, t) == MAX_POLLS + 1 then 1 else 0
  }

  lemma RecordAppend(record: seq<Line>, l: Line, t: TimerId)
    ensures Polls(record + [l], t) == Polls(record, t) + if l == Line(t, Polled) then 1 else 0
    ensures Updates(record + [l], t) == Updates(record, t) + if l.timer == t && l.what.Updated? then 1 else 0
    ensures TimeOuts(record + [l], t) == TimeOuts(record, t) + if l == Line(t, TimedOut) then 1 else 0
    ensures Sent(record + [l], t) == Sent(record, t) + if l.timer == t && l.what.Updated? then [l.what.chat] else []
  {
    assert (record + [l])[..|record|] == record;
  }

  lemma ClearedMatched(g: Gateway, client: Client)
    requires Matched(g)
    ensures Matched(Cleared(g, client))
  {
    var after := Cleared(g, client);
    forall c ensures Held(after, c) {
      assert Held(g, c) && Held(g, client);
    }
    forall t ensures Kept(after, t) {
      assert Kept(g, t);
    }
  }

  lemma SubscribedMatched(g: Gateway, client: Client, chatId: Id)
    requires Matched(g)
    ensures Matched(Subscribed(g, client, chatId))
  {
    var c := Cleared(g, client);
    ClearedMatched(g, client);
    assert forall d :: Held(c, d) ==> Held(Subscribed(g, client, chatId), d);
    assert forall t :: Kept(c, t) ==> Kept(Subscribed(g, client, chatId), t);
  }

  lemma FiredMatched(g: Gateway, t: TimerId)
    requires Matched(g) && t < |g.closures|
    ensures Matched(Fired(g, t))
  {
    var closure := g.closures[t].(polls := g.closures[t].polls + 1);
    var counted := g.(closures := g.closures[t := closure], record := g.record + [Line(t, Polled)]);
    assert Matched(counted) by {
      assert forall c :: Held(g, c) ==> Held(counted, c);
      assert forall u :: Kept(g, u) ==> Kept(counted, u);
    }
    ClearedMatched(counted, closure.client);
    SameTimers(if closure.polls > MAX_POLLS then Cleared(counted, closure.client) else counted, Fired(g, t), t);
  }

  lemma AnsweredMatched(g: Gateway, t: TimerId, found: Found)
    requires Matched(g) && t < |g.closures|
    ensures Matched(Answered(g, t, found))
  {
    var read := g.(pending := g.pending - multiset{t});
    SameTimers(g, read, t);
    if found.Present? {
      var sent := read.(record := read.record + [Line(t, Updated(found.chat))]);
      SameTimers(read, sent, t);
      ClearedMatched(sent, g.closures[t].client);
    }
  }

  lemma StepMatched(g: Gateway, e: Event)
    requires Matched(g)
    ensures Matched(Step(g, e))
  {
    hide Matched, Cleared, Subscribed, Fired, Answered;
    match e
    case Subscribe(client, chatId) => SubscribedMatched(g, client, chatId);
    case Disconnect(client) => ClearedMatched(g, client);
    case Elapse(t) => if t in g.live && t < |g.closures| { FiredMatched(g, t); }
    case Answer(t, found) => if t in g.pending && t < |g.closures| { AnsweredMatched(g, t, found); }
  }

  /** Matched looks neither at the record nor at how many reads of a timer that was set are under way. */
  lemma SameTimers(g: Gateway, h: Gateway, t: TimerId)
    requires Matched(g) && t < |g.closures|
    requires h == g.(pending := h.pending, record := h.record)
    requires forall u | u in h.pending :: u in g.pending || u == t
    ensures Matched(h)
  {
    forall c ensures Held(h, c) {
      assert Held(g, c);
    }
    forall u ensures Kept(h, u) {
      assert Kept(g, u);
    }
  }

  lemma FiredCounted(g: Gateway, u: TimerId, t: TimerId)
    requires Matched(g) && Counted(g, t) && u in g.live && u < |g.closures|
    ensures Counted(Fired(g, u), t)
  {
    assert Kept(g, u) && Kept(g, t);
    RecordAppend(g.record, Line(u, Polled), t);
    RecordAppend(g.record + [Line(u, Polled)], Line(u, TimedOut), t);
  }

  lemma AnsweredCounted(g: Gateway, u: TimerId, found: Found, t: TimerId)
    requires Counted(g, t) && u in g.pending && u < |g.closures|
    ensures Counted(Answered(g, u, found), t)
  {
    if found.Present? {
      RecordAppend(g.record, Line(u, Updated(found.chat)), t);
    }
  }

  lemma FiredTold(g: Gateway, u: TimerId, t: TimerId)
    requires Counted(g, t) && Told(g, t) && u in g.live && u < |g.closures|
    ensures Told(Fired(g, u), t)
  {
    hide Polls, TimeOuts, Updates;
    RecordAppend(g.record, Line(u, Polled), t);
    RecordAppend(g.record + [Line(u, Polled)], Line(u, TimedOut), t);
  }

  lemma AnsweredTold(g: Gateway, u: TimerId, found: Found, t: TimerId)
    requires Told(g, t) && u < |g.closures|
    ensures Told(Answered(g, u, found), t)
  {
    hide Polls, TimeOuts;
    if found.Present? {
      RecordAppend(g.record, Line(u, Updated(found.chat)), t);
    }
  }

  lemma StepTold(g: Gateway, e: Event, t: TimerId)
    requires Counted(g, t) && Told(g, t)
    ensures Told(Step(g, e), t)
  {
    hide Fired, Answered, Counted;
    match e
    case Elapse(u) => if u in g.live && u < |g.closures| { FiredTold(g, u, t); }
    case Answer(u, found) => if u in g.pending && u < |g.closures| { AnsweredTold(g, u, found, t); }
    case _ =>
  }

  lemma StepCounted(g: Gateway, e: Event, t: TimerId)
    requires Matched(g) && Counted(g, t)
    ensures Counted(Step(g, e), t)
  {
    match e
    case Elapse(u) =>
      if u in g.live && u < |g.closures| {
        FiredCounted(g, u, t);
      }
    case Answer(u, found) =>
      if u in g.pending && u < |g.closures| {
        AnsweredCounted(g, u, found, t);
      }
    case _ =>
      assert Kept(g, t);
  }

  lemma {:induction false} RunCounted(g: Gateway, events: seq<Event>, t: TimerId)
    requires Matched(g) && Counted(g, t) && Told(g, t)
    ensures Matched(Run(g, events)) && Counted(Run(g, events), t) && Told(Run(g, events), t)
    decreases |events|
  {
    hide Matched, Counted, Told, Step;
    if events != [] {
      StepMatched(g, events[0]);
      StepCounted(g, events[0], t);
      StepTold(g, events[0], t);
      RunCounted(Step(g, events[0]), events[1..], t);
    }
  }

  /** However reads and timers interleave, a client never has two live timers. */
  lemma OneTimerPerClient(events: seq<Event>, t: TimerId, u: TimerId)
    requires var g := Run(IDLE, events); t in g.live && u in g.live && t < |g.closures| && u < |g.closures|
    requires Run(IDLE, events).closures[t].client == Run(IDLE, events).closures[u].client
    ensures t == u
  {
    RunCounted(IDLE, events, t);
    assert Kept(Run(IDLE, events), t) && Kept(Run(IDLE, events), u);
  }

  /**
   However reads and timers interleave, a timer elapses at most 601 times and sends
   at most 600 updates. It tells its client that it timed out exactly if it elapsed
   601 times, and then it is not live.
   */
  lemma SubscriptionEnds(events: seq<Event>, t: TimerId)
    ensures var g := Run(IDLE, events);
            && Polls(g.record, t) <= 601
            && Updates(g.record, t) <= 600
            && TimeOuts(g.record, t) == (if Polls(g.record, t) == 601 then 1 else 0)
            && (Polls(g.record, t) == 601 ==> t !in g.live)
  {
    RunCounted(IDLE, events, t);
  }

  /** A disconnect leaves the client no timer, and every other client its own. */
  lemma DisconnectEnds(events: seq<Event>, client: Client)
    ensures var g := Run(IDLE, events);
            var after := Step(g, Disconnect(client));
            && client !in after.subscriptions && after.closures == g.closures && after.record == g.record
            && (forall t: TimerId | t < |g.closures| ::
                  t in after.live <==> t in g.live && g.closures[t].client != client)
  {
    RunCounted(IDLE, events, 0);
    var g := Run(IDLE, events);
    forall t: TimerId | t < |g.closures|
      ensures t in Step(g, Disconnect(client)).live <==> t in g.live && g.closures[t].client != client
    {
      assert Kept(g, t) && Held(g, client);
    }
  }

  /** A subscribe gives the client one new timer, for that chat and with no poll yet, in place of the one it had. */
  lemma SubscribeRenews(events: seq<Event>, client: Client, chatId: Id)
    ensures var g := Run(IDLE, events);
            var after := Step(g, Subscribe(client, chatId));
            && after.closures == g.closures + [Closure(client, chatId, 0)]
            && Lookup(after.subscriptions, client) == Some(|g.closures|)
            && |g.closures| in after.live && after.record == g.record
            && (forall t: TimerId | t < |g.closures| ::
                  t in after.live <==> t in g.live && g.closures[t].client != client)
  {
    RunCounted(IDLE, events, 0);
    var g := Run(IDLE, events);
    forall t: TimerId | t < |g.closures|
      ensures t in Step(g, Subscribe(client, chatId)).live <==> t in g.live && g.closures[t].client != client
    {
      assert Kept(g, t) && Held(g, client);
    }
  }

  // ----- what is sent -----

  /** A read that brings a chat sends it at once, whatever its status; any other answer sends nothing. */
  lemma AnswerSends(g: Gateway, t: TimerId, found: Found)
    requires t in g.pending && t < |g.closures|
    ensures Step(g, Answer(t, found)).record ==
            g.record + match found case Present(chat) => [Line(t, Updated(chat))] case _ => []
  {
  }

  /** A read of `t` that is under way is answered. */
  predicate IsAnswered(g: Gateway, e: Event, t: TimerId) {
    e.Answer? && e.timer == t && t in g.pending && t < |g.closures|
  }

  /** The chats that the answers of a timer's reads bring, in order. */
  function Brought(g: Gateway, events: seq<Event>, t: TimerId): seq<Chat>
    decreases |events|
  {
    if events == [] then []
    else
      (if IsAnswered(g, events[0], t) && events[0].found.Present? then [events[0].found.chat] else [])
      + Brought(Step(g, events[0]), events[1..], t)
  }

  function AnswerCount(g: Gateway, events: seq<Event>, t: TimerId): nat
    decreases |events|
  {
    if events == [] then 0
    else (if IsAnswered(g, events[0], t) then 1 else 0) + AnswerCount(Step(g, events[0]), events[1..], t)
  }

  lemma FiredRecord(g: Gateway, u: TimerId, t: TimerId)
    requires u < |g.closures|
    ensures Sent(Fired(g, u).record, t) == Sent(g.record, t)
    ensures Polls(Fired(g, u).record, t) == Polls(g.record, t) + if u == t then 1 else 0
  {
    RecordAppend(g.record, Line(u, Polled), t);
    RecordAppend(g.record + [Line(u, Polled)], Line(u, TimedOut), t);
  }

  lemma AnsweredRecord(g: Gateway, u: TimerId, found: Found, t: TimerId)
    requires u < |g.closures|
    ensures Sent(Answered(g, u, found).record, t) ==
            Sent(g.record, t) + if u == t && found.Present? then [found.chat] else []
    ensures Polls(Answered(g, u, found).record, t) == Polls(g.record, t)
  {
    if found.Present? {
      RecordAppend(g.record, Line(u, Updated(found.chat)), t);
    }
  }

  lemma StepSends(g: Gateway, e: Event, t: TimerId)
    ensures Sent(Step(g, e).record, t) ==
            Sent(g.record, t) + if IsAnswered(g, e, t) && e.found.Present? then [e.found.chat] else []
  {
    hide Fired, Answered, Sent;
    match e
    case Elapse(u) => if u in g.live && u < |g.closures| { FiredRecord(g, u, t); }
    case Answer(u, found) => if u in g.pending && u < |g.closures| { AnsweredRecord(g, u, found, t); }
    case _ =>
  }

  lemma {:induction false} RunSends(g: Gateway, events: seq<Event>, t: TimerId)
    ensures Sent(Run(g, events).record, t) == Sent(g.record, t) + Brought(g, events, t)
    decreases |events|
  {
    hide Step;
    if events != [] {
      StepSends(g, events[0], t);
      RunSends(Step(g, events[0]), events[1..], t);
    }
  }

  /** A timer sends exactly the chats that its reads bring, each once and in the order of their answers. */
  lemma SentIsBrought(events: seq<Event>, t: TimerId)
    ensures Sent(Run(IDLE, events).record, t) == Brought(IDLE, events, t)
  {
    RunSends(IDLE, events, t);
  }

  /** The polls of a timer that make a read. */
  function Reads(g: Gateway, t: TimerId): nat {
    if Polls(g.record, t) <= 600 then Polls(g.record, t) else 600
  }

  lemma FiredReads(g: Gateway, u: TimerId, t: TimerId)
    requires Counted(g, t) && u < |g.closures|
    ensures Fired(g, u).pending[t] + Reads(g, t) == g.pending[t] + Reads(Fired(g, u), t)
  {
    hide Polls, Sent;
    FiredRecord(g, u, t);
  }

  lemma AnsweredReads(g: Gateway, u: TimerId, found: Found, t: TimerId)
    requires u in g.pending && u < |g.closures|
    ensures Answered(g, u, found).pending[t] + (if u == t then 1 else 0) == g.pending[t]
    ensures Reads(Answered(g, u, found), t) == Reads(g, t)
  {
    hide Polls, Sent;
    AnsweredRecord(g, u, found, t);
  }

  lemma StepReads(g: Gateway, e: Event, t: TimerId)
    requires Counted(g, t)
    ensures Step(g, e).pending[t] + (if IsAnswered(g, e, t) then 1 else 0) + Reads(g, t) ==
            g.pending[t] + Reads(Step(g, e), t)
  {
    hide Fired, Answered, Polls, Counted;
    match e
    case Elapse(u) => if u in g.live && u < |g.closures| { FiredReads(g, u, t); }
    case Answer(u, found) => if u in g.pending && u < |g.closures| { AnsweredReads(g, u, found, t); }
    case _ =>
  }

  lemma {:induction false} RunReads(g: Gateway, events: seq<Event>, t: TimerId)
    requires Matched(g) && Counted(g, t)
    ensures Run(g, events).pending[t] + AnswerCount(g, events, t) + Reads(g, t)
            == g.pending[t] + Reads(Run(g, events), t)
    decreases |events|
  {
    hide Step, Matched, Counted, Reads;
    if events != [] {
      StepReads(g, events[0], t);
      StepMatched(g, events[0]);
      StepCounted(g, events[0], t);
      RunReads(Step(g, events[0]), events[1..], t);
    }
  }

  /** Each of the first 600 polls makes one read, and no read is answered twice or forgotten. */
  lemma EveryPollReads(events: seq<Event>, t: TimerId)
    ensures var g := Run(IDLE, events);
            g.pending[t] + AnswerCount(IDLE, events, t) ==
            if Polls(g.record, t) <= 600 then Polls(g.record, t) else 600
  {
    RunReads(IDLE, events, t);
  }

  /** A timer that is cleared and has no read under way. */
  ghost predicate Over(g: Gateway, t: TimerId) {
    Matched(g) && t < |g.closures| && t !in g.live && t !in g.pending
  }

  lemma StepOver(g: Gateway, e: Event, t: TimerId)
    requires Over(g, t)
    ensures Over(Step(g, e), t)
    ensures g.record <= Step(g, e).record
    ensures forall j | |g.record| <= j < |Step(g, e).record| :: Step(g, e).record[j].timer != t
  {
    StepMatched(g, e);
    if e.Elapse? && e.timer in g.live && e.timer < |g.closures| {
      assert Kept(g, e.timer) && Held(g, g.closures[e.timer].client);
    }
  }

  /** Such a timer polls nothing and sends nothing ever again. */
  lemma {:induction false} StaysOver(g: Gateway, events: seq<Event>, t: TimerId)
    requires Over(g, t)
    ensures var later := Run(g, events);
            && Over(later, t)
            && g.record <= later.record
            && forall j | |g.record| <= j < |later.record| :: later.record[j].timer != t
    decreases |events|
  {
    if events != [] {
      StepOver(g, events[0], t);
      StaysOver(Step(g, events[0]), events[1..], t);
    }
  }

  /** A timer's last word: the agent's reply, or that the polls ran out. */
  predicate Final(l: Line) {
    l.what.TimedOut? || (l.what.Updated? && l.what.chat.agentStatus.HasReplied?)
  }

  /** The reads of `t` that are still under way after a step that answers one of them. */
  predicate NoSecondRead(g: Gateway, e: Event, t: TimerId) {
    g.pending[t] <= if e.Answer? then 1 else 0
  }

  /** Nothing of `t` is recorded from `from` on. */
  ghost predicate Silent(record: seq<Line>, from: nat, t: TimerId) {
    forall j | from <= j < |record| :: record[j].timer != t
  }

  lemma FiredFinal(g: Gateway, u: TimerId, t: TimerId)
    requires Matched(g) && t < |g.closures| && u in g.live && u < |g.closures|
    requires var l := Fired(g, u).record; |l| > |g.record| && l[|l| - 1].timer == t && Final(l[|l| - 1])
    ensures t < |Fired(g, u).closures| && t !in Fired(g, u).live && Fired(g, u).pending == g.pending
  {
    assert Kept(g, u);
  }

  lemma AnsweredFinal(g: Gateway, u: TimerId, found: Found, t: TimerId)
    requires Matched(g) && t < |g.closures| && u in g.pending && u < |g.closures|
    requires var l := Answered(g, u, found).record; |l| > |g.record| && l[|l| - 1].timer == t && Final(l[|l| - 1])
    ensures var after := Answered(g, u, found);
            && t < |after.closures| && t !in after.live && after.pending[t] == g.pending[t] - 1
  {
    assert Kept(g, t);
  }

  lemma FinalLeavesRead(g: Gateway, e: Event, t: TimerId)
    requires Matched(g) && t < |g.closures|
    requires var l := Step(g, e).record; |l| > |g.record| && l[|l| - 1].timer == t && Final(l[|l| - 1])
    ensures Matched(Step(g, e)) && t < |Step(g, e).closures| && t !in Step(g, e).live
    ensures t in Step(g, e).pending <==> !NoSecondRead(g, e, t)
  {
    hide Matched, Fired, Answered, Final;
    StepMatched(g, e);
    match e
    case Elapse(u) => FiredFinal(g, u, t);
    case Answer(u, found) => AnsweredFinal(g, u, found, t);
    case _ =>
  }

  const REPLIED := Chat("", None, [], IsActive, HasReplied)

  /**
   The final message of a timer, live or cleared, is the last it ever sends, if and only if
   no second read of its own is under way.
   */
  lemma FinalIsLast(g: Gateway, e: Event, t: TimerId)
    requires Matched(g) && t < |g.closures|
    requires var l := Step(g, e).record; |l| > |g.record| && l[|l| - 1].timer == t && Final(l[|l| - 1])
    ensures NoSecondRead(g, e, t) <==>
            forall events :: Silent(Run(Step(g, e), events).record, |Step(g, e).record|, t)
  {
    hide Step, Matched, Final;
    var first := Step(g, e);
    FinalLeavesRead(g, e, t);
    if NoSecondRead(g, e, t) {
      forall events ensures Silent(Run(first, events).record, |first.record|, t) {
        StaysOver(first, events, t);
      }
    } else {
      SecondReadSends(first, t);
    }
  }

  lemma SecondReadSends(g: Gateway, t: TimerId)
    requires t < |g.closures| && t in g.pending
    ensures exists events :: !Silent(Run(g, events).record, |g.record|, t)
  {
    hide Run;
    var e := Answer(t, Present(REPLIED));
    OneStep(g, e);
    assert Step(g, e).record == g.record + [Line(t, Updated(REPLIED))];
    assert Step(g, e).record[|g.record|].timer == t;
    assert !Silent(Run(g, [e]).record, |g.record|, t);
  }

  lemma OneStep(g: Gateway, e: Event)
    ensures Run(g, [e]) == Step(g, e)
  {
    hide Step;
    assert [e][1..] == [];
    assert Run(Step(g, e), []) == Step(g, e);
  }

  // ----- what can end a subscription -----

  /** The reads under way that would end `client`'s subscription if they found a reply. */
  predicate NoOldReads(g: Gateway, client: Client, t: TimerId) {
    forall u | u in g.pending && u != t :: u < |g.closures| && g.closures[u].client != client
  }

  /** Events by which the client itself gives up its subscription. */
  predicate Leaves(e: Event, client: Client) {
    (e.Subscribe? || e.Disconnect?) && e.client == client
  }

  /** Clearing another client leaves the timer alone. */
  lemma OthersCleared(g: Gateway, t: TimerId, other: Client)
    requires Matched(g) && t in g.live && t < |g.closures| && other != g.closures[t].client
    ensures t in Cleared(g, other).live
  {
    assert Kept(g, t) && Held(g, other);
  }

  /** What a subscription needs in order to last, and what it has said if it did not. */
  ghost predicate Lasts(g: Gateway, after: Gateway, t: TimerId, client: Client) {
    && t < |after.closures| && after.closures[t].client == client
    && g.record <= after.record
    && (t in after.live ==> NoOldReads(after, client, t))
    && (t !in after.live ==> |after.record| > |g.record|
                             && after.record[|after.record| - 1].timer == t
                             && Final(after.record[|after.record| - 1]))
  }

  lemma FiredAlive(g: Gateway, u: TimerId, t: TimerId)
    requires Matched(g) && t in g.live && t < |g.closures| && NoOldReads(g, g.closures[t].client, t)
    requires u in g.live && u < |g.closures|
    ensures Lasts(g, Fired(g, u), t, g.closures[t].client)
  {
    assert Kept(g, t) && Kept(g, u);
    if u != t {
      OthersCleared(g, t, g.closures[u].client);
    }
  }

  lemma AnsweredAlive(g: Gateway, u: TimerId, found: Found, t: TimerId)
    requires Matched(g) && t in g.live && t < |g.closures| && NoOldReads(g, g.closures[t].client, t)
    requires u in g.pending && u < |g.closures|
    ensures Lasts(g, Answered(g, u, found), t, g.closures[t].client)
  {
    if u != t {
      OthersCleared(g, t, g.closures[u].client);
    }
  }

  lemma StepAlive(g: Gateway, e: Event, t: TimerId)
    requires Matched(g) && t in g.live && t < |g.closures| && NoOldReads(g, g.closures[t].client, t)
    requires !Leaves(e, g.closures[t].client)
    ensures Lasts(g, Step(g, e), t, g.closures[t].client)
  {
    match e
    case Subscribe(client, _) =>
      OthersCleared(g, t, client);
    case Disconnect(client) =>
      OthersCleared(g, t, client);
    case Elapse(u) =>
      if u in g.live && u < |g.closures| {
        FiredAlive(g, u, t);
      }
    case Answer(u, found) =>
      if u in g.pending && u < |g.closures| {
        AnsweredAlive(g, u, found, t);
      }
  }

  lemma {:induction false} Prefixed(g: Gateway, events: seq<Event>)
    ensures g.record <= Run(g, events).record
    decreases |events|
  {
    if events != [] {
      assert g.record <= Step(g, events[0]).record;
      Prefixed(Step(g, events[0]), events[1..]);
    }
  }

  /** If `t` is not live any more, it has sent its final message. */
  ghost predicate EndedItself(g: Gateway, later: Gateway, t: TimerId) {
    t !in later.live ==>
      exists i :: |g.record| <= i < |later.record| && later.record[i].timer == t && Final(later.record[i])
  }

  /** Nothing among the events makes the client give up its subscription. */
  ghost predicate NobodyLeaves(events: seq<Event>, client: Client) {
    forall k | 0 <= k < |events| :: !Leaves(events[k], client)
  }

  lemma {:induction false} EndsForAReason(g: Gateway, events: seq<Event>, t: TimerId)
    requires Matched(g) && t in g.live && t < |g.closures| && NoOldReads(g, g.closures[t].client, t)
    requires NobodyLeaves(events, g.closures[t].client)
    ensures EndedItself(g, Run(g, events), t)
    decreases |events|
  {
    if events != [] {
      var e, client := events[0], g.closures[t].client;
      assert !Leaves(e, client);
      StepAlive(g, e, t);
      StepMatched(g, e);
      var after := Step(g, e);
      Prefixed(after, events[1..]);
      if t in after.live {
        EndsForAReason(after, events[1..], t);
      } else {
        var i := |after.record| - 1;
        assert Run(g, events).record[i] == after.record[i];
      }
    }
  }

  /** A read by another timer of the same client, live or not, clears the subscription if it finds a reply. */
  lemma OldReadEnds(g: Gateway, t: TimerId, u: TimerId, chat: Chat)
    requires Matched(g) && t in g.live && t < |g.closures| && chat.agentStatus.HasReplied?
    requires u in g.pending && u != t && u < |g.closures| && g.closures[u].client == g.closures[t].client
    ensures var after := Run(g, [Answer(u, Present(chat))]);
            && t !in after.live && g.closures[t].client !in after.subscriptions
            && after.record == g.record + [Line(u, Updated(chat))]
            && !EndedItself(g, after, t)
  {
    assert Kept(g, t);
    OneStep(g, Answer(u, Present(chat)));
  }

  /**
   A subscription is safe, in that it ends only when its client leaves or after its own
   final message, if and only if no read by another timer of its client is under way.
   */
  lemma SafeIfAndOnlyIfNoOldReads(g: Gateway, t: TimerId)
    requires Matched(g) && t in g.live && t < |g.closures|
    ensures NoOldReads(g, g.closures[t].client, t) <==>
            forall events | NobodyLeaves(events, g.closures[t].client) :: EndedItself(g, Run(g, events), t)
  {
    hide EndedItself, Run, Matched;
    var client := g.closures[t].client;
    if NoOldReads(g, client, t) {
      forall events | NobodyLeaves(events, client) ensures EndedItself(g, Run(g, events), t) {
        EndsForAReason(g, events, t);
      }
    } else {
      var u :| u in g.pending && u != t && !(u < |g.closures| && g.closures[u].client != client);
      PendingIsKnown(g, u);
      OldReadEnds(g, t, u, REPLIED);
      var events := [Answer(u, Present(REPLIED))];
      assert NobodyLeaves(events, client);
      assert !EndedItself(g, Run(g, events), t);
    }
  }

  lemma PendingIsKnown(g: Gateway, u: TimerId)
    requires Matched(g) && u in g.pending
    ensures u < |g.closures|
  {
    assert Kept(g, u);
  }

  /** So a new subscription is safe if and only if its client has no read under way when it subscribes. */
  lemma NewSubscriptionIsSafe(g: Gateway, client: Client, chatId: Id)
    requires Matched(g)
    ensures var renewed, t := Subscribed(g, client, chatId), |g.closures|;
            && t in renewed.live && renewed.closures[t].client == client
            && ((forall u | u in g.pending && u < |g.closures| :: g.closures[u].client != client) <==>
                (forall events | NobodyLeaves(events, client) :: EndedItself(renewed, Run(renewed, events), t)))
  {
    hide EndedItself, Run;
    var renewed, t := Subscribed(g, client, chatId), |g.closures|;
    SubscribedMatched(g, client, chatId);
    SafeIfAndOnlyIfNoOldReads(renewed, t);
    forall u | u in g.pending ensures u < |g.closures| {
      PendingIsKnown(g, u);
    }
  }

  /**
   When it is not: any read under way of the client, by its live timer or by one that was
   cleared, that finds a reply clears the new timer before it has sent anything.
   */
  lemma LateReadEndsNewSubscription(g: Gateway, u: TimerId, chatId: Id, chat: Chat)
    requires Matched(g) && u < |g.closures| && u in g.pending && chat.agentStatus.HasReplied?
    ensures var client, t := g.closures[u].client, |g.closures|;
            var renewed := Subscribed(g, client, chatId);
            var after := Run(renewed, [Answer(u, Present(chat))]);
            && t in renewed.live && t !in after.live && client !in after.subscriptions
            && after.record == g.record + [Line(u, Updated(chat))]
  {
    var client, t := g.closures[u].client, |g.closures|;
    SubscribedMatched(g, client, chatId);
    OldReadEnds(Subscribed(g, client, chatId), t, u, chat);
  }
}
