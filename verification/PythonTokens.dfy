/**
 The token service of the ticket-agent and of the mcp-server: a cached access token
 behind a double-checked lock. Any number of callers run at once; they take turns at
 their awaits, which are the acquisition of the lock and the request itself.
 Times are in seconds, and the clock does not run backwards.
 */
module PythonTokens {
  import opened Wrappers
  import opened Contracts

  const REFRESH_BUFFER := 30.0

  /** The service's fields; its lock is an asyncio.Lock. */
  datatype Cache = Cache(token: Option<string>, expiresAt: real, locked: bool)

  const EMPTY := Cache(None, 0.0, false)

  /** How a request ends: without `expires_in` in the answer, or without any answer to use. */
  datatype Response = Complete(token: string, expiresIn: real) | NoExpiry(token: string) | Failed

  /** The test made before the lock and again inside it. */
  predicate Fresh(c: Cache, now: real) {
    Truthy(c.token) && now < c.expiresAt - REFRESH_BUFFER
  }

  /** What a request's end does to the fields: the token is assigned before `expires_in` is looked up. */
  function Stored(c: Cache, now: real, response: Response): Cache {
    match response
    case Complete(token, expiresIn) => Cache(Some(token), now + expiresIn, false)
    case NoExpiry(token) => Cache(Some(token), c.expiresAt, false)
    case Failed => c.(locked := false)
  }

  // ----- the service object -----

  /** get_token, cut at its awaits. */
  class KeycloakTokenService {
    var accessToken: Option<string>
    var expiresAt: real
    var locked: bool

    constructor ()
      ensures Value() == EMPTY
    {
      accessToken, expiresAt, locked := None, 0.0, false;
    }

    function Value(): Cache
      reads this
    {
      Cache(accessToken, expiresAt, locked)
    }

    /** Up to the lock: a token to return, or None to wait for the lock. */
    method FastPath(now: real) returns (token: Option<string>)
      ensures token == if Fresh(Value(), now) then accessToken else None
    {
      token := None;
      if accessToken.Some? && accessToken.value != "" && now < expiresAt - REFRESH_BUFFER {
        token := accessToken;
      }
    }

    /** From the acquisition on: a token to return, or None to make a request with the lock held. */
    method AfterAcquire(now: real) returns (token: Option<string>)
      requires !locked
      modifies `locked
      ensures Value() == old(Value()).(locked := !Fresh(old(Value()), now))
      ensures token == if Fresh(old(Value()), now) then accessToken else None
    {
      token := FastPath(now);
      locked := token == None;
    }

    /** From the end of the request on; Err is the exception that reaches the caller. */
    method AfterRequest(now: real, response: Response) returns (token: Result<string, ()>)
      requires locked
      modifies this
      ensures Value() == Stored(old(Value()), now, response)
      ensures token == if response.Complete? then Ok(response.token) else Err(())
    {
      locked := false;
      token := Err(());
      match response
      case Complete(t, expiresIn) =>
        accessToken := Some(t);
        expiresAt := now + expiresIn;
        token := Ok(t);
      case NoExpiry(t) =>
        accessToken := Some(t);
      case Failed =>
    }
  }

  // ----- callers -----

  type Caller = nat

  datatype Phase = Waiting | Requesting(sent: real)

  /** A request that has ended; `issued` is when Keycloak made the token, from which `expiresIn` counts. */
  datatype Fetch = Fetch(sent: real, issued: real, ended: real, response: Response)

  /** A token returned out of the cache, and the fetch that stored both it and its expiry, if one did. */
  datatype Serving = Serving(at: real, token: string, source: Option<nat>)

  datatype World = World(
    now: real,
    cache: Cache,
    callers: map<Caller, Phase>,
    source: Option<nat>,
    fetches: seq<Fetch>,
    served: seq<Serving>)

  datatype Event =
    | Pass(seconds: real)
    | Call(caller: Caller)
    | Acquire(caller: Caller)
    | Respond(caller: Caller, issued: real, response: Response)
    | Cancel(caller: Caller)

  function Begun(now: real): World {
    World(now, EMPTY, map[], None, [], [])
  }

  function Served(w: World): World
    requires w.cache.token.Some?
  {
    w.(served := w.served + [Serving(w.now, w.cache.token.value, w.source)])
  }

  /** A cancelled caller that waits for the lock just leaves; one that is cancelled during its request has Failed. */
  predicate Enabled(w: World, e: Event) {
    match e
    case Pass(seconds) => seconds >= 0.0
    case Call(c) => c !in w.callers
    case Acquire(c) => c in w.callers && w.callers[c].Waiting? && !w.cache.locked
    case Respond(c, issued, _) => c in w.callers && w.callers[c].Requesting? && w.callers[c].sent <= issued <= w.now
    case Cancel(c) => c in w.callers && w.callers[c].Waiting?
  }

  function Responded(w: World, c: Caller, issued: real, response: Response): World
    requires c in w.callers && w.callers[c].Requesting?
  {
    w.(cache := Stored(w.cache, w.now, response),
       callers := w.callers - {c},
       source := match response
                 case Complete(_, _) => Some(|w.fetches|)
                 case NoExpiry(_) => None
                 case Failed => w.source,
       fetches := w.fetches + [Fetch(w.callers[c].sent, issued, w.now, response)])
  }

  function Step(w: World, e: Event): World
    requires Enabled(w, e)
  {
    match e
    case Pass(seconds) => w.(now := w.now + seconds)
    case Call(c) => if Fresh(w.cache, w.now) then Served(w) else w.(callers := w.callers[c := Waiting])
    case Acquire(c) =>
      if Fresh(w.cache, w.now)
      then Served(w).(callers := w.callers - {c})
      else w.(cache := w.cache.(locked := true), callers := w.callers[c := Requesting(w.now)])
    case Respond(c, issued, response) => Responded(w, c, issued, response)
    case Cancel(c) => w.(callers := w.callers - {c})
  }

  /** The state after some events, unless one of them cannot happen. */
  function Run(w: World, events: seq<Event>): Option<World>
    decreases |events|
  {
    if events == [] then Some(w)
    else if Enabled(w, events[0]) then Run(Step(w, events[0]), events[1..])
    else None
  }

  // ----- what holds in every run -----

  /** Exactly the holder of the lock has a request in flight. */
  ghost predicate Exclusive(w: World) {
    && (forall c, d | c in w.callers && d in w.callers ::
          w.callers[c].Requesting? && w.callers[d].Requesting? ==> c == d)
    && (w.cache.locked <==> exists c :: c in w.callers && w.callers[c].Requesting?)
  }

  predicate Issues(r: Response) {
    r.Complete? && r.token != ""
  }

  /** The moment from which a fetched token is replaced. */
  function Due(f: Fetch): real
    requires f.response.Complete?
  {
    f.ended + f.response.expiresIn - REFRESH_BUFFER
  }

  /** Every stored token is still the cached one, or its time to be replaced has come. */
  ghost predicate Guarded(w: World) {
    forall i | 0 <= i < |w.fetches| && Issues(w.fetches[i].response) ::
      || (Truthy(w.cache.token) && w.cache.expiresAt - REFRESH_BUFFER == Due(w.fetches[i]))
      || w.now >= Due(w.fetches[i])
  }

  /** A request in flight was sent after everything stored before was due. */
  ghost predicate Late(w: World, c: Caller) {
    c in w.callers && w.callers[c].Requesting? ==>
      && (forall i | 0 <= i < |w.fetches| && Issues(w.fetches[i].response) ::
            w.callers[c].sent >= Due(w.fetches[i]))
      && w.callers[c].sent <= w.now
      && (Truthy(w.cache.token) ==> w.callers[c].sent >= w.cache.expiresAt - REFRESH_BUFFER)
  }

  ghost predicate Spaced(fetches: seq<Fetch>) {
    && (forall i | 0 <= i < |fetches| :: fetches[i].sent <= fetches[i].issued <= fetches[i].ended)
    && (forall i, j | 0 <= i < j < |fetches| && Issues(fetches[i].response) :: fetches[j].sent >= Due(fetches[i]))
  }

  /** The fields are those some fetch stored together. */
  predicate FromSource(w: World) {
    w.source.Some? ==>
      && w.source.value < |w.fetches| && w.fetches[w.source.value].response.Complete?
      && w.cache.token == Some(w.fetches[w.source.value].response.token)
      && w.cache.expiresAt - REFRESH_BUFFER == Due(w.fetches[w.source.value])
  }

  ghost predicate Inv(w: World) {
    && Exclusive(w) && Guarded(w) && Spaced(w.fetches) && FromSource(w)
    && (forall c :: Late(w, c))
  }

  lemma StepExclusive(w: World, e: Event)
    requires Exclusive(w) && Enabled(w, e)
    ensures Exclusive(Step(w, e))
  {
    var after := Step(w, e);
    if w.cache.locked {
      var c :| c in w.callers && w.callers[c].Requesting?;
      if !e.Respond? {
        assert c in after.callers && after.callers[c].Requesting?;
      }
    } else if after.cache.locked {
      assert after.callers[e.caller].Requesting?;
    }
  }

  lemma RespondKeeps(w: World, c: Caller, issued: real, response: Response)
    requires Inv(w) && Enabled(w, Respond(c, issued, response))
    ensures Inv(Responded(w, c, issued, response))
  {
    var after := Responded(w, c, issued, response);
    StepExclusive(w, Respond(c, issued, response));
    assert Late(w, c);
    assert Guarded(after) by {
      forall i | 0 <= i < |w.fetches| && Issues(w.fetches[i].response) ensures w.now >= Due(w.fetches[i]) {
      }
    }
  }

  lemma StepKeeps(w: World, e: Event)
    requires Inv(w) && Enabled(w, e)
    ensures Inv(Step(w, e))
  {
    var after := Step(w, e);
    if e.Respond? {
      RespondKeeps(w, e.caller, e.issued, e.response);
    } else {
      StepExclusive(w, e);
      forall c ensures Late(after, c) {
        assert Late(w, c);
      }
    }
  }

  lemma {:induction false} RunKeeps(w: World, events: seq<Event>)
    requires Inv(w) && Run(w, events).Some?
    ensures Inv(Run(w, events).value)
    decreases |events|
  {
    if events != [] {
      StepKeeps(w, events[0]);
      RunKeeps(Step(w, events[0]), events[1..]);
    }
  }

  /** At any moment at most one request is in flight, whatever the callers do. */
  lemma OneRequest(start: real, events: seq<Event>, c: Caller, d: Caller)
    requires Run(Begun(start), events).Some?
    requires var w := Run(Begun(start), events).value;
             && c in w.callers && w.callers[c].Requesting?
             && d in w.callers && w.callers[d].Requesting?
    ensures c == d
  {
    RunKeeps(Begun(start), events);
  }

  /** A new request is never sent until 30 s before the stored expiry of any token received earlier. */
  lemma RequestsAreSpaced(start: real, events: seq<Event>, i: nat, j: nat)
    requires Run(Begun(start), events).Some?
    requires i < j < |Run(Begun(start), events).value.fetches|
    requires Issues(Run(Begun(start), events).value.fetches[i].response)
    ensures var f, g := Run(Begun(start), events).value.fetches[i], Run(Begun(start), events).value.fetches[j];
            g.sent >= f.ended + f.response.expiresIn - 30.0
  {
    RunKeeps(Begun(start), events);
  }

  /** The calls among some events, and the requests and waits that come to an end among them. */
  function Calls(events: seq<Event>): nat {
    if events == [] then 0 else (if events[0].Call? then 1 else 0) + Calls(events[1..])
  }

  function Ended(events: seq<Event>): nat {
    if events == [] then 0 else (if events[0].Respond? || events[0].Cancel? then 1 else 0) + Ended(events[1..])
  }

  lemma {:induction false} RunAccounts(w: World, events: seq<Event>)
    requires Run(w, events).Some?
    ensures var after := Run(w, events).value;
            |after.served| + |after.callers| + Ended(events) == |w.served| + |w.callers| + Calls(events)
    decreases |events|
  {
    if events != [] {
      StepAccounts(w, events[0]);
      RunAccounts(Step(w, events[0]), events[1..]);
    }
  }

  lemma StepAccounts(w: World, e: Event)
    requires Enabled(w, e)
    ensures |Step(w, e).served| + |Step(w, e).callers| + (if e.Respond? || e.Cancel? then 1 else 0) ==
            |w.served| + |w.callers| + if e.Call? then 1 else 0
  {
    if !e.Pass? {
      Removed(w.callers, e.caller);
      Added(w.callers, e.caller, Waiting);
      Added(w.callers, e.caller, Requesting(w.now));
    }
  }

  lemma Removed(m: map<Caller, Phase>, c: Caller)
    ensures |m - {c}| == if c in m then |m| - 1 else |m|
  {
    assert (m - {c}).Keys == m.Keys - {c};
    assert |(m - {c}).Keys| == |m - {c}| && |m.Keys| == |m|;
  }

  lemma Added(m: map<Caller, Phase>, c: Caller, phase: Phase)
    ensures |m[c := phase]| == if c in m then |m| else |m| + 1
  {
    assert m[c := phase].Keys == m.Keys + {c};
    assert |m[c := phase].Keys| == |m[c := phase]| && |m.Keys| == |m|;
  }

  /** No call is forgotten: each was served, got its own request's outcome, was cancelled, or still waits. */
  lemma EveryCallIsAnswered(start: real, events: seq<Event>)
    requires Run(Begun(start), events).Some?
    ensures var w := Run(Begun(start), events).value;
            Calls(events) == |w.served| + |w.callers| + Ended(events)
  {
    RunAccounts(Begun(start), events);
  }

  // ----- how long a served token still lives -----

  /** The serving names the fetch of its token, and was made before that token was due. */
  predicate Dated(s: Serving, fetches: seq<Fetch>) {
    && s.source.Some? && s.source.value < |fetches|
    && fetches[s.source.value].response.Complete?
    && fetches[s.source.value].response.token == s.token
    && fetches[s.source.value].ended <= s.at < Due(fetches[s.source.value])
  }

  ghost predicate AllDated(w: World) {
    && (forall i | 0 <= i < |w.fetches| :: w.fetches[i].ended <= w.now)
    && (forall s | s in w.served && s.source.Some? :: Dated(s, w.fetches))
  }

  lemma {:induction false} RunDates(w: World, events: seq<Event>)
    requires Inv(w) && AllDated(w) && Run(w, events).Some?
    ensures AllDated(Run(w, events).value)
    decreases |events|
  {
    if events != [] {
      StepKeeps(w, events[0]);
      assert AllDated(Step(w, events[0]));
      RunDates(Step(w, events[0]), events[1..]);
    }
  }

  /** When Keycloak stops accepting a token. */
  function TrueExpiry(f: Fetch): real
    requires f.response.Complete?
  {
    f.issued + f.response.expiresIn
  }

  /**
   Whatever is answered: because the expiry is stamped after the answer, a token that
   is served under its own expiry has more than 30 s less its request's latency to live.
   */
  lemma ServedLife(start: real, events: seq<Event>, s: Serving)
    requires Run(Begun(start), events).Some?
    requires s in Run(Begun(start), events).value.served && s.source.Some?
    ensures var fetches := Run(Begun(start), events).value.fetches;
            && s.source.value < |fetches|
            && var f := fetches[s.source.value];
               && f.response.Complete? && f.response.token == s.token
               && TrueExpiry(f) - s.at > 30.0 - (f.ended - f.sent)
  {
    RunKeeps(Begun(start), events);
    RunDates(Begun(start), events);
    var w := Run(Begun(start), events).value;
    assert Dated(s, w.fetches);
  }

  // ----- when a token is served under an expiry that is not its own -----

  /** The fields that can lend an expiry: an empty token, not yet due. */
  predicate HoldsEmpty(c: Cache, now: real) {
    c.token == Some("") && now < c.expiresAt - REFRESH_BUFFER
  }

  /** A token comes without an expiry, and is stored over an empty one that is not yet due. */
  predicate LendsNow(w: World, e: Event) {
    && e.Respond? && e.response.NoExpiry? && e.response.token != ""
    && HoldsEmpty(w.cache, w.now)
  }

  /** That never happens along a run. */
  predicate NeverLends(w: World, events: seq<Event>)
    decreases |events|
  {
    events != [] && Enabled(w, events[0]) ==>
      !LendsNow(w, events[0]) && NeverLends(Step(w, events[0]), events[1..])
  }

  /** Fields that no fetch stored together are not used. */
  predicate Rightful(w: World) {
    && w.now >= 0.0
    && (w.cache.token.None? ==> w.cache.expiresAt == 0.0)
    && (w.source == None && Truthy(w.cache.token) ==> w.now >= w.cache.expiresAt - REFRESH_BUFFER)
  }

  lemma StepRightful(w: World, e: Event)
    requires Inv(w) && Rightful(w) && Enabled(w, e) && !LendsNow(w, e)
    ensures Rightful(Step(w, e))
    ensures w.served <= Step(w, e).served
    ensures forall i | |w.served| <= i < |Step(w, e).served| :: Step(w, e).served[i].source.Some?
  {
    if e.Respond? {
      assert Late(w, e.caller);
    }
  }

  lemma {:induction false} RunRightful(w: World, events: seq<Event>)
    requires Inv(w) && Rightful(w) && Run(w, events).Some? && NeverLends(w, events)
    ensures var after := Run(w, events).value;
            && Inv(after) && Rightful(after)
            && w.served <= after.served
            && forall i | |w.served| <= i < |after.served| :: after.served[i].source.Some?
    decreases |events|
  {
    if events != [] {
      StepKeeps(w, events[0]);
      StepRightful(w, events[0]);
      RunRightful(Step(w, events[0]), events[1..]);
    }
  }

  /** Unless an expiry is lent, every token is served under its own. */
  lemma ServedUnderOwnExpiry(start: real, events: seq<Event>, s: Serving)
    requires start >= 0.0 && Run(Begun(start), events).Some? && NeverLends(Begun(start), events)
    requires s in Run(Begun(start), events).value.served
    ensures s.source.Some?
  {
    RunRightful(Begun(start), events);
  }

  predicate IsComplete(e: Event) {
    e.Respond? && e.response.Complete?
  }

  /** No Complete answer comes. */
  predicate NoneComplete(events: seq<Event>) {
    forall k | 0 <= k < |events| :: !IsComplete(events[k])
  }

  /** From here, without another Complete answer, a token can be served under an expiry that is not its own. */
  ghost predicate CanLend(w: World) {
    exists events: seq<Event>, i: nat :: LendsBy(w, events, i)
  }

  ghost predicate LendsBy(w: World, events: seq<Event>, i: nat) {
    && NoneComplete(events) && Run(w, events).Some?
    && |w.served| <= i < |Run(w, events).value.served| && Run(w, events).value.served[i].source == None
  }

  /** A token without its own expiry is never served while the fields stay like this. */
  ghost predicate Harmless(w: World) {
    && Inv(w) && Rightful(w)
    && (w.now >= w.cache.expiresAt - REFRESH_BUFFER
        || (Truthy(w.cache.token) && forall c | c in w.callers :: w.callers[c].Waiting?))
  }

  lemma HarmlessStep(w: World, e: Event)
    requires Harmless(w) && Enabled(w, e) && !IsComplete(e)
    ensures Harmless(Step(w, e))
    ensures w.served <= Step(w, e).served
    ensures forall i | |w.served| <= i < |Step(w, e).served| :: Step(w, e).served[i].source.Some?
  {
    StepKeeps(w, e);
    StepRightful(w, e);
  }

  lemma {:induction false} HarmlessRun(w: World, events: seq<Event>)
    requires Harmless(w) && NoneComplete(events) && Run(w, events).Some?
    ensures var after := Run(w, events).value;
            && w.served <= after.served
            && forall i | |w.served| <= i < |after.served| :: after.served[i].source.Some?
    decreases |events|
  {
    if events != [] {
      assert !IsComplete(events[0]);
      HarmlessStep(w, events[0]);
      HarmlessRun(Step(w, events[0]), events[1..]);
    }
  }

  /** Only fields that hold an empty token can do harm, whatever the callers are doing. */
  lemma NotEmptyIsHarmless(w: World)
    requires Inv(w) && Rightful(w) && !HoldsEmpty(w.cache, w.now)
    ensures Harmless(w)
  {
    if w.now < w.cache.expiresAt - REFRESH_BUFFER {
      forall c | c in w.callers ensures w.callers[c].Waiting? {
        assert Late(w, c);
      }
    }
  }

  /**
   Exactly when it happens: a reachable state in which nothing was lent yet, whatever its
   callers are doing, can come to lend an expiry if and only if it holds an empty token
   that is not yet due.
   */
  lemma LendsIfAndOnlyIfEmpty(start: real, events: seq<Event>)
    requires start >= 0.0 && Run(Begun(start), events).Some? && NeverLends(Begun(start), events)
    ensures var w := Run(Begun(start), events).value; CanLend(w) <==> HoldsEmpty(w.cache, w.now)
  {
    hide LendsBy;
    var w := Run(Begun(start), events).value;
    RunRightful(Begun(start), events);
    if HoldsEmpty(w.cache, w.now) {
      EmptyLends(w);
    } else if CanLend(w) {
      var more: seq<Event>, i: nat :| LendsBy(w, more, i);
      NotEmptyIsHarmless(w);
      HarmlessCannotLend(w, more, i);
    }
  }

  lemma HarmlessCannotLend(w: World, events: seq<Event>, i: nat)
    requires Harmless(w)
    ensures !LendsBy(w, events, i)
  {
    if LendsBy(w, events, i) {
      HarmlessRun(w, events);
    }
  }

  /** A step that serves nothing and is no Complete answer may come first. */
  lemma LendsAfter(w: World, e: Event)
    requires Enabled(w, e) && !IsComplete(e) && Step(w, e).served == w.served && CanLend(Step(w, e))
    ensures CanLend(w)
  {
    hide Step, Enabled;
    var events: seq<Event>, i: nat :| LendsBy(Step(w, e), events, i);
    assert ([e] + events)[1..] == events;
    assert LendsBy(w, [e] + events, i);
  }

  /** The caller whose request is in flight gets the token, and its next call is served it. */
  lemma RequestLends(w: World, c: Caller)
    requires Inv(w) && HoldsEmpty(w.cache, w.now) && c in w.callers && w.callers[c].Requesting?
    ensures CanLend(w)
  {
    assert Late(w, c);
    var e := Respond(c, w.now, NoExpiry("t"));
    var after := Step(w, e);
    assert [Call(c)][1..] == [];
    assert Run(after, [Call(c)]) == Some(Served(after));
    assert Served(after).served[|after.served|].source == None;
    assert LendsBy(after, [Call(c)], |after.served|);
    LendsAfter(w, e);
  }

  lemma WaitingLends(w: World, c: Caller)
    requires Inv(w) && HoldsEmpty(w.cache, w.now) && c in w.callers && w.callers[c].Waiting? && !w.cache.locked
    ensures CanLend(w)
  {
    StepKeeps(w, Acquire(c));
    RequestLends(Step(w, Acquire(c)), c);
    LendsAfter(w, Acquire(c));
  }

  /** From every state that holds an empty token, by whichever caller comes first. */
  lemma EmptyLends(w: World)
    requires Inv(w) && HoldsEmpty(w.cache, w.now)
    ensures CanLend(w)
  {
    if w.cache.locked {
      var c :| c in w.callers && w.callers[c].Requesting?;
      RequestLends(w, c);
    } else if c :| c in w.callers {
      assert w.callers[c].Waiting?;
      WaitingLends(w, c);
    } else {
      StepKeeps(w, Call(0));
      WaitingLends(Step(w, Call(0)), 0);
      LendsAfter(w, Call(0));
    }
  }

  // ----- what the answers alone tell of it -----

  /**
   A token without an expiry is stored over an empty token: a NoExpiry answer with a
   token comes after a Complete one without, and no other Complete one comes in between.
   `empty` says whether the last Complete answer before the events was without a token.
   */
  predicate Lends(events: seq<Event>, empty: bool) {
    if events == [] then false
    else
      match events[0]
      case Respond(_, _, Complete(token, _)) => Lends(events[1..], token == "")
      case Respond(_, _, NoExpiry(token)) => (empty && token != "") || Lends(events[1..], empty)
      case _ => Lends(events[1..], empty)
  }

  ghost predicate LendsAt(events: seq<Event>, i: int, j: int) {
    && 0 <= i < j < |events|
    && IsComplete(events[i]) && events[i].response.token == ""
    && events[j].Respond? && events[j].response.NoExpiry? && events[j].response.token != ""
    && forall k | i < k < j :: !IsComplete(events[k])
  }

  ghost predicate LendsFirst(events: seq<Event>, j: int) {
    && 0 <= j < |events|
    && events[j].Respond? && events[j].response.NoExpiry? && events[j].response.token != ""
    && forall k | 0 <= k < j :: !IsComplete(events[k])
  }

  /** The pattern, by position. */
  lemma {:induction false} LendsIsPattern(events: seq<Event>, empty: bool)
    ensures Lends(events, empty) <==>
            (exists i, j :: LendsAt(events, i, j)) || (empty && exists j :: LendsFirst(events, j))
    decreases |events|
  {
    if events != [] {
      var rest := events[1..];
      var now := if IsComplete(events[0]) then events[0].response.token == "" else empty;
      LendsIsPattern(rest, now);
      if i, j :| LendsAt(rest, i, j) {
        assert LendsAt(events, i + 1, j + 1);
      }
      if now && exists j :: LendsFirst(rest, j) {
        var j :| LendsFirst(rest, j);
        if IsComplete(events[0]) {
          assert LendsAt(events, 0, j + 1);
        } else {
          assert LendsFirst(events, j + 1);
        }
      }
      if Lends(events, empty) && !Lends(rest, now) {
        assert LendsFirst(events, 0);
      }
      if i, j :| LendsAt(events, i, j) {
        if i == 0 {
          assert LendsFirst(rest, j - 1);
        } else {
          assert LendsAt(rest, i - 1, j - 1);
        }
      }
      if j :| empty && LendsFirst(events, j) {
        if j > 0 {
          assert LendsFirst(rest, j - 1);
        }
      }
    }
  }

  /** Whether the last Complete answer was without a token. */
  function EmptyAfter(e: Event, empty: bool): bool {
    if IsComplete(e) then e.response.token == "" else empty
  }

  /** Fields that no fetch stored together are not used. */
  ghost predicate Sourced(w: World, empty: bool) {
    && w.now >= 0.0
    && (w.cache.token.None? ==> w.cache.expiresAt == 0.0)
    && (empty ==> !Truthy(w.cache.token))
    && (!empty ==>
          && (w.source == None ==> w.now >= w.cache.expiresAt - REFRESH_BUFFER)
          && (w.source.Some? ==> Truthy(w.cache.token))
          && (forall c | c in w.callers && w.callers[c].Requesting? :: w.now >= w.cache.expiresAt - REFRESH_BUFFER))
  }

  lemma StepSourced(w: World, e: Event, empty: bool)
    requires Inv(w) && Sourced(w, empty) && Enabled(w, e) && !Lends([e], empty)
    ensures Sourced(Step(w, e), EmptyAfter(e, empty))
    ensures !LendsNow(w, e)
  {
    assert [e][0] == e;
    if e.Respond? {
      assert Late(w, e.caller);
    }
  }

  /** Answers without the pattern never lend an expiry, whenever they come. */
  lemma {:induction false} PatternIsNeeded(w: World, events: seq<Event>, empty: bool)
    requires Inv(w) && Sourced(w, empty) && Run(w, events).Some? && !Lends(events, empty)
    ensures NeverLends(w, events)
    decreases |events|
  {
    if events != [] {
      var e := events[0];
      assert [e][1..] == [];
      assert !Lends(events[1..], EmptyAfter(e, empty));
      StepKeeps(w, e);
      StepSourced(w, e, empty);
      PatternIsNeeded(Step(w, e), events[1..], EmptyAfter(e, empty));
    }
  }

  lemma LendingHasPattern(start: real, events: seq<Event>)
    requires start >= 0.0 && Run(Begun(start), events).Some? && !NeverLends(Begun(start), events)
    ensures exists i, j :: LendsAt(events, i, j)
  {
    if !Lends(events, false) {
      PatternIsNeeded(Begun(start), events, false);
    }
    LendsIsPattern(events, false);
  }

  // ----- expired tokens -----

  /** Some run that lends nothing, and whose requests all take at most `latency`, serves a token that has expired. */
  ghost predicate CanServeExpired(latency: real) {
    exists start: real, events, s :: ServesExpired(latency, start, events, s)
  }

  ghost predicate ServesExpired(latency: real, start: real, events: seq<Event>, s: Serving) {
    && start >= 0.0 && Run(Begun(start), events).Some? && NeverLends(Begun(start), events)
    && var w := Run(Begun(start), events).value;
       && Prompt(w.fetches, latency)
       && s in w.served && Dated(s, w.fetches) && s.at >= TrueExpiry(w.fetches[s.source.value])
  }

  predicate Prompt(fetches: seq<Fetch>, latency: real) {
    forall i | 0 <= i < |fetches| :: fetches[i].ended - fetches[i].sent <= latency
  }

  /** The 30 s buffer is exactly the latency the service tolerates. */
  lemma ExpiredIfAndOnlyIfSlow(latency: real)
    ensures CanServeExpired(latency) <==> latency > 30.0
  {
    if CanServeExpired(latency) {
      var start: real, events, s :| ServesExpired(latency, start, events, s);
      ServedLife(start, events, s);
    }
    if latency > REFRESH_BUFFER {
      SlowRequest(latency);
    }
  }

  /** The first call's request, answered after `latency`. */
  lemma SlowFetch(latency: real)
    requires latency >= 0.0
    ensures var response := Complete("t", latency + 1.0);
            Run(Begun(0.0), [Call(0), Acquire(0), Pass(latency), Respond(0, 0.0, response)]) ==
            Some(World(latency, Cache(Some("t"), latency + (latency + 1.0), false), map[], Some(0),
                       [Fetch(0.0, 0.0, latency, response)], []))
  {
    var response := Complete("t", latency + 1.0);
    var events := [Call(0), Acquire(0), Pass(latency), Respond(0, 0.0, response)];
    var w1 := Begun(0.0).(callers := map[0 := Waiting]);
    var w2 := w1.(cache := EMPTY.(locked := true), callers := map[0 := Requesting(0.0)]);
    var w3 := w2.(now := latency);
    assert w3.callers - {0} == map[];
    calc {
      Run(Begun(0.0), events);
      Run(w1, events[1..]);
      { assert events[1..][1..] == events[2..]; assert Step(w1, events[1]) == w2; }
      Run(w2, events[2..]);
      { assert events[2..][1..] == events[3..]; }
      Run(w3, events[3..]);
      { assert events[3..][1..] == []; }
      Some(Responded(w3, 0, 0.0, response));
    }
    assert Responded(w3, 0, 0.0, response).fetches == [Fetch(0.0, 0.0, latency, response)];
  }

  lemma {:induction false} RunSplits(w: World, first: seq<Event>, second: seq<Event>)
    requires Run(w, first).Some?
    ensures Run(w, first + second) == Run(Run(w, first).value, second)
    decreases |first|
  {
    hide Enabled, Step;
    if first == [] {
      assert first + second == second;
    } else {
      RunSplits(Step(w, first[0]), first[1..], second);
      assert (first + second)[1..] == first[1..] + second;
    }
  }

  /** One caller's request takes that long; a second caller comes when the token has just expired. */
  lemma SlowRequest(latency: real)
    requires latency > REFRESH_BUFFER
    ensures CanServeExpired(latency)
  {
    var response := Complete("t", latency + 1.0);
    var first := [Call(0), Acquire(0), Pass(latency), Respond(0, 0.0, response)];
    var second := [Pass(1.0), Call(1)];
    SlowFetch(latency);
    var stored := Run(Begun(0.0), first).value;
    var late := stored.(now := latency + 1.0);
    var s := Serving(latency + 1.0, "t", Some(0));
    var w := late.(served := [s]);
    assert Run(stored, second) == Some(w) by {
      assert second[1..] == [Call(1)] && [Call(1)][1..] == [];
      assert Step(late, Call(1)) == w;
      assert Run(late, [Call(1)]) == Run(w, []);
    }
    RunSplits(Begun(0.0), first, second);
    var events := first + second;
    assert Prompt(w.fetches, latency) && w.served[0] == s && Dated(s, w.fetches);
    assert NeverLends(Begun(0.0), events) by {
      assert forall k | 0 <= k < |events| :: !(events[k].Respond? && events[k].response.NoExpiry?);
      NothingLent(Begun(0.0), events);
    }
    assert ServesExpired(latency, 0.0, events, s);
  }

  lemma {:induction false} NothingLent(w: World, events: seq<Event>)
    requires forall k | 0 <= k < |events| :: !(events[k].Respond? && events[k].response.NoExpiry?)
    ensures NeverLends(w, events)
    decreases |events|
  {
    if events != [] && Enabled(w, events[0]) {
      NothingLent(Step(w, events[0]), events[1..]);
    }
  }
}
