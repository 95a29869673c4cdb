/**
 The token service of the backend: a cached access token, and one shared promise for
 all callers that arrive while a new one is being fetched. Code between two awaits
 runs at one instant; anything may happen at an await. Times are in seconds.
 */
module TypeScriptTokens {
  import opened Wrappers

  const REFRESH_BUFFER := 30

  type FetchId = nat

  /** The service's fields; a promise is named by the number of its fetch, and an expiry of None is NaN. */
  datatype Cache = Cache(token: Option<string>, expiresAt: Option<real>, inflight: Option<FetchId>)

  const EMPTY := Cache(None, Some(0.0), None)

  /** What fetchNewToken ends with; either field may be missing from Keycloak's answer. */
  datatype Outcome = Data(token: Option<string>, expiresIn: Option<real>) | Rejected

  predicate Fresh(c: Cache, now: real) {
    && c.token.Some? && c.token.value != ""
    && c.expiresAt.Some? && now.Floor as real < c.expiresAt.value - REFRESH_BUFFER as real
  }

  /** The end of a fetch that was started at `started`. */
  function Settled(c: Cache, started: real, outcome: Outcome): Cache {
    match outcome
    case Data(token, expiresIn) =>
      c.(token := token,
         expiresAt := match expiresIn case Some(e) => Some(started.Floor as real + e) case None => None)
    case Rejected => c
  }

  /** Whether a call has to start a fetch of its own. */
  predicate Starts(c: Cache, now: real) {
    !Fresh(c, now) && c.inflight == None
  }

  /** What a call of getToken is given: a token, or the promise of a fetch. */
  datatype Answer = Cached(token: string) | Joined(fetch: FetchId)

  function Answered(c: Cache, now: real, fetches: nat): Answer {
    if Fresh(c, now) then Cached(c.token.value)
    else if c.inflight.Some? then Joined(c.inflight.value)
    else Joined(fetches)
  }

  // ----- the service object -----

  class KeycloakTokenService {
    var accessToken: Option<string>
    var expiresAt: Option<real>
    var inflightRequest: Option<FetchId>

    /** The start of every fetch so far: the `now` its closure holds. */
    var started: seq<real>

    constructor ()
      ensures Value() == EMPTY && started == []
    {
      accessToken, expiresAt, inflightRequest, started := None, Some(0.0), None, [];
    }

    function Value(): Cache
      reads this
    {
      Cache(accessToken, expiresAt, inflightRequest)
    }

    method GetToken(now: real) returns (answer: Answer)
      modifies `inflightRequest, `started
      ensures answer == Answered(old(Value()), now, |old(started)|)
      ensures Value() == old(Value()).(inflight := if answer.Joined? then Some(answer.fetch) else old(inflightRequest))
      ensures started == old(started) + if Starts(old(Value()), now) then [now] else []
    {
      if accessToken.Some? && accessToken.value != "" && expiresAt.Some?
         && now.Floor as real < expiresAt.value - REFRESH_BUFFER as real {
        return Cached(accessToken.value);
      }
      if inflightRequest == None {
        inflightRequest := Some(|started|);
        started := started + [now];
      }
      return Joined(inflightRequest.value);
    }

    /** The rest of fetchNewToken, from Keycloak's answer or the failure to get one. */
    method FinishFetch(fetch: FetchId, outcome: Outcome) returns (result: Result<Option<string>, ()>)
      requires fetch < |started|
      modifies `accessToken, `expiresAt
      ensures Value() == Settled(old(Value()), started[fetch], outcome)
      ensures result == if outcome.Data? then Ok(outcome.token) else Err(())
    {
      match outcome
      case Data(token, expiresIn) =>
        accessToken := token;
        expiresAt := match expiresIn case Some(e) => Some(started[fetch].Floor as real + e) case None => None;
        result := Ok(accessToken);
      case Rejected =>
        result := Err(());
    }

    /** The callback of `finally`. */
    method ClearInflight()
      modifies `inflightRequest
      ensures Value() == old(Value()).(inflight := None)
    {
      inflightRequest := None;
    }
  }

  // ----- callers -----

  /** A shared promise settles after its fetch has ended and `finally` has run. */
  datatype Progress = Running | Ended(outcome: Outcome) | Shared(outcome: Outcome)

  /** `issued` is when Keycloak made the token, from which `expiresIn` counts. */
  datatype Fetch = Fetch(started: real, issued: real, progress: Progress)

  /** One call of getToken; for a cached token, with the fetch that stored it. */
  datatype CallRecord = CallRecord(at: real, answer: Answer, source: FetchId)

  datatype World = World(now: real, cache: Cache, fetches: seq<Fetch>, source: FetchId, calls: seq<CallRecord>)

  datatype Event =
    | Pass(seconds: real)
    | Call
    | End(fetch: FetchId, issued: real, outcome: Outcome)
    | Finally(fetch: FetchId)

  function Begun(now: real): World {
    World(now, EMPTY, [], 0, [])
  }

  predicate Enabled(w: World, e: Event) {
    match e
    case Pass(seconds) => seconds >= 0.0
    case Call => true
    case End(k, issued, _) =>
      k < |w.fetches| && w.fetches[k].progress.Running? && w.fetches[k].started <= issued <= w.now
    case Finally(k) => k < |w.fetches| && w.fetches[k].progress.Ended?
  }

  function Called(w: World): World {
    var answer := Answered(w.cache, w.now, |w.fetches|);
    var calls := w.calls + [CallRecord(w.now, answer, w.source)];
    match answer
    case Cached(_) => w.(calls := calls)
    case Joined(k) =>
      w.(calls := calls,
         cache := w.cache.(inflight := Some(k)),
         fetches := w.fetches + if Starts(w.cache, w.now) then [Fetch(w.now, w.now, Running)] else [])
  }

  function Step(w: World, e: Event): World
    requires Enabled(w, e)
  {
    match e
    case Pass(seconds) => w.(now := w.now + seconds)
    case Call => Called(w)
    case End(k, issued, outcome) =>
      w.(cache := Settled(w.cache, w.fetches[k].started, outcome),
         fetches := w.fetches[k := w.fetches[k].(issued := issued, progress := Ended(outcome))],
         source := if outcome.Data? then k else w.source)
    case Finally(k) =>
      w.(cache := w.cache.(inflight := None),
         fetches := w.fetches[k := w.fetches[k].(progress := Shared(w.fetches[k].progress.outcome))])
  }

  function Run(w: World, events: seq<Event>): Option<World>
    decreases |events|
  {
    if events == [] then Some(w)
    else if Enabled(w, events[0]) then Run(Step(w, events[0]), events[1..])
    else None
  }

  // ----- what holds in every run -----

  /** The fetch in flight is the newest one, and every other has been shared. */
  ghost predicate OneInFlight(w: World) {
    && (w.cache.inflight.Some? ==> w.cache.inflight.value == |w.fetches| - 1)
    && (forall k | 0 <= k < |w.fetches| :: !w.fetches[k].progress.Shared? <==> w.cache.inflight == Some(k))
  }

  /** The outcome with which a fetch filled the cache. */
  predicate Filled(f: Fetch) {
    !f.progress.Running? && f.progress.outcome.Data?
  }

  function Expiry(f: Fetch): Option<real>
    requires Filled(f)
  {
    match f.progress.outcome.expiresIn
    case Some(e) => Some(f.started.Floor as real + e)
    case None => None
  }

  /** The cached token and its expiry came together from one fetch. */
  ghost predicate FromSource(w: World) {
    w.cache.token.Some? ==>
      && w.source < |w.fetches| && Filled(w.fetches[w.source])
      && w.cache.token == w.fetches[w.source].progress.outcome.token
      && w.cache.expiresAt == Expiry(w.fetches[w.source])
  }

  /** A fetch that gave a usable token, and the whole second from which that token is replaced. */
  predicate Issues(f: Fetch) {
    && Filled(f) && Expiry(f).Some?
    && f.progress.outcome.token.Some? && f.progress.outcome.token.value != ""
  }

  function Due(f: Fetch): real
    requires Issues(f)
  {
    Expiry(f).value - REFRESH_BUFFER as real
  }

  /** While nothing is in flight, a usable token is either the cached one or due. */
  ghost predicate Guarded(w: World) {
    forall k | 0 <= k < |w.fetches| && Issues(w.fetches[k]) ::
      || (w.cache.token == w.fetches[k].progress.outcome.token && w.cache.expiresAt == Expiry(w.fetches[k]))
      || w.now.Floor as real >= Due(w.fetches[k])
  }

  ghost predicate Spaced(fetches: seq<Fetch>) {
    forall i, j | 0 <= i < j < |fetches| && Issues(fetches[i]) :: fetches[j].started.Floor as real >= Due(fetches[i])
  }

  /** A cached answer names its fetch, and was given before that token was due. */
  predicate Dated(r: CallRecord, fetches: seq<Fetch>) {
    match r.answer
    case Cached(token) =>
      && r.source < |fetches| && Issues(fetches[r.source])
      && fetches[r.source].progress.outcome.token == Some(token)
      && r.at.Floor as real < Due(fetches[r.source])
    case Joined(k) => k < |fetches|
  }

  ghost predicate InTime(w: World) {
    && (forall k | 0 <= k < |w.fetches| :: w.fetches[k].started <= w.now && w.fetches[k].started <= w.fetches[k].issued)
    && (forall r | r in w.calls :: Dated(r, w.fetches))
  }

  ghost predicate Inv(w: World) {
    OneInFlight(w) && FromSource(w) && Guarded(w) && Spaced(w.fetches) && InTime(w)
  }

  /** Nothing else was due later than a call that starts a fetch. */
  lemma StartIsLate(w: World)
    requires Inv(w) && Starts(w.cache, w.now)
    ensures forall k | 0 <= k < |w.fetches| && Issues(w.fetches[k]) :: w.now.Floor as real >= Due(w.fetches[k])
  {
  }

  lemma CallKeeps(w: World)
    requires Inv(w)
    ensures Inv(Called(w))
  {
    var after := Called(w);
    if Starts(w.cache, w.now) {
      StartIsLate(w);
    }
    assert OneInFlight(after);
    assert Spaced(after.fetches);
    var r := after.calls[|w.calls|];
    assert Dated(r, after.fetches);
    forall q | q in after.calls ensures Dated(q, after.fetches) {
      if q != r {
        assert q in w.calls && Dated(q, w.fetches);
      }
    }
  }

  lemma EndKeeps(w: World, k: FetchId, issued: real, outcome: Outcome)
    requires Inv(w) && Enabled(w, End(k, issued, outcome))
    ensures Inv(Step(w, End(k, issued, outcome)))
  {
    var after := Step(w, End(k, issued, outcome));
    var before := w.fetches;
    assert k == |w.fetches| - 1;
    assert forall i | 0 <= i < |before| && i != k :: after.fetches[i] == before[i];
    assert Spaced(after.fetches);
    assert Guarded(after) by {
      forall i | 0 <= i < |before| && i != k && Issues(before[i]) ensures w.now.Floor as real >= Due(before[i]) {
        assert before[k].started <= w.now;
      }
    }
    forall r | r in w.calls ensures Dated(r, after.fetches) {
      assert Dated(r, w.fetches);
    }
  }

  lemma FinallyKeeps(w: World, k: FetchId)
    requires Inv(w) && Enabled(w, Finally(k))
    ensures Inv(Step(w, Finally(k)))
  {
    var after := Step(w, Finally(k));
    assert k == |w.fetches| - 1;
    assert forall i | 0 <= i < |w.fetches| ::
      Issues(after.fetches[i]) == Issues(w.fetches[i]) && after.fetches[i].started == w.fetches[i].started;
    assert forall i | 0 <= i < |w.fetches| && Issues(w.fetches[i]) ::
      Due(after.fetches[i]) == Due(w.fetches[i])
      && after.fetches[i].progress.outcome == w.fetches[i].progress.outcome;
    forall r | r in w.calls ensures Dated(r, after.fetches) {
      assert Dated(r, w.fetches);
    }
  }

  lemma PassKeeps(w: World, seconds: real)
    requires Inv(w) && seconds >= 0.0
    ensures Inv(w.(now := w.now + seconds))
  {
    assert w.now.Floor <= (w.now + seconds).Floor;
  }

  lemma StepKeeps(w: World, e: Event)
    requires Inv(w) && Enabled(w, e)
    ensures Inv(Step(w, e))
  {
    match e
    case Pass(seconds) => PassKeeps(w, seconds);
    case Call => CallKeeps(w);
    case End(k, issued, outcome) => EndKeeps(w, k, issued, outcome);
    case Finally(k) => FinallyKeeps(w, k);
  }

  lemma {:induction false} RunKeeps(w: World, events: seq<Event>)
    requires Inv(w) && Run(w, events).Some?
    ensures Inv(Run(w, events).value)
    decreases |events|
  {
    if events != [] {
      StepKeeps(w, events[0]);
      RunKeeps(Step(w, events[0]), events[1..]);
    }
  }

  /** At any moment at most one fetch is in flight, whatever the callers do. */
  lemma OneFetch(start: real, events: seq<Event>, j: FetchId, k: FetchId)
    requires Run(Begun(start), events).Some?
    requires var fetches := Run(Begun(start), events).value.fetches;
             && j < |fetches| && !fetches[j].progress.Shared?
             && k < |fetches| && !fetches[k].progress.Shared?
    ensures j == k
  {
    RunKeeps(Begun(start), events);
  }

  /** No fetch starts until 30 s before the stored expiry of any usable token received earlier. */
  lemma FetchesAreSpaced(start: real, events: seq<Event>, i: FetchId, j: FetchId)
    requires Run(Begun(start), events).Some?
    requires i < j < |Run(Begun(start), events).value.fetches|
    requires Issues(Run(Begun(start), events).value.fetches[i])
    ensures var f, g := Run(Begun(start), events).value.fetches[i], Run(Begun(start), events).value.fetches[j];
            g.started.Floor as real
            >= f.started.Floor as real + f.progress.outcome.expiresIn.value - 30.0
  {
    RunKeeps(Begun(start), events);
  }

  // ----- what the callers get -----

  /** How far a later state has come from an earlier one. */
  ghost predicate Extends(w: World, later: World) {
    && w.calls <= later.calls && |w.fetches| <= |later.fetches| && w.now <= later.now
    && forall k | 0 <= k < |w.fetches| ::
         && later.fetches[k].started == w.fetches[k].started
         && (!w.fetches[k].progress.Running? ==> later.fetches[k].issued == w.fetches[k].issued
                                                 && !later.fetches[k].progress.Running?
                                                 && later.fetches[k].progress.outcome == w.fetches[k].progress.outcome)
         && (w.fetches[k].progress.Shared? ==> later.fetches[k].progress.Shared?)
  }

  lemma {:induction false} RunExtends(w: World, events: seq<Event>)
    requires Run(w, events).Some?
    ensures Extends(w, Run(w, events).value)
    decreases |events|
  {
    if events != [] {
      assert Extends(w, Step(w, events[0]));
      RunExtends(Step(w, events[0]), events[1..]);
    }
  }

  function Calls(events: seq<Event>): nat {
    if events == [] then 0 else (if events[0].Call? then 1 else 0) + Calls(events[1..])
  }

  /** Every call is given a token or a promise. */
  lemma {:induction false} EveryCallIsAnswered(w: World, events: seq<Event>)
    requires Run(w, events).Some?
    ensures |Run(w, events).value.calls| == |w.calls| + Calls(events)
    decreases |events|
  {
    if events != [] {
      EveryCallIsAnswered(Step(w, events[0]), events[1..]);
    }
  }

  /** What a call's awaited promise has given its caller so far. */
  function Received(w: World, call: nat): Option<Outcome>
    requires call < |w.calls|
  {
    match w.calls[call].answer
    case Cached(token) => Some(Data(Some(token), None))
    case Joined(k) =>
      if k < |w.fetches| && w.fetches[k].progress.Shared? then Some(w.fetches[k].progress.outcome) else None
  }

  /**
   All callers that were given the same promise get the same outcome, at whatever
   moments they look, and whatever is fetched or cached in between.
   */
  lemma JoinedShareOutcome(start: real, events: seq<Event>, later: seq<Event>, a: nat, b: nat)
    requires Run(Begun(start), events).Some? && Run(Run(Begun(start), events).value, later).Some?
    requires var w := Run(Begun(start), events).value;
             var w' := Run(w, later).value;
             && a < |w.calls| && Received(w, a).Some?
             && b < |w'.calls| && Received(w', b).Some?
             && w'.calls[b].answer.Joined? && w.calls[a].answer == w'.calls[b].answer
    ensures var w := Run(Begun(start), events).value;
            Received(w, a) == Received(Run(w, later).value, b)
  {
    RunExtends(Run(Begun(start), events).value, later);
  }

  /**
   A call that finds no fresh token joins the fetch in flight if there is one, and
   otherwise starts the next: it never gets an outcome that was already given out, so
   the call after a failed fetch tries again.
   */
  lemma CallNeverReuses(start: real, events: seq<Event>)
    requires Run(Begun(start), events).Some?
    requires var w := Run(Begun(start), events).value; !Fresh(w.cache, w.now)
    ensures var w := Run(Begun(start), events).value;
            var after := Called(w);
            var answer := after.calls[|w.calls|].answer;
            && answer.Joined? && answer.fetch == |after.fetches| - 1
            && !after.fetches[answer.fetch].progress.Shared?
            && (answer.fetch == |w.fetches| <==> forall k | 0 <= k < |w.fetches| :: w.fetches[k].progress.Shared?)
  {
    RunKeeps(Begun(start), events);
    var w := Run(Begun(start), events).value;
    if w.cache.inflight.Some? {
      assert !w.fetches[w.cache.inflight.value].progress.Shared?;
    }
  }

  /** However many fetches fail, and whatever else happens meanwhile, they leave token and expiry as they were. */
  lemma {:induction false} FailureKeepsCache(w: World, events: seq<Event>)
    requires Run(w, events).Some?
    requires forall k | 0 <= k < |events| && events[k].End? :: events[k].outcome.Rejected?
    ensures var later := Run(w, events).value;
            later.cache.token == w.cache.token && later.cache.expiresAt == w.cache.expiresAt
    decreases |events|
  {
    if events != [] {
      FailureKeepsCache(Step(w, events[0]), events[1..]);
    }
  }

  function Ceiling(x: real): int {
    -((-x).Floor)
  }

  /** When Keycloak stops accepting a fetched token. */
  function TrueExpiry(f: Fetch): real
    requires Issues(f)
  {
    f.issued + f.progress.outcome.expiresIn.value
  }

  /**
   Because the expiry is stamped before the request, every token served from the cache
   has more than 30 s to live, whatever the latency and although the clock is read in
   whole seconds; less only by what a lifetime that is no whole number lacks to the next.
   */
  lemma ServedLife(start: real, events: seq<Event>, r: CallRecord)
    requires Run(Begun(start), events).Some?
    requires r in Run(Begun(start), events).value.calls && r.answer.Cached?
    ensures var fetches := Run(Begun(start), events).value.fetches;
            && r.source < |fetches| && Issues(fetches[r.source])
            && var f := fetches[r.source];
               var lifetime := f.progress.outcome.expiresIn.value;
               && f.progress.outcome.token == Some(r.answer.token)
               && TrueExpiry(f) - r.at > 30.0 - (Ceiling(lifetime) as real - lifetime)
  {
    RunKeeps(Begun(start), events);
    var w := Run(Begun(start), events).value;
    assert Dated(r, w.fetches);
    var f := w.fetches[r.source];
    WholeSeconds(r.at, f.started, f.progress.outcome.expiresIn.value);
  }

  lemma WholeSeconds(at: real, started: real, lifetime: real)
    requires at.Floor as real < started.Floor as real + lifetime - REFRESH_BUFFER as real
    ensures started + lifetime - at > REFRESH_BUFFER as real - (Ceiling(lifetime) as real - lifetime)
  {
    var n := Ceiling(lifetime);
    assert lifetime <= n as real;
    assert at.Floor as real < (started.Floor + n - REFRESH_BUFFER) as real;
    assert at.Floor + 1 <= started.Floor + n - REFRESH_BUFFER;
  }
}
