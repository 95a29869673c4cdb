/**
 The ticket-service: epics and tickets are saved under the ids their caller gives
 them, and the tickets of an epic are listed by creation time.
 */
module TicketStore {
  import opened Wrappers
  import opened Contracts
  import opened ArchitectGraph
  import opened PlanContent

  const NAME_WIDTH := 500

  datatype Refusal = BadRequest | TooLong | NotFound

  // ----- what can be stored -----

  predicate NoneEmpty(texts: seq<string>) {
    forall k | 0 <= k < |texts| :: texts[k] != ""
  }

  predicate IsHex(c: char) {
    '0' <= c <= '9' || 'a' <= c <= 'f' || 'A' <= c <= 'F'
  }

  /** Hexadecimal digits in groups of 8, 4, 4, 4 and 12 (section 4 of RFC 9562). */
  predicate HasUuidShape(id: string) {
    && |id| == 36
    && forall k | 0 <= k < 36 :: if k in {8, 13, 18, 23} then id[k] == '-' else IsHex(id[k])
  }

  const NIL_UUID := "00000000-0000-0000-0000-000000000000"

  /** The variant of the standard with one of its versions, or the nil or the max UUID. */
  predicate IsUuid(id: string) {
    && HasUuidShape(id)
    && (id == NIL_UUID
        || (forall k | 0 <= k < 36 :: id[k] in {'-', 'f', 'F'})
        || ('1' <= id[14] <= '8' && id[19] in {'8', '9', 'a', 'b', 'A', 'B'}))
  }

  /** What the request validation accepts. */
  predicate ValidTicket(t: Ticket) {
    IsUuid(t.id) && IsUuid(t.epicId) && t.name != "" && NoneEmpty(t.requirements) && NoneEmpty(t.acceptanceCriteria)
  }

  predicate ValidSolution(s: Solution) {
    && s.architecture != ""
    && forall k | 0 <= k < |s.components| :: s.components[k].tech != "" && NoneEmpty(s.components[k].features)
  }

  predicate ValidEpic(e: Epic) {
    IsUuid(e.id) && e.name != "" && NoneEmpty(e.requirements) && ValidSolution(e.solution)
  }

  /** The name also has to fit its column. */
  predicate Storable(t: Ticket) {
    ValidTicket(t) && |t.name| <= NAME_WIDTH
  }

  predicate StorableEpic(e: Epic) {
    ValidEpic(e) && |e.name| <= NAME_WIDTH
  }

  /** Exactly which tickets are stored. */
  lemma StorableTickets(t: Ticket)
    ensures Storable(t) <==>
            && IsUuid(t.id) && IsUuid(t.epicId) && 1 <= |t.name| <= 500
            && "" !in t.requirements && "" !in t.acceptanceCriteria
  {
    EmptyOrNot(t.requirements);
    EmptyOrNot(t.acceptanceCriteria);
  }

  lemma EmptyOrNot(texts: seq<string>)
    ensures NoneEmpty(texts) <==> "" !in texts
  {
  }

  /** Exactly which epics are stored. */
  lemma StorableEpics(e: Epic)
    ensures StorableEpic(e) <==>
            && IsUuid(e.id) && 1 <= |e.name| <= 500 && "" !in e.requirements
            && e.solution.architecture != ""
            && forall c | c in e.solution.components :: c.tech != "" && "" !in c.features
  {
    EmptyOrNot(e.requirements);
    forall c | c in e.solution.components ensures NoneEmpty(c.features) <==> "" !in c.features {
      EmptyOrNot(c.features);
    }
  }

  /** A random UUID, as Python's uuid4 prints it: version 4, variant 8 to b, in lower case. */
  predicate IsRandomUuid(id: string) {
    && |id| == 36
    && id[8] == '-' && id[13] == '-' && id[18] == '-' && id[23] == '-'
    && id[14] == '4' && (id[19] == '8' || id[19] == '9' || id[19] == 'a' || id[19] == 'b')
    && forall k | 0 <= k < 36 && k !in {8, 13, 18, 23} :: '0' <= id[k] <= '9' || 'a' <= id[k] <= 'f'
  }

  /** The ids that the architect-agent draws are accepted, and no text of another length or without the hyphens is. */
  lemma RandomUuidsAreAccepted(id: string)
    ensures IsRandomUuid(id) ==> IsUuid(id)
    ensures IsUuid(id) ==> |id| == 36 && id[8] == id[13] == id[18] == id[23] == '-'
    ensures IsUuid(id) ==> forall k | 0 <= k < 36 && k !in {8, 13, 18, 23} ::
              '0' <= id[k] <= '9' || 'a' <= id[k] <= 'f' || 'A' <= id[k] <= 'F'
    ensures IsUuid(id) && id[0] != '0' && id[0] != 'f' && id[0] != 'F' ==>
              '1' <= id[14] <= '8' && id[19] in "89abAB"
  {
  }

  // ----- the tickets table: its rows in the order they were created -----

  /** The place of the row with an id. */
  function Position(rows: seq<Ticket>, id: string): (k: Option<nat>)
    ensures k.Some? ==> k.value < |rows| && rows[k.value].id == id
    ensures k == None <==> forall i | 0 <= i < |rows| :: rows[i].id != id
  {
    if rows == [] then None
    else if rows[|rows| - 1].id == id then Some(|rows| - 1)
    else Position(rows[..|rows| - 1], id)
  }

  /** A save: an update in place if the id is there, an insert otherwise. */
  function Saved(rows: seq<Ticket>, t: Ticket): seq<Ticket> {
    match Position(rows, t.id)
    case Some(k) => rows[k := t]
    case None => rows + [t]
  }

  function Created(rows: seq<Ticket>, t: Ticket): seq<Ticket> {
    if Storable(t) then Saved(rows, t) else rows
  }

  function OfEpic(rows: seq<Ticket>, epicId: string): seq<Ticket> {
    if rows == [] then []
    else
      var last := rows[|rows| - 1];
      OfEpic(rows[..|rows| - 1], epicId) + if last.epicId == epicId then [last] else []
  }

  /** One row stands before another. */
  ghost predicate Precedes(rows: seq<Ticket>, s: Ticket, t: Ticket) {
    exists i, j :: 0 <= i < j < |rows| && rows[i] == s && rows[j] == t
  }

  /** `list` is the rows of an epic, each as often as it is there and in the order of `rows`. */
  ghost predicate IsSelection(list: seq<Ticket>, rows: seq<Ticket>, epicId: string) {
    && (forall t :: multiset(list)[t] == if t.epicId == epicId then multiset(rows)[t] else 0)
    && (forall a, b | 0 <= a < b < |list| :: Precedes(rows, list[a], list[b]))
  }

  /** The tickets service; no two of its rows have the same id. */
  class TicketService {
    var rows: seq<Ticket>

    ghost predicate Valid()
      reads this
    {
      UniqueIds(rows)
    }

    constructor ()
      ensures Valid() && rows == []
    {
      rows := [];
    }

    method Create(dto: Ticket) returns (result: Result<Ticket, Refusal>)
      requires Valid()
      modifies this
      ensures Valid()
      ensures rows == Created(old(rows), dto)
      ensures result == if Storable(dto) then Ok(dto)
                        else if ValidTicket(dto) then Err(TooLong) else Err(BadRequest)
      ensures result == Err(TooLong) ==> |dto.name| > 500
    {
      if !ValidTicket(dto) {
        return Err(BadRequest);
      }
      if |dto.name| > NAME_WIDTH {
        return Err(TooLong);
      }
      match Position(rows, dto.id) {
        case Some(k) => rows := rows[k := dto];
        case None => rows := rows + [dto];
      }
      result := Ok(dto);
    }

    /** Exactly the epic's rows, each as often as it is stored, in the order of creation. */
    method FindByEpic(epicId: string) returns (tickets: seq<Ticket>)
      ensures tickets == OfEpic(rows, epicId)
      ensures IsSelection(tickets, rows, epicId)
      ensures forall t :: t in tickets <==> t in rows && t.epicId == epicId
    {
      tickets := OfEpic(rows, epicId);
      OfEpicIsSelection(rows, epicId);
      forall t ensures t in tickets <==> t in rows && t.epicId == epicId {
        OfEpicHas(rows, epicId, t);
      }
    }

    /** The only row with that id, if there is one. */
    method FindOne(id: string) returns (ticket: Result<Ticket, Refusal>)
      requires Valid()
      ensures ticket.Ok? ==> ticket.value in rows && forall t | t in rows :: t.id == id <==> t == ticket.value
      ensures ticket.Err? ==> ticket.error == NotFound && forall t | t in rows :: t.id != id
    {
      match Position(rows, id)
      case Some(k) => ticket := Ok(rows[k]);
      case None => ticket := Err(NotFound);
    }
  }

  function EpicCreated(rows: map<string, Epic>, e: Epic): map<string, Epic> {
    if StorableEpic(e) then rows[e.id := e] else rows
  }

  /** The epics service; each row is stored under its own id. */
  class EpicService {
    var rows: map<string, Epic>

    ghost predicate Valid()
      reads this
    {
      forall id | id in rows :: rows[id].id == id
    }

    constructor ()
      ensures Valid() && rows == map[]
    {
      rows := map[];
    }

    method Create(dto: Epic) returns (result: Result<Epic, Refusal>)
      requires Valid()
      modifies this
      ensures Valid()
      ensures rows == EpicCreated(old(rows), dto)
      ensures forall id | id != dto.id :: Lookup(rows, id) == Lookup(old(rows), id)
      ensures Lookup(rows, dto.id) == if result.Ok? then Some(dto) else Lookup(old(rows), dto.id)
      ensures result == if StorableEpic(dto) then Ok(dto)
                        else if ValidEpic(dto) then Err(TooLong) else Err(BadRequest)
    {
      if !ValidEpic(dto) {
        return Err(BadRequest);
      }
      if |dto.name| > NAME_WIDTH {
        return Err(TooLong);
      }
      rows := rows[dto.id := dto];
      result := Ok(dto);
    }

    /** The only stored epic with that id, if there is one. */
    method FindOne(id: string) returns (epic: Result<Epic, Refusal>)
      requires Valid()
      ensures epic.Ok? ==> epic.value in rows.Values && forall e | e in rows.Values :: e.id == id <==> e == epic.value
      ensures epic.Err? ==> epic.error == NotFound && forall e | e in rows.Values :: e.id != id
    {
      match Lookup(rows, id)
      case Some(e) => epic := Ok(e);
      case None => epic := Err(NotFound);
    }
  }

  // ----- any number of create calls -----

  function AllCreated(rows: seq<Ticket>, calls: seq<Ticket>): seq<Ticket> {
    if calls == [] then rows
    else Created(AllCreated(rows, calls[..|calls| - 1]), calls[|calls| - 1])
  }

  /** Each of some tickets once, where it first occurs, if it can be stored. */
  function Firsts(tickets: seq<Ticket>): seq<Ticket> {
    if tickets == [] then []
    else
      var firsts, last := Firsts(tickets[..|tickets| - 1]), tickets[|tickets| - 1];
      if Storable(last) && last !in firsts then firsts + [last] else firsts
  }

  ghost predicate UniqueIds(rows: seq<Ticket>) {
    forall i, j | 0 <= i < j < |rows| :: rows[i].id != rows[j].id
  }

  /** No id is used for two different tickets. */
  ghost predicate Consistent(calls: seq<Ticket>) {
    forall s, t | s in calls && t in calls && s.id == t.id :: s == t
  }

  /** Before the calls, nothing is stored under the epic or under the ids of its tickets. */
  ghost predicate Unused(rows: seq<Ticket>, calls: seq<Ticket>, epicId: string) {
    && (forall r | r in rows :: r.epicId != epicId)
    && (forall r, c | r in rows && c in calls && c.epicId == epicId :: r.id != c.id)
  }

  /** Where each row comes from, and that no storable call is missing. */
  ghost predicate Traced(rows: seq<Ticket>, calls: seq<Ticket>, after: seq<Ticket>, epicId: string) {
    && UniqueIds(after)
    && (forall r | r in after :: r in calls || r in rows)
    && (forall c | c in calls && Storable(c) && c.epicId == epicId :: c in after)
  }

  lemma {:induction false} OfEpicHas(rows: seq<Ticket>, epicId: string, t: Ticket)
    ensures t in OfEpic(rows, epicId) <==> t in rows && t.epicId == epicId
  {
    if rows != [] {
      OfEpicHas(rows[..|rows| - 1], epicId, t);
      assert rows == rows[..|rows| - 1] + [rows[|rows| - 1]];
    }
  }

  lemma PrecedesInLonger(rows: seq<Ticket>, more: seq<Ticket>, s: Ticket, t: Ticket)
    requires Precedes(rows, s, t) || (s in rows && t in more)
    ensures Precedes(rows + more, s, t)
  {
    if Precedes(rows, s, t) {
      var i, j :| 0 <= i < j < |rows| && rows[i] == s && rows[j] == t;
      assert (rows + more)[i] == s && (rows + more)[j] == t;
    } else {
      var i :| 0 <= i < |rows| && rows[i] == s;
      var j :| 0 <= j < |more| && more[j] == t;
      assert (rows + more)[i] == s && (rows + more)[|rows| + j] == t;
    }
  }

  lemma {:induction false} OfEpicCounts(rows: seq<Ticket>, epicId: string, t: Ticket)
    ensures multiset(OfEpic(rows, epicId))[t] == if t.epicId == epicId then multiset(rows)[t] else 0
  {
    if rows != [] {
      var n := |rows| - 1;
      OfEpicCounts(rows[..n], epicId, t);
      assert rows == rows[..n] + [rows[n]];
    }
  }

  lemma {:induction false} OfEpicInOrder(rows: seq<Ticket>, epicId: string, a: nat, b: nat)
    requires a < b < |OfEpic(rows, epicId)|
    ensures Precedes(rows, OfEpic(rows, epicId)[a], OfEpic(rows, epicId)[b])
  {
    hide Precedes;
    var n := |rows| - 1;
    var list := OfEpic(rows[..n], epicId);
    assert rows == rows[..n] + [rows[n]];
    if b < |list| {
      OfEpicInOrder(rows[..n], epicId, a, b);
    } else {
      OfEpicHas(rows[..n], epicId, list[a]);
    }
    PrecedesInLonger(rows[..n], [rows[n]], OfEpic(rows, epicId)[a], OfEpic(rows, epicId)[b]);
  }

  lemma OfEpicIsSelection(rows: seq<Ticket>, epicId: string)
    ensures IsSelection(OfEpic(rows, epicId), rows, epicId)
  {
    hide OfEpic, Precedes;
    var list := OfEpic(rows, epicId);
    forall t: Ticket ensures multiset(list)[t] == if t.epicId == epicId then multiset(rows)[t] else 0 {
      OfEpicCounts(rows, epicId, t);
    }
    forall a, b | 0 <= a < b < |list| ensures Precedes(rows, list[a], list[b]) {
      OfEpicInOrder(rows, epicId, a, b);
    }
  }

  lemma {:induction false} OfEpicUpdated(rows: seq<Ticket>, k: nat, t: Ticket, epicId: string)
    requires k < |rows| && rows[k].epicId != epicId && t.epicId != epicId
    ensures OfEpic(rows[k := t], epicId) == OfEpic(rows, epicId)
  {
    var n := |rows| - 1;
    if k == n {
      assert rows[k := t][..n] == rows[..n];
    } else {
      assert rows[k := t][..n] == rows[..n][k := t];
      OfEpicUpdated(rows[..n], k, t, epicId);
    }
  }

  lemma OfEpicAppended(rows: seq<Ticket>, t: Ticket, epicId: string)
    ensures OfEpic(rows + [t], epicId) == OfEpic(rows, epicId) + if t.epicId == epicId then [t] else []
  {
    assert (rows + [t])[..|rows|] == rows;
  }

  lemma {:induction false} FirstsHas(tickets: seq<Ticket>, t: Ticket)
    ensures t in Firsts(tickets) <==> t in tickets && Storable(t)
  {
    if tickets != [] {
      FirstsHas(tickets[..|tickets| - 1], t);
      assert tickets == tickets[..|tickets| - 1] + [tickets[|tickets| - 1]];
    }
  }

  /** A create call of a ticket that is already there changes nothing. */
  lemma SavedAgain(rows: seq<Ticket>, t: Ticket)
    requires UniqueIds(rows) && t in rows
    ensures Saved(rows, t) == rows
  {
    var i :| 0 <= i < |rows| && rows[i] == t;
    assert Position(rows, t.id) != None;
  }

  lemma SavedTraced(rows: seq<Ticket>, calls: seq<Ticket>, mid: seq<Ticket>, c: Ticket, epicId: string)
    requires Consistent(calls + [c]) && Unused(rows, calls + [c], epicId)
    requires Traced(rows, calls, mid, epicId)
    ensures Traced(rows, calls + [c], Saved(mid, c), epicId)
  {
    var after := Saved(mid, c);
    assert c in calls + [c];
    var k := Position(mid, c.id);
    assert c == after[if k.Some? then k.value else |mid|];
    forall r | r in after ensures r in calls + [c] || r in rows {
      assert r == c || r in mid;
    }
    forall d | d in calls + [c] && Storable(d) && d.epicId == epicId ensures d in after {
      if d != c {
        var i :| 0 <= i < |mid| && mid[i] == d;
        assert d.id != c.id;
        assert after[i] == d;
      }
    }
  }

  /** The row that a call updates is the same ticket, or both are of other epics. */
  lemma UpdatesItself(rows: seq<Ticket>, calls: seq<Ticket>, mid: seq<Ticket>, c: Ticket, epicId: string, row: Ticket)
    requires Consistent(calls + [c]) && Unused(rows, calls + [c], epicId)
    requires Traced(rows, calls, mid, epicId) && row in mid && row.id == c.id
    ensures row == c || (row.epicId != epicId && c.epicId != epicId)
  {
    assert c in calls + [c];
    if row in calls {
      assert row in calls + [c];
    }
  }

  /** What a save adds to an epic's list. */
  lemma SavedLists(mid: seq<Ticket>, c: Ticket, epicId: string)
    requires UniqueIds(mid)
    requires forall row | row in mid && row.id == c.id :: row == c || (row.epicId != epicId && c.epicId != epicId)
    ensures OfEpic(Saved(mid, c), epicId) ==
            OfEpic(mid, epicId) + if c.epicId == epicId && c !in mid then [c] else []
  {
    match Position(mid, c.id)
    case Some(k) =>
      if mid[k] == c {
        SavedAgain(mid, c);
      } else {
        OfEpicUpdated(mid, k, c, epicId);
      }
    case None =>
      OfEpicAppended(mid, c, epicId);
  }

  lemma FirstsAppended(tickets: seq<Ticket>, t: Ticket)
    ensures Firsts(tickets + [t]) == Firsts(tickets) + if Storable(t) && t !in Firsts(tickets) then [t] else []
  {
    assert (tickets + [t])[..|tickets|] == tickets;
  }

  lemma SavedListed(rows: seq<Ticket>, calls: seq<Ticket>, mid: seq<Ticket>, c: Ticket, epicId: string)
    requires Consistent(calls + [c]) && Unused(rows, calls + [c], epicId) && Storable(c)
    requires Traced(rows, calls, mid, epicId) && OfEpic(mid, epicId) == Firsts(OfEpic(calls, epicId))
    ensures OfEpic(Saved(mid, c), epicId) == Firsts(OfEpic(calls + [c], epicId))
  {
    hide OfEpic, Saved, Firsts, Storable;
    forall row | row in mid && row.id == c.id ensures row == c || (row.epicId != epicId && c.epicId != epicId) {
      UpdatesItself(rows, calls, mid, c, epicId, row);
    }
    SavedLists(mid, c, epicId);
    OfEpicAppended(calls, c, epicId);
    OfEpicHas(mid, epicId, c);
    FirstsAppended(OfEpic(calls, epicId), c);
    assert OfEpic(calls, epicId) + [] == OfEpic(calls, epicId);
  }

  lemma UnusedBefore(rows: seq<Ticket>, calls: seq<Ticket>, c: Ticket, epicId: string)
    requires Consistent(calls + [c]) && Unused(rows, calls + [c], epicId)
    ensures Consistent(calls) && Unused(rows, calls, epicId)
  {
    assert forall d | d in calls :: d in calls + [c];
  }

  /** The list of an epic is what was issued for it, each ticket once, in the order of first issue. */
  lemma {:induction false} ListIsFirsts(rows: seq<Ticket>, calls: seq<Ticket>, epicId: string)
    requires UniqueIds(rows) && Consistent(calls) && Unused(rows, calls, epicId)
    ensures Traced(rows, calls, AllCreated(rows, calls), epicId)
    ensures OfEpic(AllCreated(rows, calls), epicId) == Firsts(OfEpic(calls, epicId))
  {
    hide Consistent, UniqueIds, OfEpic, Firsts, Saved, Storable;
    if calls == [] {
      NothingIssued(rows, epicId);
    } else {
      var before, c := calls[..|calls| - 1], calls[|calls| - 1];
      assert calls == before + [c];
      UnusedBefore(rows, before, c, epicId);
      ListIsFirsts(rows, before, epicId);
      CallListed(rows, before, AllCreated(rows, before), c, epicId);
    }
  }

  lemma NothingIssued(rows: seq<Ticket>, epicId: string)
    requires UniqueIds(rows) && Unused(rows, [], epicId)
    ensures Traced(rows, [], rows, epicId) && OfEpic(rows, epicId) == [] == Firsts(OfEpic([], epicId))
  {
    NoneOfEpic(rows, epicId);
  }

  lemma CallListed(rows: seq<Ticket>, calls: seq<Ticket>, mid: seq<Ticket>, c: Ticket, epicId: string)
    requires Consistent(calls + [c]) && Unused(rows, calls + [c], epicId)
    requires Traced(rows, calls, mid, epicId) && OfEpic(mid, epicId) == Firsts(OfEpic(calls, epicId))
    ensures Traced(rows, calls + [c], Created(mid, c), epicId)
    ensures OfEpic(Created(mid, c), epicId) == Firsts(OfEpic(calls + [c], epicId))
  {
    hide Consistent, UniqueIds, Unused, OfEpic, Firsts, Saved, Storable;
    if Storable(c) {
      SavedTraced(rows, calls, mid, c, epicId);
      SavedListed(rows, calls, mid, c, epicId);
    } else {
      OfEpicAppended(calls, c, epicId);
      FirstsAppended(OfEpic(calls, epicId), c);
      var list, firsts := OfEpic(calls, epicId), Firsts(OfEpic(calls, epicId));
      assert list + [] == list && firsts + [] == firsts;
    }
  }

  lemma {:induction false} NoneOfEpic(rows: seq<Ticket>, epicId: string)
    requires forall r | r in rows :: r.epicId != epicId
    ensures OfEpic(rows, epicId) == []
  {
    if rows != [] {
      assert rows[|rows| - 1] in rows;
      NoneOfEpic(rows[..|rows| - 1], epicId);
    }
  }

  // ----- a plan in the store -----

  /** Every ticket of a plan is issued, in any order and any number of times, and nothing else for its epic. */
  ghost predicate Issues(calls: seq<Ticket>, plan: Reply) {
    && (forall t | t in plan.tickets :: t in calls)
    && (forall c | c in calls && c.epicId == plan.epic.id :: c in plan.tickets)
  }

  lemma {:induction false} OfEpicUnique(rows: seq<Ticket>, epicId: string)
    requires UniqueIds(rows)
    ensures UniqueIds(OfEpic(rows, epicId))
  {
    if rows != [] {
      var n := |rows| - 1;
      OfEpicUnique(rows[..n], epicId);
      forall i | 0 <= i < |OfEpic(rows[..n], epicId)| ensures OfEpic(rows[..n], epicId)[i].id != rows[n].id {
        OfEpicHas(rows[..n], epicId, OfEpic(rows[..n], epicId)[i]);
      }
    }
  }

  lemma {:induction false} OnceEach(rows: seq<Ticket>, t: Ticket)
    requires UniqueIds(rows)
    ensures multiset(rows)[t] == if t in rows then 1 else 0
  {
    if rows != [] {
      var n := |rows| - 1;
      OnceEach(rows[..n], t);
      assert rows == rows[..n] + [rows[n]];
    }
  }

  lemma SameTickets(a: seq<Ticket>, b: seq<Ticket>)
    requires UniqueIds(a) && UniqueIds(b)
    ensures multiset(a) == multiset(b) <==> forall t :: t in a <==> t in b
  {
    forall t ensures multiset(a)[t] == (if t in a then 1 else 0) && multiset(b)[t] == (if t in b then 1 else 0) {
      OnceEach(a, t);
      OnceEach(b, t);
    }
    if multiset(a) == multiset(b) {
      forall t ensures t in a <==> t in b {
        assert t in multiset(a) <==> t in multiset(b);
      }
    }
  }

  /**
   Once a plan has been issued, its epic's list holds exactly its storable tickets, each
   once; so the list is the plan if and only if every ticket of the plan can be stored.
   */
  lemma PlanIsStored(rows: seq<Ticket>, calls: seq<Ticket>, plan: Reply)
    requires UniqueIds(rows) && Consistent(calls) && Unused(rows, calls, plan.epic.id)
    requires WellMade(plan) && UniqueIds(plan.tickets) && Issues(calls, plan)
    ensures var listed := OfEpic(AllCreated(rows, calls), plan.epic.id);
            && UniqueIds(listed)
            && (forall t :: t in listed <==> t in plan.tickets && Storable(t))
            && (multiset(listed) == multiset(plan.tickets) <==> forall t | t in plan.tickets :: Storable(t))
  {
    hide Storable, UniqueIds, Consistent, Unused, OfEpic, Firsts, AllCreated;
    var epicId := plan.epic.id;
    var after := AllCreated(rows, calls);
    var listed := OfEpic(after, epicId);
    ListIsFirsts(rows, calls, epicId);
    OfEpicUnique(after, epicId);
    forall t ensures t in listed <==> t in plan.tickets && Storable(t) {
      FirstsHas(OfEpic(calls, epicId), t);
      OfEpicHas(calls, epicId, t);
    }
    SameTickets(listed, plan.tickets);
  }

  lemma {:induction false} FirstsOfPlan(tickets: seq<Ticket>, repeats: seq<Ticket>)
    requires UniqueIds(tickets)
    requires (forall t | t in tickets :: Storable(t)) && forall r | r in repeats :: r in tickets
    ensures Firsts(tickets + repeats) == tickets
    decreases |tickets| + |repeats|
  {
    hide Storable;
    if repeats != [] {
      var n := |repeats| - 1;
      FirstsOfPlan(tickets, repeats[..n]);
      assert tickets + repeats == (tickets + repeats[..n]) + [repeats[n]];
      FirstsAppended(tickets + repeats[..n], repeats[n]);
    } else if tickets != [] {
      var n := |tickets| - 1;
      FirstsOfPlan(tickets[..n], []);
      assert tickets + [] == tickets == tickets[..n] + [tickets[n]] && tickets[..n] + [] == tickets[..n];
      FirstsAppended(tickets[..n], tickets[n]);
    }
  }

  /** If the tickets are first issued in the plan's order, whatever is repeated later, they are listed in it. */
  lemma PlanKeepsOrder(rows: seq<Ticket>, calls: seq<Ticket>, plan: Reply, repeats: seq<Ticket>)
    requires UniqueIds(rows) && Consistent(calls) && Unused(rows, calls, plan.epic.id)
    requires UniqueIds(plan.tickets) && forall t | t in plan.tickets :: Storable(t)
    requires OfEpic(calls, plan.epic.id) == plan.tickets + repeats && forall r | r in repeats :: r in plan.tickets
    ensures OfEpic(AllCreated(rows, calls), plan.epic.id) == plan.tickets
  {
    ListIsFirsts(rows, calls, plan.epic.id);
    FirstsOfPlan(plan.tickets, repeats);
  }

  /** If no id is used for two tickets, every storable ticket that was issued is in the table. */
  lemma {:induction false} IssuedIsStored(rows: seq<Ticket>, calls: seq<Ticket>)
    requires UniqueIds(rows) && Consistent(calls)
    ensures UniqueIds(AllCreated(rows, calls))
    ensures forall t | t in calls && Storable(t) :: t in AllCreated(rows, calls)
  {
    if calls != [] {
      var n := |calls| - 1;
      var before, c := calls[..n], calls[n];
      assert calls == before + [c];
      IssuedIsStored(rows, before);
      if Storable(c) {
        SavedKeepsOthers(AllCreated(rows, before), c);
      }
    }
  }

  lemma SavedKeepsOthers(mid: seq<Ticket>, c: Ticket)
    requires UniqueIds(mid)
    ensures UniqueIds(Saved(mid, c)) && c in Saved(mid, c)
    ensures forall t | t in mid && t.id != c.id :: t in Saved(mid, c)
  {
    var after := Saved(mid, c);
    var k := Position(mid, c.id);
    assert after[if k.Some? then k.value else |mid|] == c;
    forall t | t in mid && t.id != c.id ensures t in after {
      var i :| 0 <= i < |mid| && mid[i] == t;
      assert after[i] == t;
    }
  }

  /**
   Issuing any of the tickets again, of whichever epics, in any order and any number of
   times, changes no stored field of any row, whatever was in the table before.
   */
  lemma {:induction false} ReplayChangesNothing(rows: seq<Ticket>, calls: seq<Ticket>, again: seq<Ticket>)
    requires UniqueIds(rows) && Consistent(calls)
    requires forall t | t in again :: t in calls
    ensures AllCreated(AllCreated(rows, calls), again) == AllCreated(rows, calls)
    decreases |again|
  {
    if again != [] {
      var n := |again| - 1;
      assert again[n] in again;
      ReplayChangesNothing(rows, calls, again[..n]);
      IssuedIsStored(rows, calls);
      if Storable(again[n]) {
        SavedAgain(AllCreated(rows, calls), again[n]);
      }
    }
  }

  /** The ids under which a plan is stored decide: one used for two different tickets, and an earlier one is gone. */
  lemma ReusedIdLosesTicket(rows: seq<Ticket>, s: Ticket, t: Ticket)
    requires s.id == t.id && s != t && Storable(s) && Storable(t) && UniqueIds(rows)
    ensures var after := AllCreated(rows, [s, t]); t in after && s !in after && UniqueIds(after)
  {
    hide Storable;
    assert [s, t][..1] == [s] && [s][..0] == [];
    var one := Saved(rows, s);
    assert AllCreated(rows, [s]) == one;
    var k := Position(one, t.id);
    assert s == one[if Position(rows, s.id).Some? then Position(rows, s.id).value else |rows|];
    assert UniqueIds(one);
    assert AllCreated(rows, [s, t]) == one[k.value := t];
    assert one[k.value := t][k.value] == t;
  }

  function EpicsCreated(rows: map<string, Epic>, calls: seq<Epic>): map<string, Epic> {
    if calls == [] then rows
    else
      EpicCreated(EpicsCreated(rows, calls[..|calls| - 1]), calls[|calls| - 1])
  }

  /** A later epic under the same id replaces the earlier one, and changes no other. */
  lemma LaterEpicReplaces(rows: map<string, Epic>, calls: seq<Epic>, e: Epic)
    requires StorableEpic(e)
    ensures Lookup(EpicsCreated(rows, calls + [e]), e.id) == Some(e)
    ensures forall id | id != e.id ::
              Lookup(EpicsCreated(rows, calls + [e]), id) == Lookup(EpicsCreated(rows, calls), id)
  {
    assert (calls + [e])[..|calls|] == calls;
  }

  /** The epic of an issued plan is found as it was sent, if and only if it can be stored. */
  lemma {:induction false} EpicIsStored(rows: map<string, Epic>, calls: seq<Epic>, e: Epic)
    requires e.id !in rows
    requires forall c | c in calls && c.id == e.id :: c == e
    ensures Lookup(EpicsCreated(rows, calls), e.id) == if e in calls && StorableEpic(e) then Some(e) else None
  {
    if calls != [] {
      var n := |calls| - 1;
      assert calls[n] in calls;
      EpicIsStored(rows, calls[..n], e);
      assert e in calls <==> e in calls[..n] || e == calls[n];
    }
  }

  /** The requirements that the epic of a run's reply gets: a refinement's are those of the latest plan. */
  function EpicRequirements(st: GraphState): seq<string> {
    match (st.priorSolution, LatestPlan(st.rawHistory))
    case (Some(_), Some(plan)) => if plan.epic.requirements != [] then plan.epic.requirements else [st.requirement]
    case _ => [st.requirement]
  }

  /**
   The epic of any plan, new or refined, can be stored if and only if its id is a UUID
   and no requirement and no text of the solution is empty; its name always fits.
   */
  lemma EpicIsStorable(st: GraphState, freshId: string)
    ensures var epic := BuildReply(st, freshId).epic;
            && epic.requirements == EpicRequirements(st)
            && (StorableEpic(epic) <==>
                && IsUuid(epic.id) && NoneEmpty(EpicRequirements(st))
                && st.solution.Some? && ValidSolution(st.solution.value))
  {
    MetaIsLatestPlan(st.rawHistory, st.requirement, [st.requirement]);
    CutTwice(st.requirement);
  }

  /** A new plan's requirement is the user's message, so an empty message makes an epic that cannot be stored. */
  lemma EmptyMessageIsRefused(st: GraphState, freshId: string)
    requires EpicRequirements(st) == [st.requirement]
    ensures st.requirement == "" ==> !StorableEpic(BuildReply(st, freshId).epic)
  {
    EpicIsStorable(st, freshId);
    assert EpicRequirements(st)[0] == st.requirement;
  }
}
