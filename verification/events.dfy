/**
 * The case-event routes: the events of one case, the upcoming open tasks
 * inside a window of days, and the firm-only writes (create, update, mark
 * completed, delete). `now` is the clock in milliseconds.
 */
module CaseEvents {
  import opened Common
  import opened Model
  import opened Store
  import opened Query
  import opened AuthMiddleware
  import opened Cases

  // ---------------------------------------------------------------- reading

  /** GET /events/case/:caseId: 404 for a case outside the caller's scope,
      otherwise its events by event date, undated ones last. */
  method ListCaseEvents(db: Db, user: Principal, caseId: Id) returns (res: Response<seq<CaseEvent>>)
    ensures res.Ok? || res == NotFound("Case not found")
    ensures res.Ok? <==> caseId in db.tables.cases && InClientScope(user, db.tables.cases[caseId].clientId)
    ensures res.Ok? ==> IsListing(res.body, db.tables.events, (e: CaseEvent) => e.caseId == caseId, EventOrder)
  {
    if caseId !in db.tables.cases || !InClientScope(user, db.tables.cases[caseId].clientId) {
      return NotFound("Case not found");
    }
    var rs := Select(db.tables.events, (e: CaseEvent) => e.caseId == caseId, EventOrder);
    res := Ok(rs);
  }

  /** The `where` of GET /events/upcoming: an open task due between now and
      `days` days from now; a client principal sees only its own cases. */
  predicate Upcoming(cases: map<Id, Case>, user: Principal, days: int, now: int, e: CaseEvent) {
    && !e.isCompleted
    && e.dueDate.Some? && now <= e.dueDate.value <= now + days * DayMs
    && (user.Client? ==> e.caseId in cases && cases[e.caseId].clientId == user.clientId)
  }

  /** Soonest due first. */
  function DueOrder(e: CaseEvent): Key {
    if e.dueDate.Some? then [Num(0), Num(e.dueDate.value)] else [Num(1)]
  }

  /** `days`, 30 when the query leaves it out. */
  function WindowDays(days: Option<int>): (d: int)
    ensures days.None? ==> d == 30
    ensures days.Some? ==> d == days.value
  {
    if days.Some? then days.value else 30
  }

  /** GET /events/upcoming. */
  method ListUpcoming(db: Db, user: Principal, days: Option<int>, now: int) returns (res: Response<seq<CaseEvent>>)
    ensures res.Ok?
    ensures var cases := db.tables.cases;
      IsListing(res.body, db.tables.events, (e: CaseEvent) => Upcoming(cases, user, WindowDays(days), now, e), DueOrder)
  {
    var cases := db.tables.cases;
    var d := WindowDays(days);
    var rs := Select(db.tables.events, (e: CaseEvent) => Upcoming(cases, user, d, now, e), DueOrder);
    res := Ok(rs);
  }

  /** Every upcoming event is open, due inside the window, and, for a
      client principal, belongs to one of its cases. */
  lemma UpcomingInWindow(t: Tables, user: Principal, days: int, now: int, rs: seq<CaseEvent>)
    requires IsListing(rs, t.events, (e: CaseEvent) => Upcoming(t.cases, user, days, now, e), DueOrder)
    ensures forall e :: e in rs ==> !e.isCompleted && e.dueDate.Some? && now <= e.dueDate.value <= now + days * DayMs
    ensures user.Client? ==> forall e :: e in rs ==> e.caseId in t.cases && t.cases[e.caseId].clientId == user.clientId
  {
    forall e | e in rs ensures Upcoming(t.cases, user, days, now, e) {
      var k :| k in t.events && t.events[k] == e && Upcoming(t.cases, user, days, now, t.events[k]);
    }
  }

  // ---------------------------------------------------------------- writing

  /** The body of POST /events. */
  datatype NewEvent = NewEvent(
    caseId: Option<Id>, eventType: Option<string>, title: Option<string>,
    description: Option<string>, eventDate: Option<int>, dueDate: Option<int>)

  /** The event a create writes: open, each date kept only when truthy. */
  function EventFrom(id: Id, body: NewEvent): (e: CaseEvent)
    requires body.caseId.Some? && body.eventType.Some? && body.title.Some?
    ensures e.id == id && e.caseId == body.caseId.value && !e.isCompleted
    ensures e.eventType == body.eventType.value && e.title == body.title.value && e.description == body.description
    ensures e.eventDate.Some? <==> NumTruthy(body.eventDate)
    ensures e.dueDate.Some? <==> NumTruthy(body.dueDate)
    ensures e.dueDate.Some? ==> e.dueDate == body.dueDate
  {
    CaseEvent(id, body.caseId.value, body.eventType.value, body.title.value, body.description,
              if NumTruthy(body.eventDate) then body.eventDate else None,
              if NumTruthy(body.dueDate) then body.dueDate else None, false)
  }

  /** POST /events: firm-only; the case, the type and the title are
      required; a case id naming no case fails the foreign key. */
  method CreateEvent(db: Db, user: Principal, body: NewEvent) returns (res: Response<CaseEvent>)
    requires db.Valid()
    modifies db
    ensures db.Valid()
    ensures !user.Firm? ==> res == Forbidden("Firm user access required")
    ensures user.Firm? && !(Truthy(body.caseId) && Truthy(body.eventType) && Truthy(body.title)) ==>
      res == BadRequest("Case ID, event type, and title are required")
    ensures user.Firm? && Truthy(body.caseId) && Truthy(body.eventType) && Truthy(body.title) &&
            body.caseId.value !in old(db.tables.cases) ==>
      res == ServerError("Failed to create event")
    ensures !res.Created? ==> db.tables == old(db.tables)
    ensures res.Created? <==> user.Firm? && Truthy(body.caseId) && Truthy(body.eventType) && Truthy(body.title) &&
                              body.caseId.value in old(db.tables.cases)
    ensures res.Created? ==>
      var id := FreshId(old(db.tables.events).Keys);
      && res.body == EventFrom(id, body)
      && db.tables == old(db.tables).(events := old(db.tables.events)[id := res.body])
  {
    var gate := RequireFirmUser(Some(user));
    if !gate.Ok? {
      return Relay(gate);
    }
    if !Truthy(body.caseId) || !Truthy(body.eventType) || !Truthy(body.title) {
      return BadRequest("Case ID, event type, and title are required");
    }
    if body.caseId.value !in db.tables.cases {
      return ServerError("Failed to create event");
    }
    var id := FreshId(db.tables.events.Keys);
    var e := EventFrom(id, body);
    AddEventKeeps(db.tables, e);
    db.tables := db.tables.(events := db.tables.events[id := e]);
    res := Created(e);
  }

  /** A new open event due inside the window joins the upcoming list of a
      firm principal: the count grows by exactly one. */
  lemma CreatedTaskIsUpcoming(t: Tables, user: Principal, days: int, now: int, e: CaseEvent)
    requires user.Firm? && e.id !in t.events
    requires !e.isCompleted && e.dueDate.Some? && now <= e.dueDate.value <= now + days * DayMs
    ensures Count(t.events[e.id := e], (x: CaseEvent) => Upcoming(t.cases, user, days, now, x)) ==
            Count(t.events, (x: CaseEvent) => Upcoming(t.cases, user, days, now, x)) + 1
  {
    CountInsertFresh(t.events, (x: CaseEvent) => Upcoming(t.cases, user, days, now, x), e.id, e);
  }

  /** Whether Prisma accepts `v` for event column `k`. */
  predicate EventFieldAccepts(k: string, v: Value) {
    if k == "caseId" || k == "eventType" || k == "title" then v.VStr?
    else if k == "description" then v.VStr? || v.VNull?
    else if k == "eventDate" || k == "dueDate" then v.VNum? || v.VNull?
    else if k == "isCompleted" then v.VBool?
    else false
  }

  /** `caseEvent.update({ data: req.body })`: every key of the body writes
      its column, and an unknown key or a value of the wrong type makes
      Prisma throw. */
  function PatchEvent(e: CaseEvent, p: Body): (r: Option<CaseEvent>)
    ensures r.Some? <==> forall k :: k in p ==> EventFieldAccepts(k, p[k])
    ensures r.Some? ==> r.value.id == e.id
    ensures r.Some? && p == map[] ==> r.value == e
  {
    if exists k :: k in p && !EventFieldAccepts(k, p[k]) then None
    else Some(e.(
      caseId := SetStr(p, "caseId", e.caseId),
      eventType := SetStr(p, "eventType", e.eventType),
      title := SetStr(p, "title", e.title),
      description := SetOptStr(p, "description", e.description),
      eventDate := SetOptNum(p, "eventDate", e.eventDate),
      dueDate := SetOptNum(p, "dueDate", e.dueDate),
      isCompleted := if "isCompleted" in p && p["isCompleted"].VBool? then p["isCompleted"].b else e.isCompleted))
  }

  /** A patch writes exactly the columns it names. */
  lemma PatchWritesNamedColumns(e: CaseEvent, p: Body)
    requires PatchEvent(e, p).Some?
    ensures "title" !in p ==> PatchEvent(e, p).value.title == e.title
    ensures "title" in p ==> PatchEvent(e, p).value.title == p["title"].s
    ensures "isCompleted" !in p ==> PatchEvent(e, p).value.isCompleted == e.isCompleted
    ensures "isCompleted" in p ==> PatchEvent(e, p).value.isCompleted == p["isCompleted"].b
    ensures "caseId" !in p ==> PatchEvent(e, p).value.caseId == e.caseId
  {
    if "title" in p {
      assert EventFieldAccepts("title", p["title"]);
    }
    if "isCompleted" in p {
      assert EventFieldAccepts("isCompleted", p["isCompleted"]);
    }
  }

  /** PUT /events/:id: an unknown id, a rejected body, or a case id naming
      no case makes the update throw. */
  method UpdateEvent(db: Db, user: Principal, id: Id, body: Body) returns (res: Response<CaseEvent>)
    requires db.Valid()
    modifies db
    ensures db.Valid()
    ensures !user.Firm? ==> res == Forbidden("Firm user access required")
    ensures user.Firm? && !res.Ok? ==> res == ServerError("Failed to update event")
    ensures !res.Ok? ==> db.tables == old(db.tables)
    ensures res.Ok? <==> user.Firm? && id in old(db.tables.events) && PatchEvent(old(db.tables.events)[id], body).Some? &&
                         PatchEvent(old(db.tables.events)[id], body).value.caseId in old(db.tables.cases)
    ensures res.Ok? ==>
      && res.body == PatchEvent(old(db.tables.events)[id], body).value
      && db.tables == old(db.tables).(events := old(db.tables.events)[id := res.body])
  {
    var gate := RequireFirmUser(Some(user));
    if !gate.Ok? {
      return Relay(gate);
    }
    if id !in db.tables.events {
      return ServerError("Failed to update event");
    }
    var patched := PatchEvent(db.tables.events[id], body);
    if patched.None? || patched.value.caseId !in db.tables.cases {
      return ServerError("Failed to update event");
    }
    assert patched.value.id == id by {
      assert db.tables.events[id].id == id;
    }
    AddEventKeeps(db.tables, patched.value);
    db.tables := db.tables.(events := db.tables.events[id := patched.value]);
    res := Ok(patched.value);
  }

  /** The event marked done at `now`: nothing else about it changes. */
  function Completed(e: CaseEvent, now: int): (r: CaseEvent)
    ensures r.isCompleted && r.eventDate == Some(now)
    ensures r.(isCompleted := e.isCompleted, eventDate := e.eventDate) == e
  {
    e.(isCompleted := true, eventDate := Some(now))
  }

  /** PATCH /events/:id/complete. */
  method CompleteEvent(db: Db, user: Principal, id: Id, now: int) returns (res: Response<CaseEvent>)
    requires db.Valid()
    modifies db
    ensures db.Valid()
    ensures !user.Firm? ==> res == Forbidden("Firm user access required")
    ensures user.Firm? && id !in old(db.tables.events) ==> res == ServerError("Failed to complete event")
    ensures !res.Ok? ==> db.tables == old(db.tables)
    ensures res.Ok? <==> user.Firm? && id in old(db.tables.events)
    ensures res.Ok? ==>
      && res.body == Completed(old(db.tables.events)[id], now)
      && db.tables == old(db.tables).(events := old(db.tables.events)[id := res.body])
  {
    var gate := RequireFirmUser(Some(user));
    if !gate.Ok? {
      return Relay(gate);
    }
    if id !in db.tables.events {
      return ServerError("Failed to complete event");
    }
    var e := Completed(db.tables.events[id], now);
    AddEventKeeps(db.tables, e);
    db.tables := db.tables.(events := db.tables.events[id := e]);
    res := Ok(e);
  }

  /** A completed task leaves every upcoming list, and the others stay:
      completing an upcoming task lowers the count by one. */
  lemma CompletedLeavesUpcoming(t: Tables, user: Principal, days: int, now: int, id: Id, later: int)
    requires id in t.events && Upcoming(t.cases, user, days, now, t.events[id])
    ensures Count(t.events[id := Completed(t.events[id], later)], (x: CaseEvent) => Upcoming(t.cases, user, days, now, x)) + 1 ==
            Count(t.events, (x: CaseEvent) => Upcoming(t.cases, user, days, now, x))
  {
    var keep := (x: CaseEvent) => Upcoming(t.cases, user, days, now, x);
    var m := t.events;
    var m1 := m[id := Completed(m[id], later)];
    assert KeysWhere(m1, keep) == KeysWhere(m, keep) - {id};
  }

  /** Removing an event keeps the database consistent. */
  lemma RemoveEventKeeps(t: Tables, id: Id)
    requires Consistent(t)
    ensures Consistent(t.(events := t.events - {id}))
  {
    var u := t.(events := t.events - {id});
    assert EventRows(u.events, u.cases);
  }

  /** DELETE /events/:id. */
  method DeleteEvent(db: Db, user: Principal, id: Id) returns (res: Response<string>)
    requires db.Valid()
    modifies db
    ensures db.Valid()
    ensures !user.Firm? ==> res == Forbidden("Firm user access required")
    ensures user.Firm? && id !in old(db.tables.events) ==> res == ServerError("Failed to delete event")
    ensures !res.Ok? ==> db.tables == old(db.tables)
    ensures res.Ok? <==> user.Firm? && id in old(db.tables.events)
    ensures res.Ok? ==>
      && res.body == "Event deleted successfully"
      && db.tables == old(db.tables).(events := old(db.tables.events) - {id})
  {
    var gate := RequireFirmUser(Some(user));
    if !gate.Ok? {
      return Relay(gate);
    }
    if id !in db.tables.events {
      return ServerError("Failed to delete event");
    }
    RemoveEventKeeps(db.tables, id);
    db.tables := db.tables.(events := db.tables.events - {id});
    res := Ok("Event deleted successfully");
  }
}
