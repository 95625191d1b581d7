/**
 * The case routes: scoped listing and reading, creation (validation, case
 * number, tenant links, initial event and audit entry), update with the
 * client-side field whitelist, status patch and close.
 */
module Cases {
  import opened Common
  import opened Strings
  import opened Model
  import opened Store
  import opened Query
  import opened AuthMiddleware

  // ---------------------------------------------------------------- numbering

  /** `CASE-${clientId.slice(0, 8)}-${String(n).padStart(6, '0')}`. */
  function CaseNumber(clientId: Id, n: nat): (s: string)
    ensures |s| >= 12 && s[..5] == "CASE-"
  {
    "CASE-" + Take(clientId, 8) + "-" + PadStart(NatToString(n), 6, '0')
  }

  /** The case number is the fixed prefix followed by at least six decimal
      digits that read back as `n`; below a million there are exactly six. */
  lemma CaseNumberDigits(clientId: Id, n: nat)
    ensures var s := PadStart(NatToString(n), 6, '0');
      CaseNumber(clientId, n) == "CASE-" + Take(clientId, 8) + "-" + s &&
      IsDigits(s) && |s| >= 6 && DigitsValue(s) == n
    ensures n < 1000000 ==> |PadStart(NatToString(n), 6, '0')| == 6
  {
    PaddedValue(n, 6);
    if n < 1000000 {
      assert Pow10(6) == 1000000;
      DigitsBound(n, 6);
    }
  }

  function Pow10(k: nat): nat {
    if k == 0 then 1 else 10 * Pow10(k - 1)
  }

  lemma {:induction false} DigitsBound(n: nat, k: nat)
    requires k >= 1 && n < Pow10(k)
    ensures |NatToString(n)| <= k
  {
    if k == 1 {
      assert n < 10;
    } else if n >= 10 {
      DigitsBound(n / 10, k - 1);
    }
  }

  /** Two numbers of the same client differ whenever the counts differ. */
  lemma CaseNumberInjective(clientId: Id, n: nat, m: nat)
    requires CaseNumber(clientId, n) == CaseNumber(clientId, m)
    ensures n == m
  {
    var p := "CASE-" + Take(clientId, 8) + "-";
    var a := PadStart(NatToString(n), 6, '0');
    var b := PadStart(NatToString(m), 6, '0');
    assert p + a == p + b;
    assert a == (p + a)[|p|..];
    assert b == (p + b)[|p|..];
    PaddedValue(n, 6);
    PaddedValue(m, 6);
  }

  /** The cases a client already holds (`case.count({ where: { clientId } })`). */
  function ClientCaseCount(cases: map<Id, Case>, clientId: Id): nat {
    Count(cases, (c: Case) => c.clientId == clientId)
  }

  /** Adding a case of this client under a fresh key raises its count by
      one, and other clients' counts stay: the next create gets the next
      suffix. */
  lemma CountAfterCreate(cases: map<Id, Case>, c: Case, other: Id)
    requires c.id !in cases
    ensures ClientCaseCount(cases[c.id := c], c.clientId) == ClientCaseCount(cases, c.clientId) + 1
    ensures other != c.clientId ==> ClientCaseCount(cases[c.id := c], other) == ClientCaseCount(cases, other)
  {
    CountInsertFresh(cases, (x: Case) => x.clientId == c.clientId, c.id, c);
    CountInsertFresh(cases, (x: Case) => x.clientId == other, c.id, c);
  }

  /** The join rows of a new case: one per tenant id, in order, the first primary. */
  function TenantLinks(tenantIds: seq<Id>): (r: seq<CaseTenant>)
    ensures |r| == |tenantIds|
    ensures forall i :: 0 <= i < |r| ==> r[i].tenantId == tenantIds[i]
    ensures forall i :: 0 <= i < |r| ==> (r[i].isPrimary <==> i == 0)
  {
    seq(|tenantIds|, i requires 0 <= i < |tenantIds| => CaseTenant(tenantIds[i], i == 0))
  }

  // ---------------------------------------------------------------- reading

  datatype CaseQuery = CaseQuery(
    status: Option<string>, clientId: Option<string>, propertyId: Option<string>, search: Option<string>)

  /** The search disjunction: case number, court case number, or a linked
      tenant's first or last name, case-insensitively. */
  predicate SearchHit(search: string, tenants: map<Id, Tenant>, c: Case) {
    || ContainsInsensitive(c.caseNumber, search)
    || (c.courtCaseNumber.Some? && ContainsInsensitive(c.courtCaseNumber.value, search))
    || exists i :: 0 <= i < |c.tenants| && c.tenants[i].tenantId in tenants &&
         (ContainsInsensitive(tenants[c.tenants[i].tenantId].firstName, search) ||
          ContainsInsensitive(tenants[c.tenants[i].tenantId].lastName, search))
  }

  /** The `where` of the case list. */
  predicate ListMatch(user: Principal, q: CaseQuery, tenants: map<Id, Tenant>, c: Case) {
    && InClientScope(user, c.clientId)
    && (user.Firm? && Truthy(q.clientId) ==> c.clientId == q.clientId.value)
    && (Truthy(q.status) ==> c.status == q.status.value)
    && (Truthy(q.propertyId) ==> c.propertyId == q.propertyId.value)
    && (Truthy(q.search) ==> SearchHit(q.search.value, tenants, c))
  }

  function NewestFirst(c: Case): Key {
    [Num(-c.createdAt)]
  }

  /** GET /cases. */
  method ListCases(db: Db, user: Principal, q: CaseQuery) returns (res: Response<seq<Case>>)
    ensures res.Ok?
    ensures var ts := db.tables.tenants;
      IsListing(res.body, db.tables.cases, (c: Case) => ListMatch(user, q, ts, c), NewestFirst)
    ensures forall c :: c in res.body ==> InClientScope(user, c.clientId)
  {
    var ts := db.tables.tenants;
    var rs := Select(db.tables.cases, (c: Case) => ListMatch(user, q, ts, c), NewestFirst);
    res := Ok(rs);
  }

  /** The detail view of one case. */
  datatype CaseView = CaseView(
    record: Case, documents: seq<Document>, comments: seq<Comment>, events: seq<CaseEvent>)

  /** A client principal never sees internal comments. */
  predicate CommentVisible(user: Principal, caseId: Id, m: Comment) {
    m.caseId == caseId && (user.Client? ==> !m.isInternal)
  }

  function EventOrder(e: CaseEvent): Key {
    // PostgreSQL sorts NULL after every value in ascending order.
    if e.eventDate.Some? then [Num(0), Num(e.eventDate.value)] else [Num(1)]
  }

  function DocumentNewestFirst(d: Document): Key {
    [Num(-d.createdAt)]
  }

  function CommentNewestFirst(m: Comment): Key {
    [Num(-m.createdAt)]
  }

  /** GET /cases/:id: a case outside the caller's scope is indistinguishable
      from a missing one. */
  method GetCase(db: Db, user: Principal, id: Id) returns (res: Response<CaseView>)
    requires db.Valid()
    ensures res.Ok? || res == NotFound("Case not found")
    ensures res.Ok? <==> id in db.tables.cases && InClientScope(user, db.tables.cases[id].clientId)
    ensures res.Ok? ==> res.body.record == db.tables.cases[id]
    ensures res.Ok? ==> IsListing(res.body.comments, db.tables.comments, (m: Comment) => CommentVisible(user, id, m), CommentNewestFirst)
    ensures res.Ok? ==> forall m :: m in res.body.comments ==> m.caseId == id && (user.Client? ==> !m.isInternal)
    ensures res.Ok? ==> IsListing(res.body.events, db.tables.events, (e: CaseEvent) => e.caseId == id, EventOrder)
    ensures res.Ok? ==> IsListing(res.body.documents, db.tables.documents, (d: Document) => d.caseId == id, DocumentNewestFirst)
  {
    if id !in db.tables.cases || !InClientScope(user, db.tables.cases[id].clientId) {
      return NotFound("Case not found");
    }
    var docs := Select(db.tables.documents, (d: Document) => d.caseId == id, DocumentNewestFirst);
    var comments := Select(db.tables.comments, (m: Comment) => CommentVisible(user, id, m), CommentNewestFirst);
    var events := Select(db.tables.events, (e: CaseEvent) => e.caseId == id, EventOrder);
    res := Ok(CaseView(db.tables.cases[id], docs, comments, events));
  }

  // ---------------------------------------------------------------- creation

  /** The body of POST /cases. Amounts are in cents. */
  datatype NewCase = NewCase(
    clientId: Option<string>, propertyId: Option<string>, tenantIds: Option<seq<Id>>,
    caseType: Option<string>, reason: Option<string>, amountOwed: Option<int>,
    monthsOwed: Option<int>, jurisdiction: Option<string>, court: Option<string>,
    caresActCompliant: Option<bool>, rentControlStatus: Option<string>,
    noticeServedDate: Option<int>, assignedAttorneyId: Option<string>)

  /** Client principals always file for their own client. */
  function EffectiveClientId(user: Principal, body: NewCase): (r: Option<string>)
    ensures user.Client? ==> r == Some(user.clientId)
    ensures user.Firm? ==> r == body.clientId
  {
    if user.Client? then Some(user.clientId) else body.clientId
  }

  /** The five required fields of a new case. */
  predicate HasRequiredFields(user: Principal, body: NewCase) {
    Truthy(EffectiveClientId(user, body)) && Truthy(body.propertyId) && Truthy(body.caseType)
    && Truthy(body.reason) && Truthy(body.jurisdiction)
  }

  /** The row a valid create inserts. */
  function NewCaseRow(id: Id, user: Principal, body: NewCase, count: nat, now: int): (c: Case)
    requires HasRequiredFields(user, body)
    ensures c.status == "INTAKE"
    ensures c.clientId == EffectiveClientId(user, body).value
    ensures c.caseNumber == CaseNumber(c.clientId, count + 1)
    ensures c.tenants == TenantLinks(if body.tenantIds.Some? then body.tenantIds.value else [])
  {
    var cid := EffectiveClientId(user, body).value;
    Case(id, CaseNumber(cid, count + 1), cid, body.propertyId.value,
         TenantLinks(if body.tenantIds.Some? then body.tenantIds.value else []),
         body.caseType.value, body.reason.value,
         if NumTruthy(body.amountOwed) then body.amountOwed else None,
         if NumTruthy(body.monthsOwed) then body.monthsOwed else None,
         body.jurisdiction.value, OrNull(body.court),
         body.caresActCompliant == Some(true), OrNull(body.rentControlStatus),
         if NumTruthy(body.noticeServedDate) then body.noticeServedDate else None,
         OrNull(body.assignedAttorneyId), "INTAKE", None, None, None, None, None, None, None, now)
  }

  /** The foreign keys of a new case hold. */
  predicate LinksExist(t: Tables, c: Case) {
    && c.clientId in t.clients && c.propertyId in t.properties
    && (forall i :: 0 <= i < |c.tenants| ==> c.tenants[i].tenantId in t.tenants)
    && (c.assignedAttorneyId.Some? ==> c.assignedAttorneyId.value in t.firmUsers)
  }

  /** A completed timeline entry written by a handler. */
  function DoneEvent(id: Id, caseId: Id, eventType: string, title: string, description: string, now: int): CaseEvent {
    CaseEvent(id, caseId, eventType, title, Some(description), Some(now), None, true)
  }

  /** POST /cases. */
  method CreateCase(db: Db, user: Principal, body: NewCase, now: int) returns (res: Response<Case>)
    requires db.Valid()
    modifies db
    ensures db.Valid()
    ensures res.Created? || res.BadRequest? || res.ServerError?
    ensures !HasRequiredFields(user, body) <==> res.BadRequest?
    ensures res.Created? <==>
      && HasRequiredFields(user, body)
      && LinksExist(old(db.tables), NewCaseRow(FreshId(old(db.tables.cases).Keys), user, body,
                                             ClientCaseCount(old(db.tables.cases), EffectiveClientId(user, body).value), now))
    ensures res.ServerError? ==> res == ServerError("Failed to create case")
    ensures !res.Created? ==> db.tables == old(db.tables)
    ensures res.Created? ==>
      var c := res.body;
      var eid := FreshId(old(db.tables.events).Keys);
      var aid := FreshId(old(db.tables.auditLogs).Keys);
      && HasRequiredFields(user, body)
      && c == NewCaseRow(c.id, user, body, ClientCaseCount(old(db.tables.cases), c.clientId), now)
      && c.id !in old(db.tables.cases)
      && db.tables == old(db.tables).(
           cases := old(db.tables.cases)[c.id := c],
           events := old(db.tables.events)[eid := DoneEvent(eid, c.id, "CASE_CREATED", "Case Created",
                                                    "Case " + c.caseNumber + " created", now)],
           auditLogs := old(db.tables.auditLogs)[aid := Audit(aid, user, "CASE_CREATED", "Case", c.id, None)])
  {
    if !HasRequiredFields(user, body) {
      return BadRequest("Missing required fields: clientId, propertyId, type, reason, jurisdiction");
    }
    var cid := EffectiveClientId(user, body).value;
    var count := ClientCaseCount(db.tables.cases, cid);
    var c := NewCaseRow(FreshId(db.tables.cases.Keys), user, body, count, now);
    if !LinksExist(db.tables, c) {
      return ServerError("Failed to create case");
    }
    AddCaseKeeps(db.tables, c);
    db.tables := db.tables.(cases := db.tables.cases[c.id := c]);
    var eid := FreshId(db.tables.events.Keys);
    var e := DoneEvent(eid, c.id, "CASE_CREATED", "Case Created", "Case " + c.caseNumber + " created", now);
    AddEventKeeps(db.tables, e);
    db.tables := db.tables.(events := db.tables.events[eid := e]);
    var aid := FreshId(db.tables.auditLogs.Keys);
    var a := Audit(aid, user, "CASE_CREATED", "Case", c.id, None);
    AddAuditKeeps(db.tables, a);
    db.tables := db.tables.(auditLogs := db.tables.auditLogs[aid := a]);
    res := Created(c);
  }

  // ---------------------------------------------------------------- update

  /** The only keys a client principal may send in a case update. */
  function ClientEditable(): set<string> {
    {"reason", "amountOwed", "monthsOwed"}
  }

  /** The `forEach` that deletes every key outside `allowed` from the body. */
  method KeepOnly(body: Body, allowed: set<string>) returns (r: Body)
    ensures r.Keys == body.Keys * allowed
    ensures forall k :: k in r ==> r[k] == body[k]
    ensures r == map k | k in body && k in allowed :: body[k]
  {
    r := body;
    var keys := body.Keys;
    while keys != {}
      invariant keys <= body.Keys
      invariant r.Keys == (body.Keys * allowed) + keys
      invariant forall k :: k in r ==> r[k] == body[k]
      decreases |keys|
    {
      var k :| k in keys;
      if k !in allowed {
        r := r - {k};
      }
      keys := keys - {k};
    }
  }

  function DateKeys(): set<string> {
    {"filedDate", "hearingDate", "judgmentDate", "writIssuedDate", "closedDate", "serviceDate", "noticeServedDate"}
  }

  function StringKeys(): set<string> {
    {"reason", "status", "type", "jurisdiction", "caseNumber", "clientId", "propertyId"}
  }

  function NullableStringKeys(): set<string> {
    {"court", "courtCaseNumber", "rentControlStatus", "assignedAttorneyId"}
  }

  function NumberKeys(): set<string> {
    {"amountOwed", "monthsOwed"}
  }

  /** Whether Prisma accepts `v` for case column `k`. */
  predicate CaseFieldAccepts(k: string, v: Value) {
    if k in DateKeys() || k in NumberKeys() then v.VNum? || v.VNull?
    else if k in StringKeys() then v.VStr?
    else if k in NullableStringKeys() then v.VStr? || v.VNull?
    else if k == "caresActCompliant" then v.VBool?
    else false
  }

  function SetStr(p: Body, k: string, d: string): string {
    if k in p && p[k].VStr? then p[k].s else d
  }

  function SetOptStr(p: Body, k: string, d: Option<string>): Option<string> {
    if k in p then (if p[k].VStr? then Some(p[k].s) else None) else d
  }

  function SetOptNum(p: Body, k: string, d: Option<int>): Option<int> {
    if k in p then (if p[k].VNum? then Some(p[k].n) else None) else d
  }

  /** `case.update({ data })`: every key of the body writes its column; an
      unknown key or a value of the wrong type makes Prisma throw. */
  function PatchCase(c: Case, p: Body): (r: Option<Case>)
    ensures r.Some? <==> forall k :: k in p ==> CaseFieldAccepts(k, p[k])
    ensures r.Some? ==> r.value.id == c.id && r.value.createdAt == c.createdAt
    ensures p == map[] ==> r == Some(c)
  {
    if exists k :: k in p && !CaseFieldAccepts(k, p[k]) then None
    else Some(Patched(c, p))
  }

  /** The case with every column the body names rewritten. */
  function Patched(c: Case, p: Body): (r: Case)
    ensures r.id == c.id && r.tenants == c.tenants && r.createdAt == c.createdAt
    ensures "status" in p && p["status"].VStr? ==> r.status == p["status"].s
    ensures "status" !in p ==> r.status == c.status
    ensures p == map[] ==> r == c
  {
    c.(
      reason := SetStr(p, "reason", c.reason),
      status := SetStr(p, "status", c.status),
      caseType := SetStr(p, "type", c.caseType),
      jurisdiction := SetStr(p, "jurisdiction", c.jurisdiction),
      caseNumber := SetStr(p, "caseNumber", c.caseNumber),
      clientId := SetStr(p, "clientId", c.clientId),
      propertyId := SetStr(p, "propertyId", c.propertyId),
      court := SetOptStr(p, "court", c.court),
      courtCaseNumber := SetOptStr(p, "courtCaseNumber", c.courtCaseNumber),
      rentControlStatus := SetOptStr(p, "rentControlStatus", c.rentControlStatus),
      assignedAttorneyId := SetOptStr(p, "assignedAttorneyId", c.assignedAttorneyId),
      amountOwed := SetOptNum(p, "amountOwed", c.amountOwed),
      monthsOwed := SetOptNum(p, "monthsOwed", c.monthsOwed),
      filedDate := SetOptNum(p, "filedDate", c.filedDate),
      hearingDate := SetOptNum(p, "hearingDate", c.hearingDate),
      judgmentDate := SetOptNum(p, "judgmentDate", c.judgmentDate),
      writIssuedDate := SetOptNum(p, "writIssuedDate", c.writIssuedDate),
      closedDate := SetOptNum(p, "closedDate", c.closedDate),
      serviceDate := SetOptNum(p, "serviceDate", c.serviceDate),
      noticeServedDate := SetOptNum(p, "noticeServedDate", c.noticeServedDate),
      caresActCompliant := if "caresActCompliant" in p && p["caresActCompliant"].VBool?
                           then p["caresActCompliant"].b else c.caresActCompliant)
  }

  /** A body cut down to the client whitelist can change nothing but the
      reason and the two amounts. */
  lemma WhitelistedPatchKeepsOtherColumns(c: Case, p: Body)
    requires p.Keys <= ClientEditable()
    requires PatchCase(c, p).Some?
    ensures PatchCase(c, p).value == c.(reason := PatchCase(c, p).value.reason,
                                        amountOwed := PatchCase(c, p).value.amountOwed,
                                        monthsOwed := PatchCase(c, p).value.monthsOwed)
  {
    assert "status" !in p && "type" !in p && "jurisdiction" !in p && "court" !in p;
    assert "caseNumber" !in p && "clientId" !in p && "propertyId" !in p;
    assert "courtCaseNumber" !in p && "rentControlStatus" !in p && "assignedAttorneyId" !in p;
    assert "filedDate" !in p && "hearingDate" !in p && "judgmentDate" !in p && "writIssuedDate" !in p;
    assert "closedDate" !in p && "serviceDate" !in p && "noticeServedDate" !in p && "caresActCompliant" !in p;
  }

  /** A firm principal may move a case to another client: the patch writes
      the client column and nothing else, and the update then succeeds
      exactly when that client exists (with the case's other links). */
  lemma MoveToClient(c: Case, clientId: Id)
    ensures PatchCase(c, map["clientId" := VStr(clientId)]) == Some(c.(clientId := clientId))
  {
    var p := map["clientId" := VStr(clientId)];
    assert forall k :: k in p ==> k == "clientId";
  }

  /** PUT /cases/:id. A client principal's body is cut down to the whitelist
      and the update only matches its own client's cases; when nothing
      matches, Prisma's update throws. */
  method UpdateCase(db: Db, user: Principal, id: Id, body: Body) returns (res: Response<Case>)
    requires db.Valid()
    modifies db
    ensures db.Valid()
    ensures res.Ok? || res == ServerError("Failed to update case")
    ensures res.Ok? <==> id in old(db.tables.cases) && InClientScope(user, old(db.tables.cases)[id].clientId)
                         && PatchCase(old(db.tables.cases)[id], Sent(user, body)).Some?
                         && LinksExist(old(db.tables), PatchCase(old(db.tables.cases)[id], Sent(user, body)).value)
    ensures !res.Ok? ==> db.tables == old(db.tables)
    ensures res.Ok? ==>
      var aid := FreshId(old(db.tables.auditLogs).Keys);
      && res.body == PatchCase(old(db.tables.cases)[id], Sent(user, body)).value
      && db.tables == old(db.tables).(
           cases := old(db.tables.cases)[id := res.body],
           auditLogs := old(db.tables.auditLogs)[aid := Audit(aid, user, "CASE_UPDATED", "Case", id, Some(Sent(user, body)))])
    ensures res.Ok? && user.Client? ==>
      res.body == old(db.tables.cases)[id].(reason := res.body.reason, amountOwed := res.body.amountOwed,
                                     monthsOwed := res.body.monthsOwed)
  {
    var data := body;
    if user.Client? {
      data := KeepOnly(body, ClientEditable());
    }
    assert data == Sent(user, body);
    res := UpdateWhere(db, user, id, data);
    if res.Ok? && user.Client? {
      WhitelistedPatchKeepsOtherColumns(old(db.tables.cases)[id], data);
    }
  }

  /** `case.update({ where, data })` and its audit entry: `where` adds the
      client's own id for a client principal, and a row that is missing, out
      of scope or refused by Prisma makes the update throw. */
  method UpdateWhere(db: Db, user: Principal, id: Id, data: Body) returns (res: Response<Case>)
    requires db.Valid()
    modifies db
    ensures db.Valid()
    ensures res.Ok? || res == ServerError("Failed to update case")
    ensures res.Ok? <==> id in old(db.tables.cases) && InClientScope(user, old(db.tables.cases)[id].clientId)
                         && PatchCase(old(db.tables.cases)[id], data).Some?
                         && LinksExist(old(db.tables), PatchCase(old(db.tables.cases)[id], data).value)
    ensures !res.Ok? ==> db.tables == old(db.tables)
    ensures res.Ok? ==>
      var aid := FreshId(old(db.tables.auditLogs).Keys);
      && res.body == PatchCase(old(db.tables.cases)[id], data).value
      && db.tables == old(db.tables).(
           cases := old(db.tables.cases)[id := res.body],
           auditLogs := old(db.tables.auditLogs)[aid := Audit(aid, user, "CASE_UPDATED", "Case", id, Some(data))])
  {
    if id !in db.tables.cases || !InClientScope(user, db.tables.cases[id].clientId) {
      return ServerError("Failed to update case");
    }
    var patched := PatchCase(db.tables.cases[id], data);
    if patched.None? || !LinksExist(db.tables, patched.value) {
      return ServerError("Failed to update case");
    }
    StorePatch(db, user, patched.value, data);
    res := Ok(patched.value);
  }

  /** The update's two writes: the patched row, then its audit entry. */
  method StorePatch(db: Db, user: Principal, c: Case, data: Body)
    requires db.Valid() && c.id in db.tables.cases && LinksExist(db.tables, c)
    modifies db
    ensures db.Valid()
    ensures var aid := FreshId(old(db.tables.auditLogs).Keys);
      db.tables == old(db.tables).(
        cases := old(db.tables.cases)[c.id := c],
        auditLogs := old(db.tables.auditLogs)[aid := Audit(aid, user, "CASE_UPDATED", "Case", c.id, Some(data))])
  {
    ReplaceCaseKeeps(db.tables, c);
    db.tables := db.tables.(cases := db.tables.cases[c.id := c]);
    var aid := FreshId(db.tables.auditLogs.Keys);
    var a := Audit(aid, user, "CASE_UPDATED", "Case", c.id, Some(data));
    AddAuditKeeps(db.tables, a);
    db.tables := db.tables.(auditLogs := db.tables.auditLogs[aid := a]);
  }

  /** The body a case update writes: a client's is restricted to the whitelist. */
  function Sent(user: Principal, body: Body): (r: Body)
    ensures user.Client? ==> r.Keys <= ClientEditable()
  {
    if user.Client? then map k | k in body && k in ClientEditable() :: body[k] else body
  }

  // ---------------------------------------------------------------- status and close

  /** PATCH /cases/:id/status: any truthy status is written, with no check
      of the transition. */
  method PatchStatus(db: Db, user: Principal, id: Id, body: Body, now: int) returns (res: Response<Case>)
    requires db.Valid()
    modifies db
    ensures db.Valid()
    ensures !user.Firm? ==> res == Forbidden("Firm user access required")
    ensures user.Firm? && !Present(body, "status") ==> res == BadRequest("Status is required")
    ensures user.Firm? && Present(body, "status") && !res.Ok? ==> res == ServerError("Failed to update status")
    ensures !res.Ok? ==> db.tables == old(db.tables)
    ensures res.Ok? <==> user.Firm? && Present(body, "status") && body["status"].VStr? && id in old(db.tables.cases)
    ensures res.Ok? ==>
      var s := body["status"].s;
      var eid := FreshId(old(db.tables.events).Keys);
      && res.body == old(db.tables.cases)[id].(status := s)
      && db.tables == old(db.tables).(
           cases := old(db.tables.cases)[id := res.body],
           events := old(db.tables.events)[eid := DoneEvent(eid, id, "STATUS_CHANGED", "Status changed to " + s,
                                                    "Case status updated", now)])
  {
    var gate := RequireFirmUser(Some(user));
    if !gate.Ok? {
      return Relay(gate);
    }
    if !Present(body, "status") {
      return BadRequest("Status is required");
    }
    if !body["status"].VStr? || id !in db.tables.cases {
      return ServerError("Failed to update status");
    }
    var s := body["status"].s;
    var c := db.tables.cases[id].(status := s);
    ReplaceCaseKeeps(db.tables, c);
    db.tables := db.tables.(cases := db.tables.cases[id := c]);
    var eid := FreshId(db.tables.events.Keys);
    var e := DoneEvent(eid, id, "STATUS_CHANGED", "Status changed to " + s, "Case status updated", now);
    AddEventKeeps(db.tables, e);
    db.tables := db.tables.(events := db.tables.events[eid := e]);
    res := Ok(c);
  }

  /** POST /cases/:id/close. */
  method CloseCase(db: Db, user: Principal, id: Id, resolutionNotes: Option<string>, now: int)
    returns (res: Response<Case>)
    requires db.Valid()
    modifies db
    ensures db.Valid()
    ensures !user.Firm? ==> res == Forbidden("Firm user access required")
    ensures !res.Ok? ==> db.tables == old(db.tables)
    ensures res.Ok? <==> user.Firm? && id in old(db.tables.cases)
    ensures user.Firm? && !res.Ok? ==> res == ServerError("Failed to close case")
    ensures res.Ok? ==>
      var eid := FreshId(old(db.tables.events).Keys);
      && res.body == old(db.tables.cases)[id].(status := "CLOSED", closedDate := Some(now))
      && db.tables == old(db.tables).(
           cases := old(db.tables.cases)[id := res.body],
           events := old(db.tables.events)[eid := DoneEvent(eid, id, "CASE_CLOSED", "Case Closed",
                                                    OrElse(resolutionNotes, "Case closed"), now)])
  {
    var gate := RequireFirmUser(Some(user));
    if !gate.Ok? {
      return Relay(gate);
    }
    if id !in db.tables.cases {
      return ServerError("Failed to close case");
    }
    var c := db.tables.cases[id].(status := "CLOSED", closedDate := Some(now));
    ReplaceCaseKeeps(db.tables, c);
    db.tables := db.tables.(cases := db.tables.cases[id := c]);
    var eid := FreshId(db.tables.events.Keys);
    var e := DoneEvent(eid, id, "CASE_CLOSED", "Case Closed", OrElse(resolutionNotes, "Case closed"), now);
    AddEventKeeps(db.tables, e);
    db.tables := db.tables.(events := db.tables.events[eid := e]);
    res := Ok(c);
  }
}
