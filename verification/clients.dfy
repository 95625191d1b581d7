/**
 * The client routes: the firm's property-management clients, listed with
 * their counts, one client with its users, first properties and
 * integrations, and the creation and update of a client. Every route is
 * for firm principals only, and every read is scoped to the principal's
 * law firm.
 */
module ClientRoutes {
  import opened Common
  import opened Model
  import opened Store
  import opened Query
  import opened AuthMiddleware
  import Users
  import Properties

  /** The client belongs to the principal's firm. */
  predicate OfFirm(user: Principal, c: MgmtClient) {
    user.Firm? && c.lawFirmId == user.lawFirmId
  }

  function ClientByName(c: MgmtClient): Key {
    [Query.Str(c.name)]
  }

  // ---------------------------------------------------------------- list

  /** The integration columns the list selects. */
  datatype IntegrationBrief = IntegrationBrief(id: Id, integrationType: string, status: string, lastSyncAt: Option<int>)

  /** A listed client: its row, the `_count` of its cases, properties and
      users, and its integrations (unordered: the query gives no order). */
  datatype ClientSummary = ClientSummary(
    client: MgmtClient, cases: nat, properties: nat, users: nat, integrations: set<IntegrationBrief>)

  function Brief(i: Integration): IntegrationBrief {
    IntegrationBrief(i.id, i.integrationType, i.status, i.lastSyncAt)
  }

  /** The client's row with what the list includes of it. */
  function SummaryOf(t: Tables, c: MgmtClient): (s: ClientSummary)
    ensures s.client == c
    ensures s.cases == Count(t.cases, (x: Case) => x.clientId == c.id)
    ensures s.properties == Count(t.properties, (p: Property) => p.clientId == c.id)
    ensures s.users == Count(t.clientUsers, (u: ClientUser) => u.clientId == c.id)
    ensures forall b :: b in s.integrations <==>
      exists k :: k in t.integrations && t.integrations[k].clientId == c.id && b == Brief(t.integrations[k])
  {
    ClientSummary(
      c,
      Count(t.cases, (x: Case) => x.clientId == c.id),
      Count(t.properties, (p: Property) => p.clientId == c.id),
      Count(t.clientUsers, (u: ClientUser) => u.clientId == c.id),
      set k | k in t.integrations && t.integrations[k].clientId == c.id :: Brief(t.integrations[k]))
  }

  /** The summaries of the listed rows, in their order. */
  function Summaries(t: Tables, rows: seq<MgmtClient>): (r: seq<ClientSummary>)
    ensures |r| == |rows| && forall i :: 0 <= i < |rows| ==> r[i] == SummaryOf(t, rows[i])
  {
    MapAll(rows, (c: MgmtClient) => SummaryOf(t, c))
  }

  /** GET /clients: the firm's clients by name, each with its counts and
      integrations. */
  method ListClients(db: Db, user: Principal) returns (res: Response<seq<ClientSummary>>)
    ensures !user.Firm? ==> res == Forbidden("Firm user access required")
    ensures user.Firm? ==> res.Ok?
    ensures res.Ok? ==> var t := db.tables; exists rows ::
      && IsListing(rows, t.clients, (c: MgmtClient) => OfFirm(user, c), ClientByName)
      && res.body == Summaries(t, rows)
  {
    var gate := RequireFirmUser(Some(user));
    if !gate.Ok? {
      return Relay(gate);
    }
    var t := db.tables;
    var rows := Select(t.clients, (c: MgmtClient) => OfFirm(user, c), ClientByName);
    res := Ok(Summaries(t, rows));
  }

  // ---------------------------------------------------------------- one client

  /** The client under `id` is one of the principal's firm. */
  predicate Visible(t: Tables, user: Principal, id: Id) {
    id in t.clients && OfFirm(user, t.clients[id])
  }

  /** One client with its users (unordered), its first ten properties by
      name, its integrations (unordered) and the `_count` of its cases and
      properties. */
  datatype ClientDetail = ClientDetail(
    client: MgmtClient, users: set<Users.UserListing>, properties: seq<Properties.Keyed<Property>>,
    integrations: set<Integration>, caseCount: nat, propertyCount: nat)

  function PropertyByName(e: Properties.Keyed<Property>): Key {
    [Query.Str(e.row.name)]
  }

  /** Keying the rows keeps the count of a filter. */
  lemma WithIdsCount(m: map<Id, Property>, id: Id)
    ensures Count(Properties.WithIds(m), (e: Properties.Keyed<Property>) => e.row.clientId == id)
         == Count(m, (p: Property) => p.clientId == id)
  {
    assert KeysWhere(Properties.WithIds(m), (e: Properties.Keyed<Property>) => e.row.clientId == id)
        == KeysWhere(m, (p: Property) => p.clientId == id);
  }

  /** GET /clients/:id: 404 unless the client is one of the principal's
      firm. */
  method GetClient(db: Db, user: Principal, id: Id) returns (res: Response<ClientDetail>)
    ensures !user.Firm? ==> res == Forbidden("Firm user access required")
    ensures res.NotFound? <==> user.Firm? && !Visible(db.tables, user, id)
    ensures res.NotFound? ==> res.error == "Client not found"
    ensures res.Ok? <==> Visible(db.tables, user, id)
    ensures res.Ok? ==> var t := db.tables; var d := res.body;
      && d.client == t.clients[id]
      && (forall u :: u in d.users <==>
            exists k :: k in t.clientUsers && t.clientUsers[k].clientId == id && u == Users.ClientListing(t.clientUsers[k]))
      && (forall i :: i in d.integrations <==> i in t.integrations.Values && i.clientId == id)
      && d.caseCount == Count(t.cases, (x: Case) => x.clientId == id)
      && d.propertyCount == Count(t.properties, (p: Property) => p.clientId == id)
      && |d.properties| == Min(10, d.propertyCount)
      && exists rows ::
           && IsListing(rows, Properties.WithIds(t.properties), (e: Properties.Keyed<Property>) => e.row.clientId == id, PropertyByName)
           && |d.properties| <= |rows| && d.properties == rows[..|d.properties|]
  {
    var gate := RequireFirmUser(Some(user));
    if !gate.Ok? {
      return Relay(gate);
    }
    var t := db.tables;
    if !Visible(t, user, id) {
      return NotFound("Client not found");
    }
    var rows := Select(Properties.WithIds(t.properties), (e: Properties.Keyed<Property>) => e.row.clientId == id, PropertyByName);
    WithIdsCount(t.properties, id);
    var users := set k | k in t.clientUsers && t.clientUsers[k].clientId == id :: Users.ClientListing(t.clientUsers[k]);
    var integrations := set k | k in t.integrations && t.integrations[k].clientId == id :: t.integrations[k];
    var shown := rows[..Min(10, |rows|)];
    res := Ok(ClientDetail(t.clients[id], users, shown, integrations,
                           Count(t.cases, (x: Case) => x.clientId == id),
                           Count(t.properties, (p: Property) => p.clientId == id)));
  }

  // ---------------------------------------------------------------- create

  /** The body of POST /clients. */
  datatype NewClient = NewClient(
    name: Option<string>, primaryContact: Option<string>, email: Option<string>,
    phone: Option<string>, address: Option<string>)

  /** The row a create inserts: the firm is the principal's, never the
      body's. */
  function Inserted(id: Id, q: NewClient, lawFirmId: Id): (c: MgmtClient)
    requires Truthy(q.name)
    ensures c.id == id && c.name == q.name.value && c.lawFirmId == lawFirmId
    ensures c.primaryContact == q.primaryContact && c.email == q.email && c.phone == q.phone && c.address == q.address
  {
    MgmtClient(id, q.name.value, q.primaryContact, q.email, q.phone, q.address, lawFirmId)
  }

  lemma AddClientKeeps(t: Tables, c: MgmtClient)
    requires Consistent(t) && c.id !in t.clients && c.lawFirmId in t.lawFirms
    ensures Consistent(t.(clients := t.clients[c.id := c]))
  {
    ClientsGrowKeep(t, t.clients[c.id := c]);
  }

  /** A client table whose rows are well formed and which loses no id keeps
      every row that points at a client valid. */
  lemma ClientsGrowKeep(t: Tables, clients: map<Id, MgmtClient>)
    requires Consistent(t) && ClientRows(clients, t.lawFirms) && t.clients.Keys <= clients.Keys
    ensures Consistent(t.(clients := clients))
  {
    assert ClientUserRows(t.clientUsers, clients);
    assert PropertyRows(t.properties, clients);
    assert TenantRows(t.tenants, clients, t.properties, t.units);
    assert CaseRows(t.cases, clients, t.properties, t.tenants);
    assert IntegrationRows(t.integrations, clients);
  }

  /** POST /clients: 400 without a name; 500 when the principal's firm is
      gone; otherwise the new client, visible to its firm only. */
  method CreateClient(db: Db, user: Principal, q: NewClient) returns (res: Response<MgmtClient>)
    requires db.Valid()
    modifies db
    ensures db.Valid()
    ensures !user.Firm? ==> res == Forbidden("Firm user access required")
    ensures user.Firm? && !Truthy(q.name) ==> res == BadRequest("Client name is required")
    ensures user.Firm? && Truthy(q.name) && user.lawFirmId !in old(db.tables.lawFirms) ==>
      res == ServerError("Failed to create client")
    ensures !res.Created? ==> db.tables == old(db.tables)
    ensures res.Created? <==> user.Firm? && Truthy(q.name) && user.lawFirmId in old(db.tables.lawFirms)
    ensures res.Created? ==>
      && res.body == Inserted(FreshId(old(db.tables.clients).Keys), q, user.lawFirmId)
      && db.tables == old(db.tables).(clients := old(db.tables.clients)[res.body.id := res.body])
      && Visible(db.tables, user, res.body.id)
      && forall other: Principal :: other.Firm? && other.lawFirmId != user.lawFirmId ==> !Visible(db.tables, other, res.body.id)
  {
    var gate := RequireFirmUser(Some(user));
    if !gate.Ok? {
      return Relay(gate);
    }
    if !Truthy(q.name) {
      return BadRequest("Client name is required");
    }
    if user.lawFirmId !in db.tables.lawFirms {
      // the firm is gone: the foreign key refuses the insert
      return ServerError("Failed to create client");
    }
    var c := Inserted(FreshId(db.tables.clients.Keys), q, user.lawFirmId);
    AddClientKeeps(db.tables, c);
    db.tables := db.tables.(clients := db.tables.clients[c.id := c]);
    res := Created(c);
  }

  // ---------------------------------------------------------------- update

  /** Whether Prisma accepts `v` for client column `k`. */
  predicate ClientFieldAccepts(k: string, v: Value) {
    if k == "name" || k == "lawFirmId" then v.VStr?
    else if k in {"primaryContact", "email", "phone", "address"} then v.VStr? || v.VNull?
    else false
  }

  function SetText(p: Body, k: string, d: string): string {
    if k in p && p[k].VStr? then p[k].s else d
  }

  function SetOptText(p: Body, k: string, d: Option<string>): Option<string> {
    if k in p then (if p[k].VStr? then Some(p[k].s) else None) else d
  }

  /** `propertyMgmtClient.update({ data: req.body })`: every key writes its
      column, null clearing a nullable one; an unknown key or a value of the
      wrong type makes Prisma throw. */
  function PatchClient(c: MgmtClient, p: Body): (r: Option<MgmtClient>)
    ensures r.Some? <==> forall k :: k in p ==> ClientFieldAccepts(k, p[k])
    ensures r.Some? ==> r.value.id == c.id
    ensures r.Some? && "lawFirmId" !in p ==> r.value.lawFirmId == c.lawFirmId
    ensures r.Some? && "name" in p ==> r.value.name == p["name"].s
    ensures r.Some? && "email" in p ==> r.value.email == (if p["email"].VStr? then Some(p["email"].s) else None)
    ensures r.Some? && p == map[] ==> r.value == c
  {
    if exists k :: k in p && !ClientFieldAccepts(k, p[k]) then None
    else Some(c.(
      name := SetText(p, "name", c.name),
      primaryContact := SetOptText(p, "primaryContact", c.primaryContact),
      email := SetOptText(p, "email", c.email),
      phone := SetOptText(p, "phone", c.phone),
      address := SetOptText(p, "address", c.address),
      lawFirmId := SetText(p, "lawFirmId", c.lawFirmId)))
  }

  /** The firm check applies to the stored row only: an update may hand
      the client to another firm, after which its own firm no longer sees
      it. */
  lemma UpdateMayChangeFirm(c: MgmtClient, other: Id)
    ensures var p := map["lawFirmId" := VStr(other)];
            PatchClient(c, p).Some? && PatchClient(c, p).value.lawFirmId == other
  {
    var p := map["lawFirmId" := VStr(other)];
    assert forall k :: k in p ==> k == "lawFirmId";
  }

  lemma ReplaceClientKeeps(t: Tables, c: MgmtClient)
    requires Consistent(t) && c.id in t.clients && c.lawFirmId in t.lawFirms
    ensures Consistent(t.(clients := t.clients[c.id := c]))
  {
    ClientsGrowKeep(t, t.clients[c.id := c]);
  }

  /** PUT /clients/:id: the row is looked up by id and firm together, so a
      client of another firm, or none, fails like a rejected body: 500. */
  method UpdateClient(db: Db, user: Principal, id: Id, p: Body) returns (res: Response<MgmtClient>)
    requires db.Valid()
    modifies db
    ensures db.Valid()
    ensures !user.Firm? ==> res == Forbidden("Firm user access required")
    ensures !res.Ok? ==> db.tables == old(db.tables)
    ensures user.Firm? && !Visible(old(db.tables), user, id) ==> res == ServerError("Failed to update client")
    ensures res.Ok? <==>
      && Visible(old(db.tables), user, id)
      && PatchClient(old(db.tables.clients)[id], p).Some?
      && PatchClient(old(db.tables.clients)[id], p).value.lawFirmId in old(db.tables.lawFirms)
    ensures res.Ok? ==>
      && res.body == PatchClient(old(db.tables.clients)[id], p).value
      && db.tables == old(db.tables).(clients := old(db.tables.clients)[id := res.body])
    ensures user.Firm? && !res.Ok? ==> res == ServerError("Failed to update client")
  {
    var gate := RequireFirmUser(Some(user));
    if !gate.Ok? {
      return Relay(gate);
    }
    if !Visible(db.tables, user, id) {
      // no row matches `{ id, lawFirmId }`: Prisma throws
      return ServerError("Failed to update client");
    }
    var r := PatchClient(db.tables.clients[id], p);
    if r.None? || r.value.lawFirmId !in db.tables.lawFirms {
      return ServerError("Failed to update client");
    }
    ReplaceClientKeeps(db.tables, r.value);
    db.tables := db.tables.(clients := db.tables.clients[id := r.value]);
    res := Ok(r.value);
  }
}
