/**
 * The integration routes: a client's integrations, creating one, editing
 * one, testing its connection and starting a sync. Only firm principals
 * reach them, and only for integrations of their own firm's clients. The
 * two connection probes stand for the RentManager and SFTP adapters.
 */
module IntegrationRoutes {
  import opened Common
  import opened Model
  import opened Store
  import opened Query
  import opened AuthMiddleware
  import SyncService

  /** The integration types the schema's enum has. */
  predicate KnownType(s: string) {
    s == "RENTMANAGER_API" || s == "YARDI_API" || s == "YARDI_SFTP"
  }

  predicate KnownStatus(s: string) {
    s == "PENDING" || s == "CONNECTED" || s == "ERROR"
  }

  /** Whether the client exists and belongs to the firm. */
  predicate FirmClient(t: Tables, lawFirmId: Id, clientId: Id) {
    clientId in t.clients && t.clients[clientId].lawFirmId == lawFirmId
  }

  function NewestFirst(i: Integration): Key {
    [Num(-i.createdAt)]
  }

  /** GET /integrations/client/:clientId: 404 for a client outside the
      caller's firm; otherwise its integrations, newest first. */
  method ListIntegrations(db: Db, user: Principal, clientId: Id) returns (res: Response<seq<Integration>>)
    ensures !user.Firm? ==> res == Forbidden("Firm user access required")
    ensures user.Firm? && !FirmClient(db.tables, user.lawFirmId, clientId) ==> res == NotFound("Client not found")
    ensures res.Ok? <==> user.Firm? && FirmClient(db.tables, user.lawFirmId, clientId)
    ensures res.Ok? ==> IsListing(res.body, db.tables.integrations, (i: Integration) => i.clientId == clientId, NewestFirst)
  {
    var gate := RequireFirmUser(Some(user));
    if !gate.Ok? {
      return Relay(gate);
    }
    if !FirmClient(db.tables, user.lawFirmId, clientId) {
      return NotFound("Client not found");
    }
    var rows := Select(db.tables.integrations, (i: Integration) => i.clientId == clientId, NewestFirst);
    res := Ok(rows);
  }

  // ---------------------------------------------------------------- create

  /** The fields of a create request; `None` is a missing field. */
  datatype NewIntegration = NewIntegration(
    clientId: Option<string>, integrationType: Option<string>,
    apiKey: Option<string>, apiSecret: Option<string>, apiUrl: Option<string>,
    sftpHost: Option<string>, sftpPort: Option<int>, sftpUser: Option<string>,
    sftpPassword: Option<string>, sftpPath: Option<string>)

  /** `x || null` for a port number. */
  function PortOrNull(p: Option<int>): (r: Option<int>)
    ensures r.Some? <==> NumTruthy(p)
    ensures r.Some? ==> r == p
  {
    if NumTruthy(p) then p else None
  }

  /** The row a create inserts: PENDING, never synced, each credential
      stored when given and null when absent or empty. */
  function Inserted(id: Id, q: NewIntegration, now: int): (i: Integration)
    requires q.clientId.Some? && q.integrationType.Some?
    ensures i.id == id && i.clientId == q.clientId.value && i.integrationType == q.integrationType.value
    ensures i.status == "PENDING" && i.createdAt == now
    ensures i.lastSyncAt.None? && i.lastSyncStatus.None? && i.lastSyncError.None?
    ensures i.apiKey.Some? <==> Truthy(q.apiKey)
    ensures i.sftpPassword.Some? <==> Truthy(q.sftpPassword)
    ensures i.sftpPort.Some? <==> NumTruthy(q.sftpPort)
  {
    Integration(id, q.clientId.value, q.integrationType.value, "PENDING",
                OrNull(q.apiKey), OrNull(q.apiSecret), OrNull(q.apiUrl),
                OrNull(q.sftpHost), PortOrNull(q.sftpPort), OrNull(q.sftpUser),
                OrNull(q.sftpPassword), OrNull(q.sftpPath), None, None, None, now)
  }

  lemma AddIntegrationKeeps(t: Tables, i: Integration)
    requires Consistent(t) && i.id !in t.integrations && i.clientId in t.clients
    ensures Consistent(t.(integrations := t.integrations[i.id := i]))
  {
    var u := t.(integrations := t.integrations[i.id := i]);
    assert IntegrationRows(u.integrations, u.clients);
  }

  /** POST /integrations: 400 without a client id and a type, 404 for a
      client outside the caller's firm, 500 for a type the enum lacks; a
      PENDING integration otherwise. */
  method CreateIntegration(db: Db, user: Principal, q: NewIntegration, now: int) returns (res: Response<Integration>)
    requires db.Valid()
    modifies db
    ensures db.Valid()
    ensures !user.Firm? ==> res == Forbidden("Firm user access required")
    ensures user.Firm? && !(Truthy(q.clientId) && Truthy(q.integrationType)) ==>
      res == BadRequest("Client ID and integration type are required")
    ensures user.Firm? && Truthy(q.clientId) && Truthy(q.integrationType) &&
            !FirmClient(old(db.tables), user.lawFirmId, q.clientId.value) ==>
      res == NotFound("Client not found")
    ensures res.Created? <==>
      && user.Firm? && Truthy(q.clientId) && Truthy(q.integrationType)
      && FirmClient(old(db.tables), user.lawFirmId, q.clientId.value) && KnownType(q.integrationType.value)
    ensures !res.Created? ==> db.tables == old(db.tables)
    ensures res.Created? ==>
      var i := Inserted(FreshId(old(db.tables.integrations).Keys), q, now);
      res.body == i && db.tables == old(db.tables).(integrations := old(db.tables.integrations)[i.id := i])
  {
    var gate := RequireFirmUser(Some(user));
    if !gate.Ok? {
      return Relay(gate);
    }
    if !(Truthy(q.clientId) && Truthy(q.integrationType)) {
      return BadRequest("Client ID and integration type are required");
    }
    if !FirmClient(db.tables, user.lawFirmId, q.clientId.value) {
      return NotFound("Client not found");
    }
    if !KnownType(q.integrationType.value) {
      return ServerError("Failed to create integration");
    }
    var i := Inserted(FreshId(db.tables.integrations.Keys), q, now);
    AddIntegrationKeeps(db.tables, i);
    db.tables := db.tables.(integrations := db.tables.integrations[i.id := i]);
    res := Created(i);
  }

  // ---------------------------------------------------------------- ownership

  /** The check update, test and sync share: 404 for an unknown id, 403
      for an integration of another firm's client. */
  function Owned(t: Tables, user: Principal, id: Id): (r: Response<()>)
    requires Consistent(t) && user.Firm?
    ensures id !in t.integrations ==> r == NotFound("Integration not found")
    ensures id in t.integrations && t.clients[t.integrations[id].clientId].lawFirmId != user.lawFirmId ==>
      r == Forbidden("Access denied")
    ensures r.Ok? <==> id in t.integrations && FirmClient(t, user.lawFirmId, t.integrations[id].clientId)
  {
    if id !in t.integrations then NotFound("Integration not found")
    else if t.clients[t.integrations[id].clientId].lawFirmId != user.lawFirmId then Forbidden("Access denied")
    else Ok(())
  }

  // ---------------------------------------------------------------- update

  /** Whether Prisma accepts `v` for integration column `k`. */
  predicate IntegrationFieldAccepts(k: string, v: Value) {
    if k == "type" then v.VStr? && KnownType(v.s)
    else if k == "status" then v.VStr? && KnownStatus(v.s)
    else if k == "clientId" then v.VStr?
    else if k in {"apiKey", "apiSecret", "apiUrl", "sftpHost", "sftpUser", "sftpPassword", "sftpPath",
                  "lastSyncStatus", "lastSyncError"} then v.VStr? || v.VNull?
    else if k == "sftpPort" || k == "lastSyncAt" then v.VNum? || v.VNull?
    else false
  }

  function SetText(p: Body, k: string, d: string): string {
    if k in p && p[k].VStr? then p[k].s else d
  }

  function SetOptText(p: Body, k: string, d: Option<string>): Option<string> {
    if k in p then (if p[k].VStr? then Some(p[k].s) else None) else d
  }

  function SetOptNum(p: Body, k: string, d: Option<int>): Option<int> {
    if k in p then (if p[k].VNum? then Some(p[k].n) else None) else d
  }

  /** `integration.update({ data: req.body })`: every key writes its
      column, null clearing a nullable one; an unknown key or a value of
      the wrong type makes Prisma throw. */
  function PatchIntegration(i: Integration, p: Body): (r: Option<Integration>)
    ensures r.Some? <==> forall k :: k in p ==> IntegrationFieldAccepts(k, p[k])
    ensures r.Some? ==> r.value.id == i.id && r.value.createdAt == i.createdAt
    ensures r.Some? ==> KnownType(i.integrationType) ==> KnownType(r.value.integrationType)
    ensures r.Some? && "clientId" !in p ==> r.value.clientId == i.clientId
    ensures r.Some? && "apiKey" in p ==> r.value.apiKey == (if p["apiKey"].VStr? then Some(p["apiKey"].s) else None)
    ensures r.Some? && p == map[] ==> r.value == i
  {
    if exists k :: k in p && !IntegrationFieldAccepts(k, p[k]) then None
    else Some(i.(
      clientId := SetText(p, "clientId", i.clientId),
      integrationType := SetText(p, "type", i.integrationType),
      status := SetText(p, "status", i.status),
      apiKey := SetOptText(p, "apiKey", i.apiKey),
      apiSecret := SetOptText(p, "apiSecret", i.apiSecret),
      apiUrl := SetOptText(p, "apiUrl", i.apiUrl),
      sftpHost := SetOptText(p, "sftpHost", i.sftpHost),
      sftpPort := SetOptNum(p, "sftpPort", i.sftpPort),
      sftpUser := SetOptText(p, "sftpUser", i.sftpUser),
      sftpPassword := SetOptText(p, "sftpPassword", i.sftpPassword),
      sftpPath := SetOptText(p, "sftpPath", i.sftpPath),
      lastSyncAt := SetOptNum(p, "lastSyncAt", i.lastSyncAt),
      lastSyncStatus := SetOptText(p, "lastSyncStatus", i.lastSyncStatus),
      lastSyncError := SetOptText(p, "lastSyncError", i.lastSyncError)))
  }

  /** The ownership check looks at the integration as stored, not at the
      body: an update may hand the integration to any other client, of any
      firm. */
  lemma UpdateMayChangeOwner(i: Integration, other: Id)
    ensures var p := map["clientId" := VStr(other)];
            PatchIntegration(i, p).Some? && PatchIntegration(i, p).value.clientId == other
  {
    var p := map["clientId" := VStr(other)];
    assert forall k :: k in p ==> k == "clientId";
  }

  /** PUT /integrations/:id: the ownership check, then the body written;
      500 when Prisma rejects it or the new client does not exist. */
  method UpdateIntegration(db: Db, user: Principal, id: Id, p: Body) returns (res: Response<Integration>)
    requires db.Valid()
    modifies db
    ensures db.Valid()
    ensures !user.Firm? ==> res == Forbidden("Firm user access required")
    ensures !res.Ok? ==> db.tables == old(db.tables)
    ensures user.Firm? && !Owned(old(db.tables), user, id).Ok? ==>
      res == Relay(Owned(old(db.tables), user, id))
    ensures user.Firm? && Owned(old(db.tables), user, id).Ok? ==>
      var r := PatchIntegration(old(db.tables.integrations)[id], p);
      if r.Some? && r.value.clientId in old(db.tables.clients) then
        res == Ok(r.value) && db.tables == old(db.tables).(integrations := old(db.tables.integrations)[id := r.value])
      else
        res == ServerError("Failed to update integration")
  {
    var gate := RequireFirmUser(Some(user));
    if !gate.Ok? {
      return Relay(gate);
    }
    var owned := Owned(db.tables, user, id);
    if !owned.Ok? {
      return Relay(owned);
    }
    var r := PatchIntegration(db.tables.integrations[id], p);
    if r.None? || r.value.clientId !in db.tables.clients {
      return ServerError("Failed to update integration");
    }
    SyncService.ReplaceIntegrationKeeps(db.tables, r.value);
    db.tables := db.tables.(integrations := db.tables.integrations[id := r.value]);
    res := Ok(r.value);
  }

  // ---------------------------------------------------------------- test and sync

  /** What the SFTP adapter is built from. */
  datatype SftpConfig = SftpConfig(host: string, port: int, username: string, password: string, remotePath: string)

  /** The adapter settings, each missing field defaulted: port 22, path '/'. */
  function SftpConfigOf(i: Integration): (c: SftpConfig)
    ensures c.port == (if NumTruthy(i.sftpPort) then i.sftpPort.value else 22)
    ensures c.remotePath == (if Truthy(i.sftpPath) then i.sftpPath.value else "/")
    ensures c.host == OrElse(i.sftpHost, "") && c.password == OrElse(i.sftpPassword, "")
  {
    SftpConfig(OrElse(i.sftpHost, ""), if NumTruthy(i.sftpPort) then i.sftpPort.value else 22,
               OrElse(i.sftpUser, ""), OrElse(i.sftpPassword, ""), OrElse(i.sftpPath, "/"))
  }

  datatype ConnectionTest = ConnectionTest(success: bool, message: string, integrationType: string)

  /** The probe the integration's type selects: the RentManager API with the
      key and URL, the SFTP server with its settings, or none at all. */
  function TestConnection(i: Integration, rmProbe: (string, Option<string>) -> bool,
                          sftpProbe: SftpConfig -> bool): (r: ConnectionTest)
    ensures r.integrationType == i.integrationType
    ensures i.integrationType == "RENTMANAGER_API" ==>
      r.success == rmProbe(OrElse(i.apiKey, ""), OrNull(i.apiUrl)) &&
      r.message == (if r.success then "Connection successful" else "Connection failed")
    ensures i.integrationType == "YARDI_SFTP" ==>
      r.success == sftpProbe(SftpConfigOf(i)) &&
      r.message == (if r.success then "SFTP connection successful" else "SFTP connection failed")
    ensures i.integrationType != "RENTMANAGER_API" && i.integrationType != "YARDI_SFTP" ==>
      !r.success && r.message == "Connection test not yet implemented for this integration type"
  {
    if i.integrationType == "RENTMANAGER_API" then
      var ok := rmProbe(OrElse(i.apiKey, ""), OrNull(i.apiUrl));
      ConnectionTest(ok, if ok then "Connection successful" else "Connection failed", i.integrationType)
    else if i.integrationType == "YARDI_SFTP" then
      var ok := sftpProbe(SftpConfigOf(i));
      ConnectionTest(ok, if ok then "SFTP connection successful" else "SFTP connection failed", i.integrationType)
    else
      ConnectionTest(false, "Connection test not yet implemented for this integration type", i.integrationType)
  }

  /** A YARDI_API integration never passes the test, whatever its
      credentials and whatever the probes answer. */
  lemma YardiApiNeverPasses(i: Integration, rmProbe: (string, Option<string>) -> bool, sftpProbe: SftpConfig -> bool)
    requires i.integrationType == "YARDI_API"
    ensures !TestConnection(i, rmProbe, sftpProbe).success
  {
  }

  /** POST /integrations/:id/test. Nothing is written. */
  function TestIntegration(t: Tables, user: Principal, id: Id, rmProbe: (string, Option<string>) -> bool,
                           sftpProbe: SftpConfig -> bool): (res: Response<ConnectionTest>)
    requires Consistent(t)
    ensures !user.Firm? ==> res == Forbidden("Firm user access required")
    ensures res.Ok? <==> user.Firm? && Owned(t, user, id).Ok?
    ensures res.Ok? ==> res.body == TestConnection(t.integrations[id], rmProbe, sftpProbe)
  {
    var gate := RequireFirmUser(Some(user));
    if !gate.Ok? then Relay(gate)
    else
      var owned := Owned(t, user, id);
      if !owned.Ok? then Relay(owned) else Ok(TestConnection(t.integrations[id], rmProbe, sftpProbe))
  }

  datatype SyncStarted = SyncStarted(message: string, integrationId: Id)

  /** POST /integrations/:id/sync: the sync runs in the background and the
      route answers at once; the route itself writes nothing. */
  function StartSync(t: Tables, user: Principal, id: Id): (res: Response<SyncStarted>)
    requires Consistent(t)
    ensures !user.Firm? ==> res == Forbidden("Firm user access required")
    ensures res.Ok? <==> user.Firm? && Owned(t, user, id).Ok?
    ensures res.Ok? ==> res.body == SyncStarted("Sync initiated", id)
  {
    var gate := RequireFirmUser(Some(user));
    if !gate.Ok? then Relay(gate)
    else
      var owned := Owned(t, user, id);
      if !owned.Ok? then Relay(owned) else Ok(SyncStarted("Sync initiated", id))
  }
}
