/**
 * `SyncService`: the bookkeeping on the integration row around one sync,
 * the RentManager and Yardi upsert loops, and `syncAll`.
 *
 * What the property-management systems answer (connection tests, fetched
 * records, directory listings, downloaded CSV files) is an input of the
 * sync. A database call that Prisma rejects ends the sync with
 * `DbError()`, standing for Prisma's own message.
 */
module SyncService {
  import opened Common
  import opened Strings
  import opened Model
  import opened Store
  import opened Upserts
  import RentManager
  import Yardi

  /** The answer of one adapter call that can throw. */
  datatype Fetch<T> = Fetched(rows: T) | FetchFailed

  /** How a sync, or one step of it, ended: a thrown error carries its message. */
  datatype Outcome = Done | Failed(message: string)

  /** The tables after a step, and how the step ended. */
  datatype Run = Run(tables: Tables, outcome: Outcome)

  /** One RentManager property with what `fetchUnits` and `fetchTenants` answer for it. */
  datatype RmProperty = RmProperty(record: Record, units: Fetch<seq<Record>>, tenants: Fetch<seq<Record>>)

  /** What the RentManager API answers during one sync. */
  datatype RmFeed = RmFeed(connected: bool, properties: Fetch<seq<RmProperty>>)

  /** What the Yardi SFTP server answers during one sync: the connection test,
      the directory listing and each file's parsed rows. */
  datatype YardiFeed = YardiFeed(connected: bool, listing: Fetch<seq<string>>, download: string -> Fetch<seq<Record>>)

  function DbError(): string {
    "database error"
  }

  /** A sync writes properties, units and tenants only: clients and
      integration rows stay as they are. */
  predicate KeepsOwners(t: Tables, u: Tables) {
    u.clients == t.clients && u.integrations == t.integrations
  }

  // ---------------------------------------------------------------- the store after an upsert

  /** Every row of an upserted table is the upserted row or an old one. */
  lemma UpsertedRows<D, K>(m: map<Id, D>, key: D -> Option<K>, d: D)
    requires Unique(m, key) && key(d).Some?
    ensures forall i :: i in Upsert(m, key, d) ==> Upsert(m, key, d)[i] == d || (i in m && Upsert(m, key, d)[i] == m[i])
    ensures forall i :: i in Upsert(m, key, d) ==> i in m || i == FreshId(m.Keys)
  {
    var r := Upsert(m, key, d);
    forall i | i in r ensures r[i] == d || (i in m && r[i] == m[i]) {
      if i in m && key(m[i]) == key(d) {
        assert key(r[i]) == key(d);
      }
    }
  }

  lemma UpsertedPropertyRows(m: map<Id, Property>, clients: map<Id, MgmtClient>, p: Property)
    requires PropertyRows(m, clients) && PropertyKey(p).Some? && p.clientId in clients
    ensures PropertyRows(Upsert(m, PropertyKey, p), clients)
  {
    UpsertedRows(m, PropertyKey, p);
  }

  lemma UnitRowsGrow(m: map<Id, Unit>, p1: map<Id, Property>, p2: map<Id, Property>)
    requires UnitRows(m, p1) && p1.Keys <= p2.Keys
    ensures UnitRows(m, p2)
  {
  }

  lemma TenantRowsGrow(m: map<Id, Tenant>, clients: map<Id, MgmtClient>, p1: map<Id, Property>, u1: map<Id, Unit>,
                       p2: map<Id, Property>, u2: map<Id, Unit>)
    requires TenantRows(m, clients, p1, u1) && p1.Keys <= p2.Keys && u1.Keys <= u2.Keys
    ensures TenantRows(m, clients, p2, u2)
  {
  }

  lemma CaseRowsGrow(m: map<Id, Case>, clients: map<Id, MgmtClient>, p1: map<Id, Property>, t1: map<Id, Tenant>,
                     p2: map<Id, Property>, t2: map<Id, Tenant>)
    requires CaseRows(m, clients, p1, t1) && p1.Keys <= p2.Keys && t1.Keys <= t2.Keys
    ensures CaseRows(m, clients, p2, t2)
  {
  }

  lemma UpsertPropertyKeeps(t: Tables, p: Property)
    requires Consistent(t) && PropertyKey(p).Some? && p.clientId in t.clients
    ensures Consistent(t.(properties := Upsert(t.properties, PropertyKey, p)))
  {
    var ps := Upsert(t.properties, PropertyKey, p);
    UpsertedPropertyRows(t.properties, t.clients, p);
    UnitRowsGrow(t.units, t.properties, ps);
    TenantRowsGrow(t.tenants, t.clients, t.properties, t.units, ps, t.units);
    CaseRowsGrow(t.cases, t.clients, t.properties, t.tenants, ps, t.tenants);
  }

  lemma UpsertedUnitRows(m: map<Id, Unit>, properties: map<Id, Property>, d: Unit)
    requires UnitRows(m, properties) && UnitKey(d).Some? && d.propertyId in properties
    ensures UnitRows(Upsert(m, UnitKey, d), properties)
  {
    UpsertedRows(m, UnitKey, d);
  }

  lemma UpsertUnitKeeps(t: Tables, d: Unit)
    requires Consistent(t) && UnitKey(d).Some? && d.propertyId in t.properties
    ensures Consistent(t.(units := Upsert(t.units, UnitKey, d)))
  {
    var us := Upsert(t.units, UnitKey, d);
    UpsertedUnitRows(t.units, t.properties, d);
    TenantRowsGrow(t.tenants, t.clients, t.properties, t.units, t.properties, us);
  }

  /** A tenant's client, property and unit exist. */
  predicate TenantLinksExist(t: Tables, d: Tenant) {
    && d.clientId in t.clients
    && (d.propertyId.Some? ==> d.propertyId.value in t.properties)
    && (d.unitId.Some? ==> d.unitId.value in t.units)
  }

  lemma UpsertedTenantRows(m: map<Id, Tenant>, t: Tables, d: Tenant)
    requires TenantRows(m, t.clients, t.properties, t.units) && TenantKey(d).Some? && TenantLinksExist(t, d)
    ensures TenantRows(Upsert(m, TenantKey, d), t.clients, t.properties, t.units)
  {
    var r := Upsert(m, TenantKey, d);
    UpsertedRows(m, TenantKey, d);
    forall k | k in r
      ensures && r[k].clientId in t.clients
              && (r[k].propertyId.Some? ==> r[k].propertyId.value in t.properties)
              && (r[k].unitId.Some? ==> r[k].unitId.value in t.units)
    {
      assert r[k] == d || (k in m && r[k] == m[k]);
    }
  }

  lemma UpsertTenantKeeps(t: Tables, d: Tenant)
    requires Consistent(t) && TenantKey(d).Some? && TenantLinksExist(t, d)
    ensures Consistent(t.(tenants := Upsert(t.tenants, TenantKey, d)))
  {
    var ds := Upsert(t.tenants, TenantKey, d);
    UpsertedTenantRows(t.tenants, t, d);
    CaseRowsGrow(t.cases, t.clients, t.properties, t.tenants, t.properties, ds);
  }

  lemma ReplaceIntegrationKeeps(t: Tables, i: Integration)
    requires Consistent(t) && i.id in t.integrations && i.clientId in t.clients
    ensures Consistent(t.(integrations := t.integrations[i.id := i]))
  {
    var u := t.(integrations := t.integrations[i.id := i]);
    assert IntegrationRows(u.integrations, u.clients);
  }

  /** The tables with one integration row rewritten in place. */
  function WithIntegration(t: Tables, i: Integration): (u: Tables)
    requires Consistent(t) && i.id in t.integrations && i.clientId in t.clients
    ensures Consistent(u)
    ensures u.integrations == t.integrations[i.id := i] && u.clients == t.clients
    ensures u == t.(integrations := t.integrations[i.id := i])
  {
    ReplaceIntegrationKeeps(t, i);
    t.(integrations := t.integrations[i.id := i])
  }

  // ---------------------------------------------------------------- single upserts

  /** `property.upsert` on (externalId, clientId). An undefined external id
      or a missing client makes Prisma throw and writes nothing. */
  function PutProperty(t: Tables, p: Property): (r: Run)
    requires Consistent(t)
    ensures Consistent(r.tables)
    ensures r.outcome.Done? <==> PropertyKey(p).Some? && p.clientId in t.clients
    ensures r.outcome.Failed? ==> r == Run(t, Failed(DbError()))
    ensures r.outcome.Done? ==> r.tables == t.(properties := Upsert(t.properties, PropertyKey, p))
  {
    if PropertyKey(p).None? || p.clientId !in t.clients then Run(t, Failed(DbError()))
    else
      UpsertPropertyKeeps(t, p);
      Run(t.(properties := Upsert(t.properties, PropertyKey, p)), Done)
  }

  /** `unit.upsert` on (externalId, propertyId); the property must exist. */
  function PutUnit(t: Tables, u: Unit): (r: Run)
    requires Consistent(t)
    ensures Consistent(r.tables)
    ensures r.outcome.Done? <==> UnitKey(u).Some? && u.propertyId in t.properties
    ensures r.outcome.Failed? ==> r == Run(t, Failed(DbError()))
    ensures r.outcome.Done? ==> r.tables == t.(units := Upsert(t.units, UnitKey, u))
  {
    if UnitKey(u).None? || u.propertyId !in t.properties then Run(t, Failed(DbError()))
    else
      UpsertUnitKeeps(t, u);
      Run(t.(units := Upsert(t.units, UnitKey, u)), Done)
  }

  /** `tenant.upsert` on (externalId, clientId); its client, property and
      unit must exist. */
  function PutTenant(t: Tables, d: Tenant): (r: Run)
    requires Consistent(t)
    ensures Consistent(r.tables)
    ensures r.outcome.Done? <==> TenantKey(d).Some? && TenantLinksExist(t, d)
    ensures r.outcome.Failed? ==> r == Run(t, Failed(DbError()))
    ensures r.outcome.Done? ==> r.tables == t.(tenants := Upsert(t.tenants, TenantKey, d))
  {
    if TenantKey(d).None? || !TenantLinksExist(t, d) then Run(t, Failed(DbError()))
    else
      UpsertTenantKeeps(t, d);
      Run(t.(tenants := Upsert(t.tenants, TenantKey, d)), Done)
  }

  // ---------------------------------------------------------------- upsert loops

  /** The upserts of a `for` loop over property rows, stopping at the first
      that throws. */
  function PutProperties(t: Tables, ps: seq<Property>): (r: Run)
    requires Consistent(t)
    ensures Consistent(r.tables)
    ensures KeepsOwners(t, r.tables)
    decreases |ps|
  {
    if ps == [] then Run(t, Done)
    else
      var r := PutProperty(t, ps[0]);
      if r.outcome.Failed? then r else PutProperties(r.tables, ps[1..])
  }

  function PutUnits(t: Tables, us: seq<Unit>): (r: Run)
    requires Consistent(t)
    ensures Consistent(r.tables)
    ensures KeepsOwners(t, r.tables)
    decreases |us|
  {
    if us == [] then Run(t, Done)
    else
      var r := PutUnit(t, us[0]);
      if r.outcome.Failed? then r else PutUnits(r.tables, us[1..])
  }

  function PutTenants(t: Tables, ds: seq<Tenant>): (r: Run)
    requires Consistent(t)
    ensures Consistent(r.tables)
    ensures KeepsOwners(t, r.tables)
    decreases |ds|
  {
    if ds == [] then Run(t, Done)
    else
      var r := PutTenant(t, ds[0]);
      if r.outcome.Failed? then r else PutTenants(r.tables, ds[1..])
  }

  /** Every property row carries an external id and names an existing client. */
  predicate PropertiesWritable(clients: map<Id, MgmtClient>, ps: seq<Property>) {
    AllKeyed(ps, PropertyKey) && forall j :: 0 <= j < |ps| ==> ps[j].clientId in clients
  }

  predicate UnitsWritable(properties: map<Id, Property>, us: seq<Unit>) {
    AllKeyed(us, UnitKey) && forall j :: 0 <= j < |us| ==> us[j].propertyId in properties
  }

  predicate TenantsWritable(t: Tables, ds: seq<Tenant>) {
    AllKeyed(ds, TenantKey) && forall j :: 0 <= j < |ds| ==> TenantLinksExist(t, ds[j])
  }

  lemma PropertiesWritableCons(clients: map<Id, MgmtClient>, ps: seq<Property>)
    requires ps != []
    ensures PropertiesWritable(clients, ps) <==>
      PropertyKey(ps[0]).Some? && ps[0].clientId in clients && PropertiesWritable(clients, ps[1..])
  {
    if PropertyKey(ps[0]).Some? && ps[0].clientId in clients && PropertiesWritable(clients, ps[1..]) {
      forall j | 0 <= j < |ps| ensures PropertyKey(ps[j]).Some? && ps[j].clientId in clients {
        if j > 0 { assert ps[j] == ps[1..][j - 1]; }
      }
    }
  }

  lemma UnitsWritableCons(properties: map<Id, Property>, us: seq<Unit>)
    requires us != []
    ensures UnitsWritable(properties, us) <==>
      UnitKey(us[0]).Some? && us[0].propertyId in properties && UnitsWritable(properties, us[1..])
  {
    if UnitKey(us[0]).Some? && us[0].propertyId in properties && UnitsWritable(properties, us[1..]) {
      forall j | 0 <= j < |us| ensures UnitKey(us[j]).Some? && us[j].propertyId in properties {
        if j > 0 { assert us[j] == us[1..][j - 1]; }
      }
    }
  }

  lemma TenantsWritableCons(t: Tables, ds: seq<Tenant>)
    requires ds != []
    ensures TenantsWritable(t, ds) <==>
      TenantKey(ds[0]).Some? && TenantLinksExist(t, ds[0]) && TenantsWritable(t, ds[1..])
  {
    if TenantKey(ds[0]).Some? && TenantLinksExist(t, ds[0]) && TenantsWritable(t, ds[1..]) {
      forall j | 0 <= j < |ds| ensures TenantKey(ds[j]).Some? && TenantLinksExist(t, ds[j]) {
        if j > 0 { assert ds[j] == ds[1..][j - 1]; }
      }
    }
  }

  /** A tenant upsert changes only the tenant table, which no tenant links to. */
  lemma TenantsWritableAfterTenant(t: Tables, u: Tables, ds: seq<Tenant>)
    requires u.clients == t.clients && u.properties == t.properties && u.units == t.units
    ensures TenantsWritable(u, ds) <==> TenantsWritable(t, ds)
  {
    assert forall d :: TenantLinksExist(u, d) <==> TenantLinksExist(t, d);
  }

  /** A property loop completes exactly when every row is writable, and then
      it has changed the property table alone, by the upserts in order. */
  lemma {:induction false} PutPropertiesShape(t: Tables, ps: seq<Property>)
    requires Consistent(t)
    ensures PutProperties(t, ps).outcome.Done? <==> PropertiesWritable(t.clients, ps)
    ensures PutProperties(t, ps).outcome.Done? ==>
      PutProperties(t, ps).tables == t.(properties := UpsertAll(t.properties, PropertyKey, ps))
    decreases |ps|
  {
    if ps != [] {
      PropertiesWritableCons(t.clients, ps);
      var r := PutProperty(t, ps[0]);
      if r.outcome.Done? {
        PutPropertiesShape(r.tables, ps[1..]);
      }
    }
  }

  /** The same for a unit loop. */
  lemma {:induction false} PutUnitsShape(t: Tables, us: seq<Unit>)
    requires Consistent(t)
    ensures PutUnits(t, us).outcome.Done? <==> UnitsWritable(t.properties, us)
    ensures PutUnits(t, us).outcome.Done? ==>
      PutUnits(t, us).tables == t.(units := UpsertAll(t.units, UnitKey, us))
    decreases |us|
  {
    if us != [] {
      UnitsWritableCons(t.properties, us);
      var r := PutUnit(t, us[0]);
      if r.outcome.Done? {
        PutUnitsShape(r.tables, us[1..]);
      }
    }
  }

  /** The same for a tenant loop. */
  lemma {:induction false} PutTenantsShape(t: Tables, ds: seq<Tenant>)
    requires Consistent(t)
    ensures PutTenants(t, ds).outcome.Done? <==> TenantsWritable(t, ds)
    ensures PutTenants(t, ds).outcome.Done? ==>
      PutTenants(t, ds).tables == t.(tenants := UpsertAll(t.tenants, TenantKey, ds))
    decreases |ds|
  {
    if ds != [] {
      TenantsWritableCons(t, ds);
      var r := PutTenant(t, ds[0]);
      if r.outcome.Done? {
        PutTenantsShape(r.tables, ds[1..]);
        TenantsWritableAfterTenant(t, r.tables, ds[1..]);
      }
    }
  }

  // ---------------------------------------------------------------- RentManager

  /** The unit rows written for the records `fetchUnits` answers. */
  function RmUnits(us: seq<Record>, propertyId: Id, now: int): seq<Unit> {
    MapAll(us, (r: Record) => RentManager.MapUnit(r, propertyId, now))
  }

  /** The tenant rows written for the records `fetchTenants` answers; the
      unit is never matched. */
  function RmTenants(ds: seq<Record>, clientId: Id, propertyId: Option<Id>, now: int): seq<Tenant> {
    MapAll(ds, (r: Record) => RentManager.MapTenant(r, clientId, propertyId, None, now))
  }

  /** Fetch and upsert the units, then fetch and upsert the tenants, of one
      property. */
  function RmChildren(t: Tables, clientId: Id, rp: RmProperty, unitPropertyId: Id,
                      tenantPropertyId: Option<Id>, now: int): (r: Run)
    requires Consistent(t)
    ensures Consistent(r.tables)
    ensures KeepsOwners(t, r.tables)
  {
    match rp.units
    case FetchFailed => Run(t, Failed("Failed to fetch units from RentManager"))
    case Fetched(us) =>
      var r := PutUnits(t, RmUnits(us, unitPropertyId, now));
      if r.outcome.Failed? then r
      else match rp.tenants
        case FetchFailed => Run(r.tables, Failed("Failed to fetch tenants from RentManager"))
        case Fetched(ds) => PutTenants(r.tables, RmTenants(ds, clientId, tenantPropertyId, now))
  }

  /** One pass of the property loop as written: the mapped property carries
      no `id`, so its units are written with property id '' and its tenants
      with no property. */
  function RmPropertyStep(t: Tables, clientId: Id, rp: RmProperty, now: int): (r: Run)
    requires Consistent(t)
    ensures Consistent(r.tables)
    ensures KeepsOwners(t, r.tables)
  {
    var r := PutProperty(t, RentManager.MapProperty(rp.record, clientId, now));
    if r.outcome.Failed? then r
    else RmChildren(r.tables, clientId, rp, "", None, now)
  }

  /** The property loop. */
  function RmProperties(t: Tables, clientId: Id, rps: seq<RmProperty>, now: int): (r: Run)
    requires Consistent(t)
    ensures Consistent(r.tables)
    ensures KeepsOwners(t, r.tables)
    decreases |rps|
  {
    if rps == [] then Run(t, Done)
    else
      var r := RmPropertyStep(t, clientId, rps[0], now);
      if r.outcome.Failed? then r else RmProperties(r.tables, clientId, rps[1..], now)
  }

  /** The loop from position `i` on is the pass over row `i`, then, unless
      it failed, the loop from `i + 1` on. */
  lemma RmPropertiesCons(t: Tables, clientId: Id, rps: seq<RmProperty>, i: int, now: int)
    requires Consistent(t) && 0 <= i < |rps|
    ensures var r := RmPropertyStep(t, clientId, rps[i], now);
      RmProperties(t, clientId, rps[i..], now) ==
        if r.outcome.Failed? then r else RmProperties(r.tables, clientId, rps[i + 1..], now)
  {
    assert rps[i..][0] == rps[i] && rps[i..][1..] == rps[i + 1..];
  }

  /** The property loop's pass with the unit and tenant rows pointing at the
      property the upsert wrote, found by its natural key. */
  function RmPropertyStepLinked(t: Tables, clientId: Id, rp: RmProperty, now: int): (r: Run)
    requires Consistent(t)
    ensures Consistent(r.tables)
  {
    var p := RentManager.MapProperty(rp.record, clientId, now);
    var r := PutProperty(t, p);
    if r.outcome.Failed? then r
    else
      match Find(r.tables.properties, PropertyKey, PropertyKey(p).value)
      case Some(id) => RmChildren(r.tables, clientId, rp, id, Some(id), now)
      case None => assert false; r
  }

  /** `syncRentManager`: the API key and the connection are checked before
      anything is fetched or written. */
  function RmSync(t: Tables, integ: Integration, feed: RmFeed, now: int): (r: Run)
    requires Consistent(t)
    ensures Consistent(r.tables)
    ensures KeepsOwners(t, r.tables)
    ensures !Truthy(integ.apiKey) ==> r == Run(t, Failed("RentManager API key not configured"))
    ensures Truthy(integ.apiKey) && !feed.connected ==> r == Run(t, Failed("Failed to connect to RentManager API"))
  {
    if !Truthy(integ.apiKey) then Run(t, Failed("RentManager API key not configured"))
    else if !feed.connected then Run(t, Failed("Failed to connect to RentManager API"))
    else match feed.properties
      case FetchFailed => Run(t, Failed("Failed to fetch properties from RentManager"))
      case Fetched(rps) => RmProperties(t, integ.clientId, rps, now)
  }

  // ---------------------------------------------------------------- Yardi

  /** A file whose name mentions properties is read as a properties file. */
  predicate IsPropertiesFile(name: string) {
    Contains(name, "properties") || Contains(name, "Properties")
  }

  /** Otherwise a file whose name mentions tenants is read as a tenants file. */
  predicate IsTenantsFile(name: string) {
    !IsPropertiesFile(name) && (Contains(name, "tenants") || Contains(name, "Tenants"))
  }

  function YardiProperties(rows: seq<Record>, clientId: Id, now: int): seq<Property> {
    MapAll(rows, (r: Record) => Yardi.MapProperty(r, clientId, now))
  }

  function YardiTenants(rows: seq<Record>, clientId: Id, now: int): (ds: seq<Tenant>)
    ensures forall j :: 0 <= j < |ds| ==> ds[j].clientId == clientId && ds[j].propertyId.None? && ds[j].unitId.None?
  {
    MapAll(rows, (r: Record) => Yardi.MapTenant(r, clientId, None, None, now))
  }

  /** One pass of the file loop: a properties or tenants file is downloaded
      and its rows upserted; any other file is skipped. */
  function YardiFile(t: Tables, clientId: Id, download: string -> Fetch<seq<Record>>,
                     name: string, now: int): (r: Run)
    requires Consistent(t)
    ensures Consistent(r.tables)
    ensures KeepsOwners(t, r.tables)
  {
    if !IsPropertiesFile(name) && !IsTenantsFile(name) then Run(t, Done)
    else match download(name)
      case FetchFailed => Run(t, Failed("Failed to download CSV file: " + name))
      case Fetched(rows) =>
        if IsPropertiesFile(name) then PutProperties(t, YardiProperties(rows, clientId, now))
        else PutTenants(t, YardiTenants(rows, clientId, now))
  }

  /** The file loop. */
  function YardiFiles(t: Tables, clientId: Id, download: string -> Fetch<seq<Record>>,
                      files: seq<string>, now: int): (r: Run)
    requires Consistent(t)
    ensures Consistent(r.tables)
    ensures KeepsOwners(t, r.tables)
    decreases |files|
  {
    if files == [] then Run(t, Done)
    else
      var r := YardiFile(t, clientId, download, files[0], now);
      if r.outcome.Failed? then r else YardiFiles(r.tables, clientId, download, files[1..], now)
  }

  /** `syncYardi`: the SFTP credentials and the connection are checked
      before anything is listed or written; only `.csv` files are read. */
  function YardiSync(t: Tables, integ: Integration, feed: YardiFeed, now: int): (r: Run)
    requires Consistent(t)
    ensures Consistent(r.tables)
    ensures KeepsOwners(t, r.tables)
    ensures !(Truthy(integ.sftpHost) && Truthy(integ.sftpUser) && Truthy(integ.sftpPassword)) ==>
      r == Run(t, Failed("Yardi SFTP credentials not configured"))
  {
    if !(Truthy(integ.sftpHost) && Truthy(integ.sftpUser) && Truthy(integ.sftpPassword)) then
      Run(t, Failed("Yardi SFTP credentials not configured"))
    else if !feed.connected then Run(t, Failed("Failed to connect to Yardi SFTP"))
    else match feed.listing
      case FetchFailed => Run(t, Failed("Failed to list CSV files"))
      case Fetched(names) => YardiFiles(t, integ.clientId, feed.download, Yardi.CsvFiles(names), now)
  }

  /** The adapter an integration type selects; any other type syncs nothing. */
  function AdapterSync(t: Tables, integ: Integration, rm: RmFeed, yardi: YardiFeed, now: int): (r: Run)
    requires Consistent(t)
    ensures Consistent(r.tables)
    ensures KeepsOwners(t, r.tables)
  {
    if integ.integrationType == "RENTMANAGER_API" then RmSync(t, integ, rm, now)
    else if integ.integrationType == "YARDI_API" || integ.integrationType == "YARDI_SFTP" then YardiSync(t, integ, yardi, now)
    else Run(t, Done)
  }

  /** The integration row while a sync runs. */
  function Started(i: Integration, now: int): Integration {
    i.(lastSyncStatus := Some("IN_PROGRESS"), lastSyncAt := Some(now))
  }

  /** The integration row after a sync ended. */
  function Finished(i: Integration, outcome: Outcome): (f: Integration)
    ensures f.id == i.id && f.clientId == i.clientId && f.lastSyncAt == i.lastSyncAt
    ensures outcome.Done? ==> f.status == "CONNECTED" && f.lastSyncStatus == Some("SUCCESS") && f.lastSyncError == None
    ensures outcome.Failed? ==> f.status == "ERROR" && f.lastSyncStatus == Some("FAILED") && f.lastSyncError == Some(outcome.message)
  {
    match outcome
    case Done => i.(status := "CONNECTED", lastSyncStatus := Some("SUCCESS"), lastSyncError := None)
    case Failed(m) => i.(status := "ERROR", lastSyncStatus := Some("FAILED"), lastSyncError := Some(m))
  }

  /** A row a sync has just finished with: stamped now, and SUCCESS or FAILED. */
  predicate SyncedAt(i: Integration, now: int) {
    i.lastSyncAt == Some(now) && (i.lastSyncStatus == Some("SUCCESS") || i.lastSyncStatus == Some("FAILED"))
  }

  /** `syncClientIntegration`: an unknown id fails before any write; else the
      row is marked IN_PROGRESS and stamped, the adapter runs, and the row
      ends CONNECTED/SUCCESS or ERROR/FAILED with the error's message. No
      other integration row changes. */
  function ClientSync(t: Tables, id: Id, rm: RmFeed, yardi: YardiFeed, now: int): (r: Run)
    requires Consistent(t)
    ensures Consistent(r.tables)
    ensures id !in t.integrations ==> r == Run(t, Failed("Integration not found"))
  {
    if id !in t.integrations then Run(t, Failed("Integration not found"))
    else
      var i := t.integrations[id];
      var s := Started(i, now);
      var r := AdapterSync(WithIntegration(t, s), i, rm, yardi, now);
      Run(WithIntegration(r.tables, Finished(s, r.outcome)), r.outcome)
  }

  /** A sync of an existing integration ends with its row stamped and marked
      by the outcome. */
  lemma ClientSyncStamps(t: Tables, id: Id, rm: RmFeed, yardi: YardiFeed, now: int)
    requires Consistent(t) && id in t.integrations
    ensures var r := ClientSync(t, id, rm, yardi, now);
      && id in r.tables.integrations
      && SyncedAt(r.tables.integrations[id], now)
      && (r.outcome.Done? <==> r.tables.integrations[id].lastSyncStatus == Some("SUCCESS"))
      && (r.outcome.Done? ==> r.tables.integrations[id].status == "CONNECTED" && r.tables.integrations[id].lastSyncError.None?)
      && (r.outcome.Failed? ==> r.tables.integrations[id].status == "ERROR" &&
                                r.tables.integrations[id].lastSyncError == Some(r.outcome.message))
  {
    var i := t.integrations[id];
    var s := Started(i, now);
    var r := AdapterSync(WithIntegration(t, s), i, rm, yardi, now);
    assert ClientSync(t, id, rm, yardi, now) == Run(WithIntegration(r.tables, Finished(s, r.outcome)), r.outcome);
  }

  /** No client, no integration id and no other integration row changes in
      a sync. */
  lemma ClientSyncKeepsOthers(t: Tables, id: Id, rm: RmFeed, yardi: YardiFeed, now: int)
    requires Consistent(t) && id in t.integrations
    ensures var r := ClientSync(t, id, rm, yardi, now);
      && r.tables.integrations.Keys == t.integrations.Keys
      && r.tables.clients == t.clients
      && forall k :: k in t.integrations && k != id ==> r.tables.integrations[k] == t.integrations[k]
  {
    var i := t.integrations[id];
    var s := Started(i, now);
    var r := AdapterSync(WithIntegration(t, s), i, rm, yardi, now);
    var f := Finished(s, r.outcome);
    RewriteTwiceKeepsOthers(t.integrations, r.tables.integrations, id, s, f);
    assert ClientSync(t, id, rm, yardi, now).tables == WithIntegration(r.tables, f);
  }

  /** A row rewritten twice leaves the other rows and the ids as they were. */
  lemma RewriteTwiceKeepsOthers(m: map<Id, Integration>, m1: map<Id, Integration>, id: Id, s: Integration, f: Integration)
    requires id in m && m1 == m[id := s]
    ensures m1[id := f].Keys == m.Keys
    ensures forall k :: k in m && k != id ==> m1[id := f][k] == m[k]
  {
  }

  // ---------------------------------------------------------------- the service

  /** The body of a `for` loop of property upserts. */
  method UpsertProperties(db: Db, ps: seq<Property>) returns (outcome: Outcome)
    requires db.Valid()
    modifies db
    ensures db.Valid()
    ensures Run(db.tables, outcome) == PutProperties(old(db.tables), ps)
  {
    var j := 0;
    while j < |ps|
      invariant 0 <= j <= |ps|
      invariant db.Valid()
      invariant PutProperties(db.tables, ps[j..]) == PutProperties(old(db.tables), ps)
    {
      assert ps[j..][1..] == ps[j + 1..];
      var r := PutProperty(db.tables, ps[j]);
      if r.outcome.Failed? {
        return r.outcome;
      }
      db.tables := r.tables;
      j := j + 1;
    }
    return Done;
  }

  /** The body of a `for` loop of unit upserts. */
  method UpsertUnits(db: Db, us: seq<Unit>) returns (outcome: Outcome)
    requires db.Valid()
    modifies db
    ensures db.Valid()
    ensures Run(db.tables, outcome) == PutUnits(old(db.tables), us)
  {
    var j := 0;
    while j < |us|
      invariant 0 <= j <= |us|
      invariant db.Valid()
      invariant PutUnits(db.tables, us[j..]) == PutUnits(old(db.tables), us)
    {
      assert us[j..][1..] == us[j + 1..];
      var r := PutUnit(db.tables, us[j]);
      if r.outcome.Failed? {
        return r.outcome;
      }
      db.tables := r.tables;
      j := j + 1;
    }
    return Done;
  }

  /** The body of a `for` loop of tenant upserts. */
  method UpsertTenants(db: Db, ds: seq<Tenant>) returns (outcome: Outcome)
    requires db.Valid()
    modifies db
    ensures db.Valid()
    ensures Run(db.tables, outcome) == PutTenants(old(db.tables), ds)
  {
    var j := 0;
    while j < |ds|
      invariant 0 <= j <= |ds|
      invariant db.Valid()
      invariant PutTenants(db.tables, ds[j..]) == PutTenants(old(db.tables), ds)
    {
      assert ds[j..][1..] == ds[j + 1..];
      var r := PutTenant(db.tables, ds[j]);
      if r.outcome.Failed? {
        return r.outcome;
      }
      db.tables := r.tables;
      j := j + 1;
    }
    return Done;
  }

  /** One pass of the RentManager property loop. */
  method SyncRmProperty(db: Db, clientId: Id, rp: RmProperty, now: int) returns (outcome: Outcome)
    requires db.Valid()
    modifies db
    ensures db.Valid()
    ensures Run(db.tables, outcome) == RmPropertyStep(old(db.tables), clientId, rp, now)
  {
    var propertyData := RentManager.MapProperty(rp.record, clientId, now);
    var r := PutProperty(db.tables, propertyData);
    if r.outcome.Failed? {
      return r.outcome;
    }
    db.tables := r.tables;
    if rp.units.FetchFailed? {
      return Failed("Failed to fetch units from RentManager");
    }
    // `propertyData.id || ''`: the mapped property has no id
    outcome := UpsertUnits(db, RmUnits(rp.units.rows, "", now));
    if outcome.Failed? {
      return;
    }
    if rp.tenants.FetchFailed? {
      return Failed("Failed to fetch tenants from RentManager");
    }
    outcome := UpsertTenants(db, RmTenants(rp.tenants.rows, clientId, None, now));
  }

  /** `syncRentManager`. */
  method SyncRentManager(db: Db, integ: Integration, feed: RmFeed, now: int) returns (outcome: Outcome)
    requires db.Valid()
    modifies db
    ensures db.Valid()
    ensures Run(db.tables, outcome) == RmSync(old(db.tables), integ, feed, now)
  {
    if !Truthy(integ.apiKey) {
      return Failed("RentManager API key not configured");
    }
    if !feed.connected {
      return Failed("Failed to connect to RentManager API");
    }
    if feed.properties.FetchFailed? {
      return Failed("Failed to fetch properties from RentManager");
    }
    outcome := SyncRmProperties(db, integ.clientId, feed.properties.rows, now);
  }

  /** The property loop of `syncRentManager`: it stops at the first failure. */
  method SyncRmProperties(db: Db, clientId: Id, rmProperties: seq<RmProperty>, now: int) returns (outcome: Outcome)
    requires db.Valid()
    modifies db
    ensures db.Valid()
    ensures Run(db.tables, outcome) == RmProperties(old(db.tables), clientId, rmProperties, now)
  {
    ghost var goal := RmProperties(db.tables, clientId, rmProperties, now);
    assert rmProperties[0..] == rmProperties;
    outcome := Done;
    var i := 0;
    while i < |rmProperties| && outcome.Done?
      invariant db.Valid()
      invariant RmLoopAt(db.tables, clientId, rmProperties, i, now, goal, outcome)
    {
      outcome := SyncRmPropertyAt(db, clientId, rmProperties, i, now, goal);
      i := i + 1;
    }
    RmLoopDone(db.tables, clientId, rmProperties, i, now, goal, outcome);
  }

  /** Where the property loop stands after `i` rows: still to run the rest
      of the loop towards `goal`, or already failed with `goal` as result. */
  ghost predicate RmLoopAt(t: Tables, clientId: Id, rps: seq<RmProperty>, i: int, now: int, goal: Run, outcome: Outcome) {
    && Consistent(t) && 0 <= i <= |rps|
    && (outcome.Done? ==> RmProperties(t, clientId, rps[i..], now) == goal)
    && (outcome.Failed? ==> Run(t, outcome) == goal)
  }

  /** The loop ends at its goal. */
  lemma RmLoopDone(t: Tables, clientId: Id, rps: seq<RmProperty>, i: int, now: int, goal: Run, outcome: Outcome)
    requires RmLoopAt(t, clientId, rps, i, now, goal, outcome) && (i == |rps| || outcome.Failed?)
    ensures Run(t, outcome) == goal
  {
    if outcome.Done? {
      assert rps[i..] == [];
    }
  }

  /** One pass of the property loop, stated as the loop needs it. */
  method SyncRmPropertyAt(db: Db, clientId: Id, rmProperties: seq<RmProperty>, i: int, now: int, ghost goal: Run)
    returns (outcome: Outcome)
    requires db.Valid() && i < |rmProperties| && RmLoopAt(db.tables, clientId, rmProperties, i, now, goal, Done)
    modifies db
    ensures db.Valid() && RmLoopAt(db.tables, clientId, rmProperties, i + 1, now, goal, outcome)
  {
    ghost var before := db.tables;
    outcome := SyncRmProperty(db, clientId, rmProperties[i], now);
    RmPropertiesStep(before, clientId, rmProperties, i, now, goal, Run(db.tables, outcome));
  }

  /** What the property loop keeps across one pass: a failed pass is the
      result, a completed one leaves the rest of the loop to reach it. */
  lemma RmPropertiesStep(t: Tables, clientId: Id, rps: seq<RmProperty>, i: int, now: int, goal: Run, r: Run)
    requires Consistent(t) && 0 <= i < |rps|
    requires RmProperties(t, clientId, rps[i..], now) == goal
    requires r == RmPropertyStep(t, clientId, rps[i], now)
    ensures r.outcome.Failed? ==> r == goal
    ensures r.outcome.Done? ==> RmProperties(r.tables, clientId, rps[i + 1..], now) == goal
  {
    RmPropertiesCons(t, clientId, rps, i, now);
  }

  /** One pass of the Yardi file loop. */
  method SyncYardiFile(db: Db, clientId: Id, download: string -> Fetch<seq<Record>>, fileName: string, now: int)
    returns (outcome: Outcome)
    requires db.Valid()
    modifies db
    ensures db.Valid()
    ensures Run(db.tables, outcome) == YardiFile(old(db.tables), clientId, download, fileName, now)
  {
    if IsPropertiesFile(fileName) {
      var rows := download(fileName);
      if rows.FetchFailed? {
        return Failed("Failed to download CSV file: " + fileName);
      }
      outcome := UpsertProperties(db, YardiProperties(rows.rows, clientId, now));
    } else if IsTenantsFile(fileName) {
      var rows := download(fileName);
      if rows.FetchFailed? {
        return Failed("Failed to download CSV file: " + fileName);
      }
      outcome := UpsertTenants(db, YardiTenants(rows.rows, clientId, now));
    } else {
      outcome := Done;
    }
  }

  /** `syncYardi`. */
  method SyncYardi(db: Db, integ: Integration, feed: YardiFeed, now: int) returns (outcome: Outcome)
    requires db.Valid()
    modifies db
    ensures db.Valid()
    ensures Run(db.tables, outcome) == YardiSync(old(db.tables), integ, feed, now)
  {
    if !(Truthy(integ.sftpHost) && Truthy(integ.sftpUser) && Truthy(integ.sftpPassword)) {
      return Failed("Yardi SFTP credentials not configured");
    }
    if !feed.connected {
      return Failed("Failed to connect to Yardi SFTP");
    }
    if feed.listing.FetchFailed? {
      return Failed("Failed to list CSV files");
    }
    var csvFiles := Yardi.CsvFiles(feed.listing.rows);
    ghost var goal := YardiSync(db.tables, integ, feed, now);
    assert csvFiles[0..] == csvFiles;
    var k := 0;
    while k < |csvFiles|
      invariant 0 <= k <= |csvFiles|
      invariant db.Valid()
      invariant YardiFiles(db.tables, integ.clientId, feed.download, csvFiles[k..], now) == goal
    {
      ghost var before := db.tables;
      outcome := SyncYardiFile(db, integ.clientId, feed.download, csvFiles[k], now);
      ghost var r := Run(db.tables, outcome);
      YardiFilesStep(before, integ.clientId, feed.download, csvFiles, k, now, goal, r);
      if outcome.Failed? {
        return;
      }
      assert YardiFiles(r.tables, integ.clientId, feed.download, csvFiles[k + 1..], now) == goal;
      k := k + 1;
    }
    return Done;
  }

  /** What the file loop keeps across one pass, as for the property loop. */
  lemma YardiFilesStep(t: Tables, clientId: Id, download: string -> Fetch<seq<Record>>, files: seq<string>,
                       k: int, now: int, goal: Run, r: Run)
    requires Consistent(t) && 0 <= k < |files|
    requires YardiFiles(t, clientId, download, files[k..], now) == goal
    requires r == YardiFile(t, clientId, download, files[k], now)
    ensures r.outcome.Failed? ==> r == goal
    ensures r.outcome.Done? ==> YardiFiles(r.tables, clientId, download, files[k + 1..], now) == goal
  {
    assert files[k..][0] == files[k];
    assert files[k..][1..] == files[k + 1..];
  }

  /** `syncClientIntegration`: the outcome is what the caller sees thrown
      (or not). */
  method SyncClientIntegration(db: Db, id: Id, rm: RmFeed, yardi: YardiFeed, now: int) returns (outcome: Outcome)
    requires db.Valid()
    modifies db
    ensures db.Valid()
    ensures Run(db.tables, outcome) == ClientSync(old(db.tables), id, rm, yardi, now)
  {
    if id !in db.tables.integrations {
      return Failed("Integration not found");
    }
    var integration := db.tables.integrations[id];
    ReplaceIntegrationKeeps(db.tables, Started(integration, now));
    db.tables := db.tables.(integrations := db.tables.integrations[id := Started(integration, now)]);
    if integration.integrationType == "RENTMANAGER_API" {
      outcome := SyncRentManager(db, integration, rm, now);
    } else if integration.integrationType == "YARDI_API" || integration.integrationType == "YARDI_SFTP" {
      outcome := SyncYardi(db, integration, yardi, now);
    } else {
      outcome := Done;
    }
    var row := Finished(db.tables.integrations[id], outcome);
    ReplaceIntegrationKeeps(db.tables, row);
    db.tables := db.tables.(integrations := db.tables.integrations[id := row]);
  }

  /** The `try`/`catch` around one sync in `syncAll`: a thrown error is
      logged and dropped. */
  method SyncAndLog(db: Db, id: Id, rm: RmFeed, yardi: YardiFeed, now: int)
    requires db.Valid() && id in db.tables.integrations
    modifies db
    ensures db.Valid()
    ensures db.tables.integrations.Keys == old(db.tables.integrations).Keys
    ensures SyncedAt(db.tables.integrations[id], now)
    ensures forall k :: k in old(db.tables.integrations) && k != id ==> db.tables.integrations[k] == old(db.tables.integrations[k])
  {
    ClientSyncStamps(db.tables, id, rm, yardi, now);
    ClientSyncKeepsOthers(db.tables, id, rm, yardi, now);
    var _ := SyncClientIntegration(db, id, rm, yardi, now);
  }

  /** Partway through `syncAll`: the CONNECTED rows are split between
      `todo` and `done`; the rows in `done` are synced, the rest are as they
      were. */
  ghost predicate SyncProgress(ints: map<Id, Integration>, before: map<Id, Integration>,
                               todo: set<Id>, done: set<Id>, now: int) {
    && todo <= before.Keys && todo !! done
    && (forall k :: k in before ==> (before[k].status == "CONNECTED" <==> k in todo || k in done))
    && ints.Keys == before.Keys
    && (forall k :: k in done ==> k in ints && SyncedAt(ints[k], now))
    && (forall k :: k in before && k !in done ==> ints[k] == before[k])
  }

  lemma SyncProgressStep(prev: map<Id, Integration>, next: map<Id, Integration>, before: map<Id, Integration>,
                         todo: set<Id>, done: set<Id>, id: Id, now: int)
    requires SyncProgress(prev, before, todo, done, now) && id in todo
    requires next.Keys == prev.Keys && SyncedAt(next[id], now)
    requires forall k :: k in prev && k != id ==> next[k] == prev[k]
    ensures SyncProgress(next, before, todo - {id}, done + {id}, now)
  {
  }

  /** At the end of `syncAll` every CONNECTED row is synced and every other
      row is as it was. */
  lemma SyncProgressDone(ints: map<Id, Integration>, before: map<Id, Integration>, done: set<Id>, now: int)
    requires SyncProgress(ints, before, {}, done, now)
    ensures ints.Keys == before.Keys
    ensures forall k :: k in before && before[k].status == "CONNECTED" ==> SyncedAt(ints[k], now)
    ensures forall k :: k in before && before[k].status != "CONNECTED" ==> ints[k] == before[k]
  {
  }

  /** `syncAll`: every integration CONNECTED when the run starts is synced
      once, in no particular order; a failing one is logged and the loop
      goes on. Rows that were not CONNECTED are left alone. */
  method SyncAll(db: Db, rmFeeds: Id -> RmFeed, yardiFeeds: Id -> YardiFeed, now: int)
    requires db.Valid()
    modifies db
    ensures db.Valid()
    ensures db.tables.integrations.Keys == old(db.tables.integrations).Keys
    ensures forall k :: k in old(db.tables.integrations) && old(db.tables.integrations[k].status) == "CONNECTED" ==>
      SyncedAt(db.tables.integrations[k], now)
    ensures forall k :: k in old(db.tables.integrations) && old(db.tables.integrations[k].status) != "CONNECTED" ==>
      db.tables.integrations[k] == old(db.tables.integrations[k])
  {
    ghost var before := db.tables.integrations;
    var todo := set k | k in db.tables.integrations && db.tables.integrations[k].status == "CONNECTED";
    ghost var done: set<Id> := {};
    while todo != {}
      invariant db.Valid()
      invariant SyncProgress(db.tables.integrations, before, todo, done, now)
      decreases todo
    {
      var id :| id in todo;
      ghost var prev := db.tables.integrations;
      SyncAndLog(db, id, rmFeeds(id), yardiFeeds(id), now);
      SyncProgressStep(prev, db.tables.integrations, before, todo, done, id, now);
      todo := todo - {id};
      done := done + {id};
    }
    SyncProgressDone(db.tables.integrations, before, done, now);
  }

  // ---------------------------------------------------------------- the unit link

  /** Fetched records that all carry an `id`. */
  predicate AllIdentified(f: Fetch<seq<Record>>) {
    f.Fetched? && forall j :: 0 <= j < |f.rows| ==> "id" in f.rows[j]
  }

  /** As written, a property with at least one unit ends the sync with a
      database error: the property row is written, but the first unit names
      property '' and no property has that id. */
  lemma RmUnitsOrphaned(t: Tables, clientId: Id, rp: RmProperty, now: int)
    requires Consistent(t) && "id" in rp.record && clientId in t.clients
    requires rp.units.Fetched? && rp.units.rows != []
    ensures RmPropertyStep(t, clientId, rp, now).outcome == Failed(DbError())
    ensures RmPropertyStep(t, clientId, rp, now).tables ==
      t.(properties := Upsert(t.properties, PropertyKey, RentManager.MapProperty(rp.record, clientId, now)))
  {
    var p := RentManager.MapProperty(rp.record, clientId, now);
    var r := PutProperty(t, p);
    assert r.outcome.Done?;
    var us := RmUnits(rp.units.rows, "", now);
    assert us[0].propertyId == "";
    assert "" !in r.tables.properties by {
      assert PropertyRows(r.tables.properties, r.tables.clients);
    }
    assert PutUnit(r.tables, us[0]).outcome.Failed?;
  }

  /** As written, a RentManager sync whose first property has units fails. */
  lemma RmSyncFailsOnUnits(t: Tables, integ: Integration, feed: RmFeed, now: int)
    requires Consistent(t) && Truthy(integ.apiKey) && feed.connected && integ.clientId in t.clients
    requires feed.properties.Fetched? && feed.properties.rows != []
    requires "id" in feed.properties.rows[0].record
    requires feed.properties.rows[0].units.Fetched? && feed.properties.rows[0].units.rows != []
    ensures RmSync(t, integ, feed, now).outcome == Failed(DbError())
  {
    RmUnitsOrphaned(t, integ.clientId, feed.properties.rows[0], now);
  }

  /** A unit with external id `ext` is stored under property `pid`. */
  ghost predicate UnitIn(m: map<Id, Unit>, ext: string, pid: Id) {
    exists i :: i in m && m[i].externalId == Some(ext) && m[i].propertyId == pid
  }

  /** The tenant with external id `ext` of client `clientId` is stored under property `pid`. */
  ghost predicate TenantIn(m: map<Id, Tenant>, ext: string, clientId: Id, pid: Id) {
    exists i :: i in m && TenantKey(m[i]) == Some((ext, clientId)) && m[i].propertyId == Some(pid)
  }

  lemma RmUnitRows(us: seq<Record>, pid: Id, now: int, properties: map<Id, Property>)
    requires pid in properties && forall j :: 0 <= j < |us| ==> "id" in us[j]
    ensures UnitsWritable(properties, RmUnits(us, pid, now))
    ensures forall j :: 0 <= j < |us| ==> UnitKey(RmUnits(us, pid, now)[j]) == Some((us[j]["id"], pid))
  {
  }

  lemma RmTenantRows(ds: seq<Record>, clientId: Id, pid: Id, now: int, t: Tables)
    requires pid != "" && pid in t.properties && clientId in t.clients
    requires forall j :: 0 <= j < |ds| ==> "id" in ds[j]
    ensures TenantsWritable(t, RmTenants(ds, clientId, Some(pid), now))
    ensures forall j :: 0 <= j < |ds| ==>
      var d := RmTenants(ds, clientId, Some(pid), now)[j];
      TenantKey(d) == Some((ds[j]["id"], clientId)) && d.propertyId == Some(pid) && d.unitId.None? && d.clientId == clientId
  {
  }

  lemma UnitsStoredUnder(m: map<Id, Unit>, rows: seq<Unit>, us: seq<Record>, pid: Id)
    requires Unique(m, UnitKey) && AllKeyed(rows, UnitKey) && |rows| == |us|
    requires forall j :: 0 <= j < |us| ==> "id" in us[j] && UnitKey(rows[j]) == Some((us[j]["id"], pid))
    ensures forall j :: 0 <= j < |us| ==> UnitIn(UpsertAll(m, UnitKey, rows), us[j]["id"], pid)
  {
    var r := UpsertAll(m, UnitKey, rows);
    UpsertAllCovers(m, UnitKey, rows);
    forall j | 0 <= j < |us| ensures UnitIn(r, us[j]["id"], pid) {
      assert Carries(r, UnitKey, UnitKey(rows[j]));
      var i :| i in r && UnitKey(r[i]) == UnitKey(rows[j]);
      assert r[i].externalId == Some(us[j]["id"]) && r[i].propertyId == pid;
    }
  }

  lemma TenantsStoredUnder(m: map<Id, Tenant>, rows: seq<Tenant>, ds: seq<Record>, clientId: Id, pid: Id)
    requires Unique(m, TenantKey) && AllKeyed(rows, TenantKey) && |rows| == |ds|
    requires forall j :: 0 <= j < |ds| ==> "id" in ds[j] && TenantKey(rows[j]) == Some((ds[j]["id"], clientId))
    requires forall j :: 0 <= j < |rows| ==> rows[j].propertyId == Some(pid)
    ensures forall j :: 0 <= j < |ds| ==> TenantIn(UpsertAll(m, TenantKey, rows), ds[j]["id"], clientId, pid)
  {
    var r := UpsertAll(m, TenantKey, rows);
    UpsertAllCovers(m, TenantKey, rows);
    UpsertAllLastWins(m, TenantKey, rows);
    forall j | 0 <= j < |ds| ensures TenantIn(r, ds[j]["id"], clientId, pid) {
      assert Carries(r, TenantKey, TenantKey(rows[j]));
      var i :| i in r && TenantKey(r[i]) == TenantKey(rows[j]);
      var last := LastFor(rows, TenantKey, TenantKey(r[i]));
      assert r[i] == last.value;
      var k :| 0 <= k < |rows| && rows[k] == last.value;
    }
  }

  lemma LinkedUnits(t: Tables, us: seq<Record>, pid: Id, now: int)
    requires Consistent(t) && pid in t.properties
    requires forall j :: 0 <= j < |us| ==> "id" in us[j]
    ensures var r := PutUnits(t, RmUnits(us, pid, now));
      && r.outcome.Done? && r.tables.properties == t.properties && r.tables.clients == t.clients
      && forall j :: 0 <= j < |us| ==> UnitIn(r.tables.units, us[j]["id"], pid)
  {
    var rows := RmUnits(us, pid, now);
    RmUnitRows(us, pid, now, t.properties);
    PutUnitsShape(t, rows);
    UnitsStoredUnder(t.units, rows, us, pid);
    var r := PutUnits(t, rows);
    assert r.tables.units == UpsertAll(t.units, UnitKey, rows);
  }

  lemma LinkedTenants(t: Tables, ds: seq<Record>, clientId: Id, pid: Id, now: int)
    requires Consistent(t) && pid in t.properties && clientId in t.clients
    requires forall j :: 0 <= j < |ds| ==> "id" in ds[j]
    ensures var r := PutTenants(t, RmTenants(ds, clientId, Some(pid), now));
      && r.outcome.Done? && r.tables.properties == t.properties && r.tables.units == t.units
      && forall j :: 0 <= j < |ds| ==> TenantIn(r.tables.tenants, ds[j]["id"], clientId, pid)
  {
    var rows := RmTenants(ds, clientId, Some(pid), now);
    assert pid != "" by {
      assert PropertyRows(t.properties, t.clients);
    }
    RmTenantRows(ds, clientId, pid, now, t);
    PutTenantsShape(t, rows);
    TenantsStoredUnder(t.tenants, rows, ds, clientId, pid);
    var r := PutTenants(t, rows);
    assert r.tables.tenants == UpsertAll(t.tenants, TenantKey, rows);
  }

  /** Every unit and tenant of a RentManager property is stored under
      property `pid`, which carries the property's natural key. */
  ghost predicate FamilyStored(t: Tables, pid: Id, clientId: Id, rp: RmProperty)
    requires rp.units.Fetched? && rp.tenants.Fetched?
    requires "id" in rp.record
    requires forall j :: 0 <= j < |rp.units.rows| ==> "id" in rp.units.rows[j]
    requires forall j :: 0 <= j < |rp.tenants.rows| ==> "id" in rp.tenants.rows[j]
  {
    && pid in t.properties
    && PropertyKey(t.properties[pid]) == Some((rp.record["id"], clientId))
    && (forall j :: 0 <= j < |rp.units.rows| ==> UnitIn(t.units, rp.units.rows[j]["id"], pid))
    && (forall j :: 0 <= j < |rp.tenants.rows| ==> TenantIn(t.tenants, rp.tenants.rows[j]["id"], clientId, pid))
  }

  /** With the property's own id, the pass stores every unit and every
      tenant the API reports under the property it has just written. */
  lemma RmPropertyStepLinkedStores(t: Tables, clientId: Id, rp: RmProperty, now: int)
    requires Consistent(t) && "id" in rp.record && clientId in t.clients
    requires AllIdentified(rp.units) && AllIdentified(rp.tenants)
    ensures RmPropertyStepLinked(t, clientId, rp, now).outcome.Done?
    ensures exists pid :: FamilyStored(RmPropertyStepLinked(t, clientId, rp, now).tables, pid, clientId, rp)
  {
    var p := RentManager.MapProperty(rp.record, clientId, now);
    var r1 := PutProperty(t, p);
    var pid := Find(r1.tables.properties, PropertyKey, PropertyKey(p).value).value;
    LinkedUnits(r1.tables, rp.units.rows, pid, now);
    var r2 := PutUnits(r1.tables, RmUnits(rp.units.rows, pid, now));
    LinkedTenants(r2.tables, rp.tenants.rows, clientId, pid, now);
    var r3 := PutTenants(r2.tables, RmTenants(rp.tenants.rows, clientId, Some(pid), now));
    assert RmPropertyStepLinked(t, clientId, rp, now) == r3;
    assert FamilyStored(r3.tables, pid, clientId, rp);
  }

  // ---------------------------------------------------------------- re-running a Yardi sync

  /** The files the Yardi loop downloads. */
  predicate ReadsFile(name: string) {
    IsPropertiesFile(name) || IsTenantsFile(name)
  }

  /** Every file the loop reads downloads. */
  predicate DownloadsOk(download: string -> Fetch<seq<Record>>, files: seq<string>) {
    forall j :: 0 <= j < |files| && ReadsFile(files[j]) ==> download(files[j]).Fetched?
  }

  /** The property rows of the files the loop reads, in file order. */
  function FileProperties(download: string -> Fetch<seq<Record>>, files: seq<string>, clientId: Id, now: int): seq<Property>
    decreases |files|
  {
    if files == [] then []
    else
      (if IsPropertiesFile(files[0]) && download(files[0]).Fetched?
       then YardiProperties(download(files[0]).rows, clientId, now) else [])
      + FileProperties(download, files[1..], clientId, now)
  }

  /** The tenant rows of the files the loop reads, in file order; none is
      linked to a property or a unit. */
  function FileTenants(download: string -> Fetch<seq<Record>>, files: seq<string>, clientId: Id, now: int): (ds: seq<Tenant>)
    ensures forall j :: 0 <= j < |ds| ==> ds[j].propertyId.None? && ds[j].unitId.None?
    decreases |files|
  {
    if files == [] then []
    else
      (if IsTenantsFile(files[0]) && download(files[0]).Fetched?
       then YardiTenants(download(files[0]).rows, clientId, now) else [])
      + FileTenants(download, files[1..], clientId, now)
  }

  lemma DownloadsOkCons(download: string -> Fetch<seq<Record>>, files: seq<string>)
    requires files != []
    ensures DownloadsOk(download, files) <==>
      (ReadsFile(files[0]) ==> download(files[0]).Fetched?) && DownloadsOk(download, files[1..])
  {
    if (ReadsFile(files[0]) ==> download(files[0]).Fetched?) && DownloadsOk(download, files[1..]) {
      forall j | 0 <= j < |files| && ReadsFile(files[j]) ensures download(files[j]).Fetched? {
        if j > 0 { assert files[j] == files[1..][j - 1]; }
      }
    }
  }

  lemma PropertiesWritableAppend(clients: map<Id, MgmtClient>, a: seq<Property>, b: seq<Property>)
    ensures PropertiesWritable(clients, a + b) <==> PropertiesWritable(clients, a) && PropertiesWritable(clients, b)
  {
    if PropertiesWritable(clients, a + b) {
      forall j | 0 <= j < |b| ensures PropertyKey(b[j]).Some? && b[j].clientId in clients {
        assert b[j] == (a + b)[|a| + j];
      }
      forall j | 0 <= j < |a| ensures PropertyKey(a[j]).Some? && a[j].clientId in clients {
        assert a[j] == (a + b)[j];
      }
    }
  }

  lemma TenantsWritableAppend(t: Tables, a: seq<Tenant>, b: seq<Tenant>)
    ensures TenantsWritable(t, a + b) <==> TenantsWritable(t, a) && TenantsWritable(t, b)
  {
    if TenantsWritable(t, a + b) {
      forall j | 0 <= j < |b| ensures TenantKey(b[j]).Some? && TenantLinksExist(t, b[j]) {
        assert b[j] == (a + b)[|a| + j];
      }
      forall j | 0 <= j < |a| ensures TenantKey(a[j]).Some? && TenantLinksExist(t, a[j]) {
        assert a[j] == (a + b)[j];
      }
    }
  }

  /** Unlinked tenants are writable wherever their client exists. */
  lemma UnlinkedTenantsWritable(t: Tables, u: Tables, ds: seq<Tenant>)
    requires u.clients == t.clients
    requires forall j :: 0 <= j < |ds| ==> ds[j].propertyId.None? && ds[j].unitId.None?
    ensures TenantsWritable(u, ds) <==> TenantsWritable(t, ds)
  {
  }

  /** The Yardi file loop completes exactly when every file it reads
      downloads and every row is writable; it then holds the property upserts
      and the tenant upserts of all files, each in file order. */
  lemma {:induction false} YardiFilesShape(t: Tables, clientId: Id, download: string -> Fetch<seq<Record>>,
                                           files: seq<string>, now: int)
    requires Consistent(t)
    ensures YardiFiles(t, clientId, download, files, now).outcome.Done? <==>
      && DownloadsOk(download, files)
      && PropertiesWritable(t.clients, FileProperties(download, files, clientId, now))
      && TenantsWritable(t, FileTenants(download, files, clientId, now))
    ensures YardiFiles(t, clientId, download, files, now).outcome.Done? ==>
      YardiFiles(t, clientId, download, files, now).tables ==
        t.(properties := UpsertAll(t.properties, PropertyKey, FileProperties(download, files, clientId, now)),
           tenants := UpsertAll(t.tenants, TenantKey, FileTenants(download, files, clientId, now)))
    decreases |files|
  {
    if files != [] {
      var name := files[0];
      var rest := files[1..];
      DownloadsOkCons(download, files);
      var r := YardiFile(t, clientId, download, name, now);
      var fp := FileProperties(download, rest, clientId, now);
      var ft := FileTenants(download, rest, clientId, now);
      if !ReadsFile(name) {
        YardiFilesShape(t, clientId, download, rest, now);
        YardiSkippedFileShape(t, clientId, download, files, now);
      } else if download(name).Fetched? {
        if IsPropertiesFile(name) {
          YardiPropertiesFileShape(t, clientId, download, files, now);
        } else {
          YardiTenantsFileShape(t, clientId, download, files, now);
        }
      }
    }
  }

  /** A file the loop does not read leaves the shape of the rest. */
  lemma YardiSkippedFileShape(t: Tables, clientId: Id, download: string -> Fetch<seq<Record>>,
                              files: seq<string>, now: int)
    requires Consistent(t) && files != [] && !ReadsFile(files[0])
    requires YardiFiles(t, clientId, download, files[1..], now).outcome.Done? <==>
      && DownloadsOk(download, files[1..])
      && PropertiesWritable(t.clients, FileProperties(download, files[1..], clientId, now))
      && TenantsWritable(t, FileTenants(download, files[1..], clientId, now))
    requires YardiFiles(t, clientId, download, files[1..], now).outcome.Done? ==>
      YardiFiles(t, clientId, download, files[1..], now).tables ==
        t.(properties := UpsertAll(t.properties, PropertyKey, FileProperties(download, files[1..], clientId, now)),
           tenants := UpsertAll(t.tenants, TenantKey, FileTenants(download, files[1..], clientId, now)))
    ensures YardiFiles(t, clientId, download, files, now).outcome.Done? <==>
      && DownloadsOk(download, files)
      && PropertiesWritable(t.clients, FileProperties(download, files, clientId, now))
      && TenantsWritable(t, FileTenants(download, files, clientId, now))
    ensures YardiFiles(t, clientId, download, files, now).outcome.Done? ==>
      YardiFiles(t, clientId, download, files, now).tables ==
        t.(properties := UpsertAll(t.properties, PropertyKey, FileProperties(download, files, clientId, now)),
           tenants := UpsertAll(t.tenants, TenantKey, FileTenants(download, files, clientId, now)))
  {
    DownloadsOkCons(download, files);
    assert FileProperties(download, files, clientId, now) == FileProperties(download, files[1..], clientId, now);
    assert FileTenants(download, files, clientId, now) == FileTenants(download, files[1..], clientId, now);
  }

  lemma {:induction false} YardiPropertiesFileShape(t: Tables, clientId: Id, download: string -> Fetch<seq<Record>>,
                                                    files: seq<string>, now: int)
    requires Consistent(t) && files != [] && IsPropertiesFile(files[0]) && download(files[0]).Fetched?
    ensures YardiFiles(t, clientId, download, files, now).outcome.Done? <==>
      && DownloadsOk(download, files[1..])
      && PropertiesWritable(t.clients, FileProperties(download, files, clientId, now))
      && TenantsWritable(t, FileTenants(download, files, clientId, now))
    ensures YardiFiles(t, clientId, download, files, now).outcome.Done? ==>
      YardiFiles(t, clientId, download, files, now).tables ==
        t.(properties := UpsertAll(t.properties, PropertyKey, FileProperties(download, files, clientId, now)),
           tenants := UpsertAll(t.tenants, TenantKey, FileTenants(download, files, clientId, now)))
    decreases |files|, 0
  {
    var rest := files[1..];
    var p0 := YardiProperties(download(files[0]).rows, clientId, now);
    var fp := FileProperties(download, rest, clientId, now);
    var ft := FileTenants(download, rest, clientId, now);
    assert FileProperties(download, files, clientId, now) == p0 + fp;
    assert FileTenants(download, files, clientId, now) == [] + ft == ft;
    PropertiesWritableAppend(t.clients, p0, fp);
    PutPropertiesShape(t, p0);
    var r := PutProperties(t, p0);
    assert YardiFile(t, clientId, download, files[0], now) == r;
    if r.outcome.Done? {
      var t1 := r.tables;
      assert YardiFiles(t, clientId, download, files, now) == YardiFiles(t1, clientId, download, rest, now);
      YardiFilesShape(t1, clientId, download, rest, now);
      UnlinkedTenantsWritable(t, t1, ft);
      if YardiFiles(t1, clientId, download, rest, now).outcome.Done? {
        UpsertAllAppend(t.properties, PropertyKey, p0, fp);
        assert t1.properties == UpsertAll(t.properties, PropertyKey, p0) && t1.tenants == t.tenants;
        assert YardiFiles(t1, clientId, download, rest, now).tables ==
          t1.(properties := UpsertAll(t1.properties, PropertyKey, fp), tenants := UpsertAll(t1.tenants, TenantKey, ft));
      }
    }
  }

  lemma {:induction false} YardiTenantsFileShape(t: Tables, clientId: Id, download: string -> Fetch<seq<Record>>,
                                                 files: seq<string>, now: int)
    requires Consistent(t) && files != [] && IsTenantsFile(files[0]) && download(files[0]).Fetched?
    ensures YardiFiles(t, clientId, download, files, now).outcome.Done? <==>
      && DownloadsOk(download, files[1..])
      && PropertiesWritable(t.clients, FileProperties(download, files, clientId, now))
      && TenantsWritable(t, FileTenants(download, files, clientId, now))
    ensures YardiFiles(t, clientId, download, files, now).outcome.Done? ==>
      YardiFiles(t, clientId, download, files, now).tables ==
        t.(properties := UpsertAll(t.properties, PropertyKey, FileProperties(download, files, clientId, now)),
           tenants := UpsertAll(t.tenants, TenantKey, FileTenants(download, files, clientId, now)))
    decreases |files|, 0
  {
    var rest := files[1..];
    var d0 := YardiTenants(download(files[0]).rows, clientId, now);
    var fp := FileProperties(download, rest, clientId, now);
    var ft := FileTenants(download, rest, clientId, now);
    assert FileProperties(download, files, clientId, now) == [] + fp == fp;
    assert FileTenants(download, files, clientId, now) == d0 + ft;
    TenantsWritableAppend(t, d0, ft);
    PutTenantsShape(t, d0);
    var r := PutTenants(t, d0);
    assert YardiFile(t, clientId, download, files[0], now) == r;
    if r.outcome.Done? {
      var t1 := r.tables;
      assert YardiFiles(t, clientId, download, files, now) == YardiFiles(t1, clientId, download, rest, now);
      YardiFilesShape(t1, clientId, download, rest, now);
      UnlinkedTenantsWritable(t, t1, ft);
      if YardiFiles(t1, clientId, download, rest, now).outcome.Done? {
        UpsertAllAppend(t.tenants, TenantKey, d0, ft);
        assert t1.tenants == UpsertAll(t.tenants, TenantKey, d0) && t1.properties == t.properties;
        assert YardiFiles(t1, clientId, download, rest, now).tables ==
          t1.(properties := UpsertAll(t1.properties, PropertyKey, fp), tenants := UpsertAll(t1.tenants, TenantKey, ft));
      }
    }
  }

  /** Running a Yardi sync that succeeded again, with the same files, adds
      no row and changes nothing: properties and tenants are matched on
      their natural keys and rewritten with the same values. */
  lemma YardiSyncIdempotent(t: Tables, integ: Integration, feed: YardiFeed, now: int)
    requires Consistent(t) && YardiSync(t, integ, feed, now).outcome.Done?
    ensures YardiSync(YardiSync(t, integ, feed, now).tables, integ, feed, now) == YardiSync(t, integ, feed, now)
  {
    var files := Yardi.CsvFiles(feed.listing.rows);
    var fp := FileProperties(feed.download, files, integ.clientId, now);
    var ft := FileTenants(feed.download, files, integ.clientId, now);
    YardiFilesShape(t, integ.clientId, feed.download, files, now);
    var t1 := YardiFiles(t, integ.clientId, feed.download, files, now).tables;
    YardiFilesShape(t1, integ.clientId, feed.download, files, now);
    UnlinkedTenantsWritable(t, t1, ft);
    UpsertAllIdempotent(t.properties, PropertyKey, fp);
    UpsertAllIdempotent(t.tenants, TenantKey, ft);
  }
}
