/**
 * The property routes: the scoped, searchable property list, one property
 * with its cases, and the active tenants of a property. Client principals
 * only ever see their own client's properties. Properties and tenants are
 * stored without an id column, so the routes answer each row beside its key.
 */
module Properties {
  import opened Common
  import opened Strings
  import opened Model
  import opened Store
  import opened Query
  import Cases

  /** A row together with its key. */
  datatype Keyed<R> = Keyed(id: Id, row: R)

  /** A table whose rows carry their keys. */
  function WithIds<R>(m: map<Id, R>): (r: map<Id, Keyed<R>>)
    ensures r.Keys == m.Keys
    ensures forall k :: k in r ==> r[k] == Keyed(k, m[k])
  {
    map k | k in m :: Keyed(k, m[k])
  }

  // ---------------------------------------------------------------- list

  datatype PropertyQuery = PropertyQuery(clientId: Option<string>, search: Option<string>)

  /** The `where` of GET /properties: a client principal is pinned to its
      own client, a firm principal may narrow to one client, and a search
      matches the name, the address or the city, ignoring case. */
  predicate PropertyMatch(user: Principal, q: PropertyQuery, p: Property) {
    && (user.Client? ==> p.clientId == user.clientId)
    && (user.Firm? && Truthy(q.clientId) ==> p.clientId == q.clientId.value)
    && (Truthy(q.search) ==>
          ContainsInsensitive(p.name, q.search.value) || ContainsInsensitive(p.address, q.search.value) ||
          ContainsInsensitive(p.city, q.search.value))
  }

  function ByName(e: Keyed<Property>): Key {
    [Query.Str(e.row.name)]
  }

  /** GET /properties. */
  method ListProperties(db: Db, user: Principal, q: PropertyQuery) returns (res: Response<seq<Keyed<Property>>>)
    ensures res.Ok?
    ensures IsListing(res.body, WithIds(db.tables.properties), (e: Keyed<Property>) => PropertyMatch(user, q, e.row), ByName)
  {
    var rs := Select(WithIds(db.tables.properties), (e: Keyed<Property>) => PropertyMatch(user, q, e.row), ByName);
    res := Ok(rs);
  }

  /** A client principal's list holds only its own client's properties,
      whatever client the query names. */
  lemma ClientSeesOwnProperties(t: Tables, user: Principal, q: PropertyQuery, rs: seq<Keyed<Property>>)
    requires user.Client?
    requires IsListing(rs, WithIds(t.properties), (e: Keyed<Property>) => PropertyMatch(user, q, e.row), ByName)
    ensures forall e :: e in rs ==> e.id in t.properties && t.properties[e.id] == e.row && e.row.clientId == user.clientId
  {
    forall e | e in rs
      ensures e.id in t.properties && t.properties[e.id] == e.row && e.row.clientId == user.clientId
    {
      var k :| k in WithIds(t.properties) && WithIds(t.properties)[k] == e;
    }
  }

  /** A search only narrows the list: every property found by a search is
      also listed without it. */
  lemma SearchNarrows(user: Principal, q: PropertyQuery, p: Property)
    requires PropertyMatch(user, q, p)
    ensures PropertyMatch(user, q.(search := None), p)
  {
  }

  // ---------------------------------------------------------------- one property

  /** Whether the caller may see the property under `id`. */
  predicate Visible(t: Tables, user: Principal, id: Id) {
    id in t.properties && (user.Client? ==> t.properties[id].clientId == user.clientId)
  }

  /** A property with its cases, newest first. */
  datatype PropertyView = PropertyView(id: Id, property: Property, cases: seq<Case>)

  /** GET /properties/:id: a property outside the caller's scope answers 404
      like a missing one. */
  method GetProperty(db: Db, user: Principal, id: Id) returns (res: Response<PropertyView>)
    ensures res.Ok? || res == NotFound("Property not found")
    ensures res.Ok? <==> Visible(db.tables, user, id)
    ensures res.Ok? ==> res.body.id == id && res.body.property == db.tables.properties[id]
    ensures res.Ok? ==> IsListing(res.body.cases, db.tables.cases, (c: Case) => c.propertyId == id, Cases.NewestFirst)
  {
    if !Visible(db.tables, user, id) {
      return NotFound("Property not found");
    }
    var cs := Select(db.tables.cases, (c: Case) => c.propertyId == id, Cases.NewestFirst);
    res := Ok(PropertyView(id, db.tables.properties[id], cs));
  }

  // ---------------------------------------------------------------- tenants

  /** An active tenant housed in the property. */
  predicate ActiveIn(id: Id, t: Tenant) {
    t.propertyId == Some(id) && t.isActive
  }

  function ByLastName(e: Keyed<Tenant>): Key {
    [Query.Str(e.row.lastName)]
  }

  /** GET /properties/:id/tenants: 404 for a property outside the caller's
      scope; otherwise the property's active tenants by last name. */
  method ListPropertyTenants(db: Db, user: Principal, id: Id) returns (res: Response<seq<Keyed<Tenant>>>)
    ensures res.Ok? || res == NotFound("Property not found")
    ensures res.Ok? <==> Visible(db.tables, user, id)
    ensures res.Ok? ==> IsListing(res.body, WithIds(db.tables.tenants), (e: Keyed<Tenant>) => ActiveIn(id, e.row), ByLastName)
  {
    if !Visible(db.tables, user, id) {
      return NotFound("Property not found");
    }
    var rs := Select(WithIds(db.tables.tenants), (e: Keyed<Tenant>) => ActiveIn(id, e.row), ByLastName);
    res := Ok(rs);
  }

  /** Every listed tenant is active, lives in the property, and is listed
      once: the list is as long as the property's active tenants. */
  lemma TenantsListedAreActive(t: Tables, id: Id, rs: seq<Keyed<Tenant>>)
    requires IsListing(rs, WithIds(t.tenants), (e: Keyed<Tenant>) => ActiveIn(id, e.row), ByLastName)
    ensures forall e :: e in rs ==> e.id in t.tenants && e.row.isActive && e.row.propertyId == Some(id)
    ensures |rs| == |set k | k in t.tenants && ActiveIn(id, t.tenants[k])|
  {
    var m := WithIds(t.tenants);
    forall e | e in rs ensures e.id in t.tenants && e.row.isActive && e.row.propertyId == Some(id) {
      var k :| k in m && m[k] == e;
    }
    assert KeysWhere(m, (e: Keyed<Tenant>) => ActiveIn(id, e.row)) == set k | k in t.tenants && ActiveIn(id, t.tenants[k]);
  }
}
