/**
 * The relational store the route handlers read and write through Prisma:
 * one map from primary key to row per table, plus the set of file paths
 * present in the upload directory.
 */
module Store {
  import opened Common
  import opened Model

  /** The largest element of a finite non-empty set of lengths. */
  lemma MaxExists(s: set<nat>)
    requires s != {}
    ensures exists n :: n in s && forall j :: j in s ==> j <= n
  {
    var x :| x in s;
    if s != {x} {
      MaxExists(s - {x});
      var m :| m in s - {x} && forall j :: j in s - {x} ==> j <= m;
      var b := if x > m then x else m;
      forall j | j in s ensures j <= b {
        if j != x { assert j in s - {x}; }
      }
    }
  }

  function MaxLength(keys: set<Id>): (n: nat)
    ensures forall k :: k in keys ==> |k| <= n
  {
    if keys == {} then 0
    else
      var lengths := set k | k in keys :: |k|;
      assert forall k :: k in keys ==> |k| in lengths;
      MaxExists(lengths);
      var n :| n in lengths && forall j :: j in lengths ==> j <= n;
      n
  }

  /** A primary key not yet used in a table (standing in for the database's
      generated identifiers). */
  function FreshId(keys: set<Id>): (id: Id)
    ensures id !in keys && id != ""
  {
    seq(MaxLength(keys) + 1, _ => 'x')
  }

  /** The snapshot of every table at one moment. */
  datatype Tables = Tables(
    lawFirms: map<Id, LawFirm>, firmUsers: map<Id, FirmUser>, clients: map<Id, MgmtClient>,
    clientUsers: map<Id, ClientUser>, properties: map<Id, Property>, units: map<Id, Unit>,
    tenants: map<Id, Tenant>, cases: map<Id, Case>, events: map<Id, CaseEvent>,
    comments: map<Id, Comment>, documents: map<Id, Document>, templates: map<Id, Template>,
    integrations: map<Id, Integration>, auditLogs: map<Id, AuditLog>,
    settings: map<Id, FirmSettings>, files: set<string>)

  /** No two rows share a natural key (rows without one are unconstrained). */
  ghost predicate Unique<D, K>(m: map<Id, D>, key: D -> Option<K>) {
    forall a, b :: a in m && b in m && a != b && key(m[a]).Some? ==> key(m[a]) != key(m[b])
  }

  // Each predicate below states the constraints of one table: every row is
  // stored under its own id, the unique indexes hold, and every foreign key
  // names an existing row of the parent table.

  ghost predicate LawFirmRows(m: map<Id, LawFirm>) {
    forall k :: k in m ==> m[k].id == k
  }

  /** Firm user emails are unique. */
  ghost predicate FirmUserRows(m: map<Id, FirmUser>, lawFirms: map<Id, LawFirm>) {
    && (forall k :: k in m ==> m[k].id == k && m[k].lawFirmId in lawFirms)
    && (forall a, b :: a in m && b in m && a != b ==> m[a].email != m[b].email)
  }

  ghost predicate ClientRows(m: map<Id, MgmtClient>, lawFirms: map<Id, LawFirm>) {
    forall k :: k in m ==> m[k].id == k && m[k].lawFirmId in lawFirms
  }

  /** Client user emails are unique. */
  ghost predicate ClientUserRows(m: map<Id, ClientUser>, clients: map<Id, MgmtClient>) {
    && (forall k :: k in m ==> m[k].id == k && m[k].clientId in clients)
    && (forall a, b :: a in m && b in m && a != b ==> m[a].email != m[b].email)
  }

  /** Generated ids are never empty, and two properties of one client may not
      share an external id. */
  ghost predicate PropertyRows(m: map<Id, Property>, clients: map<Id, MgmtClient>) {
    && (forall k :: k in m ==> k != "" && m[k].clientId in clients)
    && Unique(m, PropertyKey)
  }

  /** Two units of one property may not share an external id. */
  ghost predicate UnitRows(m: map<Id, Unit>, properties: map<Id, Property>) {
    && (forall k :: k in m ==> m[k].propertyId in properties)
    && Unique(m, UnitKey)
  }

  /** Two tenants of one client may not share an external id; a tenant's
      property and unit, when set, exist. */
  ghost predicate TenantRows(m: map<Id, Tenant>, clients: map<Id, MgmtClient>,
                             properties: map<Id, Property>, units: map<Id, Unit>) {
    && (forall k :: k in m ==> m[k].clientId in clients)
    && (forall k :: k in m && m[k].propertyId.Some? ==> m[k].propertyId.value in properties)
    && (forall k :: k in m && m[k].unitId.Some? ==> m[k].unitId.value in units)
    && Unique(m, TenantKey)
  }

  /** A case points at its client, its property and each linked tenant. */
  ghost predicate CaseRows(m: map<Id, Case>, clients: map<Id, MgmtClient>,
                           properties: map<Id, Property>, tenants: map<Id, Tenant>) {
    && (forall k :: k in m ==> m[k].id == k && m[k].clientId in clients && m[k].propertyId in properties)
    && (forall k, i :: k in m && 0 <= i < |m[k].tenants| ==> m[k].tenants[i].tenantId in tenants)
  }

  ghost predicate EventRows(m: map<Id, CaseEvent>, cases: map<Id, Case>) {
    forall k :: k in m ==> m[k].id == k && m[k].caseId in cases
  }

  ghost predicate CommentRows(m: map<Id, Comment>, cases: map<Id, Case>) {
    forall k :: k in m ==> m[k].id == k && m[k].caseId in cases
  }

  ghost predicate DocumentRows(m: map<Id, Document>, cases: map<Id, Case>) {
    forall k :: k in m ==> m[k].id == k && m[k].caseId in cases
  }

  ghost predicate TemplateRows(m: map<Id, Template>) {
    forall k :: k in m ==> m[k].id == k
  }

  ghost predicate IntegrationRows(m: map<Id, Integration>, clients: map<Id, MgmtClient>) {
    forall k :: k in m ==> m[k].id == k && m[k].clientId in clients
  }

  ghost predicate AuditRows(m: map<Id, AuditLog>) {
    forall k :: k in m ==> m[k].id == k
  }

  /** A law firm has at most one settings row. */
  ghost predicate SettingsRows(m: map<Id, FirmSettings>, lawFirms: map<Id, LawFirm>) {
    && (forall k :: k in m ==> m[k].id == k && m[k].lawFirmId in lawFirms)
    && (forall a, b :: a in m && b in m && a != b ==> m[a].lawFirmId != m[b].lawFirmId)
  }

  /** The constraints the database enforces, table by table. */
  ghost predicate Consistent(t: Tables) {
    && LawFirmRows(t.lawFirms) && FirmUserRows(t.firmUsers, t.lawFirms)
    && ClientRows(t.clients, t.lawFirms) && ClientUserRows(t.clientUsers, t.clients)
    && PropertyRows(t.properties, t.clients) && UnitRows(t.units, t.properties)
    && TenantRows(t.tenants, t.clients, t.properties, t.units)
    && CaseRows(t.cases, t.clients, t.properties, t.tenants)
    && EventRows(t.events, t.cases) && CommentRows(t.comments, t.cases)
    && DocumentRows(t.documents, t.cases) && TemplateRows(t.templates)
    && IntegrationRows(t.integrations, t.clients) && AuditRows(t.auditLogs)
    && SettingsRows(t.settings, t.lawFirms)
  }

  /** Rewriting a case row that keeps its links keeps the database consistent. */
  lemma ReplaceCaseKeeps(t: Tables, c: Case)
    requires Consistent(t) && c.id in t.cases
    requires c.clientId in t.clients && c.propertyId in t.properties
    requires forall i :: 0 <= i < |c.tenants| ==> c.tenants[i].tenantId in t.tenants
    ensures Consistent(t.(cases := t.cases[c.id := c]))
  {
    CaseRowsPut(t.cases, t.clients, t.properties, t.tenants, c);
    assert t.cases[c.id := c].Keys == t.cases.Keys;
    CasesSameKeysKeep(t, t.cases[c.id := c]);
  }

  /** A case table over the same ids whose rows keep valid links keeps the
      database consistent. */
  lemma CasesSameKeysKeep(t: Tables, m: map<Id, Case>)
    requires Consistent(t) && m.Keys == t.cases.Keys
    requires CaseRows(m, t.clients, t.properties, t.tenants)
    ensures Consistent(t.(cases := m))
  {
    var u := t.(cases := m);
    assert EventRows(u.events, u.cases);
    assert CommentRows(u.comments, u.cases);
    assert DocumentRows(u.documents, u.cases);
  }

  /** Writing a case row whose links exist keeps the case table well formed. */
  lemma CaseRowsPut(m: map<Id, Case>, clients: map<Id, MgmtClient>, properties: map<Id, Property>,
                    tenants: map<Id, Tenant>, c: Case)
    requires CaseRows(m, clients, properties, tenants)
    requires c.clientId in clients && c.propertyId in properties
    requires forall i :: 0 <= i < |c.tenants| ==> c.tenants[i].tenantId in tenants
    ensures CaseRows(m[c.id := c], clients, properties, tenants)
  {
    var m1 := m[c.id := c];
    forall k, i | k in m1 && 0 <= i < |m1[k].tenants| ensures m1[k].tenants[i].tenantId in tenants {
      if k != c.id {
        assert m1[k] == m[k];
      }
    }
  }

  /** Adding a timeline entry of an existing case keeps the database consistent. */
  lemma AddEventKeeps(t: Tables, e: CaseEvent)
    requires Consistent(t) && e.caseId in t.cases
    ensures Consistent(t.(events := t.events[e.id := e]))
  {
    var u := t.(events := t.events[e.id := e]);
    assert EventRows(u.events, u.cases);
  }

  /** Adding a case whose links exist keeps the database consistent. */
  lemma AddCaseKeeps(t: Tables, c: Case)
    requires Consistent(t) && c.id !in t.cases
    requires c.clientId in t.clients && c.propertyId in t.properties
    requires forall i :: 0 <= i < |c.tenants| ==> c.tenants[i].tenantId in t.tenants
    ensures Consistent(t.(cases := t.cases[c.id := c]))
  {
    var u := t.(cases := t.cases[c.id := c]);
    assert CaseRows(u.cases, u.clients, u.properties, u.tenants);
    assert EventRows(u.events, u.cases);
    assert CommentRows(u.comments, u.cases);
    assert DocumentRows(u.documents, u.cases);
  }

  /** Appending to the audit log keeps the database consistent. */
  lemma AddAuditKeeps(t: Tables, a: AuditLog)
    requires Consistent(t)
    ensures Consistent(t.(auditLogs := t.auditLogs[a.id := a]))
  {
    var u := t.(auditLogs := t.auditLogs[a.id := a]);
    assert AuditRows(u.auditLogs);
  }

  /** The database handle every route shares. */
  class Db {
    var tables: Tables

    ghost predicate Valid()
      reads this
    {
      Consistent(tables)
    }

    /** An empty database. */
    constructor ()
      ensures Valid()
      ensures tables == Tables(map[], map[], map[], map[], map[], map[], map[], map[],
                               map[], map[], map[], map[], map[], map[], map[], {})
    {
      tables := Tables(map[], map[], map[], map[], map[], map[], map[], map[],
                       map[], map[], map[], map[], map[], map[], map[], {});
    }
  }
}
