/**
 * The bulk routes, all behind the firm-user gate: importing cases from the
 * rows of a CSV file, generating one document per listed case, and moving
 * a list of cases to one status with a timeline entry per listed id. Each
 * loop works through its input one element at a time and collects what
 * it made and what went wrong.
 */
module Bulk {
  import opened Common
  import opened Strings
  import opened Model
  import opened Store
  import opened Query
  import opened AuthMiddleware
  import opened Cases
  import DocumentGenerator
  import Documents

  /** The upload filter of the import: a CSV mime type or a `.csv` name. */
  predicate CsvUpload(mimeType: string, originalName: string) {
    mimeType == "text/csv" || EndsWith(originalName, ".csv")
  }

  // ---------------------------------------------------------------- import

  /** Prisma `contains` with `mode: 'insensitive'` where the needle may be
      `undefined`: an undefined filter is dropped and matches every row. */
  predicate Matches(needle: Option<string>, s: string) {
    needle.None? || ContainsInsensitive(s, needle.value)
  }

  /** The property lookup of one row: a property of the client whose name
      or address contains what the row names. */
  predicate PropertyMatch(p: Property, clientId: Id, row: Record) {
    && p.clientId == clientId
    && (Matches(Or(Get(row, "propertyName"), Get(row, "property")), p.name)
        || Matches(Or(Get(row, "propertyAddress"), Get(row, "address")), p.address))
  }

  /** The tenant lookup of one row, on the property found for it. */
  predicate TenantMatch(t: Tenant, clientId: Id, propertyId: Id, row: Record) {
    && t.clientId == clientId && t.propertyId == Some(propertyId)
    && Matches(Or(Get(row, "tenantFirstName"), Get(row, "firstName")), t.firstName)
    && Matches(Or(Get(row, "tenantLastName"), Get(row, "lastName")), t.lastName)
  }

  /** No property of the client matches the row. */
  predicate NoProperty(t: Tables, clientId: Id, row: Record) {
    forall pid :: pid in t.properties ==> !PropertyMatch(t.properties[pid], clientId, row)
  }

  /** No tenant of the property matches the row. */
  predicate NoTenant(t: Tables, clientId: Id, propertyId: Id, row: Record) {
    forall tid :: tid in t.tenants ==> !TenantMatch(t.tenants[tid], clientId, propertyId, row)
  }

  /** One entry of the import's error list. */
  datatype ImportError = ImportError(row: Record, error: string)

  /** What an import answers: the created cases and the rejected rows. */
  datatype ImportReport = ImportReport(cases: seq<Case>, errors: seq<ImportError>)

  /** The case an imported row creates. The amounts are read with the
      given parsers, standing for `parseFloat` (in cents) and `parseInt`. */
  function ImportedRow(id: Id, clientId: Id, propertyId: Id, p: Property, tenantId: Id, row: Record,
                       count: nat, now: int, parseAmount: string -> int, parseMonths: string -> int): (c: Case)
    ensures c.id == id && c.clientId == clientId && c.propertyId == propertyId
    ensures c.status == "INTAKE" && c.tenants == [CaseTenant(tenantId, true)]
    ensures c.caseNumber == CaseNumber(clientId, count + 1)
    ensures c.caseType == (if Truthy(Get(row, "caseType")) then row["caseType"] else "NON_PAYMENT")
    ensures c.reason == (if Truthy(Get(row, "reason")) then row["reason"] else "Non-payment of rent")
    ensures c.jurisdiction ==
      (if Truthy(Get(row, "jurisdiction")) then row["jurisdiction"] else p.jurisdiction)
    ensures !Truthy(Get(row, "court")) ==> c.court.None?
  {
    Case(id, CaseNumber(clientId, count + 1), clientId, propertyId, [CaseTenant(tenantId, true)],
         OrElse(Get(row, "caseType"), "NON_PAYMENT"), OrElse(Get(row, "reason"), "Non-payment of rent"),
         if Truthy(Get(row, "amountOwed")) then Some(parseAmount(row["amountOwed"])) else None,
         if Truthy(Get(row, "monthsOwed")) then Some(parseMonths(row["monthsOwed"])) else None,
         OrElse(Or(Get(row, "jurisdiction"), Some(p.jurisdiction)), ""), OrNull(Get(row, "court")),
         false, None, None, None, "INTAKE", None, None, None, None, None, None, None, now)
  }

  /** Case `c` was made from `row` on snapshot `t` as the `k`-th case of
      its client: through a matching property and a matching tenant. */
  ghost predicate ImportedFrom(t: Tables, clientId: Id, row: Record, c: Case, count: nat, now: int,
                               parseAmount: string -> int, parseMonths: string -> int) {
    && c.propertyId in t.properties && |c.tenants| == 1 && c.tenants[0].tenantId in t.tenants
    && PropertyMatch(t.properties[c.propertyId], clientId, row)
    && TenantMatch(t.tenants[c.tenants[0].tenantId], clientId, c.propertyId, row)
    && c == ImportedRow(c.id, clientId, c.propertyId, t.properties[c.propertyId], c.tenants[0].tenantId,
                        row, count, now, parseAmount, parseMonths)
  }

  function CaseKey(c: Case): Id {
    c.id
  }

  function DocumentKey(d: Document): Id {
    d.id
  }

  /** The keys of a list of rows. */
  ghost function KeysOf<R>(rs: seq<R>, key: R -> Id): set<Id> {
    set r | r in rs :: key(r)
  }

  /** Map `m` is `m0` with the rows of `added` stored under their keys,
      each of which was free in `m0`. */
  ghost predicate Added<R>(m0: map<Id, R>, m: map<Id, R>, added: seq<R>, key: R -> Id) {
    && m.Keys == m0.Keys + KeysOf(added, key)
    && (forall k :: k in m0 ==> m[k] == m0[k])
    && (forall j :: 0 <= j < |added| ==> key(added[j]) !in m0 && m[key(added[j])] == added[j])
  }

  /** Storing one more row under a free key. */
  lemma AddedGrow<R>(m0: map<Id, R>, m: map<Id, R>, added: seq<R>, key: R -> Id, r: R)
    requires Added(m0, m, added, key) && key(r) !in m
    ensures Added(m0, m[key(r) := r], added + [r], key)
  {
    var rs := added + [r];
    assert KeysOf(rs, key) == KeysOf(added, key) + {key(r)};
    forall j | 0 <= j < |rs| ensures key(rs[j]) !in m0 && m[key(r) := r][key(rs[j])] == rs[j] {
      if j < |added| {
        assert rs[j] == added[j] && key(added[j]) in m;
      }
    }
  }

  /** The tables after some imported rows: only the cases changed, by the
      created ones, and the client's count went up by one per created case. */
  ghost predicate CasesGrown(t0: Tables, t: Tables, clientId: Id, created: seq<Case>, n0: nat) {
    && t == t0.(cases := t.cases)
    && ClientCaseCount(t.cases, clientId) == n0 + |created|
    && Added(t0.cases, t.cases, created, CaseKey)
  }

  /** Each created case came from a row of the file and was the next case
      of its client. */
  ghost predicate CasesFromRows(t0: Tables, clientId: Id, rows: seq<Record>, created: seq<Case>,
                                sources: seq<Record>, n0: nat, now: int,
                                parseAmount: string -> int, parseMonths: string -> int) {
    Paired(ImportedFromRow(t0, clientId, now, parseAmount, parseMonths), rows, created, sources, n0)
  }

  /** `ImportedFrom` on snapshot `t0`, as a relation of a row, a case and a count. */
  ghost function ImportedFromRow(t0: Tables, clientId: Id, now: int, parseAmount: string -> int,
                                 parseMonths: string -> int): (Record, Case, nat) -> bool {
    (row: Record, c: Case, count: nat) => ImportedFrom(t0, clientId, row, c, count, now, parseAmount, parseMonths)
  }

  /** Each of `created` is related by `p` to its source, a row of `rows`,
      and to its position counted from `n0`. */
  ghost predicate Paired<A, B>(p: (A, B, nat) -> bool, rows: seq<A>, created: seq<B>, sources: seq<A>, n0: nat) {
    && |sources| == |created|
    && forall j :: 0 <= j < |created| ==> sources[j] in rows && p(sources[j], created[j], n0 + j)
  }

  /** Each rejected row is a row of the file with the reason it failed,
      and every row seen so far that matches no property is rejected. */
  ghost predicate ErrorsFromRows(t0: Tables, clientId: Id, rows: seq<Record>, done: nat, errors: seq<ImportError>) {
    && done <= |rows|
    && (forall j :: 0 <= j < |errors| ==>
          errors[j].row in rows
          && (errors[j].error == "Property not found" || errors[j].error == "Tenant not found")
          && (errors[j].error == "Property not found" <==> NoProperty(t0, clientId, errors[j].row))
          && (errors[j].error == "Tenant not found" ==>
                exists pid :: pid in t0.properties && PropertyMatch(t0.properties[pid], clientId, errors[j].row)
                              && NoTenant(t0, clientId, pid, errors[j].row)))
    && (forall r :: r in rows[..done] && NoProperty(t0, clientId, r) ==>
          ImportError(r, "Property not found") in errors)
  }

  /** The cases of one import carry the client's next numbers one after
      another, so no two of them share a case number. */
  lemma ImportedNumbersConsecutive(t0: Tables, clientId: Id, rows: seq<Record>, created: seq<Case>,
                                   sources: seq<Record>, n0: nat, now: int,
                                   parseAmount: string -> int, parseMonths: string -> int)
    requires CasesFromRows(t0, clientId, rows, created, sources, n0, now, parseAmount, parseMonths)
    ensures forall j :: 0 <= j < |created| ==> created[j].caseNumber == CaseNumber(clientId, n0 + j + 1)
    ensures forall j, k :: 0 <= j < k < |created| ==> created[j].caseNumber != created[k].caseNumber
  {
    forall j | 0 <= j < |created| ensures created[j].caseNumber == CaseNumber(clientId, n0 + j + 1) {
      ImportedNumberAt(t0, clientId, rows, created, sources, n0, now, parseAmount, parseMonths, j);
    }
    NumberedDistinct(clientId, created, n0);
  }

  lemma ImportedNumberAt(t0: Tables, clientId: Id, rows: seq<Record>, created: seq<Case>,
                         sources: seq<Record>, n0: nat, now: int,
                         parseAmount: string -> int, parseMonths: string -> int, j: int)
    requires CasesFromRows(t0, clientId, rows, created, sources, n0, now, parseAmount, parseMonths)
    requires 0 <= j < |created|
    ensures created[j].caseNumber == CaseNumber(clientId, n0 + j + 1)
  {
    assert ImportedFromRow(t0, clientId, now, parseAmount, parseMonths)(sources[j], created[j], n0 + j);
    ImportedNumber(t0, clientId, sources[j], created[j], n0 + j, now, parseAmount, parseMonths);
  }

  /** Cases numbered one after another have distinct numbers. */
  lemma NumberedDistinct(clientId: Id, created: seq<Case>, n0: nat)
    requires forall j :: 0 <= j < |created| ==> created[j].caseNumber == CaseNumber(clientId, n0 + j + 1)
    ensures forall j, k :: 0 <= j < k < |created| ==> created[j].caseNumber != created[k].caseNumber
  {
    forall j, k | 0 <= j < k < |created| ensures created[j].caseNumber != created[k].caseNumber {
      NextNumbersDiffer(clientId, n0 + j + 1, n0 + k + 1);
    }
  }

  lemma NextNumbersDiffer(clientId: Id, a: nat, b: nat)
    requires a < b
    ensures CaseNumber(clientId, a) != CaseNumber(clientId, b)
  {
    if CaseNumber(clientId, a) == CaseNumber(clientId, b) {
      CaseNumberInjective(clientId, a, b);
    }
  }

  lemma ImportedNumber(t0: Tables, clientId: Id, row: Record, c: Case, count: nat, now: int,
                       parseAmount: string -> int, parseMonths: string -> int)
    requires ImportedFrom(t0, clientId, row, c, count, now, parseAmount, parseMonths)
    ensures c.caseNumber == CaseNumber(clientId, count + 1)
  {
  }

  /** A row with no matching property is rejected as "Property not found". */
  lemma ErrorsNoProperty(t0: Tables, clientId: Id, rows: seq<Record>, i: nat, errors: seq<ImportError>)
    requires ErrorsFromRows(t0, clientId, rows, i, errors)
    requires i < |rows| && NoProperty(t0, clientId, rows[i])
    ensures ErrorsFromRows(t0, clientId, rows, i + 1, errors + [ImportError(rows[i], "Property not found")])
  {
    assert rows[..i + 1] == rows[..i] + [rows[i]];
    var e := errors + [ImportError(rows[i], "Property not found")];
    assert e[|errors|] == ImportError(rows[i], "Property not found");
  }

  /** A row whose property has no matching tenant is rejected as "Tenant not found". */
  lemma ErrorsNoTenant(t0: Tables, clientId: Id, rows: seq<Record>, i: nat, errors: seq<ImportError>, pid: Id)
    requires ErrorsFromRows(t0, clientId, rows, i, errors)
    requires i < |rows| && pid in t0.properties && PropertyMatch(t0.properties[pid], clientId, rows[i])
    requires NoTenant(t0, clientId, pid, rows[i])
    ensures ErrorsFromRows(t0, clientId, rows, i + 1, errors + [ImportError(rows[i], "Tenant not found")])
  {
    assert rows[..i + 1] == rows[..i] + [rows[i]];
  }

  /** A row that matches a property and makes a case leaves the errors as they were. */
  lemma ErrorsSkip(t0: Tables, clientId: Id, rows: seq<Record>, i: nat, errors: seq<ImportError>, pid: Id)
    requires ErrorsFromRows(t0, clientId, rows, i, errors)
    requires i < |rows| && pid in t0.properties && PropertyMatch(t0.properties[pid], clientId, rows[i])
    ensures ErrorsFromRows(t0, clientId, rows, i + 1, errors)
  {
    assert rows[..i + 1] == rows[..i] + [rows[i]];
  }

  lemma CasesGrow(t0: Tables, t: Tables, clientId: Id, created: seq<Case>, n0: nat, c: Case)
    requires CasesGrown(t0, t, clientId, created, n0)
    requires c.id !in t.cases && c.clientId == clientId
    ensures CasesGrown(t0, t.(cases := t.cases[c.id := c]), clientId, created + [c], n0)
  {
    CountAfterCreate(t.cases, c, clientId);
    AddedGrow(t0.cases, t.cases, created, CaseKey, c);
  }

  /** A row with a property and a tenant adds the client's next case. */
  lemma CasesFromRowsGrow(t0: Tables, clientId: Id, rows: seq<Record>, created: seq<Case>,
                          sources: seq<Record>, n0: nat, now: int,
                          parseAmount: string -> int, parseMonths: string -> int, i: nat, pid: Id, tid: Id, id: Id)
    requires CasesFromRows(t0, clientId, rows, created, sources, n0, now, parseAmount, parseMonths)
    requires i < |rows| && pid in t0.properties && PropertyMatch(t0.properties[pid], clientId, rows[i])
    requires tid in t0.tenants && TenantMatch(t0.tenants[tid], clientId, pid, rows[i])
    ensures CasesFromRows(t0, clientId, rows, created + [ImportedRow(id, clientId, pid, t0.properties[pid], tid, rows[i],
                                                                     n0 + |created|, now, parseAmount, parseMonths)],
                          sources + [rows[i]], n0, now, parseAmount, parseMonths)
  {
    var c := ImportedRow(id, clientId, pid, t0.properties[pid], tid, rows[i], n0 + |created|, now, parseAmount, parseMonths);
    ImportedRowFrom(t0, clientId, rows[i], pid, tid, id, n0 + |created|, now, parseAmount, parseMonths);
    CasesFromRowsSnoc(t0, clientId, rows, created, sources, n0, now, parseAmount, parseMonths, c, rows[i]);
  }

  /** The case built from a row through a matching property and tenant was imported from that row. */
  lemma ImportedRowFrom(t0: Tables, clientId: Id, row: Record, pid: Id, tid: Id, id: Id, count: nat, now: int,
                        parseAmount: string -> int, parseMonths: string -> int)
    requires pid in t0.properties && PropertyMatch(t0.properties[pid], clientId, row)
    requires tid in t0.tenants && TenantMatch(t0.tenants[tid], clientId, pid, row)
    ensures ImportedFrom(t0, clientId, row,
                         ImportedRow(id, clientId, pid, t0.properties[pid], tid, row, count, now, parseAmount, parseMonths),
                         count, now, parseAmount, parseMonths)
  {
  }

  /** One more case imported from a row of the file extends the imported list. */
  lemma CasesFromRowsSnoc(t0: Tables, clientId: Id, rows: seq<Record>, created: seq<Case>,
                          sources: seq<Record>, n0: nat, now: int,
                          parseAmount: string -> int, parseMonths: string -> int, c: Case, row: Record)
    requires CasesFromRows(t0, clientId, rows, created, sources, n0, now, parseAmount, parseMonths)
    requires row in rows && ImportedFrom(t0, clientId, row, c, n0 + |created|, now, parseAmount, parseMonths)
    ensures CasesFromRows(t0, clientId, rows, created + [c], sources + [row], n0, now, parseAmount, parseMonths)
  {
    PairedSnoc(ImportedFromRow(t0, clientId, now, parseAmount, parseMonths), rows, created, sources, n0, c, row);
  }

  /** Pairs that each satisfy `p` at their position still do with one more
      such pair at the end. */
  lemma PairedSnoc<A, B>(p: (A, B, nat) -> bool, rows: seq<A>, created: seq<B>, sources: seq<A>, n0: nat, c: B, row: A)
    requires Paired(p, rows, created, sources, n0)
    requires row in rows && p(row, c, n0 + |created|)
    ensures Paired(p, rows, created + [c], sources + [row], n0)
  {
    forall j | 0 <= j < |created| + 1
      ensures (sources + [row])[j] in rows && p((sources + [row])[j], (created + [c])[j], n0 + j)
    {
      if j < |created| {
        assert (sources + [row])[j] == sources[j] && (created + [c])[j] == created[j];
      }
    }
  }

  /** What the import loop keeps true after `done` rows. */
  ghost predicate ImportedSoFar(t0: Tables, t: Tables, clientId: Id, rows: seq<Record>, done: nat,
                                created: seq<Case>, sources: seq<Record>, errors: seq<ImportError>,
                                n0: nat, now: int, parseAmount: string -> int, parseMonths: string -> int) {
    && clientId in t.clients
    && done <= |rows| && |created| + |errors| == done
    && CasesGrown(t0, t, clientId, created, n0)
    && CasesFromRows(t0, clientId, rows, created, sources, n0, now, parseAmount, parseMonths)
    && ErrorsFromRows(t0, clientId, rows, done, errors)
  }

  /** The step of a row that finds its property and its tenant. */
  lemma ImportMade(t0: Tables, t: Tables, clientId: Id, rows: seq<Record>, i: nat,
                   created: seq<Case>, sources: seq<Record>, errors: seq<ImportError>,
                   n0: nat, now: int, parseAmount: string -> int, parseMonths: string -> int,
                   pid: Id, tid: Id, c: Case)
    requires ImportedSoFar(t0, t, clientId, rows, i, created, sources, errors, n0, now, parseAmount, parseMonths)
    requires i < |rows| && pid in t.properties && PropertyMatch(t.properties[pid], clientId, rows[i])
    requires tid in t.tenants && TenantMatch(t.tenants[tid], clientId, pid, rows[i])
    requires c.id !in t.cases
    requires c == ImportedRow(c.id, clientId, pid, t.properties[pid], tid, rows[i],
                              ClientCaseCount(t.cases, clientId), now, parseAmount, parseMonths)
    ensures ImportedSoFar(t0, t.(cases := t.cases[c.id := c]), clientId, rows, i + 1, created + [c],
                          sources + [rows[i]], errors, n0, now, parseAmount, parseMonths)
  {
    ErrorsSkip(t0, clientId, rows, i, errors, pid);
    CasesGrow(t0, t, clientId, created, n0, c);
    CasesFromRowsGrow(t0, clientId, rows, created, sources, n0, now, parseAmount, parseMonths, i, pid, tid, c.id);
  }

  /** The step of a row that matches no property. */
  lemma ImportNoProperty(t0: Tables, t: Tables, clientId: Id, rows: seq<Record>, i: nat,
                         created: seq<Case>, sources: seq<Record>, errors: seq<ImportError>,
                         n0: nat, now: int, parseAmount: string -> int, parseMonths: string -> int)
    requires ImportedSoFar(t0, t, clientId, rows, i, created, sources, errors, n0, now, parseAmount, parseMonths)
    requires i < |rows| && NoProperty(t, clientId, rows[i])
    ensures ImportedSoFar(t0, t, clientId, rows, i + 1, created, sources,
                          errors + [ImportError(rows[i], "Property not found")], n0, now, parseAmount, parseMonths)
  {
    ErrorsNoProperty(t0, clientId, rows, i, errors);
  }

  /** The step of a row whose property has no matching tenant. */
  lemma ImportNoTenant(t0: Tables, t: Tables, clientId: Id, rows: seq<Record>, i: nat,
                       created: seq<Case>, sources: seq<Record>, errors: seq<ImportError>,
                       n0: nat, now: int, parseAmount: string -> int, parseMonths: string -> int, pid: Id)
    requires ImportedSoFar(t0, t, clientId, rows, i, created, sources, errors, n0, now, parseAmount, parseMonths)
    requires i < |rows| && pid in t.properties && PropertyMatch(t.properties[pid], clientId, rows[i])
    requires NoTenant(t, clientId, pid, rows[i])
    ensures ImportedSoFar(t0, t, clientId, rows, i + 1, created, sources,
                          errors + [ImportError(rows[i], "Tenant not found")], n0, now, parseAmount, parseMonths)
  {
    ErrorsNoTenant(t0, clientId, rows, i, errors, pid);
  }

  /** The case an imported row creates points at existing rows. */
  lemma ImportedRowLinks(t: Tables, c: Case, clientId: Id, pid: Id, tid: Id)
    requires clientId in t.clients && pid in t.properties && tid in t.tenants
    requires c.clientId == clientId && c.propertyId == pid && c.tenants == [CaseTenant(tid, true)]
    ensures c.clientId in t.clients && c.propertyId in t.properties
    ensures forall i :: 0 <= i < |c.tenants| ==> c.tenants[i].tenantId in t.tenants
  {
  }

  /** One row of the import, the `i`-th: it becomes a case or an error. */
  method ImportRow(db: Db, ghost t0: Tables, clientId: Id, rows: seq<Record>, i: nat,
                   created: seq<Case>, errors: seq<ImportError>, ghost sources: seq<Record>,
                   ghost n0: nat, now: int, parseAmount: string -> int, parseMonths: string -> int)
    returns (created': seq<Case>, errors': seq<ImportError>, ghost sources': seq<Record>)
    requires db.Valid() && i < |rows|
    requires ImportedSoFar(t0, db.tables, clientId, rows, i, created, sources, errors, n0, now, parseAmount, parseMonths)
    modifies db
    ensures db.Valid()
    ensures ImportedSoFar(t0, db.tables, clientId, rows, i + 1, created', sources', errors', n0, now, parseAmount, parseMonths)
  {
    var row := rows[i];
    created', errors', sources' := created, errors, sources;
    if NoProperty(db.tables, clientId, row) {
      ImportNoProperty(t0, db.tables, clientId, rows, i, created, sources, errors, n0, now, parseAmount, parseMonths);
      errors' := errors + [ImportError(row, "Property not found")];
      return;
    }
    var pid :| pid in db.tables.properties && PropertyMatch(db.tables.properties[pid], clientId, row);
    if NoTenant(db.tables, clientId, pid, row) {
      ImportNoTenant(t0, db.tables, clientId, rows, i, created, sources, errors, n0, now, parseAmount, parseMonths, pid);
      errors' := errors + [ImportError(row, "Tenant not found")];
      return;
    }
    var tid :| tid in db.tables.tenants && TenantMatch(db.tables.tenants[tid], clientId, pid, row);
    var c := ImportedRow(FreshId(db.tables.cases.Keys), clientId, pid, db.tables.properties[pid], tid, row,
                         ClientCaseCount(db.tables.cases, clientId), now, parseAmount, parseMonths);
    ImportMade(t0, db.tables, clientId, rows, i, created, sources, errors, n0, now, parseAmount, parseMonths, pid, tid, c);
    ImportedRowLinks(db.tables, c, clientId, pid, tid);
    AddCaseKeeps(db.tables, c);
    db.tables := db.tables.(cases := db.tables.cases[c.id := c]);
    created' := created + [c];
    sources' := sources + [row];
  }

  /** The loop over the parsed rows of an import for client `clientId`:
      each row becomes a case or an error, and later rows are processed
      whatever happened to earlier ones. */
  method ImportRows(db: Db, clientId: Id, rows: seq<Record>, now: int,
                    parseAmount: string -> int, parseMonths: string -> int)
    returns (created: seq<Case>, errors: seq<ImportError>, ghost sources: seq<Record>)
    requires db.Valid() && clientId in db.tables.clients
    modifies db
    ensures db.Valid()
    ensures |created| + |errors| == |rows|
    ensures CasesGrown(old(db.tables), db.tables, clientId, created, ClientCaseCount(old(db.tables.cases), clientId))
    ensures CasesFromRows(old(db.tables), clientId, rows, created, sources,
                          ClientCaseCount(old(db.tables.cases), clientId), now, parseAmount, parseMonths)
    ensures ErrorsFromRows(old(db.tables), clientId, rows, |rows|, errors)
  {
    ghost var t0 := db.tables;
    ghost var n0 := ClientCaseCount(t0.cases, clientId);
    created, errors, sources := [], [], [];
    var i := 0;
    assert KeysOf([], CaseKey) == {};
    while i < |rows|
      invariant db.Valid()
      invariant ImportedSoFar(t0, db.tables, clientId, rows, i, created, sources, errors, n0, now, parseAmount, parseMonths)
    {
      created, errors, sources := ImportRow(db, t0, clientId, rows, i, created, errors, sources, n0, now, parseAmount, parseMonths);
      i := i + 1;
    }
  }

  /** POST /bulk/cases/import, from the parsed rows of the uploaded file. */
  method ImportCases(db: Db, user: Principal, file: Option<seq<Record>>, clientId: Option<string>, now: int,
                     parseAmount: string -> int, parseMonths: string -> int)
    returns (res: Response<ImportReport>, ghost sources: seq<Record>)
    requires db.Valid()
    modifies db
    ensures db.Valid()
    ensures !user.Firm? ==> res == Forbidden("Firm user access required")
    ensures user.Firm? && file.None? ==> res == BadRequest("CSV file is required")
    ensures user.Firm? && file.Some? && !Truthy(clientId) ==> res == BadRequest("Client ID is required")
    ensures user.Firm? && file.Some? && Truthy(clientId) &&
            (clientId.value !in old(db.tables.clients) || old(db.tables.clients)[clientId.value].lawFirmId != user.lawFirmId) ==>
      res == NotFound("Client not found")
    ensures res.Ok? <==>
      && user.Firm? && file.Some? && Truthy(clientId)
      && clientId.value in old(db.tables.clients) && old(db.tables.clients)[clientId.value].lawFirmId == user.lawFirmId
    ensures !res.Ok? ==> db.tables == old(db.tables)
    ensures res.Ok? ==>
      var n0 := ClientCaseCount(old(db.tables.cases), clientId.value);
      && user.Firm? && file.Some? && Truthy(clientId)
      && |res.body.cases| + |res.body.errors| == |file.value|
      && CasesGrown(old(db.tables), db.tables, clientId.value, res.body.cases, n0)
      && CasesFromRows(old(db.tables), clientId.value, file.value, res.body.cases, sources, n0, now,
                       parseAmount, parseMonths)
      && ErrorsFromRows(old(db.tables), clientId.value, file.value, |file.value|, res.body.errors)
  {
    sources := [];
    var gate := RequireFirmUser(Some(user));
    if !gate.Ok? {
      return Relay(gate), sources;
    }
    if file.None? {
      return BadRequest("CSV file is required"), sources;
    }
    if !Truthy(clientId) {
      return BadRequest("Client ID is required"), sources;
    }
    var cid := clientId.value;
    if cid !in db.tables.clients || db.tables.clients[cid].lawFirmId != user.lawFirmId {
      return NotFound("Client not found"), sources;
    }
    var created, errors;
    created, errors, sources := ImportRows(db, cid, file.value, now, parseAmount, parseMonths);
    res := Ok(ImportReport(created, errors));
  }

  // ---------------------------------------------------------------- generate

  /** How generating for one listed case ends: `None` when a document is
      made, otherwise the error recorded for it. Only the type decides
      whether the generator throws. */
  function GenerateError(t: Tables, caseId: Id, documentType: string): Option<string> {
    if caseId !in t.cases then Some("Case not found")
    else if documentType == "NOTICE_TO_QUIT" || documentType == "COMPLAINT" then None
    else Some("Unknown template type: " + documentType)
  }

  /** The error list of a bulk generation over `ids`, in order. */
  function GenerateFailures(t: Tables, ids: seq<Id>, documentType: string): seq<(Id, string)> {
    if ids == [] then []
    else
      var last := ids[|ids| - 1];
      var e := GenerateError(t, last, documentType);
      GenerateFailures(t, ids[..|ids| - 1], documentType) + (if e.Some? then [(last, e.value)] else [])
  }

  /** The cases a bulk generation over `ids` makes documents for, in order. */
  function GenerateSuccesses(t: Tables, ids: seq<Id>, documentType: string): seq<Id> {
    if ids == [] then []
    else
      var last := ids[|ids| - 1];
      var rest := GenerateSuccesses(t, ids[..|ids| - 1], documentType);
      rest + (if GenerateError(t, last, documentType).None? then [last] else [])
  }

  /** Every listed id ends up exactly once among the documents or the errors. */
  lemma {:induction false} GenerateAccountsForEveryId(t: Tables, ids: seq<Id>, documentType: string)
    ensures |GenerateFailures(t, ids, documentType)| + |GenerateSuccesses(t, ids, documentType)| == |ids|
  {
    if ids != [] {
      GenerateAccountsForEveryId(t, ids[..|ids| - 1], documentType);
    }
  }

  /** A type without a generator makes no document: every listed id is an
      error, a known case with the generator's message. */
  lemma {:induction false} UngeneratableTypeFailsEverywhere(t: Tables, ids: seq<Id>, documentType: string)
    requires documentType != "NOTICE_TO_QUIT" && documentType != "COMPLAINT"
    ensures GenerateSuccesses(t, ids, documentType) == []
    ensures |GenerateFailures(t, ids, documentType)| == |ids|
    ensures forall j :: 0 <= j < |ids| ==>
      GenerateFailures(t, ids, documentType)[j] ==
        (ids[j], if ids[j] in t.cases then "Unknown template type: " + documentType else "Case not found")
  {
    if ids != [] {
      var init, last := ids[..|ids| - 1], ids[|ids| - 1];
      UngeneratableTypeFailsEverywhere(t, init, documentType);
      var e := if last in t.cases then "Unknown template type: " + documentType else "Case not found";
      assert GenerateError(t, last, documentType) == Some(e);
      var f := GenerateFailures(t, ids, documentType);
      assert f == GenerateFailures(t, init, documentType) + [(last, e)];
      forall j | 0 <= j < |ids|
        ensures f[j] == (ids[j], if ids[j] in t.cases then "Unknown template type: " + documentType else "Case not found")
      {
        if j < |init| {
          assert ids[j] == init[j];
        }
      }
    }
  }

  /** With a generatable type and only known cases nothing fails, and
      every listed case gets its document, in order. */
  lemma {:induction false} KnownCasesAllGenerated(t: Tables, ids: seq<Id>, documentType: string)
    requires documentType == "NOTICE_TO_QUIT" || documentType == "COMPLAINT"
    requires forall j :: 0 <= j < |ids| ==> ids[j] in t.cases
    ensures GenerateFailures(t, ids, documentType) == []
    ensures GenerateSuccesses(t, ids, documentType) == ids
  {
    if ids != [] {
      var init, last := ids[..|ids| - 1], ids[|ids| - 1];
      KnownCasesAllGenerated(t, init, documentType);
      assert GenerateError(t, last, documentType).None?;
      assert init + [last] == ids;
    }
  }

  /** One more id extends the error list or the success list by itself. */
  lemma GenerateSnoc(t: Tables, ids: seq<Id>, i: nat, documentType: string)
    requires i < |ids|
    ensures var e := GenerateError(t, ids[i], documentType);
      && GenerateFailures(t, ids[..i + 1], documentType) ==
           GenerateFailures(t, ids[..i], documentType) + (if e.Some? then [(ids[i], e.value)] else [])
      && GenerateSuccesses(t, ids[..i + 1], documentType) ==
           GenerateSuccesses(t, ids[..i], documentType) + (if e.None? then [ids[i]] else [])
  {
    assert ids[..i + 1][..i] == ids[..i];
  }

  /** The row bulk generation creates for case `c`. No PDF is written: the
      row names a path in the upload directory that holds no file. */
  function BulkDocument(id: Id, user: Principal, caseId: Id, c: Case, documentType: string, now: nat): (d: Document)
    ensures d.caseId == caseId && d.docType == documentType && d.isGenerated && d.mimeType == "application/pdf"
    ensures d.name == Documents.GeneratedName(documentType, c.caseNumber)
    ensures d.templateId.None? && d.uploadedById == Some(user.id) && d.uploadedByClientId.None?
  {
    Document(id, caseId, documentType, Documents.GeneratedName(documentType, c.caseNumber),
             "./uploads/" + documentType + "-" + c.caseNumber + "-" + NatToString(now) + ".pdf",
             "application/pdf", true, None, Some(user.id), None, false, None, None, None, None, now)
  }

  /** What a bulk generation answers. */
  datatype GenerateReport = GenerateReport(documents: seq<Document>, errors: seq<(Id, string)>)

  /** What the generation loop keeps true after `done` ids: only documents
      changed, by one new row per success so far, each built from its case. */
  ghost predicate GeneratedSoFar(t0: Tables, t: Tables, user: Principal, ids: seq<Id>, done: nat,
                                 documentType: string, now: nat, results: seq<Document>, errors: seq<(Id, string)>) {
    && done <= |ids|
    && t == t0.(documents := t.documents)
    && errors == GenerateFailures(t0, ids[..done], documentType)
    && |results| == |GenerateSuccesses(t0, ids[..done], documentType)|
    && Added(t0.documents, t.documents, results, DocumentKey)
    && BuiltFor(t0, user, documentType, now, results, GenerateSuccesses(t0, ids[..done], documentType))
  }

  /** Each of `results` is the document of the case at the same place in
      `cases`, built from that case on snapshot `t0`. */
  ghost predicate BuiltFor(t0: Tables, user: Principal, documentType: string, now: nat,
                           results: seq<Document>, cases: seq<Id>) {
    |results| <= |cases| &&
    forall j :: 0 <= j < |results| ==>
      && results[j].caseId == cases[j]
      && results[j].caseId in t0.cases
      && results[j] == BulkDocument(results[j].id, user, results[j].caseId, t0.cases[results[j].caseId], documentType, now)
  }

  /** One more document built from its case extends the list. */
  lemma BuiltForSnoc(t0: Tables, user: Principal, documentType: string, now: nat,
                     results: seq<Document>, cases: seq<Id>, d: Document, c: Id)
    requires BuiltFor(t0, user, documentType, now, results, cases) && |results| == |cases|
    requires d.caseId == c && c in t0.cases && d == BulkDocument(d.id, user, c, t0.cases[c], documentType, now)
    ensures BuiltFor(t0, user, documentType, now, results + [d], cases + [c])
  {
    var rs, cs := results + [d], cases + [c];
    forall j | 0 <= j < |rs|
      ensures rs[j].caseId == cs[j] && rs[j].caseId in t0.cases
      ensures rs[j] == BulkDocument(rs[j].id, user, rs[j].caseId, t0.cases[rs[j].caseId], documentType, now)
    {
      if j < |results| {
        assert rs[j] == results[j] && cs[j] == cases[j];
      }
    }
  }

  /** The step of a listed id that fails. */
  lemma GenerateStepFailed(t0: Tables, t: Tables, user: Principal, ids: seq<Id>, i: nat,
                           documentType: string, now: nat, results: seq<Document>, errors: seq<(Id, string)>)
    requires GeneratedSoFar(t0, t, user, ids, i, documentType, now, results, errors) && i < |ids|
    requires GenerateError(t0, ids[i], documentType).Some?
    ensures GeneratedSoFar(t0, t, user, ids, i + 1, documentType, now, results,
                           errors + [(ids[i], GenerateError(t0, ids[i], documentType).value)])
  {
    GenerateSnoc(t0, ids, i, documentType);
  }

  /** The step of a listed id that gets its document. */
  lemma GenerateStepMade(t0: Tables, t: Tables, user: Principal, ids: seq<Id>, i: nat,
                         documentType: string, now: nat, results: seq<Document>, errors: seq<(Id, string)>, d: Document)
    requires GeneratedSoFar(t0, t, user, ids, i, documentType, now, results, errors) && i < |ids|
    requires GenerateError(t0, ids[i], documentType).None? && ids[i] in t0.cases
    requires d.id !in t.documents && d == BulkDocument(d.id, user, ids[i], t0.cases[ids[i]], documentType, now)
    ensures GeneratedSoFar(t0, t.(documents := t.documents[d.id := d]), user, ids, i + 1, documentType, now,
                           results + [d], errors)
  {
    GenerateSnoc(t0, ids, i, documentType);
    AddedGrow(t0.documents, t.documents, results, DocumentKey, d);
    BuiltForSnoc(t0, user, documentType, now, results, GenerateSuccesses(t0, ids[..i], documentType), d, ids[i]);
  }

  /** Generation for the `i`-th listed case. The document row is created
      but the PDF is never written to disk. */
  method GenerateFor(db: Db, ghost t0: Tables, user: Principal, ids: seq<Id>, i: nat, documentType: string, now: nat,
                     results: seq<Document>, errors: seq<(Id, string)>)
    returns (results': seq<Document>, errors': seq<(Id, string)>)
    requires db.Valid() && i < |ids|
    requires GeneratedSoFar(t0, db.tables, user, ids, i, documentType, now, results, errors)
    modifies db
    ensures db.Valid()
    ensures GeneratedSoFar(t0, db.tables, user, ids, i + 1, documentType, now, results', errors')
  {
    results', errors' := results, errors;
    var caseId := ids[i];
    if caseId !in db.tables.cases {
      GenerateStepFailed(t0, db.tables, user, ids, i, documentType, now, results, errors);
      errors' := errors + [(caseId, "Case not found")];
      return;
    }
    var c := db.tables.cases[caseId];
    var pdf := DocumentGenerator.GenerateFromTemplate(documentType, Documents.CaseDataOf(db.tables, c));
    if pdf.Thrown? {
      GenerateStepFailed(t0, db.tables, user, ids, i, documentType, now, results, errors);
      errors' := errors + [(caseId, pdf.message)];
      return;
    }
    var d := BulkDocument(FreshId(db.tables.documents.Keys), user, caseId, c, documentType, now);
    GenerateStepMade(t0, db.tables, user, ids, i, documentType, now, results, errors, d);
    Documents.AddDocumentKeeps(db.tables, d);
    db.tables := db.tables.(documents := db.tables.documents[d.id := d]);
    results' := results + [d];
  }

  /** POST /bulk/documents/generate. */
  method BulkGenerate(db: Db, user: Principal, caseIds: Option<seq<Id>>, documentType: Option<string>, now: nat)
    returns (res: Response<GenerateReport>)
    requires db.Valid()
    modifies db
    ensures db.Valid()
    ensures !user.Firm? ==> res == Forbidden("Firm user access required")
    ensures user.Firm? && (caseIds.None? || caseIds.value == []) ==> res == BadRequest("Case IDs array is required")
    ensures user.Firm? && caseIds.Some? && caseIds.value != [] && !Truthy(documentType) ==>
      res == BadRequest("Document type is required")
    ensures res.Ok? || db.tables == old(db.tables)
    ensures res.Ok? <==> user.Firm? && caseIds.Some? && caseIds.value != [] && Truthy(documentType)
    ensures res.Ok? ==>
      GeneratedSoFar(old(db.tables), db.tables, user, caseIds.value, |caseIds.value|, documentType.value, now,
                     res.body.documents, res.body.errors)
  {
    var gate := RequireFirmUser(Some(user));
    if !gate.Ok? {
      return Relay(gate);
    }
    if caseIds.None? || caseIds.value == [] {
      return BadRequest("Case IDs array is required");
    }
    if !Truthy(documentType) {
      return BadRequest("Document type is required");
    }
    var ids, dt := caseIds.value, documentType.value;
    ghost var t0 := db.tables;
    var results: seq<Document> := [];
    var errors: seq<(Id, string)> := [];
    var i := 0;
    assert KeysOf([], DocumentKey) == {};
    while i < |ids|
      invariant db.Valid()
      invariant GeneratedSoFar(t0, db.tables, user, ids, i, dt, now, results, errors)
    {
      results, errors := GenerateFor(db, t0, user, ids, i, dt, now, results, errors);
      i := i + 1;
    }
    res := Ok(GenerateReport(results, errors));
  }

  // ---------------------------------------------------------------- status

  /** `updateMany({ where: { id: { in: ids } }, data: { status } })`. */
  function Restatus(cases: map<Id, Case>, ids: seq<Id>, status: string): map<Id, Case> {
    map k | k in cases :: if k in ids then cases[k].(status := status) else cases[k]
  }

  /** The rows `updateMany` matches; its count is the size of this set. */
  function Matched(cases: map<Id, Case>, ids: seq<Id>): set<Id> {
    set k | k in cases && k in ids
  }

  /** The update moves exactly the listed cases to the new status and
      touches no other column or row. */
  lemma RestatusOnlyMovesListed(cases: map<Id, Case>, ids: seq<Id>, status: string)
    ensures Restatus(cases, ids, status).Keys == cases.Keys
    ensures forall k :: k in cases ==>
      Restatus(cases, ids, status)[k].status == (if k in ids then status else cases[k].status) &&
      Restatus(cases, ids, status)[k] == cases[k].(status := Restatus(cases, ids, status)[k].status)
    ensures Count(Restatus(cases, ids, status), (c: Case) => c.status == status) >= |Matched(cases, ids)|
  {
    var a := Matched(cases, ids);
    var b := KeysWhere(Restatus(cases, ids, status), (c: Case) => c.status == status);
    assert a <= b;
    assert b == a + (b - a);
  }

  /** A sequence has no more distinct elements than entries. */
  lemma {:induction false} ElementsAtMostLength<T>(s: seq<T>)
    ensures |set x | x in s| <= |s|
  {
    if s != [] {
      ElementsAtMostLength(s[1..]);
      assert (set x | x in s) == {s[0]} + (set x | x in s[1..]);
    }
  }

  /** The reported count never exceeds the listed ids, and equals their
      number when they are distinct and all exist. */
  lemma UpdatedCount(cases: map<Id, Case>, ids: seq<Id>)
    ensures |Matched(cases, ids)| <= |ids|
    ensures Distinct(ids) && (forall j :: 0 <= j < |ids| ==> ids[j] in cases) ==> |Matched(cases, ids)| == |ids|
  {
    var a, b := Matched(cases, ids), set x | x in ids;
    assert a <= b;
    assert b == a + (b - a);
    ElementsAtMostLength(ids);
    if Distinct(ids) && (forall j :: 0 <= j < |ids| ==> ids[j] in cases) {
      assert Matched(cases, ids) == set x | x in ids;
      DistinctCard(ids);
    }
  }

  /** Changing statuses keeps the database consistent. */
  lemma RestatusKeeps(t: Tables, ids: seq<Id>, status: string)
    requires Consistent(t)
    ensures Consistent(t.(cases := Restatus(t.cases, ids, status)))
  {
    RestatusCaseRows(t.cases, ids, status, t.clients, t.properties, t.tenants);
    CasesSameKeysKeep(t, Restatus(t.cases, ids, status));
  }

  lemma RestatusCaseRows(cases: map<Id, Case>, ids: seq<Id>, status: string, clients: map<Id, MgmtClient>,
                         properties: map<Id, Property>, tenants: map<Id, Tenant>)
    requires CaseRows(cases, clients, properties, tenants)
    ensures Restatus(cases, ids, status).Keys == cases.Keys
    ensures CaseRows(Restatus(cases, ids, status), clients, properties, tenants)
  {
    var r := Restatus(cases, ids, status);
    forall k | k in r
      ensures r[k].id == k && r[k].clientId in clients && r[k].propertyId in properties
      ensures r[k].tenants == cases[k].tenants
    {
    }
  }

  /** The timeline entry written for each listed id. */
  function StatusEvent(id: Id, caseId: Id, status: string, now: int): CaseEvent {
    DoneEvent(id, caseId, "STATUS_CHANGED", "Status changed to " + status, "Bulk status update", now)
  }

  /** The events table after one entry per id of `xs`, in order. */
  function StatusEvents(m: map<Id, CaseEvent>, xs: seq<Id>, status: string, now: int): map<Id, CaseEvent> {
    if xs == [] then m
    else
      var e := StatusEvents(m, xs[..|xs| - 1], status, now);
      var id := FreshId(e.Keys);
      e[id := StatusEvent(id, xs[|xs| - 1], status, now)]
  }

  /** The bulk status entries of case `c`. */
  function StatusEntryOf(c: Id): CaseEvent -> bool {
    (e: CaseEvent) => e.caseId == c && e.eventType == "STATUS_CHANGED"
  }

  /** Each listed id gets its own entry, a repeated id one per repetition. */
  lemma {:induction false} StatusEventsPerId(m: map<Id, CaseEvent>, xs: seq<Id>, status: string, now: int, c: Id)
    ensures Count(StatusEvents(m, xs, status, now), StatusEntryOf(c)) == Count(m, StatusEntryOf(c)) + multiset(xs)[c]
  {
    if xs != [] {
      var init, last := xs[..|xs| - 1], xs[|xs| - 1];
      MultisetLast(xs, c);
      StatusEventsPerId(m, init, status, now, c);
      var e := StatusEvents(m, init, status, now);
      var id := FreshId(e.Keys);
      CountInsertFresh(e, StatusEntryOf(c), id, StatusEvent(id, last, status, now));
    }
  }

  lemma MultisetLast(xs: seq<Id>, c: Id)
    requires xs != []
    ensures multiset(xs)[c] == multiset(xs[..|xs| - 1])[c] + (if xs[|xs| - 1] == c then 1 else 0)
  {
    assert xs == xs[..|xs| - 1] + [xs[|xs| - 1]];
  }

  /** The events table grows by exactly one entry per listed id, and keeps
      every entry it had. */
  lemma {:induction false} StatusEventsGrow(m: map<Id, CaseEvent>, xs: seq<Id>, status: string, now: int)
    ensures |StatusEvents(m, xs, status, now)| == |m| + |xs|
    ensures forall k :: k in m ==> k in StatusEvents(m, xs, status, now) && StatusEvents(m, xs, status, now)[k] == m[k]
  {
    if xs != [] {
      StatusEventsGrow(m, xs[..|xs| - 1], status, now);
    }
  }

  /** Position `f` holds the first listed id that names no case. */
  predicate FirstUnknown(cases: map<Id, Case>, ids: seq<Id>, f: nat) {
    f < |ids| && ids[f] !in cases && forall j :: 0 <= j < f ==> ids[j] in cases
  }

  /** What a bulk status update answers. */
  datatype StatusReport = StatusReport(updated: nat, status: string)

  /** After the statuses are written (`t1`) and the entries of the first
      `i` ids have followed. */
  ghost predicate StatusSoFar(t0: Tables, t1: Tables, t: Tables, ids: seq<Id>, status: string, now: int, i: nat) {
    && i <= |ids|
    && t1.cases.Keys == t0.cases.Keys
    && t == t1.(events := t.events)
    && t.events == StatusEvents(t0.events, ids[..i], status, now)
    && forall j :: 0 <= j < i ==> ids[j] in t0.cases
  }

  /** The entries of one more id extend the table by that id's entry. */
  lemma StatusEventsSnoc(m: map<Id, CaseEvent>, ids: seq<Id>, i: nat, status: string, now: int)
    requires i < |ids|
    ensures var e := StatusEvents(m, ids[..i], status, now);
            StatusEvents(m, ids[..i + 1], status, now) == e[FreshId(e.Keys) := StatusEvent(FreshId(e.Keys), ids[i], status, now)]
  {
    assert ids[..i + 1][..i] == ids[..i];
  }

  lemma StatusStep(t0: Tables, t1: Tables, t: Tables, ids: seq<Id>, status: string, now: int, i: nat, e: CaseEvent)
    requires i < |ids| && StatusSoFar(t0, t1, t, ids, status, now, i) && ids[i] in t.cases
    requires e == StatusEvent(FreshId(t.events.Keys), ids[i], status, now)
    ensures StatusSoFar(t0, t1, t.(events := t.events[e.id := e]), ids, status, now, i + 1)
  {
    StatusEventsSnoc(t0.events, ids, i, status, now);
  }

  /** One id of the loop: its entry is written, or the handler fails on it. */
  method StatusFor(db: Db, ghost t0: Tables, ghost t1: Tables, ids: seq<Id>, i: nat, status: string, now: int)
    returns (written: bool)
    requires db.Valid() && i < |ids| && StatusSoFar(t0, t1, db.tables, ids, status, now, i)
    modifies db
    ensures db.Valid()
    ensures written ==> StatusSoFar(t0, t1, db.tables, ids, status, now, i + 1)
    ensures !written ==> FirstUnknown(t0.cases, ids, i) && db.tables == old(db.tables)
  {
    if ids[i] !in db.tables.cases {
      return false;
    }
    var e := StatusEvent(FreshId(db.tables.events.Keys), ids[i], status, now);
    AddEventKeeps(db.tables, e);
    StatusStep(t0, t1, db.tables, ids, status, now, i, e);
    db.tables := db.tables.(events := db.tables.events[e.id := e]);
    written := true;
  }

  /** What the handler leaves once its checks pass: the statuses written,
      then either every entry and the report, or 500 at the first unknown id
      with the entries before it. */
  ghost predicate StatusOutcome(t0: Tables, t: Tables, ids: seq<Id>, status: string, now: int, res: Response<StatusReport>) {
    && t == t0.(cases := Restatus(t0.cases, ids, status), events := t.events)
    && (res.Ok? <==> forall j :: 0 <= j < |ids| ==> ids[j] in t0.cases)
    && (res.Ok? ==> res.body == StatusReport(|Matched(t0.cases, ids)|, status)
                    && t.events == StatusEvents(t0.events, ids, status, now))
    && (!res.Ok? ==> res == ServerError("Failed to update case statuses")
                     && exists f: nat :: FirstUnknown(t0.cases, ids, f)
                                         && t.events == StatusEvents(t0.events, ids[..f], status, now))
  }

  /** POST /bulk/cases/status. The statuses are written first; the entries
      follow one id at a time, and an id naming no case fails its entry's
      foreign key, which ends the handler with 500 and keeps the statuses
      and the entries already written. */
  method BulkStatus(db: Db, user: Principal, caseIds: Option<seq<Id>>, status: Option<string>, now: int)
    returns (res: Response<StatusReport>)
    requires db.Valid()
    modifies db
    ensures db.Valid()
    ensures !user.Firm? ==> res == Forbidden("Firm user access required")
    ensures user.Firm? && (caseIds.None? || caseIds.value == []) ==> res == BadRequest("Case IDs array is required")
    ensures user.Firm? && caseIds.Some? && caseIds.value != [] && !Truthy(status) ==>
      res == BadRequest("Status is required")
    ensures !(user.Firm? && caseIds.Some? && caseIds.value != [] && Truthy(status)) ==> db.tables == old(db.tables)
    ensures user.Firm? && caseIds.Some? && caseIds.value != [] && Truthy(status) ==>
      StatusOutcome(old(db.tables), db.tables, caseIds.value, status.value, now, res)
  {
    var gate := RequireFirmUser(Some(user));
    if !gate.Ok? {
      return Relay(gate);
    }
    if caseIds.None? || caseIds.value == [] {
      return BadRequest("Case IDs array is required");
    }
    if !Truthy(status) {
      return BadRequest("Status is required");
    }
    var ids, s := caseIds.value, status.value;
    ghost var t0 := db.tables;
    var updated := |Matched(db.tables.cases, ids)|;
    RestatusKeeps(db.tables, ids, s);
    db.tables := db.tables.(cases := Restatus(db.tables.cases, ids, s));
    ghost var t1 := db.tables;
    var i := 0;
    while i < |ids|
      invariant db.Valid() && StatusSoFar(t0, t1, db.tables, ids, s, now, i)
    {
      var written := StatusFor(db, t0, t1, ids, i, s, now);
      if !written {
        res := ServerError("Failed to update case statuses");
        assert StatusOutcome(t0, db.tables, ids, s, now, res);
        return;
      }
      i := i + 1;
    }
    assert ids[..|ids|] == ids;
    res := Ok(StatusReport(updated, s));
  }
}
