/**
 * The entities of the eviction case-management store, the authenticated
 * principal and the HTTP outcome of a route handler.
 *
 * Dates are milliseconds since the epoch. Money is integer cents. Status,
 * role and type values are strings: the routes write whatever string they
 * are given.
 */
module Model {
  import opened Common
  import opened Strings

  /** One day in milliseconds. */
  const DayMs: int := 86400000

  /** The user `authenticate` attaches to a request. A firm principal carries
      a law firm and no client; a client principal carries a client and no
      law firm. */
  datatype Principal =
    | Firm(id: Id, lawFirmId: Id, role: string)
    | Client(id: Id, clientId: Id, role: string)
  {
    function UserType(): string {
      if Firm? then "firm" else "client"
    }
  }

  /** What a route handler answers. `ServerError` is the catch-all 500 a
      handler sends when a database call throws. */
  datatype Response<T> =
    | Ok(body: T)
    | Created(body: T)
    | BadRequest(error: string)
    | Unauthorized(error: string)
    | Forbidden(error: string)
    | NotFound(error: string)
    | ServerError(error: string)
  {
    predicate Success() {
      Ok? || Created?
    }
  }

  /** A JSON value of a request body. */
  datatype Value = VStr(s: string) | VNum(n: int) | VBool(b: bool) | VNull

  /** A JSON request body. */
  type Body = map<string, Value>

  /** Body field read as a string: absent or non-string fields are `undefined`. */
  function Str(b: Body, k: string): Option<string> {
    if k in b && b[k].VStr? then Some(b[k].s) else None
  }

  /** Body field read as a number. */
  function Num(b: Body, k: string): Option<int> {
    if k in b && b[k].VNum? then Some(b[k].n) else None
  }

  /** JavaScript truthiness of a body field. */
  predicate TruthyValue(v: Value) {
    match v
    case VStr(s) => s != ""
    case VNum(n) => n != 0
    case VBool(b) => b
    case VNull => false
  }

  predicate Present(b: Body, k: string) {
    k in b && TruthyValue(b[k])
  }

  datatype LawFirm = LawFirm(
    id: Id, name: string, address: Option<string>, phone: Option<string>,
    email: Option<string>, logoUrl: Option<string>)

  datatype FirmUser = FirmUser(
    id: Id, email: string, passwordHash: string, firstName: string, lastName: string,
    role: string, lawFirmId: Id, isActive: bool, lastLogin: Option<int>)

  /** A property-management company, the law firm's client. */
  datatype MgmtClient = MgmtClient(
    id: Id, name: string, primaryContact: Option<string>, email: Option<string>,
    phone: Option<string>, address: Option<string>, lawFirmId: Id)

  datatype ClientUser = ClientUser(
    id: Id, email: string, passwordHash: string, firstName: string, lastName: string,
    role: string, clientId: Id, isActive: bool, lastLogin: Option<int>)

  // The three tables a property-management sync upserts by natural key store
  // their rows without an id field: the key of the table's map is the id.

  /** A rental property of a client. */
  datatype Property = Property(
    externalId: Option<string>, name: string, address: string, city: string,
    state: string, zipCode: string, county: string, jurisdiction: string,
    clientId: Id, lastSynced: int)

  datatype Unit = Unit(
    externalId: Option<string>, unitNumber: string, propertyId: Id, lastSynced: int)

  /** A tenant as the property-management system reports it. The balance is
      kept as the text the system sent. */
  datatype Tenant = Tenant(
    externalId: Option<string>, firstName: string, lastName: string,
    email: Option<string>, phone: Option<string>, propertyId: Option<Id>,
    unitId: Option<Id>, clientId: Id, currentBalance: string,
    leaseStartDate: Option<string>, leaseEndDate: Option<string>,
    isActive: bool, lastSynced: int)

  /** The natural key of a property, `@@unique([externalId, clientId])`; a
      row without an external id is not constrained. */
  function PropertyKey(p: Property): Option<(string, Id)> {
    if p.externalId.Some? then Some((p.externalId.value, p.clientId)) else None
  }

  /** The natural key of a unit, `@@unique([externalId, propertyId])`. */
  function UnitKey(u: Unit): Option<(string, Id)> {
    if u.externalId.Some? then Some((u.externalId.value, u.propertyId)) else None
  }

  /** The natural key of a tenant, `@@unique([externalId, clientId])`. */
  function TenantKey(t: Tenant): Option<(string, Id)> {
    if t.externalId.Some? then Some((t.externalId.value, t.clientId)) else None
  }

  /** The `determineJurisdiction` formula both adapters share:
      `${county} County, ${state}`.trim(). */
  function CountyJurisdiction(county: string, state: string): string {
    Trim(county + " County, " + state)
  }

  /** With both parts missing the jurisdiction is "County,". */
  lemma JurisdictionOfNothing()
    ensures CountyJurisdiction("", "") == "County,"
  {
    assert "" + " County, " + "" == " County, ";
    LeadingSpaceDropped();
    TrailingSpaceDropped();
  }

  lemma LeadingSpaceDropped()
    ensures TrimStart(" County, ") == "County, "
  {
    var s := " County, ";
    assert s[1..] == "County, ";
    assert !IsSpace('C');
  }

  lemma TrailingSpaceDropped()
    ensures TrimEnd("County, ") == "County,"
  {
    var s := "County, ";
    assert s[..|s| - 1] == "County,";
    assert !IsSpace(',');
  }

  /** An unpadded county and state are joined unchanged. */
  lemma JurisdictionOfPlainParts(county: string, state: string)
    requires county != "" && !IsSpace(county[0])
    requires state != "" && !IsSpace(state[|state| - 1])
    ensures CountyJurisdiction(county, state) == county + " County, " + state
  {
    var s := county + " County, " + state;
    assert s[0] == county[0];
    assert s[|s| - 1] == state[|state| - 1];
    TrimUnpadded(s);
  }

  /** A missing state leaves the county followed by " County,". */
  lemma JurisdictionWithoutState(county: string)
    requires county != "" && !IsSpace(county[0])
    ensures CountyJurisdiction(county, "") == county + " County,"
  {
    var s := county + " County, " + "";
    var u := county + " County,";
    assert s[..|s| - 1] == u && s[|s| - 1] == ' ';
    assert TrimEnd(s) == TrimEnd(u);
    assert u[|u| - 1] == ',';
    assert TrimEnd(u) == u;
    assert TrimStart(s) == s by { assert s[0] == county[0]; }
  }

  /** A row of the case/tenant join table. */
  datatype CaseTenant = CaseTenant(tenantId: Id, isPrimary: bool)

  datatype Case = Case(
    id: Id, caseNumber: string, clientId: Id, propertyId: Id, tenants: seq<CaseTenant>,
    caseType: string, reason: string, amountOwed: Option<int>, monthsOwed: Option<int>,
    jurisdiction: string, court: Option<string>, caresActCompliant: bool,
    rentControlStatus: Option<string>, noticeServedDate: Option<int>,
    assignedAttorneyId: Option<Id>, status: string, courtCaseNumber: Option<string>,
    filedDate: Option<int>, hearingDate: Option<int>, judgmentDate: Option<int>,
    writIssuedDate: Option<int>, closedDate: Option<int>, serviceDate: Option<int>,
    createdAt: int)

  datatype CaseEvent = CaseEvent(
    id: Id, caseId: Id, eventType: string, title: string, description: Option<string>,
    eventDate: Option<int>, dueDate: Option<int>, isCompleted: bool)

  datatype Comment = Comment(
    id: Id, caseId: Id, content: string, isInternal: bool, firmUserId: Option<Id>,
    clientUserId: Option<Id>, authorType: string, createdAt: int)

  datatype Document = Document(
    id: Id, caseId: Id, docType: string, name: string, filePath: string,
    mimeType: string, isGenerated: bool, templateId: Option<Id>,
    uploadedById: Option<Id>, uploadedByClientId: Option<Id>,
    approvalRequired: bool, approvalStatus: Option<string>, approvedAt: Option<int>,
    approvedById: Option<Id>, rejectionReason: Option<string>, createdAt: int)

  datatype Template = Template(
    id: Id, name: string, templateType: string, jurisdiction: string, version: int,
    templatePath: string, mergeFields: Option<string>, isActive: bool)

  /** Connection settings and sync bookkeeping for one client's property-management system. */
  datatype Integration = Integration(
    id: Id, clientId: Id, integrationType: string, status: string,
    apiKey: Option<string>, apiSecret: Option<string>, apiUrl: Option<string>,
    sftpHost: Option<string>, sftpPort: Option<int>, sftpUser: Option<string>,
    sftpPassword: Option<string>, sftpPath: Option<string>,
    lastSyncAt: Option<int>, lastSyncStatus: Option<string>, lastSyncError: Option<string>,
    createdAt: int)

  datatype AuditLog = AuditLog(
    id: Id, userId: Id, userType: string, firmUserId: Option<Id>, action: string,
    entityType: string, entityId: Id, details: Option<Body>)

  datatype FirmSettings = FirmSettings(
    id: Id, lawFirmId: Id, defaultNotificationEmail: Option<string>,
    syncSchedule: string, dataRetentionYears: int, brandingLogo: Option<string>)

  /** The scope rule of every case-owned read: a client principal only
      reaches rows of its own client; a firm principal is not narrowed. */
  predicate InClientScope(user: Principal, clientId: Id) {
    user.Client? ==> user.clientId == clientId
  }

  /** The audit row every audited handler writes: the firm user id is
      filled in only for firm principals. */
  function Audit(id: Id, user: Principal, action: string, entityType: string,
                 entityId: Id, details: Option<Body>): (a: AuditLog)
    ensures a.firmUserId.Some? <==> user.Firm?
    ensures a.userId == user.id && a.userType == user.UserType()
  {
    AuditLog(id, user.id, user.UserType(), if user.Firm? then Some(user.id) else None,
             action, entityType, entityId, details)
  }
}
