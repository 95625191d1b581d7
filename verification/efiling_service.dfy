/**
 * The e-filing service: the table of courts that accept electronic filing,
 * the choice of provider adapter, the filing packet built from a case, the
 * payload each adapter sends, and how each adapter reads the provider's
 * reply. The HTTP calls themselves are parameters: `post` and `get` map a
 * request path (and payload) to what the provider answered or the error the
 * call raised.
 */
module EFilingService {
  import opened Common
  import opened Strings
  import opened Model
  import opened Store
  import opened Query

  // ---------------------------------------------------------------- courts

  datatype CourtConfig = CourtConfig(provider: string, apiUrl: string, requiresAuth: bool)

  /** `COURT_CONFIGS`, in the order its keys are listed. */
  function CourtList(): seq<(string, CourtConfig)> {
    [("Essex County Superior Court", CourtConfig("tyler-odyssey", "https://efile.essexcourts.nj.gov", true)),
     ("Hudson County Superior Court", CourtConfig("tyler-odyssey", "https://efile.hudsoncourts.nj.gov", true)),
     ("Bergen County Superior Court", CourtConfig("file-servexpress", "https://api.fileservexpress.com", true))]
  }

  /** The configuration listed under `court`: the first entry of that name. */
  function Lookup(xs: seq<(string, CourtConfig)>, court: string): (r: Option<CourtConfig>)
    ensures r.None? <==> forall i :: 0 <= i < |xs| ==> xs[i].0 != court
    ensures r.Some? ==> exists i :: 0 <= i < |xs| && xs[i] == (court, r.value) && forall j :: 0 <= j < i ==> xs[j].0 != court
  {
    if xs == [] then None
    else if xs[0].0 == court then Some(xs[0].1)
    else
      var r := Lookup(xs[1..], court);
      assert forall i :: 1 <= i < |xs| ==> xs[i] == xs[1..][i - 1];
      r
  }

  /** `COURT_CONFIGS[court]`. */
  function CourtConfigFor(court: string): (r: Option<CourtConfig>)
    ensures r.None? <==> forall i :: 0 <= i < |CourtList()| ==> CourtList()[i].0 != court
    ensures r.Some? ==> exists i :: 0 <= i < |CourtList()| && CourtList()[i] == (court, r.value)
  {
    Lookup(CourtList(), court)
  }

  /** Every configured court is one of the three listed, each with a
      provider that has its own adapter and with authentication required. */
  lemma ConfiguredCourts(court: string)
    ensures CourtConfigFor(court).Some? <==>
      court in {"Essex County Superior Court", "Hudson County Superior Court", "Bergen County Superior Court"}
    ensures CourtConfigFor(court).Some? ==>
      && CourtConfigFor(court).value.provider in {"tyler-odyssey", "file-servexpress"}
      && CourtConfigFor(court).value.requiresAuth
  {
    var xs := CourtList();
    if CourtConfigFor(court).Some? {
      var i :| 0 <= i < |xs| && xs[i] == (court, CourtConfigFor(court).value);
    } else {
      assert xs[0].0 != court && xs[1].0 != court && xs[2].0 != court;
    }
  }

  // ---------------------------------------------------------------- service

  /** The adapter a provider name selects. */
  datatype Adapter = TylerOdyssey | FileServeXpress | CustomProvider

  /** The `switch` of `submitFiling`: the two named providers have their own
      adapter and every other name falls to the custom one. */
  function AdapterFor(provider: string): (a: Adapter)
    ensures a.TylerOdyssey? <==> provider == "tyler-odyssey"
    ensures a.FileServeXpress? <==> provider == "file-servexpress"
    ensures a.CustomProvider? <==> provider != "tyler-odyssey" && provider != "file-servexpress"
  {
    match provider
    case "tyler-odyssey" => TylerOdyssey
    case "file-servexpress" => FileServeXpress
    case _ => CustomProvider
  }

  /** An `EFilingService`: its provider and the configuration its client
      was built from. */
  datatype Service = Service(provider: string, config: Body)

  /** `getEFilingService`: no service for a court without configuration;
      otherwise the configured provider, with the court's URL under every
      credential field (the credentials are spread last, so a credential
      `apiUrl` wins). */
  function GetEFilingService(court: string, credentials: Body): (r: Option<Service>)
    ensures r.None? <==> CourtConfigFor(court).None?
    ensures r.Some? ==>
      && r.value.provider == CourtConfigFor(court).value.provider
      && r.value.config.Keys == credentials.Keys + {"apiUrl"}
      && (forall k :: k in credentials ==> r.value.config[k] == credentials[k])
      && ("apiUrl" !in credentials ==> r.value.config["apiUrl"] == VStr(CourtConfigFor(court).value.apiUrl))
  {
    match CourtConfigFor(court)
    case None => None
    case Some(cfg) =>
      Some(Service(cfg.provider, map["apiUrl" := VStr(cfg.apiUrl)] + credentials))
  }

  /** The `Authorization` header: the API key when it is a non-empty text,
      nothing after 'Bearer ' otherwise. */
  function Authorization(config: Body): (h: string)
    ensures StartsWith(h, "Bearer ")
    ensures Truthy(Model.Str(config, "apiKey")) ==> h == "Bearer " + Model.Str(config, "apiKey").value
    ensures !Truthy(Model.Str(config, "apiKey")) ==> h == "Bearer "
  {
    "Bearer " + OrElse(Model.Str(config, "apiKey"), "")
  }

  // ---------------------------------------------------------------- packet

  datatype PartyEntry = PartyEntry(name: string, role: string, partyType: string)

  datatype PacketDoc = PacketDoc(docType: string, path: string, name: string)

  /** What `prepareFilingPacket` assembles from a case. */
  datatype Packet = Packet(
    caseType: string, jurisdiction: string, court: Option<string>, parties: seq<PartyEntry>,
    documents: seq<PacketDoc>, amountOwed: Option<int>, reason: string, filedDate: string)

  /** The document types a packet carries. */
  predicate FilingDocType(t: string) {
    t == "COMPLAINT" || t == "COVER_SHEET" || t == "FILING_FEE_WAIVER"
  }

  function PacketDocOf(d: Document): PacketDoc {
    PacketDoc(d.docType, d.filePath, d.name)
  }

  /** The tenants of the case as defendants, in the order they are linked. */
  function Defendants(tenants: map<Id, Tenant>, links: seq<CaseTenant>): (ps: seq<PartyEntry>)
    requires forall i :: 0 <= i < |links| ==> links[i].tenantId in tenants
    ensures |ps| == |links|
    ensures forall i :: 0 <= i < |links| ==>
      var t := tenants[links[i].tenantId];
      ps[i] == PartyEntry(t.firstName + " " + t.lastName, "DEFENDANT", "INDIVIDUAL")
  {
    if links == [] then []
    else
      var t := tenants[links[0].tenantId];
      [PartyEntry(t.firstName + " " + t.lastName, "DEFENDANT", "INDIVIDUAL")] + Defendants(tenants, links[1..])
  }

  /** The parties of a filing: the property as plaintiff, then every tenant
      as a defendant. */
  function Parties(t: Tables, c: Case): (ps: seq<PartyEntry>)
    requires c.propertyId in t.properties
    requires forall i :: 0 <= i < |c.tenants| ==> c.tenants[i].tenantId in t.tenants
    ensures |ps| == 1 + |c.tenants|
    ensures ps[0] == PartyEntry(t.properties[c.propertyId].name, "PLAINTIFF", "ORGANIZATION")
    ensures forall i :: 1 <= i < |ps| ==> ps[i].role == "DEFENDANT" && ps[i].partyType == "INDIVIDUAL"
  {
    [PartyEntry(t.properties[c.propertyId].name, "PLAINTIFF", "ORGANIZATION")] + Defendants(t.tenants, c.tenants)
  }

  /** A case has exactly one plaintiff in its filing. */
  lemma OnePlaintiff(t: Tables, c: Case)
    requires c.propertyId in t.properties
    requires forall i :: 0 <= i < |c.tenants| ==> c.tenants[i].tenantId in t.tenants
    ensures forall i :: 0 <= i < |Parties(t, c)| ==> (Parties(t, c)[i].role == "PLAINTIFF" <==> i == 0)
  {
  }

  /** Documents listed in primary-key order. */
  function DocumentIdOrder(d: Document): Key {
    [Query.Str(d.id)]
  }

  /** What `prepareFilingPacket` settles with. */
  datatype Prepared = Ready(packet: Packet) | PrepareFailed(message: string)

  /** The packet of case `c` with its filing documents `docs`: the case's
      type, court and claim, and its parties. */
  function PacketOf(t: Tables, c: Case, docs: seq<PacketDoc>, filedDate: string): (p: Packet)
    requires c.propertyId in t.properties
    requires forall i :: 0 <= i < |c.tenants| ==> c.tenants[i].tenantId in t.tenants
    ensures p.parties == Parties(t, c) && p.documents == docs && p.filedDate == filedDate
    ensures p.caseType == c.caseType && p.jurisdiction == c.jurisdiction && p.court == c.court
    ensures p.amountOwed == c.amountOwed && p.reason == c.reason
  {
    Packet(c.caseType, c.jurisdiction, c.court, Parties(t, c), docs, c.amountOwed, c.reason, filedDate)
  }

  /** The documents of case `caseId` a packet carries, in id order. */
  ghost predicate FilingListing(t: Tables, caseId: Id, rows: seq<Document>) {
    IsListing(rows, t.documents, (d: Document) => d.caseId == caseId && FilingDocType(d.docType), DocumentIdOrder)
  }

  /** `prepareFilingPacket`: 'Case not found' for an unknown case; otherwise
      the packet of the case with its filing documents. `filedDate` stands
      for the ISO rendering of the clock. */
  method PrepareFilingPacket(db: Db, caseId: Id, filedDate: string) returns (r: Prepared)
    requires db.Valid()
    ensures caseId !in db.tables.cases ==> r == PrepareFailed("Case not found")
    ensures caseId in db.tables.cases ==> r.Ready?
    ensures r.Ready? ==>
      var c := db.tables.cases[caseId];
      && c.propertyId in db.tables.properties
      && (forall i :: 0 <= i < |c.tenants| ==> c.tenants[i].tenantId in db.tables.tenants)
      && exists rows :: FilingListing(db.tables, caseId, rows)
                        && r.packet == PacketOf(db.tables, c, MapAll(rows, PacketDocOf), filedDate)
  {
    if caseId !in db.tables.cases {
      return PrepareFailed("Case not found");
    }
    var c := db.tables.cases[caseId];
    assert c == db.tables.cases[c.id];
    var rows := Select(db.tables.documents, (d: Document) => d.caseId == caseId && FilingDocType(d.docType), DocumentIdOrder);
    assert FilingListing(db.tables, caseId, rows);
    r := Ready(PacketOf(db.tables, c, MapAll(rows, PacketDocOf), filedDate));
  }

  /** A packet never carries a document of another type or another case. */
  lemma PacketDocumentsFiltered(t: Tables, caseId: Id, rows: seq<Document>)
    requires IsListing(rows, t.documents, (d: Document) => d.caseId == caseId && FilingDocType(d.docType), DocumentIdOrder)
    ensures forall i :: 0 <= i < |rows| ==> FilingDocType(MapAll(rows, PacketDocOf)[i].docType)
  {
    forall i | 0 <= i < |rows| ensures FilingDocType(MapAll(rows, PacketDocOf)[i].docType) {
      assert rows[i] in rows;
    }
  }

  // ---------------------------------------------------------------- payloads

  datatype TylerParty = TylerParty(name: string, role: string, partyType: string)

  datatype TylerDocument = TylerDocument(documentType: string, fileName: string, filePath: string)

  /** The body each adapter posts. */
  datatype Payload =
    | TylerFiling(court: Option<string>, caseType: string, tylerParties: seq<TylerParty>,
                  tylerDocuments: seq<TylerDocument>, filingDate: string)
    | ServeXpressFiling(courtCode: Option<string>, caseType: string, parties: seq<PartyEntry>,
                        documents: seq<PacketDoc>, filingDate: string)
    | RawPacket(packet: Packet)

  function TylerPartyOf(p: PartyEntry): TylerParty {
    TylerParty(p.name, p.role, p.partyType)
  }

  function TylerDocumentOf(d: PacketDoc): TylerDocument {
    TylerDocument(d.docType, d.name, d.path)
  }

  /** The path each adapter posts to. */
  function Endpoint(a: Adapter): string {
    if a.TylerOdyssey? then "/api/v1/filings" else "/api/filings"
  }

  /** The payload of each adapter: Tyler Odyssey renames every field, File
      & ServeXpress renames the top level, the custom provider gets the
      packet itself. Each keeps the parties and documents in order. */
  function PayloadFor(a: Adapter, p: Packet): (r: Payload)
    ensures a.TylerOdyssey? ==>
      && r.TylerFiling? && r.court == p.court && r.caseType == p.caseType && r.filingDate == p.filedDate
      && |r.tylerParties| == |p.parties| && |r.tylerDocuments| == |p.documents|
      && (forall i :: 0 <= i < |p.parties| ==>
            r.tylerParties[i] == TylerParty(p.parties[i].name, p.parties[i].role, p.parties[i].partyType))
      && (forall i :: 0 <= i < |p.documents| ==>
            r.tylerDocuments[i] == TylerDocument(p.documents[i].docType, p.documents[i].name, p.documents[i].path))
    ensures a.FileServeXpress? ==> r == ServeXpressFiling(p.court, p.caseType, p.parties, p.documents, p.filedDate)
    ensures a.CustomProvider? ==> r == RawPacket(p)
  {
    match a
    case TylerOdyssey =>
      TylerFiling(p.court, p.caseType, MapAll(p.parties, TylerPartyOf), MapAll(p.documents, TylerDocumentOf), p.filedDate)
    case FileServeXpress => ServeXpressFiling(p.court, p.caseType, p.parties, p.documents, p.filedDate)
    case CustomProvider => RawPacket(p)
  }

  // ---------------------------------------------------------------- replies

  /** What an HTTP call settles with: the reply's data, or the error raised
      (with its message, possibly empty). */
  datatype Reply = Replied(data: Body) | Raised(message: string)

  function Field(b: Body, k: string): Option<Value> {
    if k in b then Some(b[k]) else None
  }

  /** JavaScript `a || b` on reply fields. */
  function OrValue(a: Option<Value>, b: Option<Value>): Option<Value> {
    if a.Some? && TruthyValue(a.value) then a else b
  }

  /** The four fields an adapter reads from the provider's reply. */
  datatype ProviderFields = ProviderFields(caseNumber: Option<Value>, filingId: Option<Value>,
                                           hearingDate: Option<Value>, fees: Option<Value>)

  /** How each adapter reads the reply: Tyler Odyssey's capitalised names,
      File & ServeXpress's snake_case names, and for the custom provider the
      camelCase name, falling back to the snake_case one when that is falsy
      (fees fall back to `filingFees`). */
  function ReadReply(a: Adapter, data: Body): (r: ProviderFields)
    ensures a.TylerOdyssey? ==> r == ProviderFields(Field(data, "CaseNumber"), Field(data, "FilingId"),
                                                    Field(data, "HearingDate"), Field(data, "FilingFees"))
    ensures a.FileServeXpress? ==> r == ProviderFields(Field(data, "case_number"), Field(data, "filing_id"),
                                                       Field(data, "hearing_date"), Field(data, "fees"))
    ensures a.CustomProvider? ==>
      && (Field(data, "caseNumber").Some? && TruthyValue(data["caseNumber"]) ==> r.caseNumber == Field(data, "caseNumber"))
      && (!(Field(data, "caseNumber").Some? && TruthyValue(data["caseNumber"])) ==> r.caseNumber == Field(data, "case_number"))
      && (Field(data, "fees").Some? && TruthyValue(data["fees"]) ==> r.fees == Field(data, "fees"))
      && (!(Field(data, "fees").Some? && TruthyValue(data["fees"])) ==> r.fees == Field(data, "filingFees"))
  {
    match a
    case TylerOdyssey =>
      ProviderFields(Field(data, "CaseNumber"), Field(data, "FilingId"), Field(data, "HearingDate"), Field(data, "FilingFees"))
    case FileServeXpress =>
      ProviderFields(Field(data, "case_number"), Field(data, "filing_id"), Field(data, "hearing_date"), Field(data, "fees"))
    case CustomProvider =>
      ProviderFields(OrValue(Field(data, "caseNumber"), Field(data, "case_number")),
                     OrValue(Field(data, "filingId"), Field(data, "filing_id")),
                     OrValue(Field(data, "hearingDate"), Field(data, "hearing_date")),
                     OrValue(Field(data, "fees"), Field(data, "filingFees")))
  }

  /** What `submitFiling` answers: never an exception. */
  datatype SubmitResult = SubmitResult(
    success: bool, courtCaseNumber: Option<Value>, filingId: Option<Value>,
    hearingDate: Option<Value>, fees: Option<Value>, error: Option<string>)

  /** The failure answer: the error's message, or a fixed text when the
      message is empty. */
  function SubmitFailure(message: string): (r: SubmitResult)
    ensures !r.success && r.error.Some? && r.error.value != ""
    ensures message != "" ==> r.error == Some(message)
  {
    SubmitResult(false, None, None, None, None, Some(if message != "" then message else "Failed to submit filing"))
  }

  /** The success answer built from the fields an adapter read; a falsy
      hearing date is dropped. */
  function SubmitSuccess(f: ProviderFields): (r: SubmitResult)
    ensures r.success && r.error.None?
    ensures r.courtCaseNumber == f.caseNumber && r.filingId == f.filingId && r.fees == f.fees
    ensures r.hearingDate.Some? <==> f.hearingDate.Some? && TruthyValue(f.hearingDate.value)
  {
    var hearing := if f.hearingDate.Some? && TruthyValue(f.hearingDate.value) then f.hearingDate else None;
    SubmitResult(true, f.caseNumber, f.filingId, hearing, f.fees, None)
  }

  /** `submitFiling`: the packet is prepared, posted through the adapter the
      provider selects, and the reply read; an unknown case or a failed call
      becomes a failure answer. */
  method SubmitFiling(db: Db, svc: Service, caseId: Id, filedDate: string, post: (string, Payload) -> Reply)
    returns (r: SubmitResult)
    requires db.Valid()
    ensures caseId !in db.tables.cases ==> r == SubmitFailure("Case not found")
    ensures r.success ==> caseId in db.tables.cases && r.error.None?
    ensures !r.success ==> r.error.Some? && r.error.value != ""
    ensures caseId in db.tables.cases ==>
      var c := db.tables.cases[caseId];
      var a := AdapterFor(svc.provider);
      && c.propertyId in db.tables.properties
      && (forall i :: 0 <= i < |c.tenants| ==> c.tenants[i].tenantId in db.tables.tenants)
      && exists rows :: FilingListing(db.tables, caseId, rows) &&
           match post(Endpoint(a), PayloadFor(a, PacketOf(db.tables, c, MapAll(rows, PacketDocOf), filedDate)))
           case Raised(m) => r == SubmitFailure(m)
           case Replied(data) => r == SubmitSuccess(ReadReply(a, data))
  {
    var prepared := PrepareFilingPacket(db, caseId, filedDate);
    if prepared.PrepareFailed? {
      return SubmitFailure(prepared.message);
    }
    var p := prepared.packet;
    ghost var rows :| FilingListing(db.tables, caseId, rows)
                      && p == PacketOf(db.tables, db.tables.cases[caseId], MapAll(rows, PacketDocOf), filedDate);
    var a := AdapterFor(svc.provider);
    var reply := post(Endpoint(a), PayloadFor(a, p));
    match reply
    case Raised(m) =>
      r := SubmitFailure(m);
    case Replied(data) =>
      r := SubmitSuccess(ReadReply(a, data));
  }

  // ---------------------------------------------------------------- status and fees

  /** The data of a status reply, or the error the call raised. */
  datatype StatusReply =
    | StatusData(status: Option<string>, caseNumber: Option<string>, hearingDate: Option<int>, errors: Option<seq<string>>)
    | StatusRaised(message: string)

  datatype StatusResult = StatusResult(
    status: Option<string>, courtCaseNumber: Option<string>, hearingDate: Option<int>, errors: Option<seq<string>>)

  /** `checkFilingStatus`: the provider's fields (a falsy hearing date
      dropped), or status 'ERROR' with the error's message. */
  function CheckFilingStatus(filingId: string, get: string -> StatusReply): (r: StatusResult)
    ensures get("/api/filings/" + filingId + "/status").StatusRaised? ==>
      r == StatusResult(Some("ERROR"), None, None, Some([get("/api/filings/" + filingId + "/status").message]))
    ensures get("/api/filings/" + filingId + "/status").StatusData? ==>
      var d := get("/api/filings/" + filingId + "/status");
      && r.status == d.status && r.courtCaseNumber == d.caseNumber && r.errors == d.errors
      && r.hearingDate == (if NumTruthy(d.hearingDate) then d.hearingDate else None)
  {
    match get("/api/filings/" + filingId + "/status")
    case StatusRaised(m) => StatusResult(Some("ERROR"), None, None, Some([m]))
    case StatusData(s, n, h, e) => StatusResult(s, n, if NumTruthy(h) then h else None, e)
  }

  datatype Fees = Fees(filingFee: int, serviceFee: int, totalFee: int)

  /** A numeric reply field: other kinds of value are not read as fees. */
  function NumField(b: Body, k: string): Option<int> {
    if k in b && b[k].VNum? then Some(b[k].n) else None
  }

  /** JavaScript `a || d` on numbers. */
  function NumOrElse(a: Option<int>, d: int): int {
    if NumTruthy(a) then a.value else d
  }

  /** The fees `getFilingFees` quotes when the court answers: each fee reads
      the camelCase field and falls back to the snake_case one, but the
      total adds only the camelCase fields. */
  function FeesAsWritten(data: Body): (f: Fees)
    ensures f.filingFee == NumOrElse(NumField(data, "filingFee"), NumOrElse(NumField(data, "filing_fee"), 0))
    ensures f.serviceFee == NumOrElse(NumField(data, "serviceFee"), NumOrElse(NumField(data, "service_fee"), 0))
    ensures f.totalFee == NumOrElse(NumField(data, "filingFee"), 0) + NumOrElse(NumField(data, "serviceFee"), 0)
  {
    Fees(NumOrElse(NumField(data, "filingFee"), NumOrElse(NumField(data, "filing_fee"), 0)),
         NumOrElse(NumField(data, "serviceFee"), NumOrElse(NumField(data, "service_fee"), 0)),
         NumOrElse(NumField(data, "filingFee"), 0) + NumOrElse(NumField(data, "serviceFee"), 0))
  }

  /** A court that answers in snake_case gets a total of 0 beside non-zero fees. */
  lemma SnakeCaseFeesNotTotalled()
    ensures var f := FeesAsWritten(map["filing_fee" := VNum(5000), "service_fee" := VNum(500)]);
            f.filingFee == 5000 && f.serviceFee == 500 && f.totalFee == 0
  {
    var data := map["filing_fee" := VNum(5000), "service_fee" := VNum(500)];
    assert NumField(data, "filingFee") == None && NumField(data, "serviceFee") == None;
  }

  /** The fees as evidently meant: the total is the sum of the two fees
      quoted, whichever spelling the court used. */
  function QuotedFees(data: Body): (f: Fees)
    ensures f.filingFee == FeesAsWritten(data).filingFee && f.serviceFee == FeesAsWritten(data).serviceFee
    ensures f.totalFee == f.filingFee + f.serviceFee
  {
    var w := FeesAsWritten(data);
    Fees(w.filingFee, w.serviceFee, w.filingFee + w.serviceFee)
  }

  /** The two readings agree whenever the court uses the camelCase names. */
  lemma FeesAgreeOnCamelCase(data: Body)
    requires NumTruthy(NumField(data, "filingFee")) && NumTruthy(NumField(data, "serviceFee"))
    ensures QuotedFees(data) == FeesAsWritten(data)
  {
  }

  /** `getFilingFees`: the court's quote, or 75.00 + 5.00 = 80.00 dollars (in cents) when the call fails. */
  function GetFilingFees(court: string, caseType: string, get: (string, string) -> Reply): (f: Fees)
    ensures get("/api/courts/" + court + "/fees", caseType).Raised? ==> f == Fees(7500, 500, 8000)
    ensures get("/api/courts/" + court + "/fees", caseType).Replied? ==>
      f == FeesAsWritten(get("/api/courts/" + court + "/fees", caseType).data)
  {
    match get("/api/courts/" + court + "/fees", caseType)
    case Raised(_) => Fees(7500, 500, 8000)
    case Replied(data) => FeesAsWritten(data)
  }

  /** `formatDocumentsForCourt`: every document kept, in order, as PDF. */
  function FormatDocumentsForCourt(documents: seq<PacketDoc>): (r: seq<(string, string)>)
    ensures |r| == |documents|
    ensures forall i :: 0 <= i < |r| ==> r[i] == (documents[i].path, "PDF")
  {
    MapAll(documents, (d: PacketDoc) => (d.path, "PDF"))
  }
}
