/**
 * The e-filing routes as they stand: a fixed list of courts, a mock filing
 * that gives the case a court case number, a filed status and a hearing
 * thirty days out, a read of the filing columns of a case, and fixed fees.
 * Only firm principals reach them. `now` is the clock in milliseconds.
 */
module EFilingRoutes {
  import opened Common
  import opened Strings
  import opened Model
  import opened Store
  import opened AuthMiddleware
  import opened Cases
  import EFilingStatus

  /** A court offered for e-filing. */
  datatype Court = Court(id: string, name: string, jurisdiction: string, efilingAvailable: bool,
                         efilingProvider: string, efilingUrl: string)

  /** GET /efiling/courts: the one court the routes offer. */
  function ListCourts(user: Principal): (r: Response<seq<Court>>)
    ensures !user.Firm? ==> r == Forbidden("Firm user access required")
    ensures user.Firm? ==> r.Ok? && |r.body| == 1 && r.body[0].name == "Essex County Superior Court"
    ensures r.Ok? ==> forall i :: 0 <= i < |r.body| ==> r.body[i].efilingAvailable
  {
    var gate := RequireFirmUser(Some(user));
    if !gate.Ok? then Relay(gate)
    else Ok([Court("essex-nj", "Essex County Superior Court", "Essex County, NJ", true,
                   "Tyler Odyssey", "https://efile.essexcourts.nj.gov")])
  }

  /** The mock court case number: 'ESX-' and the clock. */
  function MockCourtCaseNumber(now: nat): (n: string)
    ensures StartsWith(n, "ESX-") && |n| > 4
  {
    "ESX-" + NatToString(now)
  }

  /** Filings at different instants get different court case numbers. */
  lemma MockNumbersDistinct(a: nat, b: nat)
    ensures MockCourtCaseNumber(a) == MockCourtCaseNumber(b) <==> a == b
  {
    if MockCourtCaseNumber(a) == MockCourtCaseNumber(b) {
      assert NatToString(a) == MockCourtCaseNumber(a)[4..];
      assert NatToString(b) == MockCourtCaseNumber(b)[4..];
      NatToStringValue(a);
      NatToStringValue(b);
    }
  }

  /** The case after the mock filing. */
  function Filed(c: Case, now: nat): (r: Case)
    ensures r.courtCaseNumber == Some(MockCourtCaseNumber(now)) && r.status == "FILED"
    ensures r.filedDate == Some(now) && r.hearingDate == Some(now + 30 * DayMs)
    ensures r.(courtCaseNumber := c.courtCaseNumber, status := c.status, filedDate := c.filedDate,
               hearingDate := c.hearingDate) == c
  {
    c.(courtCaseNumber := Some(MockCourtCaseNumber(now)), status := "FILED", filedDate := Some(now),
       hearingDate := Some(now + 30 * DayMs))
  }

  /** The event the mock filing records. */
  function FilingEvent(id: Id, caseId: Id, now: nat): (e: CaseEvent)
    ensures e.caseId == caseId && e.eventType == "FILED" && e.isCompleted && e.eventDate == Some(now)
    ensures e.description.Some? && Contains(e.description.value, MockCourtCaseNumber(now))
  {
    var pre := "Case filed via e-filing. Court case number: ";
    var n := MockCourtCaseNumber(now);
    assert OccursAt(pre + n, n, |pre|);
    DoneEvent(id, caseId, "FILED", "Case Filed Electronically", pre + n, now)
  }

  /** What the mock filing answers. */
  datatype Filing = Filing(message: string, courtCaseNumber: string, hearingDate: int, filedCase: Case)

  /** POST /efiling/cases/:caseId/file: 404 for an unknown case; otherwise
      the case is marked filed with a mock court case number and a hearing
      thirty days out, and a completed FILED event is recorded. */
  method FileCase(db: Db, user: Principal, caseId: Id, now: nat) returns (res: Response<Filing>)
    requires db.Valid()
    modifies db
    ensures db.Valid()
    ensures !user.Firm? ==> res == Forbidden("Firm user access required")
    ensures user.Firm? && caseId !in old(db.tables.cases) ==> res == NotFound("Case not found")
    ensures !res.Ok? ==> db.tables == old(db.tables)
    ensures res.Ok? <==> user.Firm? && caseId in old(db.tables.cases)
    ensures res.Ok? ==>
      var c := Filed(old(db.tables.cases)[caseId], now);
      var eid := FreshId(old(db.tables.events).Keys);
      && res.body == Filing("Case filed successfully (mock)", MockCourtCaseNumber(now), now + 30 * DayMs, c)
      && db.tables == old(db.tables).(cases := old(db.tables.cases)[caseId := c],
                                      events := old(db.tables.events)[eid := FilingEvent(eid, caseId, now)])
  {
    var gate := RequireFirmUser(Some(user));
    if !gate.Ok? {
      return Relay(gate);
    }
    if caseId !in db.tables.cases {
      return NotFound("Case not found");
    }
    var c := Filed(db.tables.cases[caseId], now);
    assert db.tables.cases[caseId] == db.tables.cases[db.tables.cases[caseId].id];
    ReplaceCaseKeeps(db.tables, c);
    db.tables := db.tables.(cases := db.tables.cases[caseId := c]);
    var eid := FreshId(db.tables.events.Keys);
    var e := FilingEvent(eid, caseId, now);
    AddEventKeeps(db.tables, e);
    db.tables := db.tables.(events := db.tables.events[eid := e]);
    res := Ok(Filing("Case filed successfully (mock)", MockCourtCaseNumber(now), now + 30 * DayMs, c));
  }

  /** A case filed through the mock shows in the e-filing status listing,
      unfiltered and filtered by its own court, and carries what a status
      refresh needs except possibly a court. */
  lemma FiledCaseIsOnFile(c: Case, now: nat)
    ensures EFilingStatus.OnFile(None, Filed(c, now))
    ensures Truthy(c.court) ==> EFilingStatus.OnFile(c.court, Filed(c, now))
    ensures Truthy(Filed(c, now).courtCaseNumber)
  {
  }

  /** The filing columns GET /efiling/cases/:caseId/status reads back. */
  datatype FilingStatus = FilingStatus(
    caseId: Id, courtCaseNumber: Option<string>, status: string, filedDate: Option<int>,
    hearingDate: Option<int>, lastChecked: int)

  /** GET /efiling/cases/:caseId/status: the stored columns, checked at `now`. */
  function CaseFilingStatus(t: Tables, user: Principal, caseId: Id, now: int): (r: Response<FilingStatus>)
    ensures !user.Firm? ==> r == Forbidden("Firm user access required")
    ensures user.Firm? && caseId !in t.cases ==> r == NotFound("Case not found")
    ensures r.Ok? <==> user.Firm? && caseId in t.cases
    ensures r.Ok? ==>
      && r.body.courtCaseNumber == t.cases[caseId].courtCaseNumber && r.body.status == t.cases[caseId].status
      && r.body.filedDate == t.cases[caseId].filedDate && r.body.hearingDate == t.cases[caseId].hearingDate
      && r.body.lastChecked == now
  {
    var gate := RequireFirmUser(Some(user));
    if !gate.Ok? then Relay(gate)
    else if caseId !in t.cases then NotFound("Case not found")
    else
      var c := t.cases[caseId];
      Ok(FilingStatus(caseId, c.courtCaseNumber, c.status, c.filedDate, c.hearingDate, now))
  }

  /** Reading the status right after a mock filing gives back what the
      filing answered. */
  lemma StatusReadsBackFiling(t: Tables, user: Principal, caseId: Id, now: nat, later: int)
    requires user.Firm? && caseId in t.cases
    ensures var t1 := t.(cases := t.cases[caseId := Filed(t.cases[caseId], now)]);
            var r := CaseFilingStatus(t1, user, caseId, later);
            && r.Ok? && r.body.courtCaseNumber == Some(MockCourtCaseNumber(now))
            && r.body.status == "FILED" && r.body.hearingDate == Some(now + 30 * DayMs)
  {
  }

  /** What GET /efiling/courts/:courtId/fees answers: amounts in cents. */
  datatype QuotedFees = QuotedFees(courtId: string, filingFee: int, serviceFee: int, totalFee: int, currency: string)

  /** GET /efiling/courts/:courtId/fees: the same fixed fees for every court. */
  function CourtFees(user: Principal, courtId: string): (r: Response<QuotedFees>)
    ensures !user.Firm? ==> r == Forbidden("Firm user access required")
    ensures user.Firm? ==> r.Ok? && r.body.courtId == courtId && r.body.currency == "USD"
    ensures r.Ok? ==> r.body.totalFee == r.body.filingFee + r.body.serviceFee && r.body.filingFee == 7500
  {
    var gate := RequireFirmUser(Some(user));
    if !gate.Ok? then Relay(gate)
    else Ok(QuotedFees(courtId, 7500, 500, 8000, "USD"))
  }
}
