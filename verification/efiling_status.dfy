/**
 * The e-filing status routes: the cases that have been filed with a court,
 * and the refresh that asks the court's e-filing provider for the status of
 * one filing and copies what it learns onto the case. Only firm principals
 * reach them.
 */
module EFilingStatus {
  import opened Common
  import opened Strings
  import opened Model
  import opened Store
  import opened Query
  import opened AuthMiddleware
  import opened EFilingService

  // ---------------------------------------------------------------- listing

  /** The columns the listing selects. */
  datatype FilingRow = FilingRow(
    id: Id, caseNumber: string, courtCaseNumber: Option<string>, court: Option<string>,
    status: string, filedDate: Option<int>, hearingDate: Option<int>)

  function FilingRowOf(c: Case): FilingRow {
    FilingRow(c.id, c.caseNumber, c.courtCaseNumber, c.court, c.status, c.filedDate, c.hearingDate)
  }

  /** A case on file with a court: it has a court case number and is filed
      or awaiting its hearing; a non-empty `court` narrows to that court. */
  predicate OnFile(court: Option<string>, c: Case) {
    && c.courtCaseNumber.Some?
    && (c.status == "FILED" || c.status == "HEARING_SCHEDULED")
    && (Truthy(court) ==> c.court == Some(court.value))
  }

  /** Newest filing first; PostgreSQL puts cases without a filing date
      before every dated one in descending order. */
  function FiledNewestFirst(c: Case): Key {
    if c.filedDate.Some? then [Num(1), Num(-c.filedDate.value)] else [Num(0)]
  }

  /** GET /efiling/status. */
  method ListFilingStatus(db: Db, user: Principal, court: Option<string>) returns (res: Response<seq<FilingRow>>)
    ensures !user.Firm? ==> res == Forbidden("Firm user access required")
    ensures user.Firm? ==> res.Ok?
    ensures res.Ok? ==> exists rows ::
      && IsListing(rows, db.tables.cases, (c: Case) => OnFile(court, c), FiledNewestFirst)
      && res.body == MapAll(rows, FilingRowOf)
  {
    var gate := RequireFirmUser(Some(user));
    if !gate.Ok? {
      return Relay(gate);
    }
    var rows := Select(db.tables.cases, (c: Case) => OnFile(court, c), FiledNewestFirst);
    res := Ok(MapAll(rows, FilingRowOf));
  }

  /** Every listed row is a filing: it carries a court case number and one
      of the two filed statuses. */
  lemma ListedRowsAreFiled(t: Tables, court: Option<string>, rows: seq<Case>)
    requires IsListing(rows, t.cases, (c: Case) => OnFile(court, c), FiledNewestFirst)
    ensures forall i :: 0 <= i < |rows| ==>
      var r := MapAll(rows, FilingRowOf)[i];
      r.courtCaseNumber.Some? && (r.status == "FILED" || r.status == "HEARING_SCHEDULED")
  {
    forall i | 0 <= i < |rows|
      ensures MapAll(rows, FilingRowOf)[i].courtCaseNumber.Some?
      ensures MapAll(rows, FilingRowOf)[i].status in {"FILED", "HEARING_SCHEDULED"}
    {
      assert rows[i] in rows;
    }
  }

  // ---------------------------------------------------------------- refresh

  /** The columns a refresh writes: each present only when it is set. */
  datatype CaseUpdate = CaseUpdate(hearingDate: Option<int>, status: Option<string>)

  predicate EmptyUpdate(u: CaseUpdate) {
    u.hearingDate.None? && u.status.None?
  }

  /** The case status a court status maps to, when the court reports a
      status other than the case's own: accepted or filed means FILED, any
      status mentioning a hearing means HEARING_SCHEDULED, and anything
      else leaves the status alone. */
  function MappedStatus(courtStatus: Option<string>, current: string): (r: Option<string>)
    ensures r.Some? ==> Truthy(courtStatus) && courtStatus.value != current
    ensures r.Some? ==> r.value == "FILED" || r.value == "HEARING_SCHEDULED"
    ensures Truthy(courtStatus) && courtStatus.value != current && courtStatus.value in {"ACCEPTED", "FILED"} ==>
      r == Some("FILED")
    ensures r == Some("HEARING_SCHEDULED") <==>
      Truthy(courtStatus) && courtStatus.value != current &&
      courtStatus.value != "ACCEPTED" && courtStatus.value != "FILED" && Contains(courtStatus.value, "HEARING")
  {
    if Truthy(courtStatus) && courtStatus.value != current then
      if courtStatus.value == "ACCEPTED" || courtStatus.value == "FILED" then Some("FILED")
      else if Contains(courtStatus.value, "HEARING") then Some("HEARING_SCHEDULED")
      else None
    else None
  }

  /** What a status answer asks to change on a case: the hearing date the
      court reports, and the mapped status. */
  function UpdateFor(c: Case, s: StatusResult): (u: CaseUpdate)
    ensures u.hearingDate == s.hearingDate
    ensures u.status.Some? ==> Truthy(s.status) && s.status.value != c.status
    ensures u.status.Some? ==> u.status.value == "FILED" || u.status.value == "HEARING_SCHEDULED"
  {
    CaseUpdate(if s.hearingDate.Some? then s.hearingDate else None, MappedStatus(s.status, c.status))
  }

  /** The case after an update: the columns the update sets replaced, every
      other column kept. */
  function Apply(c: Case, u: CaseUpdate): (r: Case)
    ensures r.hearingDate == (if u.hearingDate.Some? then u.hearingDate else c.hearingDate)
    ensures r.status == (if u.status.Some? then u.status.value else c.status)
    ensures r.(hearingDate := c.hearingDate, status := c.status) == c
    ensures EmptyUpdate(u) ==> r == c
  {
    c.(hearingDate := if u.hearingDate.Some? then u.hearingDate else c.hearingDate,
       status := if u.status.Some? then u.status.value else c.status)
  }

  /** Refreshing twice against the same court answer changes nothing the
      first refresh did not: the second update leaves the case as it is. */
  lemma {:induction false} RefreshSettles(c: Case, s: StatusResult)
    ensures var c1 := Apply(c, UpdateFor(c, s)); Apply(c1, UpdateFor(c1, s)) == c1
  {
    var c1 := Apply(c, UpdateFor(c, s));
    var m := MappedStatus(s.status, c.status);
    if m.Some? {
      assert c1.status == m.value;
      var m1 := MappedStatus(s.status, c1.status);
      assert m1.Some? ==> m1 == m by {
        if m1.Some? && m.value == "HEARING_SCHEDULED" {
          assert s.status.value != "ACCEPTED" && s.status.value != "FILED";
        }
      }
    }
  }

  /** The response's `updated` flag reports that something was written, not
      that the case changed: a filed case whose court answers 'ACCEPTED' is
      written with the status it already has. */
  lemma UpdatedWithoutChange(c: Case)
    requires c.status == "FILED"
    ensures var s := StatusResult(Some("ACCEPTED"), None, None, None);
            !EmptyUpdate(UpdateFor(c, s)) && Apply(c, UpdateFor(c, s)) == c
  {
  }

  /** What a refresh answers. */
  datatype Refreshed = Refreshed(status: Option<string>, hearingDate: Option<int>, errors: Option<seq<string>>, updated: bool)

  /** POST /efiling/cases/:caseId/refresh-status: 400 unless the case was
      filed with a court, credentials with an API key were sent and the
      court is configured; otherwise the court is asked for the status of
      the court case number and the case updated when the answer asks for
      it. */
  method RefreshStatus(db: Db, user: Principal, caseId: Id, credentials: Option<Body>, get: string -> StatusReply)
    returns (res: Response<Refreshed>)
    requires db.Valid()
    modifies db
    ensures db.Valid()
    ensures !user.Firm? ==> res == Forbidden("Firm user access required")
    ensures !res.Ok? ==> db.tables == old(db.tables)
    ensures user.Firm? &&
            !(caseId in old(db.tables.cases) && Truthy(old(db.tables.cases)[caseId].courtCaseNumber) &&
              Truthy(old(db.tables.cases)[caseId].court)) ==>
      res == BadRequest("Case not filed or court information missing")
    ensures user.Firm? && caseId in old(db.tables.cases) &&
            Truthy(old(db.tables.cases)[caseId].courtCaseNumber) && Truthy(old(db.tables.cases)[caseId].court) ==>
      var c := old(db.tables.cases)[caseId];
      && (!(credentials.Some? && Present(credentials.value, "apiKey")) ==> res == BadRequest("E-filing credentials required"))
      && (credentials.Some? && Present(credentials.value, "apiKey") && CourtConfigFor(c.court.value).None? ==>
            res == BadRequest("E-filing not configured for this court"))
      && (credentials.Some? && Present(credentials.value, "apiKey") && CourtConfigFor(c.court.value).Some? ==>
            var s := CheckFilingStatus(c.courtCaseNumber.value, get);
            var u := UpdateFor(c, s);
            && res == Ok(Refreshed(s.status, s.hearingDate, s.errors, !EmptyUpdate(u)))
            && db.tables == old(db.tables).(cases := old(db.tables.cases)[caseId := Apply(c, u)]))
  {
    var gate := RequireFirmUser(Some(user));
    if !gate.Ok? {
      return Relay(gate);
    }
    if caseId !in db.tables.cases || !Truthy(db.tables.cases[caseId].courtCaseNumber) ||
       !Truthy(db.tables.cases[caseId].court) {
      return BadRequest("Case not filed or court information missing");
    }
    var c := db.tables.cases[caseId];
    if credentials.None? || !Present(credentials.value, "apiKey") {
      return BadRequest("E-filing credentials required");
    }
    var svc := GetEFilingService(c.court.value, credentials.value);
    if svc.None? {
      return BadRequest("E-filing not configured for this court");
    }
    var s := CheckFilingStatus(c.courtCaseNumber.value, get);
    var u := UpdateFor(c, s);
    WriteUpdate(db, c, u);
    res := Ok(Refreshed(s.status, s.hearingDate, s.errors, !EmptyUpdate(u)));
  }

  /** `prisma.case.update` with the update, issued only when it sets a column. */
  method WriteUpdate(db: Db, c: Case, u: CaseUpdate)
    requires db.Valid() && c.id in db.tables.cases && db.tables.cases[c.id] == c
    modifies db
    ensures db.Valid()
    ensures db.tables == old(db.tables).(cases := old(db.tables.cases)[c.id := Apply(c, u)])
  {
    if EmptyUpdate(u) {
      assert db.tables.cases[c.id := c] == db.tables.cases;
    } else {
      var c1 := Apply(c, u);
      ReplaceCaseKeeps(db.tables, c1);
      db.tables := db.tables.(cases := db.tables.cases[c.id := c1]);
    }
  }
}
