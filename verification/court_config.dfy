/**
 * The court-configuration routes: reading the fixed table of e-filing
 * courts, one court at a time or all of them, and the form that would add
 * a court. Only firm principals with LAW_FIRM_ADMIN reach them. The table
 * is a constant: posting a court validates it and echoes it back, and
 * nothing is stored.
 */
module CourtConfigRoutes {
  import opened Common
  import opened Strings
  import opened Model
  import opened AuthMiddleware
  import opened EFilingService

  /** `authenticate`, `requireFirmUser`, then `authorize('LAW_FIRM_ADMIN')`. */
  function AdminGate(user: Principal): (r: Response<()>)
    ensures r.Ok? <==> user.Firm? && user.role == "LAW_FIRM_ADMIN"
    ensures !user.Firm? ==> r == Forbidden("Firm user access required")
    ensures user.Firm? && user.role != "LAW_FIRM_ADMIN" ==> r == Forbidden("Insufficient permissions")
  {
    var firm := RequireFirmUser(Some(user));
    if !firm.Ok? then firm else Authorize(Some(user), ["LAW_FIRM_ADMIN"])
  }

  /** A court as the routes answer it: its configuration under its name,
      with the listing's positional id when it has one. */
  datatype CourtEntry = CourtEntry(id: Option<string>, name: string, config: CourtConfig)

  /** The listing's id for the court at position `i`. */
  function CourtId(i: nat): string {
    "court-" + NatToString(i)
  }

  /** Two positions never share an id. */
  lemma CourtIdsDistinct(i: nat, j: nat)
    ensures CourtId(i) == CourtId(j) <==> i == j
  {
    if CourtId(i) == CourtId(j) {
      var p := "court-";
      assert NatToString(i) == CourtId(i)[|p|..];
      assert NatToString(j) == CourtId(j)[|p|..];
      NatToStringValue(i);
      NatToStringValue(j);
    }
  }

  /** The court names of the table are pairwise distinct. */
  lemma CourtNamesDistinct()
    ensures forall i, j :: 0 <= i < j < |CourtList()| ==> CourtList()[i].0 != CourtList()[j].0
  {
  }

  /** GET /court-config: every configured court, in the table's order. */
  function ListCourtConfigs(user: Principal): (r: Response<seq<CourtEntry>>)
    ensures !user.Firm? ==> r == Forbidden("Firm user access required")
    ensures user.Firm? && user.role != "LAW_FIRM_ADMIN" ==> r == Forbidden("Insufficient permissions")
    ensures r.Ok? <==> AdminGate(user).Ok?
    ensures r.Ok? ==> |r.body| == |CourtList()|
    ensures r.Ok? ==> forall i :: 0 <= i < |r.body| ==>
      r.body[i] == CourtEntry(Some(CourtId(i)), CourtList()[i].0, CourtList()[i].1)
  {
    var gate := AdminGate(user);
    if !gate.Ok? then Relay(gate)
    else
      var xs := CourtList();
      Ok(seq(|xs|, i requires 0 <= i < |xs| => CourtEntry(Some(CourtId(i)), xs[i].0, xs[i].1)))
  }

  /** GET /court-config/:courtName: the configuration of a configured court,
      404 for any other name. */
  function GetCourtConfig(user: Principal, courtName: string): (r: Response<CourtEntry>)
    ensures !user.Firm? ==> r == Forbidden("Firm user access required")
    ensures user.Firm? && user.role != "LAW_FIRM_ADMIN" ==> r == Forbidden("Insufficient permissions")
    ensures AdminGate(user).Ok? && CourtConfigFor(courtName).None? ==> r == NotFound("Court configuration not found")
    ensures AdminGate(user).Ok? && CourtConfigFor(courtName).Some? ==>
      r == Ok(CourtEntry(None, courtName, CourtConfigFor(courtName).value))
  {
    var gate := AdminGate(user);
    if !gate.Ok? then Relay(gate)
    else match CourtConfigFor(courtName)
      case None => NotFound("Court configuration not found")
      case Some(cfg) => Ok(CourtEntry(None, courtName, cfg))
  }

  /** The listing and the single reads agree: every listed court is found
      by its name with the same configuration, and each id names one court. */
  lemma ListingAgreesWithReads(user: Principal)
    requires AdminGate(user).Ok?
    ensures forall i :: 0 <= i < |ListCourtConfigs(user).body| ==>
      var e := ListCourtConfigs(user).body[i];
      GetCourtConfig(user, e.name) == Ok(e.(id := None))
    ensures forall i, j :: 0 <= i < j < |ListCourtConfigs(user).body| ==>
      ListCourtConfigs(user).body[i].id != ListCourtConfigs(user).body[j].id
  {
    var xs := CourtList();
    CourtNamesDistinct();
    forall i | 0 <= i < |xs|
      ensures CourtConfigFor(xs[i].0) == Some(xs[i].1)
    {
      var c := CourtConfigFor(xs[i].0);
      assert c.Some?;
      var k :| 0 <= k < |xs| && xs[k] == (xs[i].0, c.value);
      assert k == i;
    }
    forall i, j | 0 <= i < j < |xs| ensures CourtId(i) != CourtId(j) {
      CourtIdsDistinct(i, j);
    }
  }

  /** What POST /court-config echoes back. */
  datatype Echo = Echo(message: string, name: Value, provider: Value, apiUrl: Value, requiresAuth: Value)

  /** POST /court-config: 400 unless the court name, the provider and the
      URL are all present; otherwise the court is echoed back, a missing or
      falsy `requiresAuth` reading false. The table is left as it is. */
  function PostCourtConfig(user: Principal, body: Body): (r: Response<Echo>)
    ensures !user.Firm? ==> r == Forbidden("Firm user access required")
    ensures user.Firm? && user.role != "LAW_FIRM_ADMIN" ==> r == Forbidden("Insufficient permissions")
    ensures AdminGate(user).Ok? ==>
      (r.Ok? <==> Present(body, "courtName") && Present(body, "provider") && Present(body, "apiUrl"))
    ensures AdminGate(user).Ok? && !r.Ok? ==> r == BadRequest("Court name, provider, and API URL are required")
    ensures r.Ok? ==>
      && r.body.message == "Court configuration would be saved (implement database storage)"
      && r.body.name == body["courtName"] && r.body.provider == body["provider"] && r.body.apiUrl == body["apiUrl"]
      && r.body.requiresAuth == (if Present(body, "requiresAuth") then body["requiresAuth"] else VBool(false))
  {
    var gate := AdminGate(user);
    if !gate.Ok? then Relay(gate)
    else if !Present(body, "courtName") || !Present(body, "provider") || !Present(body, "apiUrl") then
      BadRequest("Court name, provider, and API URL are required")
    else
      Ok(Echo("Court configuration would be saved (implement database storage)",
              body["courtName"], body["provider"], body["apiUrl"],
              if Present(body, "requiresAuth") then body["requiresAuth"] else VBool(false)))
  }
}
