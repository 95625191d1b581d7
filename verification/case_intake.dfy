/**
 * The case intake wizard of the front end: four steps (property and
 * tenants, case details, jurisdiction, review), each left only when its
 * required fields are filled in, and the create request sent from the
 * review step. The network is left to the caller: a properties request is
 * recorded by its `clientId` parameter, and answers arrive through
 * `PropertiesLoaded` and `Finished`.
 */
module CaseIntake {
  import opened Common
  import opened Model
  import Selection
  import Cases

  /** A property of the selection list. */
  datatype PropertyOption = PropertyOption(id: string, name: string, address: string, jurisdiction: Option<string>)

  /** The case types the details step offers. */
  const CaseTypes: set<string> := {"NON_PAYMENT", "HOLDOVER", "VIOLATION", "OTHER"}

  /** How a create request ended: the new case's id, or the server's error
      message when it sent one. */
  datatype Outcome = Accepted(caseId: string) | Rejected(message: Option<string>)

  /** The `clientId` parameter of a properties request: only a non-empty
      client id is sent. */
  function ClientParam(clientId: string): (p: Option<string>)
    ensures p.Some? <==> clientId != ""
    ensures p.Some? ==> p.value == clientId
  {
    if clientId != "" then Some(clientId) else None
  }

  /** The properties request a client selection sends, as written: the
      handler calls `fetchProperties` right after `setClientId`, and the
      fetch reads the client id of the render that created it, i.e. the
      one selected before. */
  function RefetchAsWritten(previous: string, chosen: string): (p: Option<string>)
    ensures p.Some? <==> previous != ""
    ensures p.Some? ==> p.value == previous
  {
    ClientParam(previous)
  }

  /** Choosing a first client lists the properties of every client of the
      firm, and choosing a second one lists those of the first. */
  lemma StaleClientFilter()
    ensures RefetchAsWritten("", "c1") == None
    ensures RefetchAsWritten("c1", "c2") == Some("c1")
  {
  }

  /** The properties request of a client selection as intended: it asks
      for the chosen client's properties. */
  function Refetch(previous: string, chosen: string): (p: Option<string>)
    ensures chosen != "" ==> p == Some(chosen)
    ensures chosen == "" ==> p.None?
  {
    ClientParam(chosen)
  }

  /** Whenever the choice changes to a client, the request as written asks
      for something other than the intended one. */
  lemma StaleWhenChanged(previous: string, chosen: string)
    requires chosen != "" && previous != chosen
    ensures RefetchAsWritten(previous, chosen) != Refetch(previous, chosen)
  {
  }

  /** `properties.find(p => p.id === value)`: the first property with the
      id, if any. */
  function FindProperty(ps: seq<PropertyOption>, value: string): (r: Option<PropertyOption>)
    ensures r.None? <==> forall i :: 0 <= i < |ps| ==> ps[i].id != value
    ensures r.Some? ==> r.value.id == value
    ensures r.Some? ==> exists i :: 0 <= i < |ps| && ps[i] == r.value && (forall j :: 0 <= j < i ==> ps[j].id != value)
  {
    if ps == [] then None
    else if ps[0].id == value then Some(ps[0])
    else
      var r := FindProperty(ps[1..], value);
      if r.Some? then
        ghost var i :| 0 <= i < |ps[1..]| && ps[1..][i] == r.value && forall j :: 0 <= j < i ==> ps[1..][j].id != value;
        assert ps[i + 1] == r.value && forall j :: 0 <= j < i + 1 ==> ps[j].id != value;
        r
      else
        r
  }

  class IntakeForm {
    var step: int
    var loading: bool
    var error: string
    var clientId: string
    var propertyId: string
    var tenantIds: seq<string>
    var caseType: string
    var reason: string
    var amountOwed: string
    var monthsOwed: string
    var jurisdiction: string
    var court: string
    var caresActCompliant: bool
    var noticeServedDate: string
    /** The property list offered in step 1. */
    var properties: seq<PropertyOption>
    /** The `clientId` parameter of every properties request sent, in order. */
    var propertyRequests: seq<Option<string>>
    /** Where the page navigated after a successful create. */
    var navigatedTo: Option<string>

    /** The step stays in 1..4, and every step past one has the fields its
        predecessors required. */
    predicate Valid()
      reads this
    {
      && 1 <= step <= 4
      && caseType in CaseTypes
      && (step >= 2 ==> propertyId != "" && |tenantIds| > 0)
      && (step >= 3 ==> reason != "")
      && (step == 4 ==> jurisdiction != "")
    }

    /** The page opens on step 1. A client user's client is preset and its
        properties requested (still with the empty client id of the first
        render); a firm user picks a client first. */
    constructor(user: Option<Principal>)
      ensures Valid() && step == 1 && !loading && error == "" && navigatedTo.None?
      ensures propertyId == "" && tenantIds == [] && caseType == "NON_PAYMENT" && reason == ""
      ensures user.Some? && user.value.Client? ==> clientId == user.value.clientId && propertyRequests == [None]
      ensures !(user.Some? && user.value.Client?) ==> clientId == "" && propertyRequests == []
    {
      step := 1;
      loading := false;
      error := "";
      propertyId := "";
      tenantIds := [];
      caseType := "NON_PAYMENT";
      reason := "";
      amountOwed := "";
      monthsOwed := "";
      jurisdiction := "";
      court := "";
      caresActCompliant := false;
      noticeServedDate := "";
      properties := [];
      navigatedTo := None;
      if user.Some? && user.value.Client? {
        clientId := user.value.clientId;
        propertyRequests := [ClientParam("")];
      } else {
        clientId := "";
        propertyRequests := [];
      }
    }

    /** A firm user picks a client in step 1, and properties are requested
        with the client id selected before, as the page's handler does. */
    method SelectClient(chosen: string)
      requires Valid() && step == 1
      modifies this`clientId, this`propertyRequests
      ensures Valid()
      ensures clientId == chosen
      ensures propertyRequests == old(propertyRequests) + [RefetchAsWritten(old(clientId), chosen)]
      ensures old(clientId) == "" ==> propertyRequests[|propertyRequests| - 1].None?
      ensures old(clientId) != "" ==> propertyRequests[|propertyRequests| - 1] == Some(old(clientId))
    {
      propertyRequests := propertyRequests + [RefetchAsWritten(clientId, chosen)];
      clientId := chosen;
    }

    /** The answer to a properties request. */
    method PropertiesLoaded(ps: seq<PropertyOption>)
      requires Valid()
      modifies this`properties
      ensures Valid() && properties == ps
    {
      properties := ps;
    }

    /** Choosing a property in step 1 sets its id and its jurisdiction, or
        the empty one; choosing the placeholder changes nothing. The ticked
        tenants are kept. */
    method SelectProperty(value: string)
      requires Valid() && step == 1
      modifies this`propertyId, this`jurisdiction
      ensures Valid() && step == 1
      ensures FindProperty(properties, value).None? ==>
        propertyId == old(propertyId) && jurisdiction == old(jurisdiction)
      ensures FindProperty(properties, value).Some? ==>
        propertyId == value && jurisdiction == OrElse(FindProperty(properties, value).value.jurisdiction, "")
    {
      var p := FindProperty(properties, value);
      if p.Some? {
        propertyId := p.value.id;
        jurisdiction := OrElse(p.value.jurisdiction, "");
      }
    }

    /** Ticking a tenant's box, offered once a property is chosen. */
    method ToggleTenant(id: string)
      requires Valid() && step == 1 && propertyId != ""
      modifies this`tenantIds
      ensures Valid() && step == 1
      ensures tenantIds == Selection.Toggle(old(tenantIds), id)
    {
      tenantIds := Selection.Toggle(tenantIds, id);
    }

    /** The reason field of step 2. */
    method SetReason(v: string)
      requires Valid() && step == 2
      modifies this`reason
      ensures Valid() && step == 2 && reason == v
    {
      reason := v;
    }

    /** The other fields of step 2: the case type from its list, and the
        amount, months, notice date and CARES Act box as typed. */
    method SetDetails(t: string, amount: string, months: string, noticeDate: string, cares: bool)
      requires Valid() && step == 2 && t in CaseTypes
      modifies this`caseType, this`amountOwed, this`monthsOwed, this`noticeServedDate, this`caresActCompliant
      ensures Valid() && step == 2
      ensures caseType == t && amountOwed == amount && monthsOwed == months
      ensures noticeServedDate == noticeDate && caresActCompliant == cares
    {
      caseType := t;
      amountOwed := amount;
      monthsOwed := months;
      noticeServedDate := noticeDate;
      caresActCompliant := cares;
    }

    /** The jurisdiction and court fields of step 3. */
    method SetJurisdiction(j: string, c: string)
      requires Valid() && step == 3
      modifies this`jurisdiction, this`court
      ensures Valid() && step == 3 && jurisdiction == j && court == c
    {
      jurisdiction := j;
      court := c;
    }

    /** Whether the Next button of the current step is enabled. */
    predicate CanAdvance()
      reads this
    {
      if step == 1 then propertyId != "" && |tenantIds| > 0
      else if step == 2 then reason != ""
      else step == 3 && jurisdiction != ""
    }

    /** The Next button of steps 1 to 3: one step on when enabled. */
    method Next()
      requires Valid() && 1 <= step <= 3
      modifies this`step
      ensures Valid()
      ensures step == if old(CanAdvance()) then old(step) + 1 else old(step)
    {
      if CanAdvance() {
        step := step + 1;
      }
    }

    /** The Back button of steps 2 to 4: exactly one step back. */
    method Back()
      requires Valid() && 2 <= step <= 4
      modifies this`step
      ensures Valid() && step == old(step) - 1
    {
      step := step - 1;
    }

    /** The body the review step sends: a client user's own client, the
        typed amount, months and notice date parsed, an empty one sent as
        null. `amount`, `months` and `date` stand for `parseFloat`,
        `parseInt` and the server's reading of a date; a parse that fails
        gives null as well. */
    function Payload(user: Option<Principal>, amount: string -> Option<int>, months: string -> Option<int>,
                     date: string -> Option<int>): (b: Cases.NewCase)
      reads this
      ensures user.Some? && user.value.Client? ==> b.clientId == Some(user.value.clientId)
      ensures !(user.Some? && user.value.Client?) ==> b.clientId == Some(clientId)
      ensures b.propertyId == Some(propertyId) && b.tenantIds == Some(tenantIds) && b.caseType == Some(caseType)
      ensures b.reason == Some(reason) && b.jurisdiction == Some(jurisdiction) && b.court == Some(court)
      ensures amountOwed == "" ==> b.amountOwed.None?
      ensures amountOwed != "" ==> b.amountOwed == amount(amountOwed)
      ensures monthsOwed == "" ==> b.monthsOwed.None?
      ensures noticeServedDate == "" ==> b.noticeServedDate.None?
      ensures b.caresActCompliant == Some(caresActCompliant)
    {
      Cases.NewCase(
        if user.Some? && user.value.Client? then Some(user.value.clientId) else Some(clientId),
        Some(propertyId), Some(tenantIds), Some(caseType), Some(reason),
        if amountOwed != "" then amount(amountOwed) else None,
        if monthsOwed != "" then months(monthsOwed) else None,
        Some(jurisdiction), Some(court), Some(caresActCompliant), None,
        if noticeServedDate != "" then date(noticeServedDate) else None,
        None)
    }

    /** The Create Case button of the review step, disabled while a request
        is out: the error is cleared and the body sent. */
    method Submit(user: Option<Principal>, amount: string -> Option<int>, months: string -> Option<int>,
                  date: string -> Option<int>) returns (body: Cases.NewCase)
      requires Valid() && step == 4 && !loading
      modifies this`error, this`loading
      ensures Valid() && step == 4 && loading && error == ""
      ensures body == Payload(user, amount, months, date)
    {
      error := "";
      loading := true;
      body := Payload(user, amount, months, date);
    }

    /** The end of a create request: the new case's page, or the server's
        error message, "Failed to create case" without one. */
    method Finished(o: Outcome)
      requires Valid() && loading
      modifies this`loading, this`navigatedTo, this`error
      ensures Valid() && !loading
      ensures o.Accepted? ==> navigatedTo == Some("/cases/" + o.caseId) && error == old(error)
      ensures o.Rejected? ==> error == OrElse(o.message, "Failed to create case") && navigatedTo == old(navigatedTo)
    {
      loading := false;
      if o.Accepted? {
        navigatedTo := Some("/cases/" + o.caseId);
      } else {
        error := OrElse(o.message, "Failed to create case");
      }
    }
  }

  /** What the review step sends passes the server's required-field check
      whenever the case has a client: always for a client user, and for a
      firm user once a client is chosen. */
  lemma ReviewedPayloadHasRequiredFields(f: IntakeForm, user: Principal, amount: string -> Option<int>,
                                         months: string -> Option<int>, date: string -> Option<int>)
    requires f.Valid() && f.step == 4
    requires user.Firm? ==> f.clientId != ""
    requires user.Client? ==> user.clientId != ""
    ensures Cases.HasRequiredFields(user, f.Payload(Some(user), amount, months, date))
  {
  }
}
