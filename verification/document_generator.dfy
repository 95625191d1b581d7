/**
 * The document generator: a switch on the template type picks the notice to
 * quit or the eviction complaint, whose text is filled from the case with a
 * fallback for every missing field. The PDF the text is drawn into is not
 * modelled; a letter is the text it would carry.
 */
module DocumentGenerator {
  import opened Common
  import opened Strings

  /** A tenant linked to the case, by name. */
  datatype Party = Party(firstName: string, lastName: string)

  /** The case as the generator receives it, with its property and tenants
      included; every field may be missing. Money is in cents. */
  datatype CaseData = CaseData(
    caseNumber: Option<string>, propertyName: Option<string>, propertyAddress: Option<string>,
    tenants: Option<seq<Party>>, reason: Option<string>, amountOwed: Option<int>,
    jurisdiction: Option<string>, court: Option<string>)

  /** `${x || 'N/A'}`. */
  function OrNA(x: Option<string>): string {
    OrElse(x, "N/A")
  }

  function FullName(p: Party): string {
    p.firstName + " " + p.lastName
  }

  /** The names of a non-empty tenant list never join to the empty text:
      each carries the separating space. */
  lemma NamesNonEmpty(ts: Option<seq<Party>>)
    ensures ts.Some? && ts.value != [] ==> Join(MapAll(ts.value, FullName), ", ") != ""
  {
    if ts.Some? && ts.value != [] {
      var xs := MapAll(ts.value, FullName);
      assert |xs[0]| >= 1;
      assert |Join(xs, ", ")| >= |xs[0]|;
    }
  }

  /** `tenants?.map(t => `${first} ${last}`).join(', ') || 'Tenant'`: the
      names of the tenants in order, or 'Tenant' when the case has none. */
  function TenantLine(ts: Option<seq<Party>>): (r: string)
    ensures ts.None? || ts.value == [] ==> r == "Tenant"
    ensures ts.Some? && ts.value != [] ==> r == Join(MapAll(ts.value, FullName), ", ")
  {
    var names := if ts.Some? then Join(MapAll(ts.value, FullName), ", ") else "";
    NamesNonEmpty(ts);
    if names == "" then "Tenant" else names
  }

  /** JavaScript's rendering of an amount of dollars given in cents: no
      trailing zero in the fraction and no fraction for whole dollars. */
  function Dollars(cents: int): string {
    var a := if cents < 0 then -cents else cents;
    var frac := a % 100;
    (if cents < 0 then "-" else "") + NatToString(a / 100) +
    (if frac == 0 then ""
     else if frac % 10 == 0 then ['.', DigitChar(frac / 10)]
     else ['.', DigitChar(frac / 10), DigitChar(frac % 10)])
  }

  /** `${amountOwed || '0.00'}`: a missing or zero amount reads '0.00'. */
  function AmountText(amountOwed: Option<int>): (r: string)
    ensures !NumTruthy(amountOwed) ==> r == "0.00"
    ensures NumTruthy(amountOwed) ==> r == Dollars(amountOwed.value)
  {
    if NumTruthy(amountOwed) then Dollars(amountOwed.value) else "0.00"
  }

  /** The fallback '0.00' appears exactly when there is no amount owed: a
      real amount never renders as that text. */
  lemma ZeroTextOnlyForNoAmount(amountOwed: Option<int>)
    ensures AmountText(amountOwed) == "0.00" <==> !NumTruthy(amountOwed)
  {
    if NumTruthy(amountOwed) {
      var c := amountOwed.value;
      var a := if c < 0 then -c else c;
      var frac := a % 100;
      var s := Dollars(c);
      var w := NatToString(a / 100);
      if c < 0 {
        assert s[0] == '-';
      } else if frac == 0 {
        assert s == w;
        assert |s| < 2 || IsDigit(s[1]);
        assert "0.00"[1] == '.';
      } else if frac % 10 == 0 {
        assert s[|s| - 1] == DigitChar(frac / 10);
        assert frac / 10 != 0;
      } else {
        assert s[|s| - 1] == DigitChar(frac % 10);
      }
    }
  }

  /** The fields of the letter a template produces, each already rendered
      with its fallback. */
  datatype Letter =
    | NoticeToQuit(caseNumber: string, property: string, address: string, to: string,
                   reason: string, amount: string, jurisdiction: string)
    | Complaint(caseNumber: string, court: string, jurisdiction: string, defendants: string,
                address: string, reason: string, amount: string)

  /** `generateNoticeToQuit`. */
  function Notice(d: CaseData): (l: Letter)
    ensures l.NoticeToQuit?
    ensures l.caseNumber == (if Truthy(d.caseNumber) then d.caseNumber.value else "N/A")
    ensures l.property == (if Truthy(d.propertyName) then d.propertyName.value else "N/A")
    ensures l.address == (if Truthy(d.propertyAddress) then d.propertyAddress.value else "N/A")
    ensures l.to == TenantLine(d.tenants) && l.amount == AmountText(d.amountOwed)
  {
    NoticeToQuit(OrNA(d.caseNumber), OrNA(d.propertyName), OrNA(d.propertyAddress),
                 TenantLine(d.tenants), OrNA(d.reason), AmountText(d.amountOwed), OrNA(d.jurisdiction))
  }

  /** `generateComplaint`. */
  function EvictionComplaint(d: CaseData): (l: Letter)
    ensures l.Complaint?
    ensures l.caseNumber == (if Truthy(d.caseNumber) then d.caseNumber.value else "N/A")
    ensures l.address == (if Truthy(d.propertyAddress) then d.propertyAddress.value else "N/A")
    ensures l.court == (if Truthy(d.court) then d.court.value else "N/A")
    ensures l.defendants == TenantLine(d.tenants) && l.amount == AmountText(d.amountOwed)
  {
    Complaint(OrNA(d.caseNumber), OrNA(d.court), OrNA(d.jurisdiction), TenantLine(d.tenants),
              OrNA(d.propertyAddress), OrNA(d.reason), AmountText(d.amountOwed))
  }

  /** The text drawn on the page, `dated` standing for the locale date. */
  function Text(l: Letter, dated: string): string {
    match l
    case NoticeToQuit(n, p, a, to, r, amt, j) =>
      Trim("\nCase Number: " + n + "\nProperty: " + p + "\nAddress: " + a + "\n\nTo: " + to +
           "\n\nYou are hereby notified that you are required to quit and deliver up the premises described above on or before [DATE], for the following reason:\n\n" +
           r + "\n\nAmount Owed: $" + amt + "\n\nThis notice is given in accordance with the laws of " + j +
           ".\n\nDated: " + dated + "\n    ")
    case Complaint(n, c, j, defs, a, r, amt) =>
      Trim("\nCase Number: " + n + "\nCourt: " + c + "\nJurisdiction: " + j +
           "\n\nPLAINTIFF: [Property Management Company]\nDEFENDANT(S): " + defs +
           "\n\nCOMPLAINT FOR EVICTION\n\n1. Plaintiff is the owner/agent of the property located at:\n   " + a +
           "\n\n2. Defendant(s) is/are tenants of the above-described property.\n\n3. Defendant(s) has/have failed to comply with the terms of the lease agreement.\n\n4. Reason for eviction: " +
           r + "\n\n5. Amount owed: $" + amt + "\n\nWHEREFORE, Plaintiff prays for judgment:\n- For possession of the premises\n- For damages in the amount of $" +
           amt + "\n- For costs and such other relief as the Court deems just.\n\nDated: " + dated + "\n    ")
  }

  /** What `generateFromTemplate` settles with: a letter, or the error it throws. */
  datatype Generated = Pdf(letter: Letter) | Thrown(message: string)

  /** `generateFromTemplate`: only the notice to quit and the complaint have
      a generator; every other type, the cover sheet included, throws. */
  function GenerateFromTemplate(templateType: string, d: CaseData): (r: Generated)
    ensures r.Pdf? <==> templateType == "NOTICE_TO_QUIT" || templateType == "COMPLAINT"
    ensures r.Thrown? ==> r.message == "Unknown template type: " + templateType
    ensures templateType == "NOTICE_TO_QUIT" ==> r == Pdf(Notice(d))
    ensures templateType == "COMPLAINT" ==> r == Pdf(EvictionComplaint(d))
  {
    match templateType
    case "NOTICE_TO_QUIT" => Pdf(Notice(d))
    case "COMPLAINT" => Pdf(EvictionComplaint(d))
    case _ => Thrown("Unknown template type: " + templateType)
  }
}
