/**
 * The Yardi adapter without its SFTP transport: the `.csv` filter of a
 * directory listing and the mappers from CSV rows (records keyed by column
 * header) to the rows the sync upserts.
 */
module Yardi {
  import opened Common
  import opened Strings
  import opened Model

  /** `listCSVFiles`: the names of the listing that end in ".csv" (case
      sensitive), in listing order, each as often as the listing has it. */
  function CsvFiles(names: seq<string>): (r: seq<string>)
    ensures forall n :: n in r <==> n in names && EndsWith(n, ".csv")
    ensures IsSubsequence(r, names)
    ensures forall n ::
      multiset(r)[n] == if EndsWith(n, ".csv") then multiset(names)[n] else 0
  {
    var keep := (n: string) => EndsWith(n, ".csv");
    forall n ensures multiset(Filter(names, keep))[n] == if keep(n) then multiset(names)[n] else 0 {
      FilterCounts(names, keep, n);
    }
    Filter(names, keep)
  }

  /** `determineJurisdiction` over the CSV columns County and State. */
  function DetermineJurisdiction(r: Record): (j: string)
    ensures !Truthy(Get(r, "County")) && !Truthy(Get(r, "State")) ==> j == "County,"
    ensures Truthy(Get(r, "County")) && !IsSpace(r["County"][0]) &&
            Truthy(Get(r, "State")) && !IsSpace(r["State"][|r["State"]| - 1]) ==>
      j == r["County"] + " County, " + r["State"]
  {
    var county := OrElse(Get(r, "County"), "");
    var state := OrElse(Get(r, "State"), "");
    if county == "" && state == "" then
      JurisdictionOfNothing();
      CountyJurisdiction(county, state)
    else if county != "" && !IsSpace(county[0]) && state != "" && !IsSpace(state[|state| - 1]) then
      JurisdictionOfPlainParts(county, state);
      CountyJurisdiction(county, state)
    else
      CountyJurisdiction(county, state)
  }

  /** `mapPropertyToPropertiLaw` for a row of a properties file. */
  function MapProperty(r: Record, clientId: Id, now: int): (p: Property)
    ensures p.externalId == Or(Get(r, "PropertyID"), Get(r, "ID"))
    ensures p.clientId == clientId && p.lastSynced == now
    ensures p.name != ""
    ensures Truthy(Get(r, "PropertyName")) ==> p.name == r["PropertyName"]
    ensures !Truthy(Get(r, "PropertyName")) && Truthy(Get(r, "Name")) ==> p.name == r["Name"]
    ensures !Truthy(Get(r, "PropertyName")) && !Truthy(Get(r, "Name")) ==> p.name == "Unnamed Property"
    ensures Truthy(Get(r, "Address")) ==> p.address == r["Address"]
    ensures !Truthy(Get(r, "Address")) ==> p.address == OrElse(Get(r, "StreetAddress"), "")
    ensures Truthy(Get(r, "ZipCode")) ==> p.zipCode == r["ZipCode"]
    ensures !Truthy(Get(r, "ZipCode")) ==> p.zipCode == OrElse(Get(r, "PostalCode"), "")
    ensures p.jurisdiction == DetermineJurisdiction(r)
  {
    Property(
      Or(Get(r, "PropertyID"), Get(r, "ID")),
      OrElse(Or(Get(r, "PropertyName"), Get(r, "Name")), "Unnamed Property"),
      OrElse(Or(Get(r, "Address"), Get(r, "StreetAddress")), ""),
      OrElse(Get(r, "City"), ""),
      OrElse(Get(r, "State"), ""),
      OrElse(Or(Get(r, "ZipCode"), Get(r, "PostalCode")), ""),
      OrElse(Get(r, "County"), ""),
      DetermineJurisdiction(r),
      clientId,
      now)
  }

  /** `mapTenantToPropertiLaw` for a row of a tenants file. A tenant is
      active when its Status is 'Active' or 'Current'. */
  function MapTenant(r: Record, clientId: Id, propertyId: Option<Id>, unitId: Option<Id>, now: int): (t: Tenant)
    ensures t.externalId == Or(Get(r, "TenantID"), Get(r, "ID"))
    ensures t.clientId == clientId && t.lastSynced == now
    ensures t.isActive <==> Get(r, "Status") == Some("Active") || Get(r, "Status") == Some("Current")
    ensures Truthy(Get(r, "FirstName")) ==> t.firstName == r["FirstName"]
    ensures !Truthy(Get(r, "FirstName")) ==> t.firstName == OrElse(Get(r, "First Name"), "")
    ensures Truthy(Get(r, "LastName")) ==> t.lastName == r["LastName"]
    ensures !Truthy(Get(r, "LastName")) ==> t.lastName == OrElse(Get(r, "Last Name"), "")
    ensures t.email.Some? <==> Truthy(Get(r, "Email"))
    ensures t.propertyId == OrNull(propertyId) && t.unitId == OrNull(unitId)
  {
    Tenant(
      Or(Get(r, "TenantID"), Get(r, "ID")),
      OrElse(Or(Get(r, "FirstName"), Get(r, "First Name")), ""),
      OrElse(Or(Get(r, "LastName"), Get(r, "Last Name")), ""),
      OrNull(Get(r, "Email")),
      OrNull(Or(Get(r, "Phone"), Get(r, "MobilePhone"))),
      OrNull(propertyId),
      OrNull(unitId),
      clientId,
      OrElse(Or(Get(r, "Balance"), Get(r, "CurrentBalance")), "0"),
      OrNull(Get(r, "LeaseStartDate")),
      OrNull(Get(r, "LeaseEndDate")),
      Get(r, "Status") == Some("Active") || Get(r, "Status") == Some("Current"),
      now)
  }
}
