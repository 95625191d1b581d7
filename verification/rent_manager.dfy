/**
 * The record mappers of the RentManager adapter: a property and a tenant as
 * the RentManager API reports them become the rows the sync upserts. The
 * HTTP calls of the adapter are not part of this module; their answers are
 * inputs of the sync.
 */
module RentManager {
  import opened Common
  import opened Strings
  import opened Model

  /** `determineJurisdiction`: the county and state of the property. */
  function DetermineJurisdiction(r: Record): (j: string)
    ensures !Truthy(Get(r, "county")) && !Truthy(Get(r, "state")) ==> j == "County,"
    ensures Truthy(Get(r, "county")) && !IsSpace(r["county"][0]) &&
            Truthy(Get(r, "state")) && !IsSpace(r["state"][|r["state"]| - 1]) ==>
      j == r["county"] + " County, " + r["state"]
  {
    var county := OrElse(Get(r, "county"), "");
    var state := OrElse(Get(r, "state"), "");
    if county == "" && state == "" then
      JurisdictionOfNothing();
      CountyJurisdiction(county, state)
    else if county != "" && !IsSpace(county[0]) && state != "" && !IsSpace(state[|state| - 1]) then
      JurisdictionOfPlainParts(county, state);
      CountyJurisdiction(county, state)
    else
      CountyJurisdiction(county, state)
  }

  /** `mapPropertyToPropertiLaw`. The external id is the RentManager id, the
      client is the integration's, and the name is never empty. */
  function MapProperty(r: Record, clientId: Id, now: int): (p: Property)
    ensures p.externalId == Get(r, "id") && p.clientId == clientId && p.lastSynced == now
    ensures PropertyKey(p).Some? <==> "id" in r
    ensures p.name != ""
    ensures Truthy(Get(r, "name")) ==> p.name == r["name"]
    ensures !Truthy(Get(r, "name")) && Truthy(Get(r, "propertyName")) ==> p.name == r["propertyName"]
    ensures !Truthy(Get(r, "name")) && !Truthy(Get(r, "propertyName")) ==> p.name == "Unnamed Property"
    ensures p.city == OrElse(Get(r, "city"), "") && p.state == OrElse(Get(r, "state"), "")
    ensures p.county == OrElse(Get(r, "county"), "")
    ensures p.jurisdiction == DetermineJurisdiction(r)
  {
    Property(
      Get(r, "id"),
      OrElse(Or(Get(r, "name"), Get(r, "propertyName")), "Unnamed Property"),
      OrElse(Or(Get(r, "address"), Get(r, "streetAddress")), ""),
      OrElse(Get(r, "city"), ""),
      OrElse(Get(r, "state"), ""),
      OrElse(Or(Get(r, "zipCode"), Get(r, "postalCode")), ""),
      OrElse(Get(r, "county"), ""),
      DetermineJurisdiction(r),
      clientId,
      now)
  }

  /** `mapTenantToPropertiLaw`. A tenant is active exactly when its status
      is 'Active'; email and phone are null rather than empty; property and
      unit are null unless given. */
  function MapTenant(r: Record, clientId: Id, propertyId: Option<Id>, unitId: Option<Id>, now: int): (t: Tenant)
    ensures t.externalId == Get(r, "id") && t.clientId == clientId && t.lastSynced == now
    ensures TenantKey(t).Some? <==> "id" in r
    ensures t.isActive <==> Get(r, "status") == Some("Active")
    ensures t.email.Some? <==> Truthy(Get(r, "email"))
    ensures t.email.Some? ==> t.email.value != ""
    ensures Truthy(Get(r, "phone")) ==> t.phone == Get(r, "phone")
    ensures !Truthy(Get(r, "phone")) ==> t.phone == OrNull(Get(r, "mobilePhone"))
    ensures t.propertyId == OrNull(propertyId) && t.unitId == OrNull(unitId)
    ensures t.leaseStartDate.Some? <==> Truthy(Get(r, "leaseStartDate"))
    ensures t.leaseEndDate.Some? <==> Truthy(Get(r, "leaseEndDate"))
  {
    Tenant(
      Get(r, "id"),
      OrElse(Get(r, "firstName"), ""),
      OrElse(Get(r, "lastName"), ""),
      OrNull(Get(r, "email")),
      OrNull(Or(Get(r, "phone"), Get(r, "mobilePhone"))),
      OrNull(propertyId),
      OrNull(unitId),
      clientId,
      OrElse(Or(Get(r, "balance"), Get(r, "currentBalance")), "0"),
      OrNull(Get(r, "leaseStartDate")),
      OrNull(Get(r, "leaseEndDate")),
      Get(r, "status") == Some("Active"),
      now)
  }

  /** The unit row the sync writes for a RentManager unit: the number falls
      back to the unit's name, then to 'Unknown'. */
  function MapUnit(r: Record, propertyId: Id, now: int): (u: Unit)
    ensures u.externalId == Get(r, "id") && u.propertyId == propertyId && u.lastSynced == now
    ensures u.unitNumber != ""
    ensures UnitKey(u).Some? <==> "id" in r
  {
    Unit(Get(r, "id"), OrElse(Or(Get(r, "unitNumber"), Get(r, "name")), "Unknown"), propertyId, now)
  }
}
