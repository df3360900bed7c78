/** The closed sets of names the property forms offer, and their defaults. */
module ListingEnums {
  const PropertyTypes: seq<string> := ["HOUSE", "APARTMENT", "CONDO", "LAND", "TOWNHOUSE", "MULTI_FAMILY", "COMMERCIAL"]
  const Statuses: seq<string> := ["PENDING", "APPROVED", "REJECTED", "AVAILABLE", "SOLD", "OFF_MARKET"]
  const HeatingTypes: seq<string> := ["NONE", "GAS", "ELECTRIC", "WOOD", "GEOTHERMAL", "SOLAR"]
  const CoolingTypes: seq<string> := ["NONE", "CENTRAL_AIR", "WINDOW_UNIT", "EVAPORATIVE", "GEOTHERMAL"]

  const DefaultStatus := "PENDING"
  const DefaultHeating := "NONE"
  const DefaultCooling := "NONE"

  /** Each default is one of the names of its set. */
  lemma DefaultsAreNamed()
    ensures DefaultStatus in Statuses && DefaultHeating in HeatingTypes && DefaultCooling in CoolingTypes
  {
    assert Statuses[0] == DefaultStatus;
    assert HeatingTypes[0] == DefaultHeating;
    assert CoolingTypes[0] == DefaultCooling;
  }
}
