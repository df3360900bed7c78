/**
 * The stricter shared Zod `propertySchema`: whole numbers for counts and
 * sizes, a UUID agent id, and URL checks on the video and floor plans.
 */
module PropertySchema {
  import opened Wrappers
  import opened Sequences
  import opened Validation
  import opened ListingEnums
  import NewListingForm

  /** The values the schema reads; `None` is a value the form did not supply. The image files are not modelled. */
  datatype PropertyValues = PropertyValues(
    title: Option<string>, description: Option<string>, price: Option<Number>, propertyType: Option<string>,
    bedrooms: Option<Number>, bathrooms: Option<Number>, squareFeet: Option<Number>, lotSize: Option<Number>,
    yearBuilt: Option<Number>, status: Option<string>, address: Option<string>, city: Option<string>,
    state: Option<string>, postalCode: Option<string>, country: Option<string>,
    latitude: Option<Number>, longitude: Option<Number>,
    hasGarage: Option<bool>, hasPool: Option<bool>, hasBasement: Option<bool>, hasFireplace: Option<bool>,
    parkingSpaces: Option<Number>, heatingType: Option<string>, coolingType: Option<string>,
    videoUrl: Option<string>, floorPlans: Option<seq<string>>, agentId: Option<string>)

  /** The fields the schema can reject, in schema order. */
  datatype Field =
    | Title | Description | Price | PropertyType | Bedrooms | Bathrooms | SquareFeet | LotSize | YearBuilt
    | Status | Address | City | State | PostalCode | Country | Latitude | Longitude | ParkingSpaces
    | HeatingType | CoolingType | VideoUrl | FloorPlans | AgentId

  const SchemaOrder: seq<Field> := Identity + Dwelling + Place + Rest

  const Identity: seq<Field> := [Title, Description, Price, PropertyType, Bedrooms, Bathrooms]
  const Dwelling: seq<Field> := [SquareFeet, LotSize, YearBuilt, Status, Address, City]
  const Place: seq<Field> := [State, PostalCode, Country, Latitude, Longitude, ParkingSpaces]
  const Rest: seq<Field> := [HeatingType, CoolingType, VideoUrl, FloorPlans, AgentId]

  function Position(f: Field): (i: nat)
    ensures i < |SchemaOrder| && SchemaOrder[i] == f
  {
    match f
    case Title => 0 case Description => 1 case Price => 2 case PropertyType => 3 case Bedrooms => 4
    case Bathrooms => 5 case SquareFeet => 6 case LotSize => 7 case YearBuilt => 8 case Status => 9
    case Address => 10 case City => 11 case State => 12 case PostalCode => 13 case Country => 14
    case Latitude => 15 case Longitude => 16 case ParkingSpaces => 17 case HeatingType => 18
    case CoolingType => 19 case VideoUrl => 20 case FloorPlans => 21 case AgentId => 22
  }

  /** Every floor plan is a URL. */
  predicate AllUrls(plans: seq<string>, formats: Formats) {
    forall i :: 0 <= i < |plans| ==> formats.isUrl(plans[i])
  }

  /** The rule of one field; a field with a default also accepts absence. */
  predicate FieldOk(u: PropertyValues, formats: Formats, f: Field) {
    match f
    case Title => LongEnough(u.title, 1)
    case Description => u.description.Some?
    case Price => NumberAtLeast(u.price, 0.0, false)
    case PropertyType => OneOf(u.propertyType, PropertyTypes)
    case Bedrooms => NumberAtLeast(u.bedrooms, 0.0, true)
    case Bathrooms => NumberAtLeast(u.bathrooms, 0.0, true)
    case SquareFeet => OptionalNumber(u.squareFeet, true)
    case LotSize => OptionalNumber(u.lotSize, true)
    case YearBuilt => OptionalNumber(u.yearBuilt, true)
    case Status => u.status.None? || OneOf(u.status, Statuses)
    case Address => LongEnough(u.address, 1)
    case City => LongEnough(u.city, 1)
    case State => LongEnough(u.state, 1)
    case PostalCode => LongEnough(u.postalCode, 1)
    case Country => LongEnough(u.country, 1)
    case Latitude => OptionalNumber(u.latitude, false)
    case Longitude => OptionalNumber(u.longitude, false)
    case ParkingSpaces => OptionalNumber(u.parkingSpaces, true)
    case HeatingType => u.heatingType.None? || OneOf(u.heatingType, HeatingTypes)
    case CoolingType => u.coolingType.None? || OneOf(u.coolingType, CoolingTypes)
    case VideoUrl => u.videoUrl.None? || formats.isUrl(u.videoUrl.value)
    case FloorPlans => u.floorPlans.None? || AllUrls(u.floorPlans.value, formats)
    case AgentId => LongEnough(u.agentId, 1) && formats.isUuid(u.agentId.value)
  }

  predicate Valid(u: PropertyValues, formats: Formats) {
    forall f: Field :: FieldOk(u, formats, f)
  }

  /** The test that a field fails its rule for `u`. */
  function FailsIn(u: PropertyValues, formats: Formats): Field -> bool {
    (f: Field) => !FieldOk(u, formats, f)
  }

  /** The fields that fail their rule, in schema order. */
  function Issues(u: PropertyValues, formats: Formats): (issues: seq<Field>)
    ensures forall f :: f in issues <==> !FieldOk(u, formats, f)
  {
    var failing := FailsIn(u, formats);
    assert forall f :: f in Filter(SchemaOrder, failing) <==> failing(f) by {
      FilterMembers(SchemaOrder, failing);
      forall f: Field ensures f in SchemaOrder {
        var i := Position(f);
      }
    }
    Filter(SchemaOrder, failing)
  }

  /** What parsing returns: absent status, flags and heating and cooling types take their defaults. */
  function WithDefaults(u: PropertyValues): PropertyValues {
    u.(status := Some(u.status.GetOr(DefaultStatus)),
       hasGarage := Some(u.hasGarage.GetOr(false)), hasPool := Some(u.hasPool.GetOr(false)),
       hasBasement := Some(u.hasBasement.GetOr(false)), hasFireplace := Some(u.hasFireplace.GetOr(false)),
       heatingType := Some(u.heatingType.GetOr(DefaultHeating)),
       coolingType := Some(u.coolingType.GetOr(DefaultCooling)))
  }

  /** `propertySchema.safeParse`: the values with defaults when every rule holds, the failing fields otherwise. */
  function SafeParse(u: PropertyValues, formats: Formats): (r: Result<PropertyValues, seq<Field>>)
    ensures r.Success? <==> Valid(u, formats)
    ensures r.Success? ==> r.value == WithDefaults(u)
    ensures r.Failure? ==> r.error == Issues(u, formats) && |r.error| > 0
  {
    var issues := Issues(u, formats);
    if |issues| == 0 then Success(WithDefaults(u))
    else
      assert issues[0] in issues;
      Failure(issues)
  }

  /** Parsed values have every defaulted field present and in its set, and parse again to themselves. */
  lemma ParsedValuesAreComplete(u: PropertyValues, formats: Formats)
    requires SafeParse(u, formats).Success?
    ensures var v := SafeParse(u, formats).value;
      && v.status.Some? && v.status.value in Statuses
      && v.heatingType.Some? && v.heatingType.value in HeatingTypes
      && v.coolingType.Some? && v.coolingType.value in CoolingTypes
      && v.hasGarage.Some? && v.hasPool.Some? && v.hasBasement.Some? && v.hasFireplace.Some?
      && SafeParse(v, formats) == Success(v)
  {
    var v := WithDefaults(u);
    DefaultsAreNamed();
    assert FieldOk(u, formats, Status) && FieldOk(u, formats, HeatingType) && FieldOk(u, formats, CoolingType);
    assert forall f: Field :: FieldOk(v, formats, f) by {
      forall f: Field ensures FieldOk(v, formats, f) {
        assert FieldOk(u, formats, f);
      }
    }
  }

  /** The same values as the create-listing form holds them; the floor plans are not carried over. */
  function AsListingInput(u: PropertyValues): NewListingForm.ListingInput {
    NewListingForm.ListingInput(
      u.title, u.description, u.price, u.propertyType, u.bedrooms, u.bathrooms, u.squareFeet, u.lotSize,
      u.yearBuilt, u.status, u.address, u.city, u.state, u.postalCode, u.country, u.latitude, u.longitude,
      u.hasGarage, u.hasPool, u.hasBasement, u.hasFireplace, u.parkingSpaces, u.heatingType, u.coolingType,
      None, u.videoUrl, None, u.agentId)
  }

  /** The rules of a valid value, one by one. */
  lemma ValidRules(u: PropertyValues, formats: Formats)
    requires Valid(u, formats)
    ensures && FieldOk(u, formats, Title) && FieldOk(u, formats, Price) && FieldOk(u, formats, PropertyType)
            && FieldOk(u, formats, Bedrooms) && FieldOk(u, formats, Bathrooms)
            && FieldOk(u, formats, SquareFeet) && FieldOk(u, formats, LotSize) && FieldOk(u, formats, YearBuilt)
            && FieldOk(u, formats, Status) && FieldOk(u, formats, Address) && FieldOk(u, formats, City)
            && FieldOk(u, formats, State) && FieldOk(u, formats, PostalCode) && FieldOk(u, formats, Country)
            && FieldOk(u, formats, Latitude) && FieldOk(u, formats, Longitude) && FieldOk(u, formats, ParkingSpaces)
            && FieldOk(u, formats, HeatingType) && FieldOk(u, formats, CoolingType) && FieldOk(u, formats, AgentId)
  {
  }

  /** Whatever the strict schema accepts, the create-listing form's schema accepts too. */
  lemma StrictIsStricter(u: PropertyValues, formats: Formats)
    requires Valid(u, formats)
    ensures NewListingForm.Valid(AsListingInput(u))
  {
    var l := AsListingInput(u);
    ValidRules(u, formats);
    assert NewListingForm.AllRulesHold(l);
    NewListingForm.AllRulesHoldIsValid(l);
  }

  /** Fractional counts are rejected: a bedroom count of 2.5 fails whatever else the values hold. */
  lemma FractionalBedroomsRejected(u: PropertyValues, formats: Formats)
    requires u.bedrooms == Some(Finite(2.5))
    ensures SafeParse(u, formats).Failure? && Bedrooms in SafeParse(u, formats).error
  {
    assert (2.5).Floor == 2;
    assert !FieldOk(u, formats, Bedrooms);
  }

  /** An empty description and a price of zero are accepted when the rest is. */
  lemma EmptyDescriptionAndZeroPrice(u: PropertyValues, formats: Formats)
    requires Valid(u, formats)
    ensures Valid(u.(description := Some(""), price := Some(Finite(0.0))), formats)
  {
    var w := u.(description := Some(""), price := Some(Finite(0.0)));
    forall f: Field ensures FieldOk(w, formats, f) {
      assert FieldOk(u, formats, f);
    }
  }
}
