/**
 * The "create new listing" form: its Zod schema with defaults, and the
 * submit handler that normalises the two comma-separated URL fields in place.
 */
module NewListingForm {
  import opened Wrappers
  import opened Text
  import opened Sequences
  import opened Validation
  import opened ListingEnums

  /** The form's values; `None` is a value the form did not supply. */
  datatype ListingInput = ListingInput(
    title: Option<string>, description: Option<string>, price: Option<Number>, propertyType: Option<string>,
    bedrooms: Option<Number>, bathrooms: Option<Number>, squareFeet: Option<Number>, lotSize: Option<Number>,
    yearBuilt: Option<Number>, status: Option<string>, address: Option<string>, city: Option<string>,
    state: Option<string>, postalCode: Option<string>, country: Option<string>,
    latitude: Option<Number>, longitude: Option<Number>,
    hasGarage: Option<bool>, hasPool: Option<bool>, hasBasement: Option<bool>, hasFireplace: Option<bool>,
    parkingSpaces: Option<Number>, heatingType: Option<string>, coolingType: Option<string>,
    imageUrls: Option<string>, videoUrl: Option<string>, floorPlans: Option<string>, agentId: Option<string>)

  /** The fields the schema can reject, in schema order. */
  datatype Field =
    | Title | Price | PropertyType | Bedrooms | Bathrooms | SquareFeet | LotSize | YearBuilt | Status
    | Address | City | State | PostalCode | Country | Latitude | Longitude | ParkingSpaces
    | HeatingType | CoolingType | AgentId

  const SchemaOrder: seq<Field> := Identity + Dwelling + Place + Rest

  const Identity: seq<Field> := [Title, Price, PropertyType, Bedrooms, Bathrooms]
  const Dwelling: seq<Field> := [SquareFeet, LotSize, YearBuilt, Status, Address]
  const Place: seq<Field> := [City, State, PostalCode, Country, Latitude]
  const Rest: seq<Field> := [Longitude, ParkingSpaces, HeatingType, CoolingType, AgentId]

  /** The rule of one field; a field with a default also accepts absence. */
  predicate FieldOk(u: ListingInput, f: Field) {
    match f
    case Title => LongEnough(u.title, 1)
    case Price => NumberAtLeast(u.price, 0.0, false)
    case PropertyType => OneOf(u.propertyType, PropertyTypes)
    case Bedrooms => NumberAtLeast(u.bedrooms, 0.0, false)
    case Bathrooms => NumberAtLeast(u.bathrooms, 0.0, false)
    case SquareFeet => OptionalNumber(u.squareFeet, false)
    case LotSize => OptionalNumber(u.lotSize, false)
    case YearBuilt => OptionalNumber(u.yearBuilt, false)
    case Status => u.status.None? || OneOf(u.status, Statuses)
    case Address => LongEnough(u.address, 1)
    case City => LongEnough(u.city, 1)
    case State => LongEnough(u.state, 1)
    case PostalCode => LongEnough(u.postalCode, 1)
    case Country => LongEnough(u.country, 1)
    case Latitude => OptionalNumber(u.latitude, false)
    case Longitude => OptionalNumber(u.longitude, false)
    case ParkingSpaces => OptionalNumber(u.parkingSpaces, false)
    case HeatingType => u.heatingType.None? || OneOf(u.heatingType, HeatingTypes)
    case CoolingType => u.coolingType.None? || OneOf(u.coolingType, CoolingTypes)
    case AgentId => LongEnough(u.agentId, 1)
  }

  predicate Valid(u: ListingInput) {
    forall f: Field :: FieldOk(u, f)
  }

  /** The position of each field in `SchemaOrder`. */
  function Position(f: Field): (i: nat)
    ensures i < |SchemaOrder| && SchemaOrder[i] == f
  {
    match f
    case Title => 0 case Price => 1 case PropertyType => 2 case Bedrooms => 3 case Bathrooms => 4
    case SquareFeet => 5 case LotSize => 6 case YearBuilt => 7 case Status => 8 case Address => 9
    case City => 10 case State => 11 case PostalCode => 12 case Country => 13 case Latitude => 14
    case Longitude => 15 case ParkingSpaces => 16 case HeatingType => 17 case CoolingType => 18
    case AgentId => 19
  }

  /** Validity spelt out field by field. */
  predicate AllRulesHold(u: ListingInput) {
    && LongEnough(u.title, 1) && NumberAtLeast(u.price, 0.0, false) && OneOf(u.propertyType, PropertyTypes)
    && NumberAtLeast(u.bedrooms, 0.0, false) && NumberAtLeast(u.bathrooms, 0.0, false)
    && OptionalNumber(u.squareFeet, false) && OptionalNumber(u.lotSize, false) && OptionalNumber(u.yearBuilt, false)
    && (u.status.None? || OneOf(u.status, Statuses))
    && LongEnough(u.address, 1) && LongEnough(u.city, 1) && LongEnough(u.state, 1)
    && LongEnough(u.postalCode, 1) && LongEnough(u.country, 1)
    && OptionalNumber(u.latitude, false) && OptionalNumber(u.longitude, false) && OptionalNumber(u.parkingSpaces, false)
    && (u.heatingType.None? || OneOf(u.heatingType, HeatingTypes))
    && (u.coolingType.None? || OneOf(u.coolingType, CoolingTypes))
    && LongEnough(u.agentId, 1)
  }

  lemma AllRulesHoldIsValid(u: ListingInput)
    requires AllRulesHold(u)
    ensures Valid(u)
  {
    forall f: Field ensures FieldOk(u, f) {
      match f
      case _ =>
    }
  }

  /** The test that a field fails its rule for `u`. */
  function FailsIn(u: ListingInput): Field -> bool {
    (f: Field) => !FieldOk(u, f)
  }

  /** The fields that fail their rule, in schema order. */
  function Issues(u: ListingInput): (issues: seq<Field>)
    ensures forall f :: f in issues <==> !FieldOk(u, f)
  {
    var failing := FailsIn(u);
    assert forall f :: f in Filter(SchemaOrder, failing) <==> failing(f) by {
      FilterMembers(SchemaOrder, failing);
      forall f: Field ensures f in SchemaOrder {
        var i := Position(f);
      }
    }
    Filter(SchemaOrder, failing)
  }

  /** What parsing returns: absent status, flags and heating and cooling types take their defaults. */
  function WithDefaults(u: ListingInput): ListingInput {
    u.(status := Some(u.status.GetOr(DefaultStatus)),
       hasGarage := Some(u.hasGarage.GetOr(false)), hasPool := Some(u.hasPool.GetOr(false)),
       hasBasement := Some(u.hasBasement.GetOr(false)), hasFireplace := Some(u.hasFireplace.GetOr(false)),
       heatingType := Some(u.heatingType.GetOr(DefaultHeating)),
       coolingType := Some(u.coolingType.GetOr(DefaultCooling)))
  }

  /** `propertySchema.safeParse`: the values with defaults when every rule holds, the failing fields otherwise. */
  function SafeParse(u: ListingInput): (r: Result<ListingInput, seq<Field>>)
    ensures r.Success? <==> Valid(u)
    ensures r.Success? ==> r.value == WithDefaults(u)
    ensures r.Failure? ==> r.error == Issues(u) && |r.error| > 0
  {
    var issues := Issues(u);
    if |issues| == 0 then Success(WithDefaults(u))
    else
      assert issues[0] in issues;
      Failure(issues)
  }

  /** Parsed values have every defaulted field present and in its set, and parse again to themselves. */
  lemma ParsedValuesAreComplete(u: ListingInput)
    requires SafeParse(u).Success?
    ensures var v := SafeParse(u).value;
      && v.status.Some? && v.status.value in Statuses
      && v.heatingType.Some? && v.heatingType.value in HeatingTypes
      && v.coolingType.Some? && v.coolingType.value in CoolingTypes
      && v.hasGarage.Some? && v.hasPool.Some? && v.hasBasement.Some? && v.hasFireplace.Some?
      && SafeParse(v) == Success(v)
  {
    var v := WithDefaults(u);
    DefaultsAreNamed();
    assert FieldOk(u, Status) && FieldOk(u, HeatingType) && FieldOk(u, CoolingType);
    assert forall f: Field :: FieldOk(v, f) by {
      forall f: Field ensures FieldOk(v, f) {
        assert FieldOk(u, f);
      }
    }
  }

  /** The form's `defaultValues`. */
  const DefaultValues := ListingInput(
    None, None, None, None, None, None, None, None, None, Some(DefaultStatus), None, None, None, None, None,
    None, None, Some(false), Some(false), Some(false), Some(false), None, Some(DefaultHeating), Some(DefaultCooling),
    None, None, None, None)

  lemma DefaultsFailIdentity()
    ensures Filter(Identity, FailsIn(DefaultValues)) == [Title, Price, PropertyType, Bedrooms, Bathrooms]
  {
    var failing := FailsIn(DefaultValues);
    assert failing(Title) && failing(Price) && failing(PropertyType) && failing(Bedrooms) && failing(Bathrooms);
    assert Filter([Bathrooms], failing) == [Bathrooms];
    assert Filter([Bedrooms, Bathrooms], failing) == [Bedrooms, Bathrooms];
    assert Filter([PropertyType, Bedrooms, Bathrooms], failing) == [PropertyType, Bedrooms, Bathrooms];
    assert Filter([Price, PropertyType, Bedrooms, Bathrooms], failing) == [Price, PropertyType, Bedrooms, Bathrooms];
  }

  lemma DefaultsFailDwelling()
    ensures Filter(Dwelling, FailsIn(DefaultValues)) == [Address]
  {
    var failing := FailsIn(DefaultValues);
    DefaultsAreNamed();
    assert !failing(SquareFeet) && !failing(LotSize) && !failing(YearBuilt) && !failing(Status) && failing(Address);
    assert Filter([Address], failing) == [Address];
    assert Filter([Status, Address], failing) == [Address];
    assert Filter([YearBuilt, Status, Address], failing) == [Address];
    assert Filter([LotSize, YearBuilt, Status, Address], failing) == [Address];
  }

  lemma DefaultsFailPlace()
    ensures Filter(Place, FailsIn(DefaultValues)) == [City, State, PostalCode, Country]
  {
    var failing := FailsIn(DefaultValues);
    assert failing(City) && failing(State) && failing(PostalCode) && failing(Country) && !failing(Latitude);
    assert Filter([Latitude], failing) == [];
    assert Filter([Country, Latitude], failing) == [Country];
    assert Filter([PostalCode, Country, Latitude], failing) == [PostalCode, Country];
    assert Filter([State, PostalCode, Country, Latitude], failing) == [State, PostalCode, Country];
  }

  lemma DefaultsFailRest()
    ensures Filter(Rest, FailsIn(DefaultValues)) == [AgentId]
  {
    var failing := FailsIn(DefaultValues);
    DefaultsAreNamed();
    assert !failing(Longitude) && !failing(ParkingSpaces) && !failing(HeatingType) && !failing(CoolingType) && failing(AgentId);
    assert Filter([AgentId], failing) == [AgentId];
    assert Filter([CoolingType, AgentId], failing) == [AgentId];
    assert Filter([HeatingType, CoolingType, AgentId], failing) == [AgentId];
    assert Filter([ParkingSpaces, HeatingType, CoolingType, AgentId], failing) == [AgentId];
  }

  /** Submitting the defaults alone fails on every required field and on nothing else, in schema order. */
  lemma DefaultValuesIssues()
    ensures Issues(DefaultValues) == [Title, Price, PropertyType, Bedrooms, Bathrooms, Address, City, State, PostalCode, Country, AgentId]
  {
    var failing := FailsIn(DefaultValues);
    assert Issues(DefaultValues) == Filter(SchemaOrder, failing);
    assert Filter(Identity + Dwelling, failing) == Identity + [Address] by {
      DefaultsFailIdentity();
      DefaultsFailDwelling();
      FilterConcat(Identity, Dwelling, failing);
    }
    assert Filter(Identity + Dwelling + Place, failing) == Identity + [Address] + [City, State, PostalCode, Country] by {
      DefaultsFailPlace();
      FilterConcat(Identity + Dwelling, Place, failing);
    }
    assert Filter(SchemaOrder, failing) == Identity + [Address] + [City, State, PostalCode, Country] + [AgentId] by {
      DefaultsFailRest();
      FilterConcat(Identity + Dwelling + Place, Rest, failing);
    }
  }

  // ------------------------------------------------------------ comma-separated lists

  /** The entries of a comma-separated list: pieces trimmed, empty pieces dropped, order kept. */
  function Entries(s: string): seq<string> {
    Filter(Map(Split(s, ','), Trim), (t: string) => t != "")
  }

  /** `s.split(',').map(url => url.trim()).filter(Boolean).join(',')` */
  function NormalizeList(s: string): string {
    Join(Entries(s), ",")
  }

  /** Every entry is non-empty, trimmed and free of commas. */
  lemma EntriesAreClean(s: string)
    ensures forall i :: 0 <= i < |Entries(s)| ==>
      Entries(s)[i] != "" && Trimmed(Entries(s)[i]) && ',' !in Entries(s)[i]
  {
    var pieces := Split(s, ',');
    var trimmed := Map(pieces, Trim);
    FilterMembers(trimmed, (t: string) => t != "");
    forall i | 0 <= i < |Entries(s)|
      ensures Entries(s)[i] != "" && Trimmed(Entries(s)[i]) && ',' !in Entries(s)[i]
    {
      var e := Entries(s)[i];
      assert e in trimmed;
      var k :| 0 <= k < |trimmed| && trimmed[k] == e;
      TrimProperties(pieces[k]);
      assert ',' !in pieces[k];
    }
  }

  /** A normalised list holds exactly the entries of the original, in order. */
  lemma NormalizeListKeepsEntries(s: string)
    ensures Entries(NormalizeList(s)) == Entries(s)
  {
    var e := Entries(s);
    EntriesAreClean(s);
    if |e| == 0 {
      assert NormalizeList(s) == "";
      assert Split("", ',') == [""];
      assert Map([""], Trim) == [""];
    } else {
      SplitJoin(e, ',');
      assert Map(e, Trim) == e by {
        forall i | 0 <= i < |e| ensures Trim(e[i]) == e[i] {
          TrimOfTrimmed(e[i]);
        }
      }
      FilterKeepsAll(e, (t: string) => t != "");
    }
  }

  /** Normalising twice is normalising once. */
  lemma NormalizeListIdempotent(s: string)
    ensures NormalizeList(NormalizeList(s)) == NormalizeList(s)
  {
    NormalizeListKeepsEntries(s);
  }

  /** `if (value) value = normalise(value)`: only a present, non-empty value is normalised. */
  function NormalizeField(v: Option<string>): Option<string> {
    if v.Some? && v.value != "" then Some(NormalizeList(v.value)) else v
  }

  lemma NormalizeFieldIdempotent(v: Option<string>)
    ensures NormalizeField(NormalizeField(v)) == NormalizeField(v)
  {
    if v.Some? && v.value != "" {
      NormalizeListIdempotent(v.value);
    }
  }

  /** The submitted form data, which the submit handler rewrites in place. */
  class ListingForm {
    var data: ListingInput

    /** `handleSubmit(onSubmit)` calls the handler only with the values `safeParse` returned. */
    constructor (raw: ListingInput)
      requires SafeParse(raw).Success?
      ensures data == SafeParse(raw).value
      ensures Valid(data)
    {
      ParsedValuesAreComplete(raw);
      data := SafeParse(raw).value;
    }

    /** `onSubmit`: normalises the image and floor-plan URL lists; every other field is left as it was. */
    method OnSubmit()
      modifies this
      ensures data == old(data).(imageUrls := NormalizeField(old(data).imageUrls),
                                 floorPlans := NormalizeField(old(data).floorPlans))
    {
      if data.imageUrls.Some? && data.imageUrls.value != "" {
        data := data.(imageUrls := Some(NormalizeList(data.imageUrls.value)));
      }
      if data.floorPlans.Some? && data.floorPlans.value != "" {
        data := data.(floorPlans := Some(NormalizeList(data.floorPlans.value)));
      }
    }
  }
}
