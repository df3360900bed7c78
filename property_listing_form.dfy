/**
 * The new property listing form and its Yup `validationSchema`, with the
 * form's default values. Fields that carry no rule are not modelled.
 */
module PropertyListingForm {
  import opened Wrappers
  import opened Sequences
  import opened Validation

  datatype Location = Location(
    address: Option<string>, city: Option<string>, state: Option<string>,
    postalCode: Option<string>, country: Option<string>)

  datatype Features = Features(
    bedrooms: Option<Number>, bathrooms: Option<Number>, squareFeet: Option<Number>, yearBuilt: Option<Number>)

  datatype Media = Media(images: seq<string>, virtualTour: Option<string>)

  datatype Owner = Owner(ownerId: Option<string>, name: Option<string>, contactNumber: Option<string>, email: Option<string>)

  datatype AgentDetails = AgentDetails(
    agentId: Option<string>, name: Option<string>, contactNumber: Option<string>,
    email: Option<string>, agency: Option<string>, licenseNumber: Option<string>)

  datatype ListingDetails = ListingDetails(dateListed: Option<string>, listingStatus: Option<string>, expiryDate: Option<string>)

  /** The form's values; `None` is a field left unset, and the optional groups may be missing as a whole. */
  datatype PropertyForm = PropertyForm(
    title: Option<string>, description: Option<string>, propertyType: Option<string>, listingType: Option<string>,
    price: Option<Number>, currency: Option<string>, location: Location, features: Features,
    media: Option<Media>, owner: Owner, agent: Option<AgentDetails>, listing: ListingDetails)

  datatype Field =
    | Title | Description | PropertyType | ListingType | Price | Currency
    | Address | City | State | PostalCode | Country | Bedrooms
    | Bathrooms | SquareFeet | YearBuilt | Images | VirtualTour | OwnerId
    | OwnerName | OwnerContactNumber | OwnerEmail | AgentEmail | DateListed | ListingStatus

  const SchemaOrder: seq<Field> := Listing + Place + Building + People

  const Listing: seq<Field> := [Title, Description, PropertyType, ListingType, Price, Currency]
  const Place: seq<Field> := [Address, City, State, PostalCode, Country, Bedrooms]
  const Building: seq<Field> := [Bathrooms, SquareFeet, YearBuilt, Images, VirtualTour, OwnerId]
  const People: seq<Field> := [OwnerName, OwnerContactNumber, OwnerEmail, AgentEmail, DateListed, ListingStatus]

  function Position(f: Field): (i: nat)
    ensures i < |SchemaOrder| && SchemaOrder[i] == f
  {
    match f
    case Title => 0 case Description => 1 case PropertyType => 2 case ListingType => 3 case Price => 4
    case Currency => 5 case Address => 6 case City => 7 case State => 8 case PostalCode => 9
    case Country => 10 case Bedrooms => 11 case Bathrooms => 12 case SquareFeet => 13 case YearBuilt => 14
    case Images => 15 case VirtualTour => 16 case OwnerId => 17 case OwnerName => 18
    case OwnerContactNumber => 19 case OwnerEmail => 20 case AgentEmail => 21 case DateListed => 22
    case ListingStatus => 23
  }

  /** A strictly positive number (Yup's `positive()` together with `required()`). */
  predicate Positive(v: Option<Number>) {
    IsNumber(v) && v.value.value > 0.0
  }

  /** The rule of one field. */
  predicate FieldOk(p: PropertyForm, isEmail: string -> bool, isUrl: string -> bool, f: Field) {
    match f
    case Title => Required(p.title) && |p.title.value| >= 3
    case Description => Required(p.description) && |p.description.value| >= 10
    case PropertyType => Required(p.propertyType)
    case ListingType => Required(p.listingType)
    case Price => Positive(p.price)
    case Currency => Required(p.currency)
    case Address => Required(p.location.address)
    case City => Required(p.location.city)
    case State => Required(p.location.state)
    case PostalCode => Required(p.location.postalCode)
    case Country => Required(p.location.country)
    case Bedrooms => NumberAtLeast(p.features.bedrooms, 0.0, false)
    case Bathrooms => NumberAtLeast(p.features.bathrooms, 0.0, false)
    case SquareFeet => NumberAtLeast(p.features.squareFeet, 0.0, false)
    case YearBuilt => IsNumber(p.features.yearBuilt)
    case Images => p.media.None? || forall i :: 0 <= i < |p.media.value.images| ==> YupUrl(Some(p.media.value.images[i]), isUrl)
    case VirtualTour => p.media.None? || YupUrl(p.media.value.virtualTour, isUrl)
    case OwnerId => Required(p.owner.ownerId)
    case OwnerName => Required(p.owner.name)
    case OwnerContactNumber => Required(p.owner.contactNumber)
    case OwnerEmail => YupEmail(p.owner.email, isEmail) && Required(p.owner.email)
    case AgentEmail => p.agent.None? || YupEmail(p.agent.value.email, isEmail)
    case DateListed => Required(p.listing.dateListed)
    case ListingStatus => Required(p.listing.listingStatus)
  }

  predicate Valid(p: PropertyForm, isEmail: string -> bool, isUrl: string -> bool) {
    forall f: Field :: FieldOk(p, isEmail, isUrl, f)
  }

  /** The test that a field keeps its rule in `p`. */
  function Holds(p: PropertyForm, isEmail: string -> bool, isUrl: string -> bool): Field -> bool {
    (f: Field) => FieldOk(p, isEmail, isUrl, f)
  }

  /** The fields that fail their rule, in schema order. */
  function Issues(p: PropertyForm, isEmail: string -> bool, isUrl: string -> bool): (issues: seq<Field>)
    ensures forall f :: f in issues <==> !FieldOk(p, isEmail, isUrl, f)
  {
    var r := Failing(SchemaOrder, Holds(p, isEmail, isUrl));
    assert forall f: Field :: f in SchemaOrder by {
      forall f: Field ensures f in SchemaOrder {
        var i := Position(f);
      }
    }
    r
  }

  /** `validationSchema.validate(values, { abortEarly: false })`: the values, or every failing field. */
  function Validate(p: PropertyForm, isEmail: string -> bool, isUrl: string -> bool): (r: Result<PropertyForm, seq<Field>>)
    ensures r.Success? <==> Valid(p, isEmail, isUrl)
    ensures r.Success? ==> r.value == p
    ensures r.Failure? ==> r.error == Issues(p, isEmail, isUrl) && |r.error| > 0
  {
    var issues := Issues(p, isEmail, isUrl);
    if |issues| == 0 then Success(p)
    else
      assert issues[0] in issues;
      Failure(issues)
  }

  /** The agent details are optional: dropping them, or leaving every one of them unset, keeps a valid form valid. */
  lemma AgentDetailsOptional(p: PropertyForm, isEmail: string -> bool, isUrl: string -> bool)
    requires Valid(p, isEmail, isUrl)
    ensures Valid(p.(agent := None), isEmail, isUrl)
    ensures Valid(p.(agent := Some(AgentDetails(None, None, None, None, None, None))), isEmail, isUrl)
  {
    var dropped := p.(agent := None);
    var unset := p.(agent := Some(AgentDetails(None, None, None, None, None, None)));
    forall f: Field ensures FieldOk(dropped, isEmail, isUrl, f) && FieldOk(unset, isEmail, isUrl, f) {
      assert FieldOk(p, isEmail, isUrl, f);
    }
  }

  /** A price of zero is rejected whatever else the form holds. */
  lemma ZeroPriceRejected(p: PropertyForm, isEmail: string -> bool, isUrl: string -> bool)
    requires p.price == Some(Finite(0.0))
    ensures Validate(p, isEmail, isUrl).Failure? && Price in Validate(p, isEmail, isUrl).error
  {
    assert !FieldOk(p, isEmail, isUrl, Price);
  }

  /** The form's `defaultValues`, given the current year and today's date in ISO form. */
  function DefaultValues(year: int, today: string): PropertyForm {
    PropertyForm(
      Some(""), Some(""), Some("Apartment"), Some("For Sale"), Some(Finite(0.0)), Some("USD"),
      Location(Some(""), Some(""), Some(""), Some(""), Some("")),
      Features(Some(Finite(0.0)), Some(Finite(0.0)), Some(Finite(0.0)), Some(Finite(year as real))),
      Some(Media([], Some(""))),
      Owner(Some(""), Some(""), Some(""), Some("")),
      Some(AgentDetails(Some(""), Some(""), Some(""), Some(""), Some(""), Some(""))),
      ListingDetails(Some(today), Some("Active"), Some("")))
  }

  lemma DefaultsFailListing(year: int, today: string, isEmail: string -> bool, isUrl: string -> bool)
    requires today != ""
    ensures Filter(Listing, Negate(Holds(DefaultValues(year, today), isEmail, isUrl))) == [Title, Description, Price]
  {
    var fails := Negate(Holds(DefaultValues(year, today), isEmail, isUrl));
    assert fails(Title) && fails(Description) && !fails(PropertyType) && !fails(ListingType) && fails(Price) && !fails(Currency);
    assert Filter([Currency], fails) == [];
    assert Filter([Price, Currency], fails) == [Price];
    assert Filter([ListingType, Price, Currency], fails) == [Price];
    assert Filter([PropertyType, ListingType, Price, Currency], fails) == [Price];
    assert Filter([Description, PropertyType, ListingType, Price, Currency], fails) == [Description, Price];
  }

  lemma DefaultsFailPlace(year: int, today: string, isEmail: string -> bool, isUrl: string -> bool)
    requires today != ""
    ensures Filter(Place, Negate(Holds(DefaultValues(year, today), isEmail, isUrl))) == [Address, City, State, PostalCode, Country]
  {
    var fails := Negate(Holds(DefaultValues(year, today), isEmail, isUrl));
    assert fails(Address) && fails(City) && fails(State) && fails(PostalCode) && fails(Country) && !fails(Bedrooms);
    assert Filter([Bedrooms], fails) == [];
    assert Filter([Country, Bedrooms], fails) == [Country];
    assert Filter([PostalCode, Country, Bedrooms], fails) == [PostalCode, Country];
    assert Filter([State, PostalCode, Country, Bedrooms], fails) == [State, PostalCode, Country];
    assert Filter([City, State, PostalCode, Country, Bedrooms], fails) == [City, State, PostalCode, Country];
  }

  lemma DefaultsFailBuilding(year: int, today: string, isEmail: string -> bool, isUrl: string -> bool)
    requires today != ""
    ensures Filter(Building, Negate(Holds(DefaultValues(year, today), isEmail, isUrl))) == [OwnerId]
  {
    var fails := Negate(Holds(DefaultValues(year, today), isEmail, isUrl));
    assert !fails(Bathrooms) && !fails(SquareFeet) && !fails(YearBuilt) && !fails(Images) && !fails(VirtualTour) && fails(OwnerId);
    assert Filter([OwnerId], fails) == [OwnerId];
    assert Filter([VirtualTour, OwnerId], fails) == [OwnerId];
    assert Filter([Images, VirtualTour, OwnerId], fails) == [OwnerId];
    assert Filter([YearBuilt, Images, VirtualTour, OwnerId], fails) == [OwnerId];
    assert Filter([SquareFeet, YearBuilt, Images, VirtualTour, OwnerId], fails) == [OwnerId];
  }

  lemma DefaultsFailOwner(year: int, today: string, isEmail: string -> bool, isUrl: string -> bool)
    ensures Filter([OwnerName, OwnerContactNumber, OwnerEmail], Negate(Holds(DefaultValues(year, today), isEmail, isUrl)))
      == [OwnerName, OwnerContactNumber, OwnerEmail]
  {
    var fails := Negate(Holds(DefaultValues(year, today), isEmail, isUrl));
    assert fails(OwnerName) && fails(OwnerContactNumber) && fails(OwnerEmail);
    assert Filter([OwnerEmail], fails) == [OwnerEmail];
    assert Filter([OwnerContactNumber, OwnerEmail], fails) == [OwnerContactNumber, OwnerEmail];
  }

  lemma DefaultsPassClosing(year: int, today: string, isEmail: string -> bool, isUrl: string -> bool)
    requires today != ""
    ensures Filter([AgentEmail, DateListed, ListingStatus], Negate(Holds(DefaultValues(year, today), isEmail, isUrl))) == []
  {
    var fails := Negate(Holds(DefaultValues(year, today), isEmail, isUrl));
    assert !fails(AgentEmail) && !fails(DateListed) && !fails(ListingStatus);
    assert Filter([ListingStatus], fails) == [];
    assert Filter([DateListed, ListingStatus], fails) == [];
  }

  lemma DefaultsFailPeople(year: int, today: string, isEmail: string -> bool, isUrl: string -> bool)
    requires today != ""
    ensures Filter(People, Negate(Holds(DefaultValues(year, today), isEmail, isUrl))) == [OwnerName, OwnerContactNumber, OwnerEmail]
  {
    var fails := Negate(Holds(DefaultValues(year, today), isEmail, isUrl));
    assert People == [OwnerName, OwnerContactNumber, OwnerEmail] + [AgentEmail, DateListed, ListingStatus];
    DefaultsFailOwner(year, today, isEmail, isUrl);
    DefaultsPassClosing(year, today, isEmail, isUrl);
    FilterConcat([OwnerName, OwnerContactNumber, OwnerEmail], [AgentEmail, DateListed, ListingStatus], fails);
  }

  /** The default values do not validate: they fail on the title, the description, the price, the location and the owner, and on nothing else. */
  lemma DefaultValuesIssues(year: int, today: string, isEmail: string -> bool, isUrl: string -> bool)
    requires today != ""
    ensures Issues(DefaultValues(year, today), isEmail, isUrl) ==
      [Title, Description, Price, Address, City, State, PostalCode, Country, OwnerId, OwnerName, OwnerContactNumber, OwnerEmail]
  {
    var fails := Negate(Holds(DefaultValues(year, today), isEmail, isUrl));
    assert Issues(DefaultValues(year, today), isEmail, isUrl) == Filter(SchemaOrder, fails);
    assert Filter(Listing + Place, fails) == [Title, Description, Price] + [Address, City, State, PostalCode, Country] by {
      DefaultsFailListing(year, today, isEmail, isUrl);
      DefaultsFailPlace(year, today, isEmail, isUrl);
      FilterConcat(Listing, Place, fails);
    }
    assert Filter(Listing + Place + Building, fails) == [Title, Description, Price] + [Address, City, State, PostalCode, Country] + [OwnerId] by {
      DefaultsFailBuilding(year, today, isEmail, isUrl);
      FilterConcat(Listing + Place, Building, fails);
    }
    assert Filter(SchemaOrder, fails) == [Title, Description, Price] + [Address, City, State, PostalCode, Country] + [OwnerId] + [OwnerName, OwnerContactNumber, OwnerEmail] by {
      DefaultsFailPeople(year, today, isEmail, isUrl);
      FilterConcat(Listing + Place + Building, People, fails);
    }
  }
}
