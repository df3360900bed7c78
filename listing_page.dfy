/**
 * The property listing table: a status/type filter with an "all" wildcard,
 * a column sort, and a page of five rows with Previous/Next buttons.
 */
module ListingPage {
  import opened Wrappers
  import opened Sequences
  import opened Ordering
  import opened TableControls

  datatype PropertyType = House | Apartment | Villa | Land
  datatype Status = ForSale | ForRent | Sold | Rented

  function TypeName(t: PropertyType): string {
    match t
    case House => "House"
    case Apartment => "Apartment"
    case Villa => "Villa"
    case Land => "Land"
  }

  function StatusName(s: Status): string {
    match s
    case ForSale => "For Sale"
    case ForRent => "For Rent"
    case Sold => "Sold"
    case Rented => "Rented"
  }

  /** One row of the table. */
  datatype Property = Property(
    id: string, title: string, propertyType: PropertyType, price: int, location: string,
    bedrooms: int, bathrooms: int, status: Status, area: int, image: string, agent: string)

  /** The keys of `Property`, any of which `sortData` accepts. */
  datatype Column = ById | ByTitle | ByType | ByPrice | ByLocation | ByBedrooms | ByBathrooms
                  | ByStatus | ByArea | ByImage | ByAgent

  /** `property[column]` */
  function ColumnValue(p: Property, c: Column): Key {
    match c
    case ById => Str(p.id)
    case ByTitle => Str(p.title)
    case ByType => Str(TypeName(p.propertyType))
    case ByPrice => Num(p.price)
    case ByLocation => Str(p.location)
    case ByBedrooms => Num(p.bedrooms)
    case ByBathrooms => Num(p.bathrooms)
    case ByStatus => Str(StatusName(p.status))
    case ByArea => Num(p.area)
    case ByImage => Str(p.image)
    case ByAgent => Str(p.agent)
  }

  /** The page's state hooks. */
  datatype PageState = PageState(
    sorting: Sorting<Column>, currentPage: int, itemsPerPage: nat, statusFilter: string, typeFilter: string)

  const InitialState := PageState(Sorting(None, Asc), 1, 5, "all", "all")

  predicate MatchesFilters(p: Property, statusFilter: string, typeFilter: string) {
    (statusFilter == "all" || StatusName(p.status) == statusFilter)
    && (typeFilter == "all" || TypeName(p.propertyType) == typeFilter)
  }

  /** `filteredProperties`: exactly the matching rows, in their original order and multiplicity. */
  function FilterProperties(items: seq<Property>, statusFilter: string, typeFilter: string): (r: seq<Property>)
    ensures statusFilter == "all" && typeFilter == "all" ==> r == items
    ensures forall p :: p in r <==> p in items && MatchesFilters(p, statusFilter, typeFilter)
    ensures forall p :: multiset(r)[p] == if MatchesFilters(p, statusFilter, typeFilter) then multiset(items)[p] else 0
  {
    var keep := (p: Property) => MatchesFilters(p, statusFilter, typeFilter);
    FilterMembers(items, keep);
    FilterMultiset(items, keep);
    if statusFilter == "all" && typeFilter == "all" then
      FilterKeepsAll(items, keep);
      Filter(items, keep)
    else
      Filter(items, keep)
  }

  /** The columns a header click sorts by. */
  function Columns(): (Property, Column) -> Key {
    (p: Property, c: Column) => ColumnValue(p, c)
  }

  /** `sortedProperties`: the filtered listings in the chosen column's order. */
  function SortedRows(items: seq<Property>, s: PageState): seq<Property> {
    SortRows(FilterProperties(items, s.statusFilter, s.typeFilter), s.sorting, Columns())
  }

  /** `paginatedProperties` */
  function VisibleRows(items: seq<Property>, s: PageState): seq<Property> {
    PageItems(SortedRows(items, s), s.currentPage, s.itemsPerPage)
  }

  function PageCount(items: seq<Property>, s: PageState): nat
    requires s.itemsPerPage >= 1
  {
    TotalPages(|SortedRows(items, s)|, s.itemsPerPage)
  }

  /** A page shows at most `itemsPerPage` rows, each of them a listing that passes both filters. */
  lemma VisibleRowsMatch(items: seq<Property>, s: PageState)
    ensures |VisibleRows(items, s)| <= s.itemsPerPage
    ensures forall p :: p in VisibleRows(items, s) ==> p in items && MatchesFilters(p, s.statusFilter, s.typeFilter)
  {
    var sorted := SortedRows(items, s);
    PageItemsAtMost(sorted, s.currentPage, s.itemsPerPage);
    forall p | p in VisibleRows(items, s)
      ensures p in items && MatchesFilters(p, s.statusFilter, s.typeFilter)
    {
      assert p in multiset(sorted);
    }
  }

  /** Header click on a column. */
  function ClickColumn(s: PageState, c: Column): PageState {
    s.(sorting := SortData(s.sorting, c))
  }

  function SelectStatus(s: PageState, value: string): PageState {
    s.(statusFilter := value)
  }

  function SelectType(s: PageState, value: string): PageState {
    s.(typeFilter := value)
  }

  function ClickPrevious(s: PageState): PageState {
    s.(currentPage := Previous(s.currentPage))
  }

  function ClickNext(items: seq<Property>, s: PageState): PageState
    requires s.itemsPerPage >= 1
  {
    s.(currentPage := Next(s.currentPage, PageCount(items, s)))
  }

  /** Previous never leaves page 1 behind; Next never passes the last page, and with no matching rows it sets page 0. */
  lemma PreviousNextClamp(items: seq<Property>, s: PageState)
    requires s.itemsPerPage >= 1
    ensures ClickPrevious(s).currentPage >= 1
    ensures ClickNext(items, s).currentPage <= PageCount(items, s)
    ensures |SortedRows(items, s)| == 0 && s.currentPage >= 0 ==> ClickNext(items, s).currentPage == 0
  {
  }
}
