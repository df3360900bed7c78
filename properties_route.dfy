/**
 * The `/api/properties` route: GET searches the `properties` table (optional
 * filters, a count under the same filter, newest first, one page of rows,
 * camelCase formatting); POST inserts one listing built from form data and
 * collects the URLs of the images it uploads.
 */
module PropertiesRoute {
  import opened Wrappers
  import opened Text
  import opened Sequences
  import opened Ordering
  import opened TableControls
  import opened PropertiesTable
  import opened SqlLike

  // ------------------------------------------------------------ numbers

  predicate IsDigit(c: char) { '0' <= c <= '9' }

  predicate AllDigits(s: string) {
    forall i :: 0 <= i < |s| ==> IsDigit(s[i])
  }

  /** The value of a run of decimal digits. */
  function DigitsValue(s: string): nat
    requires AllDigits(s)
  {
    if |s| == 0 then 0 else 10 * DigitsValue(s[..|s| - 1]) + (s[|s| - 1] as int - '0' as int)
  }

  /** The decimal digits of `n`, without leading zeros. */
  function DecimalText(n: nat): (r: string)
    ensures |r| > 0 && AllDigits(r)
  {
    if n < 10 then [('0' as int + n) as char] else DecimalText(n / 10) + [('0' as int + n % 10) as char]
  }

  /** The position of the first `.` in `s`, or `|s|` when there is none. */
  function DotIndex(s: string): (k: nat)
    ensures k <= |s|
    ensures k < |s| ==> s[k] == '.'
  {
    if |s| == 0 then 0 else if s[0] == '.' then 0 else 1 + DotIndex(s[1..])
  }

  /** No point comes before the first one. */
  lemma {:induction false} DotIndexIsFirst(s: string)
    ensures forall i :: 0 <= i < DotIndex(s) ==> s[i] != '.'
  {
    if |s| > 0 && s[0] != '.' {
      DotIndexIsFirst(s[1..]);
      assert forall i :: 1 <= i < DotIndex(s) ==> s[i] == s[1..][i - 1];
    }
  }

  /** Digits, optionally followed by `.` and more digits, with at least one digit in all. */
  function UnsignedValue(u: string): Option<real> {
    var k := DotIndex(u);
    PointValue(u[..k], if k < |u| then u[k + 1..] else "")
  }

  /** The number with these digits before and after the point, if they are digits and there is one at least. */
  function PointValue(whole: string, fraction: string): Option<real> {
    if AllDigits(whole) && AllDigits(fraction) && |whole| + |fraction| > 0 then
      Some(DigitsValue(whole) as real + FractionValue(fraction))
    else None
  }

  /** The value of the digits after a decimal point. */
  function FractionValue(f: string): real
    requires AllDigits(f)
  {
    if |f| == 0 then 0.0 else ((f[0] as int - '0' as int) as real + FractionValue(f[1..])) / 10.0
  }

  /**
   * `Number(t)` for text: surrounding white space is ignored, blank text is
   * 0, and decimal notation with an optional sign is its value. `None`
   * stands for every other text (exponents, hexadecimal, `Infinity`, `NaN`).
   */
  function NumberOf(t: string): Option<real> {
    var u := Trim(t);
    if u == "" then Some(0.0)
    else if u[0] == '-' then
      (var v := UnsignedValue(u[1..]); if v.Some? then Some(-v.value) else None)
    else if u[0] == '+' then UnsignedValue(u[1..])
    else UnsignedValue(u)
  }

  /** A real number without a fractional part. */
  predicate IsWhole(x: real) { x.Floor as real == x }

  lemma {:induction false} DotIndexAfterDigits(w: string, t: string)
    requires AllDigits(w)
    ensures DotIndex(w + t) == |w| + DotIndex(t)
  {
    if |w| > 0 {
      assert (w + t)[1..] == w[1..] + t;
      DotIndexAfterDigits(w[1..], t);
    } else {
      assert w + t == t;
    }
  }

  /** Digits, a point and digits read as the whole part and the fraction. */
  lemma UnsignedValueWithPoint(w: string, f: string)
    requires AllDigits(w) && AllDigits(f)
    ensures UnsignedValue(w + ("." + f)) == PointValue(w, f)
  {
    var u := w + ("." + f);
    assert DotIndex(u) == |w| by {
      DotIndexAfterDigits(w, "." + f);
      assert DotIndex("." + f) == 0;
    }
    assert u[..|w|] == w && u[|w| + 1..] == f;
  }

  /** Digits alone read as their value. */
  lemma UnsignedValueOfDigits(d: string)
    requires AllDigits(d) && |d| > 0
    ensures UnsignedValue(d) == Some(DigitsValue(d) as real)
  {
    DotIndexAfterDigits(d, "");
    assert d + "" == d;
    var k := DotIndex(d);
    assert k == |d|;
    assert d[..k] == d;
    assert UnsignedValue(d) == PointValue(d, "");
    assert FractionValue("") == 0.0;
  }

  /** Text with no white space at its ends and no sign is read unsigned. */
  lemma NumberOfUnsigned(u: string)
    requires Trimmed(u) && u != "" && u[0] != '-' && u[0] != '+'
    ensures NumberOf(u) == UnsignedValue(u)
  {
    TrimOfTrimmed(u);
  }

  /** A leading minus sign negates what follows it. */
  lemma NumberOfMinus(u: string)
    requires Trimmed("-" + u)
    ensures NumberOf("-" + u) == if UnsignedValue(u).Some? then Some(-UnsignedValue(u).value) else None
  {
    TrimOfTrimmed("-" + u);
    assert ("-" + u)[1..] == u;
  }

  /** `Number` reads back what decimal notation writes. */
  lemma NumberOfDecimalText(n: nat)
    ensures NumberOf(DecimalText(n)) == Some(n as real)
  {
    var d := DecimalText(n);
    assert !IsWhitespace(d[0]) && !IsWhitespace(d[|d| - 1]);
    NumberOfUnsigned(d);
    UnsignedValueOfDigits(d);
    DigitsValueOfDecimalText(n);
  }

  /** A minus sign before decimal notation gives the negative number. */
  lemma NumberOfNegative(n: nat)
    ensures NumberOf("-" + DecimalText(n)) == Some(-(n as real))
  {
    var d := DecimalText(n);
    assert !IsWhitespace(d[|d| - 1]) && ("-" + d)[|"-" + d| - 1] == d[|d| - 1];
    NumberOfMinus(d);
    UnsignedValueOfDigits(d);
    DigitsValueOfDecimalText(n);
  }

  lemma {:induction false} DigitsValueOfDecimalText(n: nat)
    ensures DigitsValue(DecimalText(n)) == n
  {
    var d := DecimalText(n);
    if n >= 10 {
      DigitsValueOfDecimalText(n / 10);
      assert d[..|d| - 1] == DecimalText(n / 10);
    }
  }

  /** A signed coordinate with a fraction is a number. */
  lemma NegativeFraction()
    ensures NumberOf("-0.5") == Some(-0.5)
  {
    assert UnsignedValue("0.5") == Some(0.5) by {
      UnsignedValueWithPoint("0", "5");
      assert "0" + ("." + "5") == "0.5";
      assert DigitsValue("0") == 0 by { assert "0"[..0] == ""; }
      assert FractionValue("5") == 0.5 by { assert "5"[1..] == ""; }
    }
    assert Trimmed("-0.5");
    assert "-0.5" == "-" + "0.5";
    NumberOfMinus("0.5");
  }

  /** A price with cents is a number. */
  lemma PriceWithCents()
    ensures NumberOf("12.50") == Some(12.5)
  {
    assert PointValue("12", "50") == Some(12.5) by {
      assert DigitsValue("12") == 12 by {
        assert "12"[..1] == "1" && "1"[..0] == "";
      }
      assert FractionValue("50") == 0.5 by {
        assert "50"[1..] == "0" && "0"[1..] == "";
      }
    }
    assert UnsignedValue("12.50") == PointValue("12", "50") by {
      UnsignedValueWithPoint("12", "50");
      assert "12" + ("." + "50") == "12.50";
    }
    assert Trimmed("12.50");
    NumberOfUnsigned("12.50");
  }

  /** Exponent notation is outside the decimal forms the model reads. */
  lemma ExponentIsNotRead()
    ensures NumberOf("1e3") == None
  {
    NumberOfUnsigned("1e3");
    assert "1e3" == "1" + "e3";
    DotIndexAfterDigits("1", "e3");
    assert DotIndex("e3") == 2 by { assert "e3"[1..] == "3" && "3"[1..] == ""; }
    assert !IsDigit("1e3"[1]);
  }

  // ------------------------------------------------------------ GET: query parameters

  /** `searchParams.get(key)`: the first value given for `key`. */
  function Param(params: seq<(string, string)>, key: string): (r: Option<string>)
    ensures r.Some? <==> exists i :: 0 <= i < |params| && params[i].0 == key
    ensures r.Some? ==> exists i :: 0 <= i < |params| && params[i] == (key, r.value)
  {
    if |params| == 0 then None
    else if params[0].0 == key then Some(params[0].1)
    else Param(params[1..], key)
  }

  /** A parameter that is present and not empty, as `if (value)` tests it. */
  function Given(params: seq<(string, string)>, key: string): Option<string> {
    var v := Param(params, key);
    if v.Some? && v.value != "" then v else None
  }

  /**
   * Numeric parameters are texts `Number` reads as numbers; `page` and
   * `count` are whole, and `count` is at least 1 (`count = 0` divides by
   * zero in `totalPages`).
   */
  predicate WellFormedParams(params: seq<(string, string)>) {
    && (Given(params, "minPrice").Some? ==> NumberOf(Given(params, "minPrice").value).Some?)
    && (Given(params, "maxPrice").Some? ==> NumberOf(Given(params, "maxPrice").value).Some?)
    && (Given(params, "page").Some? ==> NumberOf(Given(params, "page").value).Some?
                                        && IsWhole(NumberOf(Given(params, "page").value).value))
    && (Given(params, "count").Some? ==> NumberOf(Given(params, "count").value).Some?
                                         && IsWhole(NumberOf(Given(params, "count").value).value)
                                         && NumberOf(Given(params, "count").value).value >= 1.0)
  }

  /** The filters a GET request gives; the city parameter is kept as the `LIKE` pattern built from it. */
  datatype Filters = Filters(propertyType: Option<string>, minPrice: Option<real>, maxPrice: Option<real>,
                             cityPattern: Option<string>)

  /** The search a GET request asks for. */
  datatype Query = Query(filters: Filters, page: int, count: int)

  function NumberParam(params: seq<(string, string)>, key: string, default: string): int
    requires Given(params, key).Some? ==> NumberOf(Given(params, key).value).Some?
    requires NumberOf(default).Some?
  {
    NumberOf(Given(params, key).GetOr(default)).value.Floor
  }

  function ReadQuery(params: seq<(string, string)>): (q: Query)
    requires WellFormedParams(params)
    ensures q.count >= 1
  {
    DefaultTexts();
    var minPrice := Given(params, "minPrice");
    var maxPrice := Given(params, "maxPrice");
    var city := Given(params, "city");
    Query(Filters(Given(params, "propertyType"),
                  if minPrice.Some? then Some(NumberOf(minPrice.value).value) else None,
                  if maxPrice.Some? then Some(NumberOf(maxPrice.value).value) else None,
                  if city.Some? then Some(CityPattern(city.value)) else None),
          NumberParam(params, "page", "1"),
          NumberParam(params, "count", "10"))
  }

  /** The texts the handler falls back to read as 1 and 10. */
  lemma DefaultTexts()
    ensures NumberOf("1") == Some(1.0) && NumberOf("10") == Some(10.0) && NumberOf("0") == Some(0.0)
  {
    NumberOfDecimalText(0);
    NumberOfDecimalText(1);
    NumberOfDecimalText(10);
    assert DecimalText(10) == "10";
  }

  /** Without parameters: no filter, page 1, ten rows per page. */
  lemma QueryDefaults()
    ensures ReadQuery([]) == Query(Filters(None, None, None, None), 1, 10)
  {
    DefaultTexts();
    assert Given([], "page") == None && Given([], "count") == None;
    assert NumberParam([], "page", "1") == 1;
    assert NumberParam([], "count", "10") == 10;
  }

  /**
   * A price bound is set exactly when its parameter is present and not
   * empty, and it is the number the parameter reads as; so `""` sets no
   * bound while `"0"` sets a bound of 0.
   */
  lemma PriceBoundPresence(params: seq<(string, string)>)
    requires WellFormedParams(params)
    ensures ReadQuery(params).filters.minPrice.Some? <==> Param(params, "minPrice").Some? && Param(params, "minPrice").value != ""
    ensures ReadQuery(params).filters.minPrice.Some? ==> Some(ReadQuery(params).filters.minPrice.value) == NumberOf(Param(params, "minPrice").value)
    ensures ReadQuery(params).filters.maxPrice.Some? <==> Param(params, "maxPrice").Some? && Param(params, "maxPrice").value != ""
    ensures ReadQuery(params).filters.maxPrice.Some? ==> Some(ReadQuery(params).filters.maxPrice.value) == NumberOf(Param(params, "maxPrice").value)
    ensures NumberOf("0") == Some(0.0)
  {
    DefaultTexts();
  }

  // ------------------------------------------------------------ GET: the filter

  predicate TypeOk(r: Row, f: Filters) { f.propertyType.Some? ==> r.property_type == f.propertyType.value }
  predicate MinOk(r: Row, f: Filters) { f.minPrice.Some? ==> r.price >= f.minPrice.value }
  predicate MaxOk(r: Row, f: Filters) { f.maxPrice.Some? ==> r.price <= f.maxPrice.value }

  /** The `LIKE` pattern built from the city parameter. */
  function CityPattern(city: string): string { "%" + Lower(city) + "%" }

  predicate CityOk(r: Row, f: Filters) { f.cityPattern.Some? ==> Like(Lower(r.city), f.cityPattern.value) }

  /** A row is selected when it passes every filter the request gives. */
  predicate Matches(r: Row, f: Filters) { TypeOk(r, f) && MinOk(r, f) && MaxOk(r, f) && CityOk(r, f) }

  /** The first `k` filters, in the order the query applies them. */
  function Where(f: Filters, k: nat): Row -> bool {
    (r: Row) => (k >= 1 ==> TypeOk(r, f)) && (k >= 2 ==> MinOk(r, f))
                && (k >= 3 ==> MaxOk(r, f)) && (k >= 4 ==> CityOk(r, f))
  }

  function Selected(table: seq<Row>, f: Filters): seq<Row> {
    Filter(table, (r: Row) => Matches(r, f))
  }

  /** For city text without `%`, `_` or backslash, the city filter is a case-insensitive substring test. */
  lemma CityFilterIsSubstring(r: Row, params: seq<(string, string)>)
    requires WellFormedParams(params)
    requires Given(params, "city").Some? && Plain(Lower(Given(params, "city").value))
    ensures CityOk(r, ReadQuery(params).filters) <==> IsSubstring(Lower(Given(params, "city").value), Lower(r.city))
  {
    ContainsPattern(Lower(r.city), Lower(Given(params, "city").value));
  }

  /** Rows matching the query, counted one by one. */
  function CountMatching(table: seq<Row>, f: Filters): nat {
    if |table| == 0 then 0 else (if Matches(table[0], f) then 1 else 0) + CountMatching(table[1..], f)
  }

  lemma {:induction false} SelectedCount(table: seq<Row>, f: Filters)
    ensures |Selected(table, f)| == CountMatching(table, f)
  {
    if |table| > 0 {
      SelectedCount(table[1..], f);
    }
  }

  // ------------------------------------------------------------ GET: order and page

  function CreatedKey(r: Row): Key { Num(r.created_at) }

  /** `ORDER BY created_at DESC`; rows with equal timestamps keep their table order. */
  function Newest(rows: seq<Row>): seq<Row> {
    SortBy(rows, CreatedKey, true)
  }

  /** `LIMIT count OFFSET offset` */
  function Window<T>(rows: seq<T>, offset: nat, count: nat): (r: seq<T>)
    ensures |r| <= count
  {
    rows[Min(offset, |rows|)..Min(offset + count, |rows|)]
  }

  /** The rows a search returns, before formatting: page `page` of `count` rows of the newest-first selection. */
  function ResultRows(table: seq<Row>, f: Filters, page: int, count: int): seq<Row>
    requires page >= 1 && count >= 1
  {
    MulNonNegative(page - 1, count);
    Window(Newest(Selected(table, f)), (page - 1) * count, count)
  }

  /** Every row a search returns comes from the table and passes every filter. */
  lemma ResultRowsMatch(table: seq<Row>, f: Filters, page: int, count: int)
    requires page >= 1 && count >= 1
    ensures forall r :: r in ResultRows(table, f, page, count) ==> r in table && Matches(r, f)
  {
    var sorted := Newest(Selected(table, f));
    SortByCorrect(Selected(table, f), CreatedKey, true);
    FilterMembers(table, (r: Row) => Matches(r, f));
    forall r | r in ResultRows(table, f, page, count) ensures r in table && Matches(r, f) {
      assert r in sorted;
      assert r in multiset(sorted);
    }
  }

  /** The rows of a search are newest first. */
  lemma ResultRowsNewestFirst(table: seq<Row>, f: Filters, page: int, count: int)
    requires page >= 1 && count >= 1
    ensures forall i, j :: 0 <= i < j < |ResultRows(table, f, page, count)| ==>
      ResultRows(table, f, page, count)[i].created_at >= ResultRows(table, f, page, count)[j].created_at
  {
    SortByCorrect(Selected(table, f), CreatedKey, true);
    MulNonNegative(page - 1, count);
    WindowNewestFirst(Newest(Selected(table, f)), (page - 1) * count, count);
  }

  lemma WindowNewestFirst(sorted: seq<Row>, offset: nat, count: nat)
    requires Ordered(sorted, CreatedKey, true)
    ensures forall i, j :: 0 <= i < j < |Window(sorted, offset, count)| ==>
      Window(sorted, offset, count)[i].created_at >= Window(sorted, offset, count)[j].created_at
  {
    var start := Min(offset, |sorted|);
    var w := Window(sorted, offset, count);
    forall i, j | 0 <= i < j < |w| ensures w[i].created_at >= w[j].created_at {
      assert w[i] == sorted[start + i] && w[j] == sorted[start + j];
      assert !Before(CreatedKey(sorted[start + j]), CreatedKey(sorted[start + i]), true);
    }
  }

  /** `LIMIT count OFFSET (page - 1) * count` returns the page the listing page would show. */
  lemma ResultRowsArePage(table: seq<Row>, f: Filters, page: int, count: int)
    requires page >= 1 && count >= 1
    ensures ResultRows(table, f, page, count) == PageItems(Newest(Selected(table, f)), page, count)
  {
    PageItemsWindow(Newest(Selected(table, f)), page, count);
  }

  /** Each matching row is returned on exactly the page its position in the newest-first order says. */
  lemma EveryMatchIsOnAPage(table: seq<Row>, f: Filters, count: int, i: nat)
    requires count >= 1 && i < |Selected(table, f)|
    ensures 1 <= i / count + 1 <= TotalPages(|Selected(table, f)|, count)
    ensures |ResultRows(table, f, i / count + 1, count)| > i % count
    ensures ResultRows(table, f, i / count + 1, count)[i % count] == Newest(Selected(table, f))[i]
  {
    var sorted := Newest(Selected(table, f));
    assert |sorted| == |Selected(table, f)|;
    WindowHoldsEveryRow(sorted, count, i);
  }

  lemma WindowHoldsEveryRow<T>(s: seq<T>, count: nat, i: nat)
    requires count >= 1 && i < |s|
    ensures 1 <= i / count + 1 <= TotalPages(|s|, count)
    ensures |Window(s, (i / count + 1 - 1) * count, count)| > i % count
    ensures Window(s, (i / count + 1 - 1) * count, count)[i % count] == s[i]
  {
    EveryRowOnAPage(s, count, i);
    PageItemsWindow(s, i / count + 1, count);
  }

  /** A row newer than every row already stored, and matching the filters, heads the first page. */
  lemma NewestListingComesFirst(table: seq<Row>, row: Row, f: Filters, count: int)
    requires count >= 1 && Matches(row, f)
    requires forall i :: 0 <= i < |table| ==> table[i].created_at < row.created_at
    ensures |ResultRows(table + [row], f, 1, count)| > 0 && ResultRows(table + [row], f, 1, count)[0] == row
  {
    var s := Selected(table + [row], f);
    var sorted := Newest(s);
    SortByCorrect(s, CreatedKey, true);
    FilterMembers(table + [row], (r: Row) => Matches(r, f));
    assert row in table + [row];
    assert row in s;
    assert row in multiset(sorted);
    var j :| 0 <= j < |sorted| && sorted[j] == row;
    var first := sorted[0];
    assert first in s by {
      assert first in multiset(sorted);
    }
    assert first == row || first.created_at < row.created_at by {
      assert first in table + [row];
    }
    assert first.created_at >= row.created_at by {
      if j > 0 {
        assert !Before(CreatedKey(sorted[j]), CreatedKey(sorted[0]), true);
      }
    }
  }

  // ------------------------------------------------------------ GET: formatting

  /** One listing as the response shows it. */
  datatype Listing = Listing(
    id: string, title: string, description: Option<string>, price: real, propertyType: string,
    bedrooms: int, bathrooms: int, squareFeet: Option<int>, lotSize: Option<int>, yearBuilt: Option<int>,
    status: Option<string>, address: string, city: string, state: string, postalCode: string, country: string,
    latitude: Option<real>, longitude: Option<real>,
    hasGarage: Option<bool>, hasPool: Option<bool>, hasBasement: Option<bool>, hasFireplace: Option<bool>,
    parkingSpaces: Option<int>, heatingType: Option<string>, coolingType: Option<string>,
    imageUrls: seq<string>, videoUrl: Option<string>, floorPlans: seq<string>, agentId: string,
    createdAt: int, updatedAt: int)

  /**
   * `imageUrls`: text is decoded; text that is not JSON becomes a one-element
   * list, or the empty list when the text is empty; a decoded list is used
   * as it is and NULL gives the empty list.
   */
  function ImageUrls(field: JsonField, parseJson: string -> Option<seq<string>>): (urls: seq<string>)
    ensures field.JsonText? && parseJson(field.raw).Some? ==> urls == parseJson(field.raw).value
    ensures field.JsonText? && parseJson(field.raw).None? ==> urls == (if field.raw == "" then [] else [field.raw])
    ensures field.JsonList? ==> urls == field.items
    ensures field.JsonNull? ==> urls == []
  {
    match field
    case JsonText(raw) => if parseJson(raw).Some? then parseJson(raw).value else Filter([raw], (t: string) => t != "")
    case JsonList(items) => items
    case JsonNull => []
  }

  /** `floorPlans`: as `imageUrls`, except that text that is not JSON gives the empty list. */
  function FloorPlans(field: JsonField, parseJson: string -> Option<seq<string>>): (plans: seq<string>)
    ensures field.JsonText? && parseJson(field.raw).Some? ==> plans == parseJson(field.raw).value
    ensures field.JsonText? && parseJson(field.raw).None? ==> plans == []
    ensures field.JsonList? ==> plans == field.items
    ensures field.JsonNull? ==> plans == []
  {
    match field
    case JsonText(raw) => parseJson(raw).GetOr([])
    case JsonList(items) => items
    case JsonNull => []
  }

  function FormatRow(r: Row, parseJson: string -> Option<seq<string>>): Listing {
    Listing(
      r.id, r.title, r.description, r.price, r.property_type, r.bedrooms, r.bathrooms, r.square_feet,
      r.lot_size, r.year_built, r.status, r.address, r.city, r.state, r.postal_code, r.country,
      r.latitude, r.longitude, r.has_garage, r.has_pool, r.has_basement, r.has_fireplace,
      r.parking_spaces, r.heating_type, r.cooling_type, ImageUrls(r.image_urls, parseJson),
      r.video_url, FloorPlans(r.floor_plans, parseJson), r.agent_id, r.created_at, r.updated_at)
  }

  /** The row a listing shows, with its lists as decoded `json` values. */
  function ListingRow(p: Listing): Row {
    Row(
      p.id, p.title, p.description, p.price, p.propertyType, p.bedrooms, p.bathrooms, p.squareFeet,
      p.lotSize, p.yearBuilt, p.status, p.address, p.city, p.state, p.postalCode, p.country,
      p.latitude, p.longitude, p.hasGarage, p.hasPool, p.hasBasement, p.hasFireplace,
      p.parkingSpaces, p.heatingType, p.coolingType, JsonList(p.imageUrls),
      p.videoUrl, JsonList(p.floorPlans), p.agentId, p.createdAt, p.updatedAt)
  }

  /** Formatting renames columns and loses nothing: for decoded lists it is undone by `ListingRow`. */
  lemma FormatRowRoundTrip(r: Row, parseJson: string -> Option<seq<string>>)
    requires r.image_urls.JsonList? && r.floor_plans.JsonList?
    ensures ListingRow(FormatRow(r, parseJson)) == r
  {
  }

  /** `rows.map(format)` */
  function FormatAll(rows: seq<Row>, parseJson: string -> Option<seq<string>>): (out: seq<Listing>)
    ensures |out| == |rows|
    ensures forall i :: 0 <= i < |rows| ==> out[i] == FormatRow(rows[i], parseJson)
  {
    seq(|rows|, i requires 0 <= i < |rows| => FormatRow(rows[i], parseJson))
  }

  // ------------------------------------------------------------ GET: the handler

  datatype Pagination = Pagination(total: nat, page: int, count: int, totalPages: nat)

  datatype SearchResponse = Found(properties: seq<Listing>, pagination: Pagination) | SearchFailed

  /** The response a search should give. A page below 1 makes the offset negative and the query fail. */
  function Search(table: seq<Row>, q: Query, parseJson: string -> Option<seq<string>>): SearchResponse
    requires q.count >= 1
  {
    if q.page < 1 then SearchFailed
    else
      var total := |Selected(table, q.filters)|;
      Found(FormatAll(ResultRows(table, q.filters, q.page, q.count), parseJson), Pagination(total, q.page, q.count, CeilDiv(total, q.count)))
  }

  /**
   * `total` is the number of matching rows whatever page is asked for,
   * `page` and `count` are echoed, and `totalPages` is the fewest pages of
   * `count` rows that hold them all.
   */
  lemma SearchPagination(table: seq<Row>, q: Query, parseJson: string -> Option<seq<string>>)
    requires q.count >= 1 && q.page >= 1
    ensures Search(table, q, parseJson).Found?
    ensures var p := Search(table, q, parseJson).pagination;
      && p.total == CountMatching(table, q.filters)
      && p.page == q.page && p.count == q.count
      && p.totalPages * q.count >= p.total
      && (p.totalPages == 0 || (p.totalPages - 1) * q.count < p.total)
    ensures forall other: int :: other >= 1 ==>
      Search(table, q.(page := other), parseJson).pagination.total == Search(table, q, parseJson).pagination.total
  {
    SelectedCount(table, q.filters);
  }

  /** The `WHERE` clauses GET adds one at a time, each only when its parameter is given. */
  method BuildQuery(table: seq<Row>, f: Filters) returns (query: seq<Row>)
    ensures query == Selected(table, f)
  {
    query := table;
    assert query == Filter(table, Where(f, 0)) by {
      FilterKeepsAll(table, Where(f, 0));
    }
    if f.propertyType.Some? {
      var byType := (r: Row) => r.property_type == f.propertyType.value;
      assert Filter(query, byType) == Filter(table, Where(f, 1)) by {
        FilterTwice(table, Where(f, 0), byType, Where(f, 1));
      }
      query := Filter(query, byType);
    } else {
      assert query == Filter(table, Where(f, 1)) by {
        FilterCongruent(table, Where(f, 0), Where(f, 1));
      }
    }
    if f.minPrice.Some? {
      var atLeast := (r: Row) => r.price >= f.minPrice.value;
      assert Filter(query, atLeast) == Filter(table, Where(f, 2)) by {
        FilterTwice(table, Where(f, 1), atLeast, Where(f, 2));
      }
      query := Filter(query, atLeast);
    } else {
      assert query == Filter(table, Where(f, 2)) by {
        FilterCongruent(table, Where(f, 1), Where(f, 2));
      }
    }
    if f.maxPrice.Some? {
      var atMost := (r: Row) => r.price <= f.maxPrice.value;
      assert Filter(query, atMost) == Filter(table, Where(f, 3)) by {
        FilterTwice(table, Where(f, 2), atMost, Where(f, 3));
      }
      query := Filter(query, atMost);
    } else {
      assert query == Filter(table, Where(f, 3)) by {
        FilterCongruent(table, Where(f, 2), Where(f, 3));
      }
    }
    if f.cityPattern.Some? {
      var pattern := f.cityPattern.value;
      var inCity := (r: Row) => Like(Lower(r.city), pattern);
      assert Filter(query, inCity) == Filter(table, Where(f, 4)) by {
        FilterTwice(table, Where(f, 3), inCity, Where(f, 4));
      }
      query := Filter(query, inCity);
    } else {
      assert query == Filter(table, Where(f, 4)) by {
        FilterCongruent(table, Where(f, 3), Where(f, 4));
      }
    }
    FilterCongruent(table, Where(f, 4), (r: Row) => Matches(r, f));
  }

  /** The offset `(page - 1) * count` is negative exactly when the page is below 1. */
  lemma NegativeOffset(page: int, count: int)
    requires count >= 1
    ensures (page - 1) * count < 0 <==> page < 1
  {
    if page >= 1 {
      MulNonNegative(page - 1, count);
    } else {
      MulMonotone(page - 1, -1, count);
    }
  }

  /** GET: builds the query, counts under the same filter, then sorts, pages and formats. */
  method HandleGet(table: seq<Row>, params: seq<(string, string)>, parseJson: string -> Option<seq<string>>)
    returns (response: SearchResponse)
    requires WellFormedParams(params)
    ensures response == Search(table, ReadQuery(params), parseJson)
  {
    var q := ReadQuery(params);
    var offset := (q.page - 1) * q.count;
    NegativeOffset(q.page, q.count);
    var query := BuildQuery(table, q.filters);
    var total := |Selected(table, q.filters)|;
    if offset < 0 {
      return SearchFailed;
    }
    var rows := Window(Newest(query), offset, q.count);
    response := Found(FormatAll(rows, parseJson), Pagination(total, q.page, q.count, CeilDiv(total, q.count)));
  }

  // ------------------------------------------------------------ POST: the row

  datatype File = File(name: string, content: seq<bv8>)

  datatype FormValue = Text(text: string) | Upload(file: File)

  /** `formData.get(key)`: the first value under `key`. */
  function FormGet(entries: seq<(string, FormValue)>, key: string): (v: Option<FormValue>)
    ensures v.None? <==> forall i :: 0 <= i < |entries| ==> entries[i].0 != key
    ensures v.Some? ==> exists i :: 0 <= i < |entries| && entries[i] == (key, v.value)
  {
    if |entries| == 0 then None
    else if entries[0].0 == key then Some(entries[0].1)
    else FormGet(entries[1..], key)
  }

  /** A form value for a text column: missing is NULL, text is stored as it is, and a file is not converted (the model fails the insert). */
  function TextCell(v: Option<FormValue>): Cell<string> {
    match v
    case None => Null
    case Some(Text(t)) => Value(t)
    case Some(Upload(_)) => Unconvertible
  }

  /**
   * `Number(value)` for an `integer` column: missing is 0 (`Number(null)`),
   * blank text is 0, and a number with a fractional part is rejected by the
   * column, as is `NaN`.
   */
  function IntegerCell(v: Option<FormValue>): Cell<int> {
    match v
    case None => Value(0)
    case Some(Text(t)) =>
      if NumberOf(t).Some? && IsWhole(NumberOf(t).value) then Value(NumberOf(t).value.Floor) else Unconvertible
    case Some(Upload(_)) => Unconvertible
  }

  /** `Number(value)` for a `decimal` column: missing is 0, otherwise the number read. */
  function DecimalCell(v: Option<FormValue>): Cell<real> {
    match v
    case None => Value(0.0)
    case Some(Text(t)) => if NumberOf(t).Some? then Value(NumberOf(t).value) else Unconvertible
    case Some(Upload(_)) => Unconvertible
  }

  /** The text of a form value; a file or a missing value has none. */
  function TextOf(v: Option<FormValue>): string {
    if v.Some? && v.value.Text? then v.value.text else ""
  }

  /** `value === 'true'` */
  function FlagCell(v: Option<FormValue>): Cell<bool> {
    Value(v == Some(Text("true")))
  }

  /** `value || '[]'`; a file is not converted (the model fails the insert). */
  function JsonCell(v: Option<FormValue>): Cell<string> {
    match v
    case None => Value("[]")
    case Some(Text(t)) => Value(if t == "" then "[]" else t)
    case Some(Upload(_)) => Unconvertible
  }

  /** The values POST inserts; `image_urls` is not among them. */
  function PostRow(entries: seq<(string, FormValue)>, id: string, now: int): NewRow {
    var get := (key: string) => FormGet(entries, key);
    NewRow(
      Value(id), TextCell(get("title")), TextCell(get("description")), DecimalCell(get("price")),
      TextCell(get("propertyType")), IntegerCell(get("bedrooms")), IntegerCell(get("bathrooms")),
      IntegerCell(get("squareFeet")), IntegerCell(get("lotSize")), IntegerCell(get("yearBuilt")),
      TextCell(get("status")), TextCell(get("address")), TextCell(get("city")), TextCell(get("state")),
      TextCell(get("postalCode")), TextCell(get("country")),
      DecimalCell(get("latitude")), DecimalCell(get("longitude")),
      FlagCell(get("hasGarage")), FlagCell(get("hasPool")), FlagCell(get("hasBasement")), FlagCell(get("hasFireplace")),
      IntegerCell(get("parkingSpaces")), TextCell(get("heatingType")), TextCell(get("coolingType")),
      Omitted, TextCell(get("videoUrl")), JsonCell(get("floorPlans")), TextCell(get("agentId")),
      Value(now), Value(now))
  }

  /**
   * What a successful POST stores: both timestamps are the request time,
   * each flag is true exactly when its form value is the text `true`, absent
   * numbers are 0, absent floor plans are the empty list, the uploaded image
   * URLs are not stored, and an absent status is stored as NULL rather than
   * the column default.
   */
  lemma PostStoredRow(table: seq<Row>, entries: seq<(string, FormValue)>, id: string, now: int,
                      isUuid: string -> bool, parseJson: string -> Option<seq<string>>)
    requires parseJson("[]") == Some([])
    requires InsertRow(table, PostRow(entries, id, now), now, isUuid, parseJson).Success?
    ensures var row := InsertRow(table, PostRow(entries, id, now), now, isUuid, parseJson).value;
      && row.id == id && row.created_at == now && row.updated_at == now
      && row.has_garage == Some(FormGet(entries, "hasGarage") == Some(Text("true")))
      && row.has_pool == Some(FormGet(entries, "hasPool") == Some(Text("true")))
      && row.has_basement == Some(FormGet(entries, "hasBasement") == Some(Text("true")))
      && row.has_fireplace == Some(FormGet(entries, "hasFireplace") == Some(Text("true")))
      && (FormGet(entries, "latitude").None? ==> row.latitude == Some(0.0))
      && (FormGet(entries, "longitude").None? ==> row.longitude == Some(0.0))
      && (FormGet(entries, "parkingSpaces").None? ==> row.parking_spaces == Some(0))
      && (FormGet(entries, "price").None? ==> row.price == 0.0)
      && (FormGet(entries, "price").Some? ==> NumberOf(TextOf(FormGet(entries, "price"))) == Some(row.price))
      && (FormGet(entries, "latitude").Some? ==> NumberOf(TextOf(FormGet(entries, "latitude"))) == row.latitude)
      && (FormGet(entries, "longitude").Some? ==> NumberOf(TextOf(FormGet(entries, "longitude"))) == row.longitude)
      && (FormGet(entries, "floorPlans").None? ==> row.floor_plans == JsonList([]))
      && row.image_urls == JsonList([])
      && (FormGet(entries, "status").None? ==> row.status == None)
  {
  }

  /** POST fails whenever the form lacks a title, whatever else it holds. */
  lemma PostNeedsTitle(table: seq<Row>, entries: seq<(string, FormValue)>, id: string, now: int,
                       isUuid: string -> bool, parseJson: string -> Option<seq<string>>)
    requires FormGet(entries, "title").None?
    ensures InsertRow(table, PostRow(entries, id, now), now, isUuid, parseJson).Failure?
  {
  }

  // ------------------------------------------------------------ POST: the uploads

  /** An entry the upload loop sends: a file under a key starting with `image_`. */
  predicate IsImageFile(e: (string, FormValue)) {
    StartsWith(e.0, "image_") && e.1.Upload?
  }

  /** The URL one entry contributes: its upload's result, when that is a non-empty text (`if (imageUrl)`). */
  function Contribution(e: (string, FormValue), upload: File -> Option<string>): seq<string> {
    if IsImageFile(e) && upload(e.1.file).Some? && upload(e.1.file).value != "" then [upload(e.1.file).value] else []
  }

  /** The URLs the loop collects from `entries`, in entry order. */
  function UploadedUrls(entries: seq<(string, FormValue)>, upload: File -> Option<string>): seq<string> {
    if |entries| == 0 then []
    else UploadedUrls(entries[..|entries| - 1], upload) + Contribution(entries[|entries| - 1], upload)
  }

  /** Collecting over two runs of entries is collecting over each in turn: form order is kept. */
  lemma {:induction false} UploadedUrlsAppend(a: seq<(string, FormValue)>, b: seq<(string, FormValue)>,
                                              upload: File -> Option<string>)
    ensures UploadedUrls(a + b, upload) == UploadedUrls(a, upload) + UploadedUrls(b, upload)
    decreases |b|
  {
    if |b| == 0 {
      assert a + b == a;
    } else {
      assert (a + b)[..|a + b| - 1] == a + b[..|b| - 1];
      UploadedUrlsAppend(a, b[..|b| - 1], upload);
    }
  }

  /** A URL is collected exactly when it is not empty and some image-file entry's upload returned it. */
  lemma {:induction false} UploadedUrlsExactly(entries: seq<(string, FormValue)>, upload: File -> Option<string>, u: string)
    ensures u in UploadedUrls(entries, upload) <==>
      u != "" && exists i :: 0 <= i < |entries| && IsImageFile(entries[i]) && upload(entries[i].1.file) == Some(u)
    decreases |entries|
  {
    if |entries| > 0 {
      var init := entries[..|entries| - 1];
      UploadedUrlsExactly(init, upload, u);
      if exists i :: 0 <= i < |init| && IsImageFile(init[i]) && upload(init[i].1.file) == Some(u) {
        var i :| 0 <= i < |init| && IsImageFile(init[i]) && upload(init[i].1.file) == Some(u);
        assert entries[i] == init[i];
      }
      if i :| 0 <= i < |entries| && IsImageFile(entries[i]) && upload(entries[i].1.file) == Some(u) {
        if i < |init| {
          assert init[i] == entries[i];
        }
      }
    }
  }

  datatype PostResponse = Created(property: Row, imageUrls: seq<string>) | PostFailed

  /**
   * POST: inserts the row built from the form, then uploads every image file
   * in form order, keeping the non-empty URLs the uploads return. A failed
   * insert leaves the table as it was and uploads nothing.
   */
  method HandlePost(table: seq<Row>, entries: seq<(string, FormValue)>, id: string, now: int,
                    isUuid: string -> bool, parseJson: string -> Option<seq<string>>,
                    upload: File -> Option<string>)
    returns (stored: seq<Row>, response: PostResponse)
    ensures var inserted := InsertRow(table, PostRow(entries, id, now), now, isUuid, parseJson);
      && (inserted.Failure? ==> stored == table && response == PostFailed)
      && (inserted.Success? ==> stored == table + [inserted.value]
                                && response == Created(inserted.value, UploadedUrls(entries, upload)))
  {
    var inserted := InsertRow(table, PostRow(entries, id, now), now, isUuid, parseJson);
    if inserted.Failure? {
      return table, PostFailed;
    }
    stored := table + [inserted.value];
    var urls: seq<string> := [];
    var i := 0;
    while i < |entries|
      invariant 0 <= i <= |entries|
      invariant urls == UploadedUrls(entries[..i], upload)
    {
      var (key, value) := entries[i];
      if StartsWith(key, "image_") && value.Upload? {
        var url := upload(value.file);
        if url.Some? && url.value != "" {
          urls := urls + [url.value];
        }
      }
      assert entries[..i + 1][..i] == entries[..i];
      i := i + 1;
    }
    assert entries[..|entries|] == entries;
    response := Created(inserted.value, urls);
  }
}
