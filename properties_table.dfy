/**
 * The `properties` table as the migration creates it: its columns, which of
 * them are NOT NULL, their defaults, the primary key and the numeric column
 * types, and what an INSERT does with the values it is given.
 */
module PropertiesTable {
  import opened Wrappers

  /** What an INSERT supplies for one column: nothing, an explicit NULL, a value, or a value the column type rejects. */
  datatype Cell<T> = Omitted | Null | Value(v: T) | Unconvertible

  /**
   * What reading a `json` column yields: NULL, a string the reader must still
   * decode, or a list the driver has already decoded.
   */
  datatype JsonField = JsonNull | JsonText(raw: string) | JsonList(items: seq<string>)

  /**
   * One stored row. Field names are the column names; NOT NULL columns have
   * plain types and nullable ones `Option`. `integer` columns hold an `int`,
   * `decimal` columns a `real`, and the two timestamps an instant in milliseconds.
   */
  datatype Row = Row(
    id: string, title: string, description: Option<string>, price: real, property_type: string,
    bedrooms: int, bathrooms: int, square_feet: Option<int>, lot_size: Option<int>, year_built: Option<int>,
    status: Option<string>, address: string, city: string, state: string, postal_code: string, country: string,
    latitude: Option<real>, longitude: Option<real>,
    has_garage: Option<bool>, has_pool: Option<bool>, has_basement: Option<bool>, has_fireplace: Option<bool>,
    parking_spaces: Option<int>, heating_type: Option<string>, cooling_type: Option<string>,
    image_urls: JsonField, video_url: Option<string>, floor_plans: JsonField, agent_id: string,
    created_at: int, updated_at: int)

  /** The column values of one INSERT. JSON columns receive JSON text. */
  datatype NewRow = NewRow(
    id: Cell<string>, title: Cell<string>, description: Cell<string>, price: Cell<real>, property_type: Cell<string>,
    bedrooms: Cell<int>, bathrooms: Cell<int>, square_feet: Cell<int>, lot_size: Cell<int>, year_built: Cell<int>,
    status: Cell<string>, address: Cell<string>, city: Cell<string>, state: Cell<string>, postal_code: Cell<string>,
    country: Cell<string>, latitude: Cell<real>, longitude: Cell<real>,
    has_garage: Cell<bool>, has_pool: Cell<bool>, has_basement: Cell<bool>, has_fireplace: Cell<bool>,
    parking_spaces: Cell<int>, heating_type: Cell<string>, cooling_type: Cell<string>,
    image_urls: Cell<string>, video_url: Cell<string>, floor_plans: Cell<string>, agent_id: Cell<string>,
    created_at: Cell<int>, updated_at: Cell<int>)

  /** `integer` is a signed 32-bit column. */
  predicate FitsInteger(n: int) { -0x8000_0000 <= n < 0x8000_0000 }

  /** A number fits `decimal(precision, scale)` when its integer part has at most `precision - scale` digits. */
  predicate FitsDecimal(x: real, integerDigits: nat) {
    var bound: real := Pow10(integerDigits) as real;
    -bound < x < bound
  }

  function Pow10(k: nat): (r: nat)
    ensures r >= 1
  {
    if k == 0 then 1 else 10 * Pow10(k - 1)
  }

  /** The value a column ends up holding; `None` is NULL. */
  function Stored<T>(c: Cell<T>, default: Option<T>): Option<T> {
    match c
    case Omitted => default
    case Null => None
    case Value(v) => Some(v)
    case Unconvertible => None
  }

  /** The cell converts to the column's type, and a value lies in the column's range. */
  predicate Converts<T>(c: Cell<T>, inRange: T -> bool) {
    match c
    case Unconvertible => false
    case Value(v) => inRange(v)
    case _ => true
  }

  /** A `json` column stores the decoded text it is given; `parseJson` decodes JSON text holding a list of strings. */
  function JsonStored(c: Cell<string>, parseJson: string -> Option<seq<string>>): JsonField {
    match c
    case Omitted => EmptyJsonList
    case Value(text) => if parseJson(text).Some? then JsonList(parseJson(text).value) else JsonNull
    case _ => JsonNull
  }

  /** The column default `'[]'`, as the driver returns it. */
  const EmptyJsonList := JsonList([])

  /** Every value converts to its column's type: numbers in range, `uuid` columns holding UUIDs, `json` columns holding a list of strings (narrower than PostgreSQL, which takes any JSON). */
  predicate AllConvert(r: NewRow, isUuid: string -> bool, parseJson: string -> Option<seq<string>>) {
    var anyText := (s: string) => true;
    var anyBool := (b: bool) => true;
    var anyTime := (t: int) => true;
    var integer := (n: int) => FitsInteger(n);
    var json := (t: string) => parseJson(t).Some?;
    && Converts(r.id, isUuid) && Converts(r.title, anyText) && Converts(r.description, anyText)
    && Converts(r.price, (x: real) => FitsDecimal(x, 10)) && Converts(r.property_type, anyText)
    && Converts(r.bedrooms, integer) && Converts(r.bathrooms, integer) && Converts(r.square_feet, integer)
    && Converts(r.lot_size, integer) && Converts(r.year_built, integer) && Converts(r.status, anyText)
    && Converts(r.address, anyText) && Converts(r.city, anyText) && Converts(r.state, anyText)
    && Converts(r.postal_code, anyText) && Converts(r.country, anyText)
    && Converts(r.latitude, (x: real) => FitsDecimal(x, 2)) && Converts(r.longitude, (x: real) => FitsDecimal(x, 3))
    && Converts(r.has_garage, anyBool) && Converts(r.has_pool, anyBool) && Converts(r.has_basement, anyBool)
    && Converts(r.has_fireplace, anyBool) && Converts(r.parking_spaces, integer)
    && Converts(r.heating_type, anyText) && Converts(r.cooling_type, anyText) && Converts(r.image_urls, json)
    && Converts(r.video_url, anyText) && Converts(r.floor_plans, json) && Converts(r.agent_id, isUuid)
    && Converts(r.created_at, anyTime) && Converts(r.updated_at, anyTime)
  }

  /** No NOT NULL column (the primary key included) would be NULL. */
  predicate NotNullsPresent(r: NewRow, now: int) {
    && Stored(r.id, None).Some? && Stored(r.title, None).Some? && Stored(r.price, None).Some?
    && Stored(r.property_type, None).Some? && Stored(r.bedrooms, None).Some? && Stored(r.bathrooms, None).Some?
    && Stored(r.address, None).Some? && Stored(r.city, None).Some? && Stored(r.state, None).Some?
    && Stored(r.postal_code, None).Some? && Stored(r.country, None).Some? && Stored(r.agent_id, None).Some?
    && Stored(r.created_at, Some(now)).Some? && Stored(r.updated_at, Some(now)).Some?
  }

  function Ids(table: seq<Row>): set<string> {
    set i | 0 <= i < |table| :: table[i].id
  }

  datatype InsertError = InvalidValue | NotNullViolation | UniqueViolation

  /** The row an INSERT stores, once every check has passed. */
  function StoredRow(r: NewRow, now: int, parseJson: string -> Option<seq<string>>): Row
    requires NotNullsPresent(r, now)
  {
    Row(
      Stored(r.id, None).value, Stored(r.title, None).value, Stored(r.description, None),
      Stored(r.price, None).value, Stored(r.property_type, None).value,
      Stored(r.bedrooms, None).value, Stored(r.bathrooms, None).value, Stored(r.square_feet, None),
      Stored(r.lot_size, None), Stored(r.year_built, None), Stored(r.status, Some("PENDING")),
      Stored(r.address, None).value, Stored(r.city, None).value, Stored(r.state, None).value,
      Stored(r.postal_code, None).value, Stored(r.country, None).value,
      Stored(r.latitude, None), Stored(r.longitude, None),
      Stored(r.has_garage, Some(false)), Stored(r.has_pool, Some(false)),
      Stored(r.has_basement, Some(false)), Stored(r.has_fireplace, Some(false)),
      Stored(r.parking_spaces, None), Stored(r.heating_type, Some("NONE")), Stored(r.cooling_type, Some("NONE")),
      JsonStored(r.image_urls, parseJson), Stored(r.video_url, None), JsonStored(r.floor_plans, parseJson),
      Stored(r.agent_id, None).value, Stored(r.created_at, Some(now)).value, Stored(r.updated_at, Some(now)).value)
  }

  /**
   * `INSERT INTO properties ... RETURNING *`: type conversion is checked
   * first, then NOT NULL, then the primary key; otherwise the stored row,
   * with defaults in the columns the statement left out.
   */
  function InsertRow(table: seq<Row>, r: NewRow, now: int, isUuid: string -> bool, parseJson: string -> Option<seq<string>>)
    : (res: Result<Row, InsertError>)
    ensures res == Failure(InvalidValue) <==> !AllConvert(r, isUuid, parseJson)
    ensures res == Failure(NotNullViolation) <==> AllConvert(r, isUuid, parseJson) && !NotNullsPresent(r, now)
    ensures res == Failure(UniqueViolation) <==>
      AllConvert(r, isUuid, parseJson) && NotNullsPresent(r, now) && r.id.v in Ids(table)
    ensures res.Success? ==> res.value == StoredRow(r, now, parseJson)
    ensures res.Success? ==> res.value.id !in Ids(table)
    ensures res.Success? && r.status.Omitted? ==> res.value.status == Some("PENDING")
    ensures res.Success? && r.heating_type.Omitted? ==> res.value.heating_type == Some("NONE")
    ensures res.Success? && r.cooling_type.Omitted? ==> res.value.cooling_type == Some("NONE")
    ensures res.Success? && r.has_garage.Omitted? ==> res.value.has_garage == Some(false)
    ensures res.Success? && r.has_pool.Omitted? ==> res.value.has_pool == Some(false)
    ensures res.Success? && r.has_basement.Omitted? ==> res.value.has_basement == Some(false)
    ensures res.Success? && r.has_fireplace.Omitted? ==> res.value.has_fireplace == Some(false)
    ensures res.Success? && r.image_urls.Omitted? ==> res.value.image_urls == EmptyJsonList
    ensures res.Success? && r.floor_plans.Omitted? ==> res.value.floor_plans == EmptyJsonList
    ensures res.Success? && r.created_at.Omitted? ==> res.value.created_at == now
    ensures res.Success? && r.updated_at.Omitted? ==> res.value.updated_at == now
  {
    if !AllConvert(r, isUuid, parseJson) then Failure(InvalidValue)
    else if !NotNullsPresent(r, now) then Failure(NotNullViolation)
    else if r.id.v in Ids(table) then Failure(UniqueViolation)
    else Success(StoredRow(r, now, parseJson))
  }

  /** The column holds what the statement supplied: a value as it is, an explicit NULL as NULL. */
  predicate Keeps<T(==)>(c: Cell<T>, stored: Option<T>) {
    && (c.Value? ==> stored == Some(c.v))
    && (c.Null? ==> stored == None)
  }

  /** Every column of an inserted row holds the value the INSERT gave it. */
  lemma SuppliedValuesAreStored(table: seq<Row>, r: NewRow, now: int, isUuid: string -> bool,
                                parseJson: string -> Option<seq<string>>)
    requires InsertRow(table, r, now, isUuid, parseJson).Success?
    ensures var row := InsertRow(table, r, now, isUuid, parseJson).value;
      && Keeps(r.id, Some(row.id)) && Keeps(r.title, Some(row.title)) && Keeps(r.description, row.description)
      && Keeps(r.price, Some(row.price)) && Keeps(r.property_type, Some(row.property_type))
      && Keeps(r.bedrooms, Some(row.bedrooms)) && Keeps(r.bathrooms, Some(row.bathrooms))
      && Keeps(r.square_feet, row.square_feet) && Keeps(r.lot_size, row.lot_size) && Keeps(r.year_built, row.year_built)
      && Keeps(r.status, row.status) && Keeps(r.address, Some(row.address)) && Keeps(r.city, Some(row.city))
      && Keeps(r.state, Some(row.state)) && Keeps(r.postal_code, Some(row.postal_code))
      && Keeps(r.country, Some(row.country)) && Keeps(r.latitude, row.latitude) && Keeps(r.longitude, row.longitude)
      && Keeps(r.has_garage, row.has_garage) && Keeps(r.has_pool, row.has_pool)
      && Keeps(r.has_basement, row.has_basement) && Keeps(r.has_fireplace, row.has_fireplace)
      && Keeps(r.parking_spaces, row.parking_spaces) && Keeps(r.heating_type, row.heating_type)
      && Keeps(r.cooling_type, row.cooling_type) && Keeps(r.video_url, row.video_url)
      && Keeps(r.agent_id, Some(row.agent_id))
      && Keeps(r.created_at, Some(row.created_at)) && Keeps(r.updated_at, Some(row.updated_at))
      && (r.image_urls.Value? ==> row.image_urls == JsonList(parseJson(r.image_urls.v).value))
      && (r.floor_plans.Value? ==> row.floor_plans == JsonList(parseJson(r.floor_plans.v).value))
  {
  }

  /** What the column types guarantee of every stored row. */
  predicate RowFitsColumns(row: Row, isUuid: string -> bool) {
    && isUuid(row.id) && isUuid(row.agent_id)
    && FitsDecimal(row.price, 10) && FitsInteger(row.bedrooms) && FitsInteger(row.bathrooms)
    && (row.square_feet.Some? ==> FitsInteger(row.square_feet.value))
    && (row.lot_size.Some? ==> FitsInteger(row.lot_size.value))
    && (row.year_built.Some? ==> FitsInteger(row.year_built.value))
    && (row.parking_spaces.Some? ==> FitsInteger(row.parking_spaces.value))
    && (row.latitude.Some? ==> FitsDecimal(row.latitude.value, 2))
    && (row.longitude.Some? ==> FitsDecimal(row.longitude.value, 3))
  }

  /** The table invariant: every row fits its columns, and the primary key is unique. */
  ghost predicate ValidTable(table: seq<Row>, isUuid: string -> bool) {
    && (forall i :: 0 <= i < |table| ==> RowFitsColumns(table[i], isUuid))
    && (forall i, j :: 0 <= i < j < |table| ==> table[i].id != table[j].id)
  }

  /** A successful INSERT keeps the table valid. */
  lemma InsertKeepsTableValid(table: seq<Row>, r: NewRow, now: int, isUuid: string -> bool,
                              parseJson: string -> Option<seq<string>>)
    requires ValidTable(table, isUuid)
    requires InsertRow(table, r, now, isUuid, parseJson).Success?
    ensures ValidTable(table + [InsertRow(table, r, now, isUuid, parseJson).value], isUuid)
  {
    var row := InsertRow(table, r, now, isUuid, parseJson).value;
    var t := table + [row];
    forall i, j | 0 <= i < j < |t| ensures t[i].id != t[j].id {
      if j == |table| {
        assert t[i].id in Ids(table);
      }
    }
  }
}
