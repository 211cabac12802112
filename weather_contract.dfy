/** The URI schema of the weather provider: its authority, the two entries
    (locations and weather records), their tables and columns, their MIME
    types, and how item URIs are built and taken apart. */
module WeatherContract {
  import opened Wrappers
  import opened Uris
  import opened Exceptions

  const CONTENT_AUTHORITY: string := "com.example.android.sunshine.app"

  /** `Uri.parse("content://" + CONTENT_AUTHORITY)`. */
  const BASE_CONTENT_URI: Uri := Uri("content", Some(CONTENT_AUTHORITY), [], [])

  const PATH_WEATHER: string := "weather"
  const PATH_LOCATION: string := "location"

  const DIR_TYPE_PREFIX: string := "vnd.android.cursor.dir/"
  const ITEM_TYPE_PREFIX: string := "vnd.android.cursor.item/"

  /** `BaseColumns._ID`. */
  const ID: string := "_id"

  const COLUMN_LOCATION_SETTING: string := "location_setting"
  const COLUMN_CITY_NAME: string := "city_name"
  const COLUMN_COORD_LAT: string := "coord_lat"
  const COLUMN_COORD_LONG: string := "coord_long"

  const COLUMN_LOC_KEY: string := "location_id"
  const COLUMN_DATE: string := "date"
  const COLUMN_WEATHER_ID: string := "weather_id"
  const COLUMN_SHORT_DESC: string := "short_desc"
  const COLUMN_MIN_TEMP: string := "min"
  const COLUMN_MAX_TEMP: string := "max"
  const COLUMN_HUMIDITY: string := "humidity"
  const COLUMN_PRESSURE: string := "pressure"
  const COLUMN_WIND_SPEED: string := "wind"
  const COLUMN_DEGREE: string := "degree"

  /** The two entry classes, `LocationEntry` and `WeatherEntry`. */
  datatype Entry = LocationEntry | WeatherEntry {

    function Path(): string
    {
      match this
      case LocationEntry => PATH_LOCATION
      case WeatherEntry => PATH_WEATHER
    }

    /** `CONTENT_URI`: the base URI with the entry's path appended. */
    function ContentUri(): Uri
    {
      AppendPath(BASE_CONTENT_URI, Path())
    }

    /** `CONTENT_TYPE`. The weather type has no `/` between the authority and
        the path, the location type has one. */
    function ContentType(): string
    {
      match this
      case LocationEntry => DIR_TYPE_PREFIX + CONTENT_AUTHORITY + "/" + PATH_LOCATION
      case WeatherEntry => DIR_TYPE_PREFIX + CONTENT_AUTHORITY + PATH_WEATHER
    }

    /** `CONTENT_ITEM_TYPE`, with the same separators as `CONTENT_TYPE`. */
    function ContentItemType(): string
    {
      match this
      case LocationEntry => ITEM_TYPE_PREFIX + CONTENT_AUTHORITY + "/" + PATH_LOCATION
      case WeatherEntry => ITEM_TYPE_PREFIX + CONTENT_AUTHORITY + PATH_WEATHER
    }

    function TableName(): string
    {
      match this
      case LocationEntry => "location"
      case WeatherEntry => "weather"
    }
  }

  /** `ContentUris.withAppendedId`: the decimal text of `id` as one more segment. */
  function WithAppendedId(u: Uri, id: Long): (r: Uri)
    ensures r.scheme == u.scheme && r.authority == u.authority && r.query == u.query
    ensures |r.path| == |u.path| + 1 && r.path[..|u.path|] == u.path
    ensures r.path[|u.path|] == LongToString(id)
    ensures id >= 0 ==> AllDigits(r.path[|u.path|]) && ParseDigits(r.path[|u.path|]) == id
  {
    var r := AppendPath(u, LongToString(id));
    assert r.path[..|u.path|] == u.path;
    assert id >= 0 ==> ParseDigits(LongToString(id)) == id by {
      if id >= 0 {
        ParseLongToString(id);
      }
    }
    r
  }

  /** `LocationEntry.buildLocationUri`. */
  function BuildLocationUri(id: Long): (u: Uri)
    ensures u.scheme == "content" && u.authority == Some(CONTENT_AUTHORITY) && u.query == []
    ensures u.path == [PATH_LOCATION, LongToString(id)]
  {
    WithAppendedId(LocationEntry.ContentUri(), id)
  }

  /** `WeatherEntry.buildWeatherUri`. */
  function BuildWeatherUri(id: Long): (u: Uri)
    ensures u.scheme == "content" && u.authority == Some(CONTENT_AUTHORITY) && u.query == []
    ensures u.path == [PATH_WEATHER, LongToString(id)]
  {
    WithAppendedId(WeatherEntry.ContentUri(), id)
  }

  /** `getPathSegments().get(index)`, which throws when the path is too short. */
  function PathSegment(u: Uri, index: nat): (r: Result<string, Exception>)
    ensures r.Success? <==> index < |u.path|
    ensures r.Success? ==> r.value == u.path[index]
    ensures r.Failure? ==> r.error == IndexOutOfBounds(index, |u.path|)
  {
    if index < |u.path| then Success(u.path[index]) else Failure(IndexOutOfBounds(index, |u.path|))
  }

  /** `WeatherEntry.getLocationSettingFromUri`: path segment 1. */
  function GetLocationSettingFromUri(u: Uri): (r: Result<string, Exception>)
    ensures r.Success? <==> |u.path| >= 2
    ensures r.Success? ==> r.value == u.path[1]
    ensures r.Failure? ==> r.error == IndexOutOfBounds(1, |u.path|)
  {
    PathSegment(u, 1)
  }

  /** `WeatherEntry.getDateFromUri`: path segment 2. */
  function GetDateFromUri(u: Uri): (r: Result<string, Exception>)
    ensures r.Success? <==> |u.path| >= 3
    ensures r.Success? ==> r.value == u.path[2]
    ensures r.Failure? ==> r.error == IndexOutOfBounds(2, |u.path|)
  {
    PathSegment(u, 2)
  }

  /** `WeatherEntry.getStartDateFromUri`: the `date` query parameter, or null. */
  function GetStartDateFromUri(u: Uri): (r: Option<string>)
    ensures r.None? <==> forall i :: 0 <= i < |u.query| ==> u.query[i].0 != COLUMN_DATE
    ensures r.Some? ==> exists i :: 0 <= i < |u.query| && u.query[i] == (COLUMN_DATE, r.value)
                                    && forall j :: 0 <= j < i ==> u.query[j].0 != COLUMN_DATE
  {
    QueryParameter(u, COLUMN_DATE)
  }

  /** The location setting of a weather item URI is the id's decimal text, and
      for a non-negative id that text reads back as the id. */
  lemma WeatherUriRoundTrip(id: Long)
    ensures GetLocationSettingFromUri(BuildWeatherUri(id)) == Success(LongToString(id))
    ensures id >= 0 ==> AllDigits(LongToString(id)) && ParseDigits(LongToString(id)) == id
  {
    if id >= 0 {
      ParseLongToString(id);
    }
  }

  /** The start date depends on the query alone: changing the path, scheme or
      authority leaves it as it is. */
  lemma StartDateReadsOnlyQuery(u: Uri, v: Uri)
    requires u.query == v.query
    ensures GetStartDateFromUri(u) == GetStartDateFromUri(v)
  {
  }

  predicate StartsWith(s: string, prefix: string)
  {
    |prefix| <= |s| && s[..|prefix|] == prefix
  }

  predicate EndsWith(s: string, suffix: string)
  {
    |suffix| <= |s| && s[|s| - |suffix|..] == suffix
  }

  /** Every collection type starts with the dir prefix and every item type with
      the item prefix; both end with the entry's path, and the two differ. */
  lemma ContentTypesShape(e: Entry)
    ensures StartsWith(e.ContentType(), DIR_TYPE_PREFIX)
    ensures StartsWith(e.ContentItemType(), ITEM_TYPE_PREFIX)
    ensures EndsWith(e.ContentType(), e.Path()) && EndsWith(e.ContentItemType(), e.Path())
    ensures e.ContentType() != e.ContentItemType()
  {
    var d, t := e.ContentType(), e.ContentItemType();
    assert d[..|DIR_TYPE_PREFIX|] == DIR_TYPE_PREFIX;
    assert t[..|ITEM_TYPE_PREFIX|] == ITEM_TYPE_PREFIX;
    assert d[|d| - |e.Path()|..] == e.Path();
    assert t[|t| - |e.Path()|..] == e.Path();
    assert d[19] != t[19];
  }

  /** The location types put `/` between the authority and the path; the
      weather types run the two together. */
  lemma ContentTypeSeparators()
    ensures var k := |DIR_TYPE_PREFIX| + |CONTENT_AUTHORITY|;
      LocationEntry.ContentType()[k] == '/' && WeatherEntry.ContentType()[k] == 'w'
    ensures var k := |ITEM_TYPE_PREFIX| + |CONTENT_AUTHORITY|;
      LocationEntry.ContentItemType()[k] == '/' && WeatherEntry.ContentItemType()[k] == 'w'
  {
  }
}
