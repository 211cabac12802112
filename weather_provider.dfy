/** The content provider: it routes a URI to one of four route codes, answers
    the MIME type of a route, builds the parameterised queries for the two
    joined routes, and runs inserts, updates, deletes and the transactional bulk
    insert against the database, notifying the resolver after each change. */
module WeatherProvider {
  import opened Wrappers
  import opened Uris
  import opened Exceptions
  import opened UriMatcher
  import opened WeatherContract
  import opened Store

  const WEATHER: int := 100
  const WEATHER_WITH_LOCATION: int := 101
  const WEATHER_WITH_LOCATION_AND_DATE: int := 102
  const LOCATION: int := 300

  // The four URI shapes the provider serves, stated directly.

  predicate OnAuthority(u: Uri)
  {
    u.authority == Some(CONTENT_AUTHORITY)
  }

  /** `content://AUTHORITY/weather`. */
  predicate IsWeatherUri(u: Uri)
  {
    OnAuthority(u) && u.path == [PATH_WEATHER]
  }

  /** `content://AUTHORITY/weather/<anything>`, digits included. */
  predicate IsWeatherWithLocationUri(u: Uri)
  {
    OnAuthority(u) && |u.path| == 2 && u.path[0] == PATH_WEATHER
  }

  /** `content://AUTHORITY/weather/<anything>/<digits>`. */
  predicate IsWeatherWithLocationAndDateUri(u: Uri)
  {
    OnAuthority(u) && |u.path| == 3 && u.path[0] == PATH_WEATHER && u.path[2] != [] && AllDigits(u.path[2])
  }

  /** `content://AUTHORITY/location`. */
  predicate IsLocationUri(u: Uri)
  {
    OnAuthority(u) && u.path == [PATH_LOCATION]
  }

  predicate IsRouted(u: Uri)
  {
    IsWeatherUri(u) || IsWeatherWithLocationUri(u) || IsWeatherWithLocationAndDateUri(u) || IsLocationUri(u)
  }

  /** `buildUriMatcher`: four rules under the authority, in the order they
      are added. */
  function BuildUriMatcher(): (m: Matcher)
    ensures m.rootCode == NO_MATCH && |m.rules| == 4
    ensures m.rules[0] == Rule(CONTENT_AUTHORITY, [Exact(PATH_WEATHER)], WEATHER)
    ensures m.rules[1] == Rule(CONTENT_AUTHORITY, [Exact(PATH_WEATHER), Text], WEATHER_WITH_LOCATION)
    ensures m.rules[2] == Rule(CONTENT_AUTHORITY, [Exact(PATH_WEATHER), Text, Number], WEATHER_WITH_LOCATION_AND_DATE)
    ensures m.rules[3] == Rule(CONTENT_AUTHORITY, [Exact(PATH_LOCATION)], LOCATION)
  {
    WeatherPatternTokens();
    WeatherWithLocationPatternTokens();
    WeatherWithLocationAndDatePatternTokens();
    LocationPatternTokens();
    var m := NewMatcher(NO_MATCH);
    var m := AddUri(m, CONTENT_AUTHORITY, PATH_WEATHER, WEATHER);
    var m := AddUri(m, CONTENT_AUTHORITY, PATH_WEATHER + "/*", WEATHER_WITH_LOCATION);
    var m := AddUri(m, CONTENT_AUTHORITY, PATH_WEATHER + "/*/#", WEATHER_WITH_LOCATION_AND_DATE);
    var m := AddUri(m, CONTENT_AUTHORITY, PATH_LOCATION, LOCATION);
    m
  }

  /** `sUriMatcher`, built once. */
  const URI_MATCHER: Matcher := BuildUriMatcher()

  // How `addURI` reads the four path patterns.

  lemma WeatherPatternTokens()
    ensures Tokenize(PATH_WEATHER) == [Exact(PATH_WEATHER)]
  {
    SplitSingle(PATH_WEATHER);
  }

  lemma LocationPatternTokens()
    ensures Tokenize(PATH_LOCATION) == [Exact(PATH_LOCATION)]
  {
    SplitSingle(PATH_LOCATION);
  }

  lemma WeatherWithLocationPatternTokens()
    ensures Tokenize(PATH_WEATHER + "/*") == [Exact(PATH_WEATHER), Text]
  {
    assert PATH_WEATHER + "/*" == PATH_WEATHER + "/" + "*";
    SplitFirst(PATH_WEATHER, "*");
    SplitSingle("*");
    assert Split(PATH_WEATHER + "/*") == [PATH_WEATHER, "*"];
    assert [PATH_WEATHER, "*"][1..] == ["*"];
    assert ToTokens(["*"]) == [Text];
  }

  lemma WeatherWithLocationAndDatePatternTokens()
    ensures Tokenize(PATH_WEATHER + "/*/#") == [Exact(PATH_WEATHER), Text, Number]
  {
    assert PATH_WEATHER + "/*/#" == PATH_WEATHER + "/" + ("*" + "/" + "#");
    SplitFirst(PATH_WEATHER, "*" + "/" + "#");
    SplitFirst("*", "#");
    SplitSingle("#");
    assert Split(PATH_WEATHER + "/*/#") == [PATH_WEATHER, "*", "#"];
    assert ToTokens(["#"]) == [Number];
    assert ["*", "#"][1..] == ["#"];
    assert ToTokens(["*", "#"]) == [Text, Number];
    assert [PATH_WEATHER, "*", "#"][1..] == ["*", "#"];
  }

  lemma WeatherRule(u: Uri)
    ensures RuleMatches(Rule(CONTENT_AUTHORITY, [Exact(PATH_WEATHER)], WEATHER), u) <==> IsWeatherUri(u)
  {
    if |u.path| == 1 {
      assert TokenMatches(Exact(PATH_WEATHER), u.path[0]) <==> u.path[0] == PATH_WEATHER;
    }
  }

  lemma WeatherWithLocationRule(u: Uri)
    ensures RuleMatches(Rule(CONTENT_AUTHORITY, [Exact(PATH_WEATHER), Text], WEATHER_WITH_LOCATION), u)
            <==> IsWeatherWithLocationUri(u)
  {
    if |u.path| == 2 {
      assert TokenMatches(Exact(PATH_WEATHER), u.path[0]) <==> u.path[0] == PATH_WEATHER;
      assert TokenMatches(Text, u.path[1]);
    }
  }

  lemma WeatherWithLocationAndDateRule(u: Uri)
    ensures RuleMatches(Rule(CONTENT_AUTHORITY, [Exact(PATH_WEATHER), Text, Number], WEATHER_WITH_LOCATION_AND_DATE), u)
            <==> IsWeatherWithLocationAndDateUri(u)
  {
    if |u.path| == 3 {
      assert TokenMatches(Exact(PATH_WEATHER), u.path[0]) <==> u.path[0] == PATH_WEATHER;
      assert TokenMatches(Text, u.path[1]);
      assert TokenMatches(Number, u.path[2]) <==> u.path[2] != [] && AllDigits(u.path[2]);
    }
  }

  lemma LocationRule(u: Uri)
    ensures RuleMatches(Rule(CONTENT_AUTHORITY, [Exact(PATH_LOCATION)], LOCATION), u) <==> IsLocationUri(u)
  {
    if |u.path| == 1 {
      assert TokenMatches(Exact(PATH_LOCATION), u.path[0]) <==> u.path[0] == PATH_LOCATION;
    }
  }

  /** The code `match` returns, written out as the four rules in order. */
  function ExpectedCode(u: Uri): int
  {
    if IsWeatherUri(u) then WEATHER
    else if IsWeatherWithLocationUri(u) then WEATHER_WITH_LOCATION
    else if IsWeatherWithLocationAndDateUri(u) then WEATHER_WITH_LOCATION_AND_DATE
    else if IsLocationUri(u) then LOCATION
    else NO_MATCH
  }

  lemma MatchIsExpected(u: Uri)
    ensures Match(URI_MATCHER, u) == ExpectedCode(u)
  {
    var rules := URI_MATCHER.rules;
    WeatherRule(u);
    WeatherWithLocationRule(u);
    WeatherWithLocationAndDateRule(u);
    LocationRule(u);
    var code := FirstMatch(rules, u);
    assert RuleMatches(rules[0], u) <==> IsWeatherUri(u);
    assert RuleMatches(rules[1], u) <==> IsWeatherWithLocationUri(u);
    assert RuleMatches(rules[2], u) <==> IsWeatherWithLocationAndDateUri(u);
    assert RuleMatches(rules[3], u) <==> IsLocationUri(u);
    if !IsRouted(u) {
      assert forall i :: 0 <= i < |rules| ==> !RuleMatches(rules[i], u) by {
        forall i | 0 <= i < |rules|
          ensures !RuleMatches(rules[i], u)
        {
          assert i == 0 || i == 1 || i == 2 || i == 3;
        }
      }
      assert code == NO_MATCH;
    } else if IsWeatherUri(u) {
      assert code == rules[0].code;
    } else if IsWeatherWithLocationUri(u) {
      assert forall j :: 0 <= j < 1 ==> !RuleMatches(rules[j], u);
      assert code == rules[1].code;
    } else if IsWeatherWithLocationAndDateUri(u) {
      assert forall j :: 0 <= j < 2 ==> !RuleMatches(rules[j], u) by {
        forall j | 0 <= j < 2 ensures !RuleMatches(rules[j], u) {
          assert j == 0 || j == 1;
        }
      }
      assert code == rules[2].code;
    } else {
      assert forall j :: 0 <= j < 3 ==> !RuleMatches(rules[j], u) by {
        forall j | 0 <= j < 3 ensures !RuleMatches(rules[j], u) {
          assert j == 0 || j == 1 || j == 2;
        }
      }
      assert code == rules[3].code;
    }
    assert code == ExpectedCode(u);
    assert Match(URI_MATCHER, u) == code;
  }

  lemma MatchRoutes(u: Uri)
    ensures Match(URI_MATCHER, u) == WEATHER <==> IsWeatherUri(u)
    ensures Match(URI_MATCHER, u) == WEATHER_WITH_LOCATION <==> IsWeatherWithLocationUri(u)
    ensures Match(URI_MATCHER, u) == WEATHER_WITH_LOCATION_AND_DATE <==> IsWeatherWithLocationAndDateUri(u)
    ensures Match(URI_MATCHER, u) == LOCATION <==> IsLocationUri(u)
    ensures Match(URI_MATCHER, u) == NO_MATCH <==> !IsRouted(u)
  {
    MatchIsExpected(u);
  }

  /** A weather item URI built from any id lands on the location route: its id
      segment is taken for a location setting. */
  lemma BuiltWeatherUriIsLocationRoute(id: Long)
    ensures Match(URI_MATCHER, BuildWeatherUri(id)) == WEATHER_WITH_LOCATION
  {
    MatchRoutes(BuildWeatherUri(id));
  }

  /** No route accepts a location item URI, whatever the id. */
  lemma BuiltLocationUriIsUnrouted(id: Long)
    ensures Match(URI_MATCHER, BuildLocationUri(id)) == NO_MATCH
  {
    MatchRoutes(BuildLocationUri(id));
  }

  /** `getType`. */
  function GetType(u: Uri): (r: Result<string, Exception>)
    ensures IsWeatherUri(u) || IsWeatherWithLocationUri(u) ==> r == Success(WeatherEntry.ContentType())
    ensures IsWeatherWithLocationAndDateUri(u) ==> r == Success(WeatherEntry.ContentItemType())
    ensures IsLocationUri(u) ==> r == Success(LocationEntry.ContentType())
    ensures r.Failure? <==> !IsRouted(u)
    ensures r.Failure? ==> r.error == UnknownUri(u)
  {
    MatchRoutes(u);
    var code := Match(URI_MATCHER, u);
    if code == WEATHER_WITH_LOCATION then Success(WeatherEntry.ContentType())
    else if code == WEATHER_WITH_LOCATION_AND_DATE then Success(WeatherEntry.ContentItemType())
    else if code == WEATHER then Success(WeatherEntry.ContentType())
    else if code == LOCATION then Success(LocationEntry.ContentType())
    else Failure(UnknownUri(u))
  }

  // The join and the selections of the two joined routes. Values never enter
  // this text: every one of them is passed as a bound argument for a `?`.

  /** `sWeatherByLocationSettingQueryBuilder`'s tables. As written there is no
      space before `INNER JOIN`. */
  const JOIN_TABLES: string :=
    WeatherEntry.TableName() + "INNER JOIN " + LocationEntry.TableName()
    + " ON " + WeatherEntry.TableName() + "." + COLUMN_LOC_KEY
    + " = " + LocationEntry.TableName() + "." + ID

  /** `sLocationSettingSelection`. */
  const LOCATION_SETTING_SELECTION: string :=
    LocationEntry.TableName() + "." + COLUMN_LOCATION_SETTING + " = ? "

  /** `sLocationSettingWithStartDateSelection`. */
  const LOCATION_SETTING_WITH_START_DATE_SELECTION: string :=
    LocationEntry.TableName() + "." + COLUMN_LOCATION_SETTING + " = ? AND " + COLUMN_DATE + " >= ?"

  /** `sLocationSettingAndDaySelection`. */
  const LOCATION_SETTING_AND_DAY_SELECTION: string :=
    LocationEntry.TableName() + "." + COLUMN_LOCATION_SETTING + " = ? AND " + COLUMN_DATE + " = ?"

  /** As written, the weather table's name runs straight into `INNER JOIN`. */
  lemma JoinTablesText()
    ensures JOIN_TABLES == "weatherINNER JOIN location ON weather.location_id = location._id"
  {
    var head := WeatherEntry.TableName() + "INNER JOIN " + LocationEntry.TableName() + " ON ";
    assert head == "weatherINNER JOIN location ON ";
    var column := WeatherEntry.TableName() + "." + COLUMN_LOC_KEY;
    assert column == "weather.location_id";
    var key := LocationEntry.TableName() + "." + ID;
    assert key == "location._id";
    assert JOIN_TABLES == head + column + " = " + key;
    JoinTextPieces();
  }

  // The join text glued from its pieces, one piece at a time.

  lemma JoinTextPieces()
    ensures "weatherINNER JOIN location ON " + "weather.location_id" + " = " + "location._id"
         == "weatherINNER JOIN location ON weather.location_id = location._id"
  {
    JoinTextColumn();
    JoinTextEquals();
    JoinTextKey();
  }

  lemma JoinTextColumn()
    ensures "weatherINNER JOIN location ON " + "weather.location_id"
         == "weatherINNER JOIN location ON weather.location_id"
  {
  }

  lemma JoinTextEquals()
    ensures "weatherINNER JOIN location ON weather.location_id" + " = "
         == "weatherINNER JOIN location ON weather.location_id = "
  {
  }

  lemma JoinTextKey()
    ensures "weatherINNER JOIN location ON weather.location_id = " + "location._id"
         == "weatherINNER JOIN location ON weather.location_id = location._id"
  {
  }

  /** The number of `?` placeholders in a selection. */
  function Placeholders(s: string): nat
    decreases |s|
  {
    if s == [] then 0 else Placeholders(s[..|s| - 1]) + (if s[|s| - 1] == '?' then 1 else 0)
  }

  lemma {:induction false} PlaceholdersAppend(a: string, b: string)
    ensures Placeholders(a + b) == Placeholders(a) + Placeholders(b)
    decreases |b|
  {
    if b == [] {
      assert a + b == a;
    } else {
      assert (a + b)[..|a + b| - 1] == a + b[..|b| - 1];
      PlaceholdersAppend(a, b[..|b| - 1]);
    }
  }

  lemma {:induction false} NoPlaceholders(s: string)
    requires '?' !in s
    ensures Placeholders(s) == 0
    decreases |s|
  {
    if s != [] {
      NoPlaceholders(s[..|s| - 1]);
    }
  }

  /** `location.location_setting`: the column both selections start with. */
  lemma SettingColumnPlaceholders()
    ensures Placeholders(LocationEntry.TableName() + "." + COLUMN_LOCATION_SETTING) == 0
  {
    var column := LocationEntry.TableName() + "." + COLUMN_LOCATION_SETTING;
    assert column == "location.location_setting";
    NoPlaceholders(column);
  }

  lemma LocationSettingPlaceholders()
    ensures Placeholders(LOCATION_SETTING_SELECTION) == 1
  {
    var column := LocationEntry.TableName() + "." + COLUMN_LOCATION_SETTING;
    SettingColumnPlaceholders();
    assert Placeholders(" = ? ") == 1 by {
      assert " = ? "[..4] == " = ?";
      assert " = ?"[..3] == " = ";
      NoPlaceholders(" = ");
    }
    PlaceholdersAppend(column, " = ? ");
  }

  /** `location.location_setting = ? AND date`: one placeholder. */
  lemma SettingAndDatePlaceholders()
    ensures Placeholders(LocationEntry.TableName() + "." + COLUMN_LOCATION_SETTING + " = ? AND " + COLUMN_DATE) == 1
  {
    var column := LocationEntry.TableName() + "." + COLUMN_LOCATION_SETTING;
    SettingColumnPlaceholders();
    NoPlaceholders(COLUMN_DATE);
    assert Placeholders(" = ? AND ") == 1 by {
      assert " = ? AND " == " = ?" + " AND ";
      assert " = ?"[..3] == " = ";
      NoPlaceholders(" = ");
      PlaceholdersAppend(" = ?", " AND ");
      NoPlaceholders(" AND ");
    }
    PlaceholdersAppend(column, " = ? AND ");
    PlaceholdersAppend(column + " = ? AND ", COLUMN_DATE);
  }

  lemma StartDatePlaceholders()
    ensures Placeholders(LOCATION_SETTING_WITH_START_DATE_SELECTION) == 2
  {
    var head := LocationEntry.TableName() + "." + COLUMN_LOCATION_SETTING + " = ? AND " + COLUMN_DATE;
    SettingAndDatePlaceholders();
    assert Placeholders(" >= ?") == 1 by {
      assert " >= ?"[..4] == " >= ";
      NoPlaceholders(" >= ");
    }
    PlaceholdersAppend(head, " >= ?");
  }

  lemma DayPlaceholders()
    ensures Placeholders(LOCATION_SETTING_AND_DAY_SELECTION) == 2
  {
    var head := LocationEntry.TableName() + "." + COLUMN_LOCATION_SETTING + " = ? AND " + COLUMN_DATE;
    SettingAndDatePlaceholders();
    assert Placeholders(" = ?") == 1 by {
      assert " = ?"[..3] == " = ";
      NoPlaceholders(" = ");
    }
    PlaceholdersAppend(head, " = ?");
  }

  /** Each selection has as many `?` as the argument list built for it. */
  lemma SelectionPlaceholders()
    ensures Placeholders(LOCATION_SETTING_SELECTION) == 1
    ensures Placeholders(LOCATION_SETTING_WITH_START_DATE_SELECTION) == 2
    ensures Placeholders(LOCATION_SETTING_AND_DAY_SELECTION) == 2
  {
    LocationSettingPlaceholders();
    StartDatePlaceholders();
    DayPlaceholders();
  }

  /** One read as handed to the database: `SQLiteDatabase.query` or
      `SQLiteQueryBuilder.query` with these arguments. */
  datatype QuerySpec = QuerySpec(
    tables: string,
    projection: Option<seq<string>>,
    selection: Option<string>,
    selectionArgs: Option<seq<string>>,
    groupBy: Option<string>,
    having: Option<string>,
    sortOrder: Option<string>)

  /** The cursor `query` returns: the read it stands for and the URI it was
      registered on with `setNotificationUri`. */
  datatype Cursor = Cursor(request: QuerySpec, notificationUri: Uri)

  /** `getWeatherByLocationSetting`: the join, selected by location setting and,
      when the URI carries a `date` parameter, by start date. */
  function GetWeatherByLocationSetting(u: Uri, projection: Option<seq<string>>, sortOrder: Option<string>)
    : (r: Result<QuerySpec, Exception>)
    ensures r.Success? <==> |u.path| >= 2
    ensures r.Failure? ==> r.error == IndexOutOfBounds(1, |u.path|)
    ensures r.Success? ==> && r.value.tables == JOIN_TABLES
                           && r.value.projection == projection && r.value.sortOrder == sortOrder
                           && r.value.groupBy.None? && r.value.having.None?
                           && r.value.selection.Some? && r.value.selectionArgs.Some?
                           && Placeholders(r.value.selection.value) == |r.value.selectionArgs.value|
    ensures r.Success? && QueryParameter(u, COLUMN_DATE).None? ==>
              r.value.selection == Some(LOCATION_SETTING_SELECTION) && r.value.selectionArgs == Some([u.path[1]])
    ensures r.Success? && QueryParameter(u, COLUMN_DATE).Some? ==>
              && r.value.selection == Some(LOCATION_SETTING_WITH_START_DATE_SELECTION)
              && r.value.selectionArgs == Some([u.path[1], QueryParameter(u, COLUMN_DATE).value])
  {
    SelectionPlaceholders();
    match GetLocationSettingFromUri(u)
    case Failure(e) => Failure(e)
    case Success(locationSetting) =>
      var startDate := GetStartDateFromUri(u);
      var (selection, selectionArgs) :=
        if startDate.None? then (LOCATION_SETTING_SELECTION, [locationSetting])
        else (LOCATION_SETTING_WITH_START_DATE_SELECTION, [locationSetting, startDate.value]);
      Success(QuerySpec(JOIN_TABLES, projection, Some(selection), Some(selectionArgs), None, None, sortOrder))
  }

  /** `getWeatherByLocationSettingAndDate`: the join, selected by location
      setting and exact date. */
  function GetWeatherByLocationSettingAndDate(u: Uri, projection: Option<seq<string>>, sortOrder: Option<string>)
    : (r: Result<QuerySpec, Exception>)
    ensures r.Success? <==> |u.path| >= 3
    ensures r.Failure? ==> r.error == IndexOutOfBounds(if |u.path| < 2 then 1 else 2, |u.path|)
    ensures r.Success? ==> && r.value.tables == JOIN_TABLES
                           && r.value.projection == projection && r.value.sortOrder == sortOrder
                           && r.value.groupBy.None? && r.value.having.None?
                           && r.value.selection == Some(LOCATION_SETTING_AND_DAY_SELECTION)
                           && r.value.selectionArgs == Some([u.path[1], u.path[2]])
                           && Placeholders(r.value.selection.value) == |r.value.selectionArgs.value|
  {
    SelectionPlaceholders();
    match GetLocationSettingFromUri(u)
    case Failure(e) => Failure(e)
    case Success(locationSetting) =>
      match GetDateFromUri(u)
      case Failure(e) => Failure(e)
      case Success(date) =>
        Success(QuerySpec(JOIN_TABLES, projection, Some(LOCATION_SETTING_AND_DAY_SELECTION),
                          Some([locationSetting, date]), None, None, sortOrder))
  }

  /** `query`. The two joined routes build their own selection; the plain
      routes pass the caller's selection through, and as written both read the
      weather table. The cursor is registered on the request URI. */
  function Query(u: Uri, projection: Option<seq<string>>, selection: Option<string>,
                 selectionArgs: Option<seq<string>>, sortOrder: Option<string>): (r: Result<Cursor, Exception>)
    ensures r.Failure? <==> !IsRouted(u)
    ensures r.Failure? ==> r.error == UnknownUri(u)
    ensures r.Success? ==> r.value.notificationUri == u
    ensures IsWeatherUri(u) || IsLocationUri(u) ==>
              r == Success(Cursor(QuerySpec(WeatherEntry.TableName(), projection, selection, selectionArgs, None, None, sortOrder), u))
    ensures IsWeatherWithLocationUri(u) ==>
              r == Success(Cursor(GetWeatherByLocationSetting(u, projection, sortOrder).value, u))
    ensures IsWeatherWithLocationAndDateUri(u) ==>
              r == Success(Cursor(GetWeatherByLocationSettingAndDate(u, projection, sortOrder).value, u))
  {
    MatchRoutes(u);
    var code := Match(URI_MATCHER, u);
    var request :=
      if code == WEATHER_WITH_LOCATION_AND_DATE then GetWeatherByLocationSettingAndDate(u, projection, sortOrder)
      else if code == WEATHER_WITH_LOCATION then GetWeatherByLocationSetting(u, projection, sortOrder)
      else if code == WEATHER then
        Success(QuerySpec(WeatherEntry.TableName(), projection, selection, selectionArgs, None, None, sortOrder))
      else if code == LOCATION then
        Success(QuerySpec(WeatherEntry.TableName(), projection, selection, selectionArgs, None, None, sortOrder))
      else Failure(UnknownUri(u));
    match request
    case Failure(e) => Failure(e)
    case Success(q) => Success(Cursor(q, u))
  }

  /** The selection of a joined read is one of the three fixed strings whatever
      the URI, and every value taken from the URI is a bound argument. */
  lemma JoinedSelectionIsFixed(u: Uri, projection: Option<seq<string>>, selection: Option<string>,
                               selectionArgs: Option<seq<string>>, sortOrder: Option<string>)
    requires IsWeatherWithLocationUri(u) || IsWeatherWithLocationAndDateUri(u)
    ensures var r := Query(u, projection, selection, selectionArgs, sortOrder);
      && r.Success? && r.value.request.tables == JOIN_TABLES
      && r.value.request.selection.value in
           {LOCATION_SETTING_SELECTION, LOCATION_SETTING_WITH_START_DATE_SELECTION, LOCATION_SETTING_AND_DAY_SELECTION}
      && r.value.request.selectionArgs.Some?
      && Placeholders(r.value.request.selection.value) == |r.value.request.selectionArgs.value|
      && u.path[1] == r.value.request.selectionArgs.value[0]
  {
    if IsWeatherWithLocationUri(u) {
      var q := GetWeatherByLocationSetting(u, projection, sortOrder).value;
      assert Query(u, projection, selection, selectionArgs, sortOrder) == Success(Cursor(q, u));
      if QueryParameter(u, COLUMN_DATE).None? {
        assert q.selection == Some(LOCATION_SETTING_SELECTION);
      } else {
        assert q.selection == Some(LOCATION_SETTING_WITH_START_DATE_SELECTION);
      }
    } else {
      var q := GetWeatherByLocationSettingAndDate(u, projection, sortOrder).value;
      assert Query(u, projection, selection, selectionArgs, sortOrder) == Success(Cursor(q, u));
      assert q.selection == Some(LOCATION_SETTING_AND_DAY_SELECTION);
    }
  }

  /** `content://AUTHORITY/weather/94043?date=1419033600`: the start-date
      selection, with the location setting and the start date as its two
      arguments in that order. */
  lemma StartDateQueryExample(projection: Option<seq<string>>, sortOrder: Option<string>)
    ensures var u := Uri("content", Some(CONTENT_AUTHORITY), [PATH_WEATHER, "94043"], [(COLUMN_DATE, "1419033600")]);
      var r := Query(u, projection, None, None, sortOrder);
      && r.Success?
      && r.value.request.tables == JOIN_TABLES
      && r.value.request.selection == Some(LOCATION_SETTING_WITH_START_DATE_SELECTION)
      && r.value.request.selectionArgs == Some(["94043", "1419033600"])
  {
    var u := Uri("content", Some(CONTENT_AUTHORITY), [PATH_WEATHER, "94043"], [(COLUMN_DATE, "1419033600")]);
    assert IsWeatherWithLocationUri(u);
    assert QueryParameter(u, COLUMN_DATE) == Some("1419033600");
  }

  /** The table an insert, update or delete on the URI writes to: both plain
      routes are accepted, the joined routes are not. */
  function MutationEntry(u: Uri): (e: Option<Entry>)
    ensures e == Some(WeatherEntry) <==> IsWeatherUri(u)
    ensures e == Some(LocationEntry) <==> IsLocationUri(u)
    ensures e.None? <==> !IsWeatherUri(u) && !IsLocationUri(u)
  {
    MatchRoutes(u);
    var code := Match(URI_MATCHER, u);
    if code == WEATHER then Some(WeatherEntry)
    else if code == LOCATION then Some(LocationEntry)
    else None
  }

  /** The URI of a new row: `buildWeatherUri` or `buildLocationUri`. */
  function ItemUri(e: Entry, id: Long): Uri
  {
    match e
    case WeatherEntry => BuildWeatherUri(id)
    case LocationEntry => BuildLocationUri(id)
  }

  /** The URI `insert` returns for a new id names the entry's path and then the
      id's digits, which read back as the id. */
  lemma ItemUriRoundTrip(e: Entry, id: Long)
    requires id > 0
    ensures var u := ItemUri(e, id);
      && OnAuthority(u) && |u.path| == 2 && u.path[0] == e.Path()
      && PathSegment(u, 1).Success? && AllDigits(PathSegment(u, 1).value)
      && ParseDigits(PathSegment(u, 1).value) == id
  {
    ParseLongToString(id);
  }

  /** A null selection selects every row. */
  /** The expression SQLite reads as true for every row. */
  const ALL_ROWS := "1"

  /** The where clause of `delete` and `update`: the caller's selection when
      given, otherwise one that selects every row, so that the store reports
      how many rows it removed. */
  function SelectionOrAll(selection: Option<string>): (s: string)
    ensures selection.Some? ==> s == selection.value
    ensures selection.None? ==> s == ALL_ROWS
  {
    if selection.None? then ALL_ROWS else selection.value
  }

  /** The outcome of the loop of a bulk insert: what the database log holds
      after it, how many rows were counted, and whether an insert threw. */
  datatype BatchRun = BatchRun(log: seq<DbOp>, count: nat, threw: bool)

  /** Inserting `rows` one after the other into `table`, starting from `log`
      with `count` already counted. A row counts when its insert returns an id
      other than -1; the first insert that throws ends the run. */
  function RunBatch(oracle: Oracle, log: seq<DbOp>, count: nat, table: string, rows: seq<ContentValues>): (r: BatchRun)
    ensures |log| <= |r.log| <= |log| + |rows|
    ensures !r.threw ==> |r.log| == |log| + |rows|
    ensures r.threw ==> |r.log| > |log|
    ensures count <= r.count <= count + |rows|
    decreases |rows|
  {
    if rows == [] then BatchRun(log, count, false)
    else
      var outcome := oracle.insert(log, table, rows[0]);
      var log' := log + [DbOp.Insert(table, rows[0], outcome)];
      if outcome.Thrown? then BatchRun(log', count, true)
      else RunBatch(oracle, log', count + (if outcome == RowId(-1) then 0 else 1), table, rows[1..])
  }

  /** One step of a run: the first row's insert, then the rest. */
  lemma RunBatchStep(oracle: Oracle, log: seq<DbOp>, count: nat, table: string, rows: seq<ContentValues>)
    requires rows != []
    ensures var outcome := oracle.insert(log, table, rows[0]);
      var log' := log + [DbOp.Insert(table, rows[0], outcome)];
      RunBatch(oracle, log, count, table, rows)
        == if outcome.Thrown? then BatchRun(log', count, true)
           else RunBatch(oracle, log', count + (if outcome == RowId(-1) then 0 else 1), table, rows[1..])
  {
  }

  /** An insert the bulk insert counts. */
  predicate Accepted(op: DbOp)
  {
    op.Insert? && op.outcome.RowId? && op.outcome.id != -1
  }

  function CountAccepted(ops: seq<DbOp>): nat
    decreases |ops|
  {
    if ops == [] then 0 else CountAccepted(ops[..|ops| - 1]) + (if Accepted(ops[|ops| - 1]) then 1 else 0)
  }

  lemma {:induction false} CountAcceptedAppend(ops: seq<DbOp>, op: DbOp)
    ensures CountAccepted(ops + [op]) == CountAccepted(ops) + (if Accepted(op) then 1 else 0)
  {
    assert (ops + [op])[..|ops|] == ops;
  }

  /** A run appends one insert per row attempted, in row order, each answered
      by the oracle on the log before it: all rows when nothing throws, and up to
      and including the first insert that throws otherwise. */
  lemma {:induction false} RunBatchAttempts(oracle: Oracle, log: seq<DbOp>, count: nat, table: string, rows: seq<ContentValues>)
    ensures var run := RunBatch(oracle, log, count, table, rows);
      && run.log[..|log|] == log
      && (forall i :: |log| <= i < |run.log| ==>
            run.log[i] == DbOp.Insert(table, rows[i - |log|], oracle.insert(run.log[..i], table, rows[i - |log|])))
      && (forall i :: |log| <= i < |run.log| ==> (run.log[i].outcome.Thrown? <==> run.threw && i == |run.log| - 1))
    decreases |rows|
  {
    if rows != [] {
      var outcome := oracle.insert(log, table, rows[0]);
      var log' := log + [DbOp.Insert(table, rows[0], outcome)];
      if !outcome.Thrown? {
        var count' := count + (if outcome == RowId(-1) then 0 else 1);
        RunBatchAttempts(oracle, log', count', table, rows[1..]);
        var run := RunBatch(oracle, log', count', table, rows[1..]);
        assert run.log[..|log'|] == log';
        assert run.log[..|log|] == log by {
          assert run.log[..|log|] == run.log[..|log'|][..|log|];
        }
        forall i | |log| <= i < |run.log|
          ensures run.log[i] == DbOp.Insert(table, rows[i - |log|], oracle.insert(run.log[..i], table, rows[i - |log|]))
          ensures run.log[i].outcome.Thrown? <==> run.threw && i == |run.log| - 1
        {
          if i == |log| {
            assert run.log[i] == log'[i];
            assert run.log[..i] == log;
          } else {
            assert rows[1..][i - |log'|] == rows[i - |log|];
          }
        }
      }
    }
  }

  /** A run counts exactly the accepted inserts it appends. */
  lemma {:induction false} RunBatchCount(oracle: Oracle, log: seq<DbOp>, count: nat, table: string, rows: seq<ContentValues>)
    ensures var run := RunBatch(oracle, log, count, table, rows);
      && run.log[..|log|] == log
      && run.count == count + CountAccepted(run.log[|log|..])
    decreases |rows|
  {
    if rows == [] {
      assert RunBatch(oracle, log, count, table, rows).log[|log|..] == [];
    } else {
      var outcome := oracle.insert(log, table, rows[0]);
      var op := DbOp.Insert(table, rows[0], outcome);
      var log' := log + [op];
      if outcome.Thrown? {
        assert log'[|log|..] == [op];
        assert log'[..|log|] == log;
        CountAcceptedAppend([], op);
      } else {
        var count' := count + (if outcome == RowId(-1) then 0 else 1);
        RunBatchCount(oracle, log', count', table, rows[1..]);
        CountFirstOp(log, op, RunBatch(oracle, log', count', table, rows[1..]).log);
      }
    }
  }

  /** Counting the ops after `log` in a log that continues `log + [op]`. */
  lemma CountFirstOp(log: seq<DbOp>, op: DbOp, full: seq<DbOp>)
    requires |log| + 1 <= |full| && full[..|log| + 1] == log + [op]
    ensures full[..|log|] == log
    ensures CountAccepted(full[|log|..]) == (if Accepted(op) then 1 else 0) + CountAccepted(full[|log| + 1..])
  {
    assert full[..|log|] == full[..|log| + 1][..|log|];
    assert full[|log|] == full[..|log| + 1][|log|];
    assert full[|log|..] == [op] + full[|log| + 1..];
    CountAcceptedPrefix(op, full[|log| + 1..]);
  }

  lemma {:induction false} CountAcceptedPrefix(op: DbOp, ops: seq<DbOp>)
    ensures CountAccepted([op] + ops) == (if Accepted(op) then 1 else 0) + CountAccepted(ops)
    decreases |ops|
  {
    if ops == [] {
      assert [op] + ops == [op];
      CountAcceptedAppend([], op);
    } else {
      var init := ops[..|ops| - 1];
      var last := ops[|ops| - 1];
      assert [op] + ops == ([op] + init) + [last];
      assert ops == init + [last];
      CountAcceptedAppend([op] + init, last);
      CountAcceptedAppend(init, last);
      CountAcceptedPrefix(op, init);
    }
  }

  /** The provider object: the database it opened in `onCreate` and the
      context's content resolver, which record into one timeline. */
  class Provider {
    const db: Database
    const resolver: ContentResolver

    ghost predicate Valid()
    {
      db.trace == resolver.trace
    }

    /** `onCreate`. */
    constructor (db: Database, resolver: ContentResolver)
      requires db.trace == resolver.trace
      ensures this.db == db && this.resolver == resolver && Valid()
    {
      this.db := db;
      this.resolver := resolver;
    }

    /** `insert`: one row into the route's table. A positive id gives the new
        row's URI and, after the insert, one notification of the request URI;
        any other answer throws and notifies nobody. */
    method Insert(uri: Uri, values: ContentValues) returns (r: Result<Uri, Exception>)
      requires Valid()
      modifies db, resolver, db.trace
      ensures MutationEntry(uri).None? ==>
                && r == Failure(UnknownUri(uri))
                && db.log == old(db.log) && resolver.notified == old(resolver.notified)
                && db.trace.events == old(db.trace.events)
      ensures MutationEntry(uri).Some? ==>
                var e := MutationEntry(uri).value;
                var op := DbOp.Insert(e.TableName(), values, db.oracle.insert(old(db.log), e.TableName(), values));
                var outcome := op.outcome;
                && db.log == old(db.log) + [op]
                && (outcome.RowId? && outcome.id > 0 ==>
                      && r == Success(ItemUri(e, outcome.id))
                      && resolver.notified == old(resolver.notified) + [uri]
                      && db.trace.events == old(db.trace.events) + [Call(op), Notify(uri)])
                && (outcome.RowId? && outcome.id <= 0 ==>
                      && r == Failure(FailedToInsert(uri))
                      && resolver.notified == old(resolver.notified)
                      && db.trace.events == old(db.trace.events) + [Call(op)])
                && (outcome.Thrown? ==>
                      && r == Failure(StoreFailure)
                      && resolver.notified == old(resolver.notified)
                      && db.trace.events == old(db.trace.events) + [Call(op)])
    {
      var entry := MutationEntry(uri);
      if entry.None? {
        return Failure(UnknownUri(uri));
      }
      r := InsertInto(entry.value, uri, values);
    }

    /** The body of `insert` once the route has chosen the entry `e`. */
    method InsertInto(e: Entry, uri: Uri, values: ContentValues) returns (r: Result<Uri, Exception>)
      requires Valid()
      modifies db, resolver, db.trace
      ensures var op := DbOp.Insert(e.TableName(), values, db.oracle.insert(old(db.log), e.TableName(), values));
        var outcome := op.outcome;
        && db.log == old(db.log) + [op]
        && (outcome.RowId? && outcome.id > 0 ==>
              && r == Success(ItemUri(e, outcome.id))
              && resolver.notified == old(resolver.notified) + [uri]
              && db.trace.events == old(db.trace.events) + [Call(op), Notify(uri)])
        && (outcome.RowId? && outcome.id <= 0 ==>
              && r == Failure(FailedToInsert(uri))
              && resolver.notified == old(resolver.notified)
              && db.trace.events == old(db.trace.events) + [Call(op)])
        && (outcome.Thrown? ==>
              && r == Failure(StoreFailure)
              && resolver.notified == old(resolver.notified)
              && db.trace.events == old(db.trace.events) + [Call(op)])
    {
      var outcome := db.Insert(e.TableName(), values);
      if outcome.Thrown? {
        return Failure(StoreFailure);
      }
      if outcome.id > 0 {
        r := Success(ItemUri(e, outcome.id));
      } else {
        return Failure(FailedToInsert(uri));
      }
      resolver.NotifyChange(uri);
    }

    /** `delete`: a null selection deletes every row; the request URI is
        notified once, after the delete, when some row went, and not at all
        otherwise. */
    method Delete(uri: Uri, selection: Option<string>, selectionArgs: Option<seq<string>>)
      returns (r: Result<nat, Exception>)
      requires Valid()
      modifies db, resolver, db.trace
      ensures MutationEntry(uri).None? ==>
                && r == Failure(UnknownUri(uri))
                && db.log == old(db.log) && resolver.notified == old(resolver.notified)
                && db.trace.events == old(db.trace.events)
      ensures MutationEntry(uri).Some? ==>
                var table := MutationEntry(uri).value.TableName();
                var count := db.oracle.delete(old(db.log), table, SelectionOrAll(selection), selectionArgs);
                var op := DbOp.Delete(table, SelectionOrAll(selection), selectionArgs, count);
                && r == Success(count)
                && db.log == old(db.log) + [op]
                && resolver.notified == (if count != 0 then old(resolver.notified) + [uri] else old(resolver.notified))
                && db.trace.events == old(db.trace.events) + [Call(op)] + (if count != 0 then [Notify(uri)] else [])
    {
      var where := SelectionOrAll(selection);
      var entry := MutationEntry(uri);
      if entry.None? {
        return Failure(UnknownUri(uri));
      }
      r := DeleteFrom(entry.value.TableName(), uri, where, selectionArgs);
    }

    /** The body of `delete` once the route has chosen the table. */
    method DeleteFrom(table: string, uri: Uri, where: string, selectionArgs: Option<seq<string>>)
      returns (r: Result<nat, Exception>)
      requires Valid()
      modifies db, resolver, db.trace
      ensures var count := db.oracle.delete(old(db.log), table, where, selectionArgs);
        var op := DbOp.Delete(table, where, selectionArgs, count);
        && r == Success(count)
        && db.log == old(db.log) + [op]
        && resolver.notified == (if count != 0 then old(resolver.notified) + [uri] else old(resolver.notified))
        && db.trace.events == old(db.trace.events) + [Call(op)] + (if count != 0 then [Notify(uri)] else [])
    {
      var count := db.Delete(table, where, selectionArgs);
      if count != 0 {
        resolver.NotifyChange(uri);
      }
      r := Success(count);
    }

    /** `update`: as written it ignores `values` and deletes the selected rows,
        exactly as `delete` does. */
    method Update(uri: Uri, values: ContentValues, selection: Option<string>, selectionArgs: Option<seq<string>>)
      returns (r: Result<nat, Exception>)
      requires Valid()
      modifies db, resolver, db.trace
      ensures MutationEntry(uri).None? ==>
                && r == Failure(UnknownUri(uri))
                && db.log == old(db.log) && resolver.notified == old(resolver.notified)
                && db.trace.events == old(db.trace.events)
      ensures MutationEntry(uri).Some? ==>
                var table := MutationEntry(uri).value.TableName();
                var count := db.oracle.delete(old(db.log), table, SelectionOrAll(selection), selectionArgs);
                var op := DbOp.Delete(table, SelectionOrAll(selection), selectionArgs, count);
                && r == Success(count)
                && db.log == old(db.log) + [op]
                && resolver.notified == (if count != 0 then old(resolver.notified) + [uri] else old(resolver.notified))
                && db.trace.events == old(db.trace.events) + [Call(op)] + (if count != 0 then [Notify(uri)] else [])
    {
      r := Delete(uri, selection, selectionArgs);
    }

    /** `bulkInsert`: on the weather route only, every row is inserted inside
        one transaction, which is marked successful after the last row and then
        ended; one notification follows the end of the transaction. If an
        insert throws, the transaction is ended without being marked and nobody
        is notified. */
    method BulkInsert(uri: Uri, values: seq<ContentValues>) returns (r: Result<nat, Exception>)
      requires Valid()
      modifies db, resolver, db.trace
      ensures !IsWeatherUri(uri) ==>
                && r == Failure(UnknownUri(uri))
                && db.log == old(db.log) && resolver.notified == old(resolver.notified)
                && db.trace.events == old(db.trace.events)
      ensures IsWeatherUri(uri) ==>
                var run := RunBatch(db.oracle, old(db.log) + [DbOp.BeginTransaction], 0, WeatherEntry.TableName(), values);
                && (run.threw ==>
                      && r == Failure(StoreFailure)
                      && db.log == run.log + [DbOp.EndTransaction]
                      && resolver.notified == old(resolver.notified)
                      && db.trace.events == old(db.trace.events) + Calls(db.log[|old(db.log)|..]))
                && (!run.threw ==>
                      && r == Success(run.count)
                      && db.log == run.log + [DbOp.SetTransactionSuccessful, DbOp.EndTransaction]
                      && resolver.notified == old(resolver.notified) + [uri]
                      && db.trace.events == old(db.trace.events) + Calls(db.log[|old(db.log)|..]) + [Notify(uri)]
                      && db.trace.events[|db.trace.events| - 1] == Notify(uri)
                      && db.trace.events[|db.trace.events| - 2] == Call(DbOp.EndTransaction))
      ensures r.Success? ==> r.value <= |values|
    {
      if MutationEntry(uri) != Some(WeatherEntry) {
        return Failure(UnknownUri(uri));
      }
      r := InsertBatch(uri, values);
    }

    /** The body of `bulkInsert` for the weather collection: the transaction,
        then one notification when it committed. */
    method InsertBatch(uri: Uri, values: seq<ContentValues>) returns (r: Result<nat, Exception>)
      requires Valid()
      modifies db, resolver, db.trace
      ensures var run := RunBatch(db.oracle, old(db.log) + [DbOp.BeginTransaction], 0, WeatherEntry.TableName(), values);
        && (run.threw ==>
              && r == Failure(StoreFailure)
              && db.log == run.log + [DbOp.EndTransaction]
              && resolver.notified == old(resolver.notified)
              && db.trace.events == old(db.trace.events) + Calls(db.log[|old(db.log)|..]))
        && (!run.threw ==>
              && r == Success(run.count)
              && db.log == run.log + [DbOp.SetTransactionSuccessful, DbOp.EndTransaction]
              && resolver.notified == old(resolver.notified) + [uri]
              && db.trace.events == old(db.trace.events) + Calls(db.log[|old(db.log)|..]) + [Notify(uri)]
              && db.trace.events[|db.trace.events| - 1] == Notify(uri)
              && db.trace.events[|db.trace.events| - 2] == Call(DbOp.EndTransaction))
      ensures r.Success? ==> r.value <= |values|
    {
      var returnCount, threw := InsertAll(WeatherEntry.TableName(), values);
      if threw {
        return Failure(StoreFailure);
      }
      ghost var calls := Calls(db.log[|old(db.log)|..]);
      assert calls[|calls| - 1] == Call(DbOp.EndTransaction);
      resolver.NotifyChange(uri);
      LastTwoEvents(old(db.trace.events), calls, Notify(uri));
      r := Success(returnCount);
    }

    /** The transaction of `bulkInsert`: begun, the rows inserted, marked
        successful unless an insert threw, and ended in either case. */
    method InsertAll(table: string, values: seq<ContentValues>) returns (returnCount: nat, threw: bool)
      modifies db, db.trace
      ensures var run := RunBatch(db.oracle, old(db.log) + [DbOp.BeginTransaction], 0, table, values);
        && returnCount == run.count && threw == run.threw
        && db.log == run.log + (if threw then [DbOp.EndTransaction] else [DbOp.SetTransactionSuccessful, DbOp.EndTransaction])
      ensures returnCount <= |values|
      ensures |old(db.log)| <= |db.log| && db.trace.events == old(db.trace.events) + Calls(db.log[|old(db.log)|..])
    {
      ghost var log0, events0 := db.log, db.trace.events;
      db.BeginTransaction();
      CallsStep(events0, events0, |log0|, log0, DbOp.BeginTransaction);
      ghost var log1, events1 := db.log, db.trace.events;
      returnCount, threw := InsertRows(table, values);
      CallsCompose(events0, events1, db.trace.events, log0, log1, db.log);
      if !threw {
        CallsStep(db.trace.events, events0, |log0|, db.log, DbOp.SetTransactionSuccessful);
        db.SetTransactionSuccessful();
      }
      CallsStep(db.trace.events, events0, |log0|, db.log, DbOp.EndTransaction);
      db.EndTransaction();
    }

    /** The loop of `bulkInsert`: each row inserted into `table` in turn,
        counting the ids other than -1, until the rows run out or an insert
        throws. */
    method InsertRows(table: string, values: seq<ContentValues>) returns (returnCount: nat, threw: bool)
      modifies db, db.trace
      ensures var run := RunBatch(db.oracle, old(db.log), 0, table, values);
        db.log == run.log && returnCount == run.count && threw == run.threw
      ensures |old(db.log)| <= |db.log| && db.log[..|old(db.log)|] == old(db.log)
      ensures db.trace.events == old(db.trace.events) + Calls(db.log[|old(db.log)|..])
    {
      ghost var start := db.log;
      returnCount := 0;
      var i := 0;
      while i < |values|
        invariant 0 <= i <= |values|
        invariant RunBatch(db.oracle, db.log, returnCount, table, values[i..]) == RunBatch(db.oracle, start, 0, table, values)
        invariant |start| <= |db.log| && db.log[..|start|] == start
        invariant db.trace.events == old(db.trace.events) + Calls(db.log[|start|..])
      {
        assert values[i..][1..] == values[i + 1..];
        RunBatchStep(db.oracle, db.log, returnCount, table, values[i..]);
        ghost var before, events := db.log, db.trace.events;
        var outcome := db.Insert(table, values[i]);
        assert db.log[..|start|] == before[..|start|];
        CallsStep(events, old(db.trace.events), |start|, before, DbOp.Insert(table, values[i], outcome));
        if outcome.Thrown? {
          return returnCount, true;
        }
        if outcome.id != -1 {
          returnCount := returnCount + 1;
        }
        i := i + 1;
      }
      threw := false;
    }
  }
}
