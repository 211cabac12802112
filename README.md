# Sunshine weather content provider, modelled in Dafny

This project models the content-provider core of the Sunshine weather app. That core has two parts:

- `WeatherContract`, the URI schema. It fixes the authority `com.example.android.sunshine.app`, the `weather` and `location` entries with their tables, columns and MIME types, how item URIs are built from a row id, and how a URI is taken apart again.
- `WeatherProvider`, the content provider. It matches a URI to one of four route codes (`WEATHER` 100, `WEATHER_WITH_LOCATION` 101, `WEATHER_WITH_LOCATION_AND_DATE` 102, `LOCATION` 300). It answers `getType`, and its `query` builds the parameterised join for the two location routes. It also runs `insert`, `update`, `delete` and the transactional `bulkInsert` against the database, and notifies the content resolver after a change.

Files and modules, in dependency order:

- `wrappers.dfy` (`Wrappers`): `Option` stands for a Java reference that may be null, and `Result` for a call that returns or throws.
- `uris.dfy` (`Uris`): the `android.net.Uri` value (scheme, authority, decoded path segments, query parameters in order), Java's `long`, and `String.valueOf(long)` with its digit parser.
- `exceptions.dfy` (`Exceptions`): the exceptions that can escape the provider.
- `uri_matcher.dfy` (`UriMatcher`): `android.content.UriMatcher` as an ordered table of rules. A pattern token is a literal segment, `*` or `#`.
- `weather_contract.dfy` (`WeatherContract`): the URI schema.
- `store.dfy` (`Store`): the storage engine and the change-notification sink. `Database` answers each insert and delete through an oracle. The oracle is a function of every call the database has received so far. `Database` also logs those calls, including `beginTransaction`, `setTransactionSuccessful` and `endTransaction`. `ContentResolver` keeps the list of URIs passed to `notifyChange`. Both share one `Trace`, a ghost timeline of every database call and every notification in the order they happen, so that contracts can say which comes first.
- `weather_provider.dfy` (`WeatherProvider`): route codes, the matcher table, `getType`, the join and the selections, the two query builders, `query` (a pure function: a read changes no state), and the `Provider` class with the four mutating operations.

Quirks of the source that the model keeps as written:

- The join clause has no space before `INNER JOIN`: `weatherINNER JOIN location ON weather.location_id = location._id` (`JoinTablesText`).
- The two dated selections filter on the unqualified `date` column, not on `weather.date` (WeatherProvider.java:47 and :52; `LOCATION_SETTING_WITH_START_DATE_SELECTION`, `LOCATION_SETTING_AND_DAY_SELECTION`).
- `insert` fails for every new id `<= 0`, so an id of 0 fails too, not only SQLite's `-1` (WeatherProvider.java:189 and :198; `Provider.Insert`).
- The `LOCATION` branch of `query` reads the weather table (`Query`).
- `update` ignores its values and calls `delete` on the route's table (`Provider.Update`).
- The weather MIME types have no `/` between the authority and `weather`; the location types have one (`ContentTypeSeparators`).
- `buildWeatherUri(id)` yields a URI that the matcher routes as `WEATHER_WITH_LOCATION`, with the id taken for a location setting (`BuiltWeatherUriIsLocationRoute`).
- `buildLocationUri(id)` yields a URI that no route accepts (`BuiltLocationUriIsUnrouted`).

## Model

| member | source | states |
|---|---|---|
| `Uris.Lookup` | app/src/main/java/com/example/barth/sunshine/WeatherContract.java:100-102 | the result is null exactly when no query parameter has the key; otherwise it is the value of the first parameter with that key |
| `Uris.NatToString` | app/src/main/java/com/example/barth/sunshine/WeatherContract.java:87-90 | the decimal text of an id is non-empty, all digits, and has no leading zero unless the id is 0 |
| `Uris.LongToString` | app/src/main/java/com/example/barth/sunshine/WeatherContract.java:56-58 | the text `withAppendedId` writes is all digits exactly when the id is non-negative; for a negative id it is `-` followed by digits that parse to the id's magnitude |
| `Uris.ParseNatToString` | app/src/main/java/com/example/barth/sunshine/WeatherContract.java:87-90 | parsing the digits written for `n` gives back `n` |
| `Uris.ParseLongToString` | app/src/main/java/com/example/barth/sunshine/WeatherContract.java:87-90 | a non-negative id's text is plain digits that parse back to the id |
| `UriMatcher.AddUri` | app/src/main/java/com/example/barth/sunshine/WeatherProvider.java:99-103 | adding a pattern keeps the root code and every earlier rule, and appends one rule with the authority, the tokens of the path and the code |
| `UriMatcher.Match` | app/src/main/java/com/example/barth/sunshine/WeatherProvider.java:111 | the empty URI gets the root code; any other URI gets the code of the first rule that matches it, and NO_MATCH when none does |
| `UriMatcher.FirstMatch` | app/src/main/java/com/example/barth/sunshine/WeatherProvider.java:95-106 | the result is the code of the first rule whose authority, segment count and tokens all match, and NO_MATCH when no rule matches |
| `WeatherContract.WithAppendedId` | app/src/main/java/com/example/barth/sunshine/WeatherContract.java:57 | `ContentUris.withAppendedId` keeps scheme, authority, query and every path segment, and adds exactly one segment at the end: the id's decimal text, which parses back to the id when it is non-negative |
| `WeatherContract.BuildLocationUri` | app/src/main/java/com/example/barth/sunshine/WeatherContract.java:56-58 | `content://AUTHORITY` with path `[location, decimal(id)]` and no query |
| `WeatherContract.BuildWeatherUri` | app/src/main/java/com/example/barth/sunshine/WeatherContract.java:87-90 | `content://AUTHORITY` with path `[weather, decimal(id)]` and no query |
| `WeatherContract.PathSegment` | app/src/main/java/com/example/barth/sunshine/WeatherContract.java:92-98 | segment `i` when the path has more than `i` segments, otherwise an index-out-of-bounds failure |
| `WeatherContract.GetLocationSettingFromUri` | app/src/main/java/com/example/barth/sunshine/WeatherContract.java:92-94 | succeeds exactly when the path has at least 2 segments, and then returns segment 1; otherwise fails with an index-out-of-bounds for index 1 |
| `WeatherContract.GetDateFromUri` | app/src/main/java/com/example/barth/sunshine/WeatherContract.java:96-98 | succeeds exactly when the path has at least 3 segments, and then returns segment 2; otherwise fails with an index-out-of-bounds for index 2 |
| `WeatherContract.GetStartDateFromUri` | app/src/main/java/com/example/barth/sunshine/WeatherContract.java:100-102 | null exactly when no query parameter is named `date`; otherwise the value of the first parameter so named |
| `WeatherContract.WeatherUriRoundTrip` | app/src/main/java/com/example/barth/sunshine/WeatherContract.java:87-94 | the location setting of `buildWeatherUri(id)` is the id's decimal text, which parses back to the id when `id >= 0` |
| `WeatherContract.StartDateReadsOnlyQuery` | app/src/main/java/com/example/barth/sunshine/WeatherContract.java:100-102 | the start date depends only on the query: two URIs with the same query have the same start date, whatever their paths, schemes and authorities |
| `WeatherContract.ContentTypesShape` | app/src/main/java/com/example/barth/sunshine/WeatherContract.java:41-71 | every dir type starts with `vnd.android.cursor.dir/`, every item type with `vnd.android.cursor.item/`, both end with the entry's path, and an entry's two types differ |
| `WeatherContract.ContentTypeSeparators` | app/src/main/java/com/example/barth/sunshine/WeatherContract.java:41-71 | right after the authority, the location types have `/` and the weather types go straight on with `w` |
| `WeatherProvider.BuildUriMatcher` | app/src/main/java/com/example/barth/sunshine/WeatherProvider.java:95-106 | the matcher has root code NO_MATCH and exactly four rules under the authority, in this order: `weather`, `weather/*`, `weather/*/#`, `location`, with codes 100, 101, 102, 300 |
| `WeatherProvider.MatchIsExpected` | app/src/main/java/com/example/barth/sunshine/WeatherProvider.java:95-106 | matching any URI gives the same code as a direct check of the four URI shapes in order |
| `WeatherProvider.MatchRoutes` | app/src/main/java/com/example/barth/sunshine/WeatherProvider.java:95-106 | `[weather]` gives WEATHER; `[weather, s]` gives WEATHER_WITH_LOCATION for any `s`; `[weather, s, d]` gives WEATHER_WITH_LOCATION_AND_DATE exactly when `d` is non-empty digits; `[location]` gives LOCATION; each in both directions, and NO_MATCH exactly for every other URI, other authorities included |
| `WeatherProvider.BuiltWeatherUriIsLocationRoute` | app/src/main/java/com/example/barth/sunshine/WeatherProvider.java:99-101 | a weather item URI built from any id routes as WEATHER_WITH_LOCATION |
| `WeatherProvider.BuiltLocationUriIsUnrouted` | app/src/main/java/com/example/barth/sunshine/WeatherProvider.java:99-103 | a location item URI built from any id routes as NO_MATCH |
| `WeatherProvider.GetType` | app/src/main/java/com/example/barth/sunshine/WeatherProvider.java:108-127 | the weather dir type for `weather` and `weather/*`, the weather item type for `weather/*/#`, the location dir type for `location`; every other URI fails with an unknown-URI exception |
| `WeatherProvider.JoinTablesText` | app/src/main/java/com/example/barth/sunshine/WeatherProvider.java:27-38 | the join clause is exactly `weatherINNER JOIN location ON weather.location_id = location._id`, with no space before `INNER` |
| `WeatherProvider.SelectionPlaceholders` | app/src/main/java/com/example/barth/sunshine/WeatherProvider.java:40-52 | the location-setting selection has one `?`, and the start-date and exact-day selections have two each |
| `WeatherProvider.GetWeatherByLocationSetting` | app/src/main/java/com/example/barth/sunshine/WeatherProvider.java:54-79 | on the join: with no `date` parameter, the one-placeholder selection with args `[segment 1]`; otherwise the `>=` selection with args `[segment 1, date]`; `?` count equals arg count; fails only on a path shorter than 2 |
| `WeatherProvider.GetWeatherByLocationSettingAndDate` | app/src/main/java/com/example/barth/sunshine/WeatherProvider.java:81-94 | on the join: the `date = ?` selection with args exactly `[segment 1, segment 2]`, `?` count equals arg count; fails only on a path shorter than 3 |
| `WeatherProvider.Query` | app/src/main/java/com/example/barth/sunshine/WeatherProvider.java:129-177 | throws exactly on unrouted URIs; `weather` and `location` pass the caller's selection and args unchanged, both against the weather table; the joined routes use the two builders; every cursor is registered on the request URI |
| `WeatherProvider.JoinedSelectionIsFixed` | app/src/main/java/com/example/barth/sunshine/WeatherProvider.java:54-94 | on a joined route the selection is one of three fixed strings, whatever the URI; the location setting is the first bound argument and `?` count equals arg count |
| `WeatherProvider.StartDateQueryExample` | app/src/main/java/com/example/barth/sunshine/WeatherProvider.java:54-79 | `weather/94043?date=1419033600` reads the join with the start-date selection and args `[94043, 1419033600]` |
| `WeatherProvider.MutationEntry` | app/src/main/java/com/example/barth/sunshine/WeatherProvider.java:223-241 | insert, update and delete accept exactly the `weather` URI (weather table) and the `location` URI (location table) |
| `WeatherProvider.ItemUriRoundTrip` | app/src/main/java/com/example/barth/sunshine/WeatherProvider.java:186-203 | the URI returned for a positive new id is the entry path followed by digits that parse back to the id |
| `WeatherProvider.SelectionOrAll` | app/src/main/java/com/example/barth/sunshine/WeatherProvider.java:255 | the caller's selection when one is given; otherwise `"1"`, the clause SQLite reads as true for every row |
| `WeatherProvider.RunBatch` | app/src/main/java/com/example/barth/sunshine/WeatherProvider.java:292-298 | the bulk-insert loop adds between none and one call per row to the log, one per row when no insert throws and at least one when one does; the count grows by at most the number of rows |
| `WeatherProvider.RunBatchAttempts` | app/src/main/java/com/example/barth/sunshine/WeatherProvider.java:289-302 | the bulk-insert loop appends one insert per row, in row order, each answered on the log before it; all rows are attempted unless an insert throws; only the last attempt can throw, and it is the one that ends the run |
| `WeatherProvider.RunBatchCount` | app/src/main/java/com/example/barth/sunshine/WeatherProvider.java:292-298 | the count is exactly the number of appended inserts whose id is not -1, so it is at most the number of rows |
| `WeatherProvider.Provider.constructor` | app/src/main/java/com/example/barth/sunshine/WeatherProvider.java:312-316 | the provider uses the given database and resolver |
| `WeatherProvider.Provider.Insert` | app/src/main/java/com/example/barth/sunshine/WeatherProvider.java:179-213 | unrouted URIs throw with no database call; on `weather`/`location` one insert goes into the route's table; an id `> 0` returns the item URI and notifies the request URI exactly once, after the insert on the timeline; an id `<= 0` or a throwing store fails and notifies nobody |
| `WeatherProvider.Provider.InsertInto` | app/src/main/java/com/example/barth/sunshine/WeatherProvider.java:186-210 | for the chosen entry: one insert into its table; an id `> 0` gives the item URI and then a notification, an id `<= 0` or a throw gives a failure and nothing after the insert on the timeline |
| `WeatherProvider.Provider.Update` | app/src/main/java/com/example/barth/sunshine/WeatherProvider.java:215-247 | as written, the same as delete: a null selection becomes `"1"`, one delete on the route's table, then a notification of the request URI exactly when the count is non-zero; other routes throw and touch nothing |
| `WeatherProvider.Provider.Delete` | app/src/main/java/com/example/barth/sunshine/WeatherProvider.java:249-281 | a null selection becomes `"1"`; one delete on the route's table with the caller's args; returns the count; notifies the request URI once, after the delete on the timeline, if the count is non-zero and never otherwise; other routes throw and touch nothing |
| `WeatherProvider.Provider.DeleteFrom` | app/src/main/java/com/example/barth/sunshine/WeatherProvider.java:259-280 | one delete on the given table with the given clause and args, then a notification exactly when the count is non-zero; the count is returned |
| `WeatherProvider.Provider.BulkInsert` | app/src/main/java/com/example/barth/sunshine/WeatherProvider.java:283-310 | only the `weather` route is accepted. The log is begin, the row inserts, then set-successful and end, with exactly one notification and a count `<= values.length`. If an insert throws, the log is begin, the inserts up to the throwing one, then end with no set-successful, and there is no notification. On the timeline the calls come in log order, and on success the one notification comes last, right after end |
| `WeatherProvider.Provider.InsertBatch` | app/src/main/java/com/example/barth/sunshine/WeatherProvider.java:289-304 | the weather batch: the transaction as the batch specification gives it, then, only when no insert threw, one notification as the last event, directly after the end call |
| `WeatherProvider.Provider.InsertAll` | app/src/main/java/com/example/barth/sunshine/WeatherProvider.java:289-302 | the transaction is begun, all rows go in as the batch specification gives, it is marked successful only when no insert threw, it is ended in both cases, and the count is at most `values.length`; the timeline gains exactly these calls, in order |
| `WeatherProvider.Provider.InsertRows` | app/src/main/java/com/example/barth/sunshine/WeatherProvider.java:292-298 | the loop leaves the log and count that the batch specification gives, and reports whether an insert threw; the timeline gains the loop's calls in order |

## Left out

- `WeatherContract.normalizeDate`: it depends on the device clock and time zone (`android.text.format.Time`).
- `WeatherContract.getDbDateString` and `DATE_FORMAT`: a `SimpleDateFormat` wrapper.
- `ForecastFragment`, `SettingsActivity` and `WeatherDataParser`: UI, preference callbacks, and a JSON/floating-point library call. None of them is part of this model.
- `WeatherDbHelper` is not part of this model: schema creation, SQL evaluation, and which rows a selection picks. The database is an oracle that answers each insert and delete from its call history. A cursor is the read request it stands for, with no rows attached.
- `JOIN_TABLES`: SQLite would read `weatherINNER` as a table name and reject both joined reads ("no such table: weatherINNER"). The model does not show this failure: it does not evaluate SQL, so the joined routes of `Query` return the read request as written.
- `getReadableDatabase`/`getWritableDatabase`, `db.close()` after insert, and the resolver's delivery to observers: Android plumbing with no effect the provider can observe.
- Thread safety, and transaction isolation between callers.
- Android's `UriMatcher`: modelled as an ordered rule list with first-match semantics, not as its per-level tree of nodes. For these four patterns the two readings should agree, because no two sibling nodes of the tree can match the same segment: `weather` and `location` are distinct literals, and each lower level has a single child (`*`, then `#`). This agreement is argued, not proved, since the tree itself is not modelled.
- `UriMatcher.AddUri`: re-adding a path to overwrite its code is not modelled. The leading-`/` stripping and `String.split`'s dropping of trailing empty pieces are not modelled either. None of these arise in `buildUriMatcher`.
- `UriMatcher.TokenMatches`: `#` is taken to need a non-empty segment. Android's own check also accepts an empty string, but `getPathSegments` never yields an empty segment.
- URI parsing, percent-decoding and `toString`: a URI is given already split into decoded segments and parameters. The exceptions carry the URI instead of the message text built from it.
- `Store.Database.Delete`: the store's own exceptions from delete are not modelled. Insert can throw (`Thrown`), which is what the bulk-insert rollback path needs.
- `Store.Database.Delete`: Java's `int` width for the returned counts is not modelled. The bulk-insert count is at most `values.length`, which always fits in an `int`.
