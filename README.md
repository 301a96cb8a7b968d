# postgis query builders, modelled in Dafny

The `postgis` package is a thin layer over a PostgreSQL client. Twelve
builders turn their JavaScript arguments into the text of a PostGIS query:

- `list_tables`, `list_columns`, `query_table`
- `bbox`, `centroid`
- `intersect_feature`, `intersect_point`, `nearest`, `transform_point`
- `geojson`, `geobuf`, `mvt`

The `Postgis` class in `index.js` checks the client it is given when it is
constructed. Each of its methods fills in option defaults, calls one
builder, and sends the text through the client. For `geojson` and `geobuf`
it also reshapes the rows that come back.

## How the model reads a query

Every builder is a template literal, and the model reads it as a `Query`: a
sequence of `Fragment`s.

- A `Kw(w)` fragment is a fixed piece of template text.
- An `Arg(v)` fragment is an interpolated `${v}`.

`SqlText.Sql` writes a query out as a string. Each fixed piece is written
with the template's runs of white space collapsed to one space, and each
parameter as JavaScript's `${v}` prints it (`Js.Text`). `SqlText.Params` is
the list of caller values the query interpolates, in order.

Both are instances of one `Render` over a `Spelling`. Each builder's
`Rendered` lemma unfolds `Render` over the builder's fragments; those
lemmas are proof steps for the lemmas about parameters and sent text
(`Interpolated`, `Injective`, the facade's `…Sends`), not statements of
their own. Keeping the
two kinds of fragment apart shows exactly where caller text enters the SQL.
Nothing is quoted or escaped on the way in.

These JavaScript rules are modelled exactly:

- **Truthiness** (`Js.Truthy`) decides every optional clause.
- **Default parameters** (`Js.Default`) replace `undefined` and nothing else.
- **The two point regexes** are in `PointString`.
- **`String.prototype.split(',')`** is `Bounds.Split`.
- **`Number(token)`** is `Numerals.Numeral`. Which tokens are numbers is
  exact; integers print exactly.
- **`parseInt(text, 10)`** is `Js.ParseInt`.

A builder that throws is modelled as returning `Failure` with the error
(`Js.Error`) and no text. There are three cases:

- the `null` of a failed `match` being indexed;
- `split` being called on a truthy value that is not a string;
- reading `rows[0].st_asgeobuf` when there are no rows.

The client is a function from query text to an `Outcome`, which is either
the rows of the result or the message of a rejection. `_executeQuery`'s
await, `try` and `catch` become a `match` on the outcome.

Two behaviours of the code are easy to miss; the model states them as
the code writes them.

- `query_table(table)` with no limit emits `LIMIT 100`, because the
  parameter defaults to 100 (`QueryTable.LimitDefault`).
- In `geojson` and `geobuf`, bounds of a length other than three or four
  still produce `WHERE` (and `AND` when there is a filter) with no envelope
  after them (`Bounds.DanglingKeyword`).

## Model

| member | source | states |
|---|---|---|
| Js.DefaultReplacesOnlyUndefined | lib/query.js:3 | a default parameter takes its default exactly when the argument is `undefined` (or already equal to it); `null` is kept and stays falsy |
| Js.NatToString | lib/geojson.js:10 | the decimal digits of a number: at least one digit, and no leading zero unless the number is 0 |
| Js.DigitsValueOfNatToString | lib/geojson.js:10 | reading back the printed digits of `n` gives `n` |
| Js.IntToString | lib/geojson.js:10 | `String(n)` of an integer starts with a minus sign exactly when `n` is negative, otherwise with a digit |
| Js.TrimStart | lib/geojson.js:10 | the leading white space `parseInt` skips: the result is a suffix of the input and does not start with white space |
| Js.DigitPrefix | lib/geojson.js:10 | the longest run of leading decimal digits: a prefix of the text made only of digits and not followed by one |
| Js.ParseInt | lib/geojson.js:10 | `parseInt(text, 10)` is NaN exactly when, after white space and one sign, no digit follows |
| Js.ParseIntOfIntToString | lib/geojson.js:10 | `parseInt(String(n), 10) == n` for every integer |
| Strings.IndexOf | lib/geojson.js:2 | the first position of a character, none exactly when it does not occur |
| Numerals.TrimEnd | lib/geojson.js:2 | removes exactly the trailing white space StringToNumber ignores |
| Numerals.NumeralAlphabet | lib/geojson.js:2 | `String(Number(token))` only ever contains digits, sign, point, exponent mark or the letters of NaN and Infinity |
| Numerals.ScannedChars | lib/geojson.js:2 | a token `Number` accepts contains only white space and literal characters |
| Numerals.NumeralOfForeign | lib/geojson.js:2 | a token containing any other character (a quote, a parenthesis, a letter) becomes `NaN` |
| Numerals.NumeralOfInteger | lib/geojson.js:2 | a printed integer is a fixed point of `String(Number(...))` |
| PointString.NumberHasNoComma | lib/nearest.js:2 | a number token of the point regex holds no comma |
| PointString.Pieces | lib/nearest.js:2 | split on the first two commas, the three pieces join back to the input |
| PointString.PiecesOf | lib/nearest.js:2 | comma-free `x` and `y` are found again by that split |
| PointString.ParsePrefix | lib/nearest.js:2 | the prefix regex yields numbers and a four-digit srid whose `x,y,srid` text starts the input |
| PointString.ParseAnchored | lib/intersect_point.js:2 | the anchored regex yields numbers and a four-digit srid whose `x,y,srid` text is the whole input |
| PointString.ParsePrefixExact | lib/nearest.js:2 | the prefix match gives `p` if and only if `p`'s text is a well-formed point starting the input |
| PointString.ParseAnchoredExact | lib/intersect_point.js:2 | the anchored match gives `p` if and only if the input is exactly `p`'s well-formed text |
| PointString.AnchoredImpliesPrefix | lib/intersect_point.js:2 | whatever the anchored regex accepts, the prefix regex accepts with the same pieces, and conversely when nothing follows |
| PointString.TrailingText | lib/transform_point.js:2 | text after the srid is ignored by the prefix regex and rejected by the anchored one |
| PointString.FifthSridDigit | lib/nearest.js:2 | `12.5,3.4,43267` is read as srid `4326` by the prefix regex and rejected by the anchored one |
| PointString.ShortCoordinateRejected | lib/nearest.js:2 | a coordinate with fewer than two digits is rejected by both regexes |
| PointString.ShortSridRejected | lib/intersect_point.js:2 | fewer than four srid digits is rejected by both regexes |
| PointString.LetterRejected | lib/transform_point.js:2 | a coordinate starting with a letter is rejected by both regexes |
| PointString.SamplePoint | lib/nearest.js:2 | `73.70534,14.94202,4326` is read as those three texts by both regexes |
| Bounds.Split | lib/geojson.js:2 | `split(',')` gives at least one comma-free piece, and the pieces joined with commas give the input back |
| Bounds.SplitCount | lib/geojson.js:2 | a string with `n` commas splits into `n + 1` pieces |
| Bounds.SplitOfJoin | lib/geojson.js:2 | splitting the join of comma-free pieces gives the pieces back |
| Bounds.Coerce | lib/geojson.js:2 | `.map(Number)` keeps the length and coerces each token in place |
| Bounds.ParseBounds | lib/geobuf.js:2 | a truthy non-string bounds throws a TypeError; otherwise `null` exactly when the bounds are falsy |
| Bounds.BoundsCount | lib/geojson.js:2 | a bounds string with `n` commas gives `n + 1` numbers, the i-th being the i-th token coerced |
| Bounds.IntegerTexts | lib/geojson.js:28 | the printed integers, one text per number |
| Bounds.IntegerTextsHaveNoComma | lib/geojson.js:28 | a printed integer holds no comma |
| Bounds.CoerceIntegers | lib/geojson.js:2 | coercing printed integers with `Number` changes nothing |
| Bounds.BoundsOfIntegers | lib/geojson.js:2 | the comma-joined texts of integers parse back to exactly those numbers |
| Bounds.JoinOfNumerals | lib/geojson.js:28 | joined numbers contain only numeral characters and commas |
| Bounds.BoundsAreNumbers | lib/geobuf.js:28 | whatever bounds string is given, the corners spliced into an envelope are numbers and commas only: bounds cannot inject SQL |
| Bounds.RestrictionParams | lib/geojson.js:22-42 | the restriction interpolates the truthy filter, then the column and corners only for three or four numbers |
| Bounds.EnvelopeParams | lib/geojson.js:25-42 | an envelope interpolates the column and the corners exactly for three or four numbers |
| Bounds.RestrictionPieces | lib/geobuf.js:22-42 | each restriction keyword appears under exactly the source's condition |
| Bounds.HasWhere | lib/geojson.js:22 | `WHERE` appears if and only if a filter or bounds are given |
| Bounds.HasAnd | lib/geojson.js:24 | `AND` appears if and only if both a filter and bounds are given |
| Bounds.EnvelopeKinds | lib/geojson.js:25-42 | a box exactly for four numbers, a tile exactly for three, never both |
| Bounds.FilterFirst | lib/geojson.js:22-24 | with a filter the restriction opens with `WHERE <filter>`, followed by `AND` exactly when bounds are given |
| Bounds.EndsWithBox | lib/geojson.js:25-31 | four numbers end the restriction with `<geom> && ST_Transform(ST_MakeEnvelope(<numbers>, 4326), srid)` |
| Bounds.EndsWithTile | lib/geojson.js:34-40 | three numbers end it with `<geom> && ST_Transform(ST_TileEnvelope(<numbers>), srid)` |
| Bounds.DanglingKeyword | lib/geobuf.js:22-42 | any other number of values leaves `WHERE` (and `AND` after a filter) with nothing after it |
| Bounds.NoRestriction | lib/geojson.js:22-42 | no filter and no bounds: no restriction text at all |
| SqlText.Present | lib/query.js:8-11 | an optional parameter contributes nothing exactly when it is falsy |
| SqlText.ClauseParams | lib/query.js:8-11 | such a clause interpolates its parameter exactly when it is truthy |
| SqlText.WrappedParams | lib/mvt.js:25 | a quoted optional parameter likewise |
| SqlText.FlagParams | lib/geojson.js:22 | a conditional fixed keyword interpolates nothing |
| Spatial.MatchPoint | lib/intersect_point.js:2 | the match yields well-formed numbers and srid (whole input or prefix, per regex); failure is the TypeError of indexing `null`, or of a non-string point |
| Spatial.MatchPointExact | lib/nearest.js:2 | the match yields `p` if and only if the point spells `p` |
| Spatial.MatchPointFails | lib/transform_point.js:2 | the match fails if and only if the point spells no point |
| Spatial.ReprojectParams | lib/transform_point.js:9-12 | a moved point interpolates x, y, the point's srid, then the target |
| Spatial.SridOfParams | lib/intersect_point.js:18 | the srid lookup names the column, then the table |
| Spatial.SridSubqueryParams | lib/geojson.js:21 | the srid subquery names the column, the table, and the column again |
| Spatial.TileParams | lib/mvt.js:7 | a tile envelope takes its coordinates in the order `z, x, y` |
| Spatial.PointInTablePieces | lib/intersect_point.js:13-19 | the point moved into the table's srid is 15 fragments, with no clause keyword among them |
| Spatial.PointInTableParams | lib/nearest.js:7-10 | it interpolates x, y, the point's srid, the column and the table |
| Spatial.RefinementPieces | lib/intersect_feature.js:17-21 | each of `AND`, `ORDER BY`, `LIMIT` is in the tail if and only if its parameter is truthy |
| Spatial.RefinementPlaces | lib/intersect_point.js:22-26 | a truthy filter opens the tail, a truthy limit ends it, a truthy sort follows `ORDER BY` |
| Spatial.RefinementOrder | lib/intersect_feature.js:17-21 | the `AND`, `ORDER BY` and `LIMIT` keywords that are present come in that order |
| Spatial.RefinementParams | lib/intersect_feature.js:17-21 | the tail interpolates the truthy ones of filter, sort, limit, in order |
| Spatial.AfterPredicatePieces | lib/intersect_point.js:10-26 | after an `ST_DWithin` predicate each clause keyword is there if and only if its parameter is truthy |
| Spatial.AfterPredicatePlaces | lib/intersect_feature.js:11-21 | `AND` comes right after the predicate's close, the sort after `ORDER BY`, and `LIMIT <limit>` ends the query |
| Spatial.AfterPredicateOrder | lib/intersect_point.js:22-26 | after any query the present `AND`, `ORDER BY` and `LIMIT` keywords keep that order |
| Spatial.SridSourcePieces | lib/mvt.js:11-13 | `FROM <table>, <srid subquery> a` is 11 fragments with no clause keyword |
| Spatial.SridSourceParams | lib/mvt.js:12-13 | it interpolates the table, then column, table, column |
| ListTables.AlwaysRestricted | lib/list_tables.js:3-24 | the privilege join and the system-schema exclusion are always there, and `ORDER BY table_name` ends the query |
| ListTables.HasFilter | lib/list_tables.js:22 | `and ` appears if and only if the filter is truthy |
| ListTables.NoFilter | lib/list_tables.js:22 | without a filter the catalog is followed directly by the ordering |
| ListTables.FilterPlaced | lib/list_tables.js:19-24 | a truthy filter follows `and `, after the schema restriction and before the ordering |
| ListColumns.OnlyTheTableName | lib/list_columns.js:16 | the table name is the only parameter, between `relname = '` and the closing quote |
| ListColumns.Injective | lib/list_columns.js:16 | different table texts give different queries |
| ListColumns.NameIsNotEscaped | lib/list_columns.js:16 | a name containing a quote closes the string literal and adds its own SQL |
| QueryTable.StartsWithHead | lib/query.js:4-7 | the query begins `SELECT <columns> FROM <table>` |
| QueryTable.ClausePieces | lib/query.js:8-11 | each clause keyword appears if and only if its parameter is truthy |
| QueryTable.HasWhere | lib/query.js:8 | `WHERE` if and only if the filter is truthy |
| QueryTable.HasGroupBy | lib/query.js:9 | `GROUP BY` if and only if the group is truthy |
| QueryTable.HasOrderBy | lib/query.js:10 | `ORDER BY` if and only if the sort is truthy |
| QueryTable.HasLimit | lib/query.js:11 | `LIMIT` if and only if the limit after its default is truthy |
| QueryTable.ShowsFilter | lib/query.js:8 | the filter follows `WHERE` |
| QueryTable.ShowsGroup | lib/query.js:9 | the group follows `GROUP BY` |
| QueryTable.ShowsSort | lib/query.js:10 | the sort follows `ORDER BY` |
| QueryTable.ShowsLimit | lib/query.js:11 | the limit follows `LIMIT` |
| QueryTable.WhereFirst | lib/query.js:8-11 | `WHERE` precedes every other present clause |
| QueryTable.GroupBySecond | lib/query.js:9-11 | `GROUP BY` precedes `ORDER BY` and `LIMIT` |
| QueryTable.OrderByThird | lib/query.js:10-11 | `ORDER BY` precedes `LIMIT` |
| QueryTable.LimitDefault | lib/query.js:3 | an undefined limit is `LIMIT 100`; `null` and `0` suppress the clause |
| QueryTable.DefaultLimitText | lib/query.js:3 | the default limit prints as `100` |
| QueryTable.Determined | lib/query.js:3-12 | equal fragment sequences have equal table and columns, and show the same optional parameters |
| QueryTable.FilterIsNotEscaped | lib/query.js:8 | a filter containing ` GROUP BY ` gives the same text as a separate group |
| Bbox.Projection | lib/bbox.js:1-6 | `ST_Extent(ST_Transform(<geom>, <srid>))` over the defaulted column and srid, then `FROM <table>`; defaults are `geom` and `4326` |
| Bbox.Filter | lib/bbox.js:7 | `WHERE <filter>` ends the query if and only if the filter is truthy |
| Bbox.Interpolated | lib/bbox.js:1-7 | the parameters are column, srid, table, then a truthy filter |
| Centroid.NeverMixed | lib/centroid.js:6-12 | both axes use `ST_PointOnSurface` if `force_on_surface` is truthy and `ST_Centroid` otherwise, never one of each |
| Centroid.AxisPieces | lib/centroid.js:5-8 | an axis holds only its centre function and the fixed pieces |
| Centroid.SameExpression | lib/centroid.js:4-15 | `ST_X` and `ST_Y` are applied to the same expression over the defaulted parameters |
| Centroid.Filter | lib/centroid.js:17-20 | `WHERE <filter>` follows `FROM <table>` if and only if the filter is truthy |
| Centroid.Interpolated | lib/centroid.js:1-20 | the parameters are column, srid, column, srid, table, then a truthy filter |
| IntersectFeature.Predicate | lib/intersect_feature.js:1-16 | the selection, both tables, and `ST_DWithin(<from>.<geom_from>, <to>.<geom_to>, <distance>)` over the defaults, then the tail |
| IntersectFeature.HeadPieces | lib/intersect_feature.js:4-16 | the head ends with the predicate and holds no clause keyword |
| IntersectFeature.Optionals | lib/intersect_feature.js:17-21 | `AND`, `ORDER BY`, `LIMIT` each appear if and only if their parameter is truthy |
| IntersectFeature.Placed | lib/intersect_feature.js:16-21 | `AND` right after the predicate, the sort after `ORDER BY`, `LIMIT <limit>` last |
| IntersectFeature.Order | lib/intersect_feature.js:17-21 | the present `AND`, `ORDER BY` and `LIMIT` keywords come in that order |
| IntersectFeature.Interpolated | lib/intersect_feature.js:1-21 | the parameters, with defaults `*`, `0`, `geom`, `geom`, in template order |
| IntersectFeature.HeadParams | lib/intersect_feature.js:4-16 | the head's parameters in order |
| IntersectFeature.WithinParams | lib/intersect_feature.js:12-16 | the predicate's parameters in order |
| IntersectPoint.Reads | lib/intersect_point.js:2-27 | a point that is exactly `<num>,<num>,dddd` builds the query from its three texts |
| IntersectPoint.Rejects | lib/intersect_point.js:2 | the builder fails if and only if the point spells no point, with the TypeError the failed match raises |
| IntersectPoint.FifthSridDigit | lib/intersect_point.js:2 | `12.5,3.4,43267` is rejected |
| IntersectPoint.Shape | lib/intersect_point.js:4-26 | selection, `ST_DWithin(<geom>, <point moved into the table's srid>, <distance>)`, then the tail |
| IntersectPoint.NearPieces | lib/intersect_point.js:4-21 | the predicate ends in `ST_DWithin(...)` and holds no clause keyword |
| IntersectPoint.Optionals | lib/intersect_point.js:22-26 | `AND`, `ORDER BY`, `LIMIT` each if and only if their parameter is truthy |
| IntersectPoint.Placed | lib/intersect_point.js:21-26 | `AND` right after the predicate, the sort after `ORDER BY`, `LIMIT <limit>` last |
| IntersectPoint.Order | lib/intersect_point.js:22-26 | the present `AND`, `ORDER BY` and `LIMIT` keywords come in that order |
| IntersectPoint.Interpolated | lib/intersect_point.js:3-27 | the parameters in template order: columns, table, column, x, y, srid, column, table, distance, then the truthy tail |
| IntersectPoint.NearParams | lib/intersect_point.js:4-21 | the predicate's parameters in order |
| Nearest.Reads | lib/nearest.js:2-26 | a point starting with `<num>,<num>,dddd` builds the query from those three texts |
| Nearest.Rejects | lib/nearest.js:2 | the builder fails if and only if the point spells no point, with the TypeError of the failed match |
| Nearest.FifthSridDigit | lib/nearest.js:2 | `12.5,3.4,43267` is read with srid `4326` |
| Nearest.ShortCoordinateRejected | lib/nearest.js:2 | a one-digit coordinate fails |
| Nearest.SamePoint | lib/nearest.js:5-23 | the distance and the `<->` ordering use the same moved point |
| Nearest.LimitAlways | lib/nearest.js:25 | `LIMIT <limit>` always ends the query, with no truthiness test |
| Nearest.Filter | lib/nearest.js:14-19 | `WHERE <filter>` between `FROM <table>` and `ORDER BY` if and only if the filter is truthy |
| Nearest.Interpolated | lib/nearest.js:3-26 | the parameters in template order |
| Nearest.ProjectionParams | lib/nearest.js:4-15 | the projection's parameters |
| Nearest.OrderingParams | lib/nearest.js:19-25 | the ordering's parameters |
| TransformPoint.Reads | lib/transform_point.js:1-24 | a point starting with `<num>,<num>,dddd` builds the query, the target srid defaulting to `4326` |
| TransformPoint.Rejects | lib/transform_point.js:2 | the builder fails if and only if the point spells no point |
| TransformPoint.MalformedRejected | lib/transform_point.js:2 | `invalid,point,format` fails with the TypeError of the failed match |
| TransformPoint.FifthSridDigit | lib/transform_point.js:2 | `12.5,3.4,43267` is read with srid `4326` |
| TransformPoint.TargetSrid | lib/transform_point.js:1 | an undefined srid is `4326`; any other, even a falsy one, is used as given |
| TransformPoint.SameExpression | lib/transform_point.js:5-23 | `ST_X` and `ST_Y` are applied to the same moved point |
| TransformPoint.Interpolated | lib/transform_point.js:4-24 | x, y, the point's srid, the target srid, twice |
| Mvt.ProjectionPieces | lib/mvt.js:3-10 | the projection's layout: column, tile, optional columns and id, with no `AND` and no id literal |
| Mvt.IntersectingPieces | lib/mvt.js:14-23 | the intersection holds no id literal |
| Mvt.LayerPieces | lib/mvt.js:25-26 | `ST_AsMVT(mvtgeom.*, '<table>', 4096, 'geom' [, '<id>'])`, the id literal if and only if the id is truthy |
| Mvt.TileTwice | lib/mvt.js:7-18 | both tile envelopes are `ST_TileEnvelope(<z>, <x>, <y>)` with the same coordinates, around the from-list and srid subquery |
| Mvt.Columns | lib/mvt.js:9-11 | the optional columns and id sit between `as geom` and `FROM` |
| Mvt.Filter | lib/mvt.js:23 | `AND <filter>` right after the intersection if and only if the filter is truthy |
| Mvt.IdNamed | lib/mvt.js:25 | the feature id is named in `ST_AsMVT` if and only if the id column is truthy |
| Mvt.LayerLast | lib/mvt.js:25-26 | the `ST_AsMVT` selection ends the query |
| Mvt.ProjectionParams | lib/mvt.js:6-10 | column, `z, x, y`, truthy columns and id |
| Mvt.IntersectingParams | lib/mvt.js:16-23 | column, `z, x, y`, truthy filter |
| Mvt.LayerParams | lib/mvt.js:25 | table, truthy id |
| Mvt.Interpolated | lib/mvt.js:2-27 | all parameters in template order |
| GeoJson.PrecisionText | lib/geojson.js:10 | `parseInt(precision, 10)` prints `NaN` exactly when no integer can be read, otherwise that integer |
| GeoJson.PrecisionOfInteger | lib/geojson.js:10 | an integer precision is written as it is |
| GeoJson.PrecisionOfUndefined | lib/geojson.js:10 | a missing precision is `NaN` |
| GeoJson.Rejects | lib/geojson.js:2 | only a truthy non-string bounds fails, with a TypeError |
| GeoJson.Reads | lib/geojson.js:1-44 | otherwise the query is built from the split bounds and the parsed precision |
| GeoJson.FeaturePieces | lib/geojson.js:6-12 | the feature object holds only its fixed pieces |
| GeoJson.FeatureId | lib/geojson.js:8-11 | `'id', <id>` and `- '<id>'` appear if and only if the id column is truthy |
| GeoJson.InnerPieces | lib/geojson.js:14-21 | the subquery's length and pieces |
| GeoJson.IdNamed | lib/geojson.js:8-18 | the id member and the id exclusion appear if and only if the id is truthy |
| GeoJson.IdPlaced | lib/geojson.js:8-18 | a truthy id is the feature id, excluded from the properties, and selected in the subquery |
| GeoJson.Geometry | lib/geojson.js:10 | the precision sits in `ST_AsGeoJSON(geom, <precision>)` |
| GeoJson.FeatureGeometry | lib/geojson.js:10-11 | within the feature, the precision follows the geometry member and precedes the properties |
| GeoJson.Layout | lib/geojson.js:14-43 | subquery head, from-list with the srid subquery, restriction, `) as subq` |
| GeoJson.Restricted | lib/geojson.js:22-42 | the restriction keywords occur in the query exactly as in the restriction |
| GeoJson.Keywords | lib/geojson.js:22-42 | `WHERE`, `AND`, box and tile under the conditions on filter and bounds |
| GeoJson.FeatureParams | lib/geojson.js:8-11 | the id, the precision, the id |
| GeoJson.InnerParams | lib/geojson.js:16-21 | column, truthy columns and id, table, the srid subquery's parameters |
| GeoJson.Interpolated | lib/geojson.js:4-44 | all parameters in template order |
| Geobuf.Rejects | lib/geobuf.js:2 | only a truthy non-string bounds fails, with a TypeError |
| Geobuf.Reads | lib/geobuf.js:1-46 | otherwise the query is built from the split bounds |
| Geobuf.HeadPieces | lib/geobuf.js:5-16 | the head's layout and pieces |
| Geobuf.SridJoinPieces | lib/geobuf.js:17-20 | the srid subquery `sq` is joined if and only if bounds are given |
| Geobuf.SridOnlyForBounds | lib/geobuf.js:15-20 | the srid subquery follows `FROM <table>` exactly when bounds are given |
| Geobuf.Outer | lib/geobuf.js:5-44 | `ST_AsGeobuf(q, 'geom')` opens the query and `) as q;` ends it |
| Geobuf.Restricted | lib/geobuf.js:22-42 | the restriction keywords occur in the query exactly as in the restriction |
| Geobuf.Keywords | lib/geobuf.js:22-42 | `WHERE`, `AND`, box and tile under the conditions on filter and bounds |
| Geobuf.HeadParams | lib/geobuf.js:12-16 | column, truthy columns, table |
| Geobuf.SridJoinParams | lib/geobuf.js:18 | column, table, column only with bounds |
| Geobuf.Interpolated | lib/geobuf.js:4-46 | all parameters in template order |
| Facade.Field | index.js:48 | a missing field reads as `undefined` |
| Facade.Validate | index.js:5-10 | a missing client, or one without a `query` function, gives the error `A valid pg.Client instance is required.` |
| Facade.Features | index.js:48 | `rows.map((el) => el.geojson)`: one feature per row, the i-th being row i's `geojson` |
| Facade.FeaturesAppend | index.js:48 | the features of two row lists are their features in order |
| Facade.FirstGeobuf | index.js:56 | `rows[0].st_asgeobuf`, with a TypeError exactly when there is no row |
| Facade.Postgis.constructor | index.js:9 | keeps the client's query function |
| Facade.Postgis.Connect | index.js:5-10 | fails exactly when the client is invalid, otherwise a new instance over its query function |
| Facade.Postgis.Execute | index.js:73-80 | resolves with the rows exactly when the client does, else fails with `Query execution failed: ` followed by the client's message |
| Facade.Postgis.Send | index.js:39-42 | a builder's error is passed on before anything is sent; a built query is executed |
| Facade.Postgis.GeoJson | index.js:43-51 | a FeatureCollection whose features are the rows' `geojson` cells, in order; errors passed through |
| Facade.Postgis.Geobuf | index.js:53-57 | the first row's `st_asgeobuf`; errors passed through |
| Facade.ListTablesSends | index.js:12-15 | `list_tables` sends the catalog text with the optional `and <filter>` |
| Facade.ListColumnsSends | index.js:17-20 | `list_columns` sends the catalog text with the table name before the closing quote |
| Facade.NumberSridText | index.js:27 | the number 4326 prints as the builders' string default `'4326'` |
| Facade.QueryTableOmitted | index.js:22-25 | no options: `SELECT * FROM <table> LIMIT 100` |
| Facade.QueryTableLimit | index.js:22 | an omitted limit is `LIMIT 100`; `null` or 0 suppress it |
| Facade.BboxLikeBuilder | index.js:27-30 | the facade's defaults write the same text as the builder's |
| Facade.CentroidLikeBuilder | index.js:31-34 | the facade's defaults are the builder's: `ST_Centroid`, not `ST_PointOnSurface` |
| Facade.IntersectFeatureLikeBuilder | index.js:35-38 | the facade's defaults change nothing |
| Facade.IntersectPointOmitted | index.js:39-42 | no options: all columns, distance 0, column `geom`, `LIMIT 10` last |
| Facade.NearestOmitted | index.js:63-66 | no options: all columns, column `geom`, `LIMIT 10` last |
| Facade.GeoJsonOmitted | index.js:43-44 | no options: precision 9, column `geom`, no id, no `WHERE` |
| Facade.GeobufOmitted | index.js:53-54 | no options: no srid subquery, no `WHERE` |
| Facade.TransformPointOmitted | index.js:68-71 | no options: the target srid is the number 4326 |
| Facade.MvtForwards | index.js:59-62 | `x, y, z` reach both tile envelopes as `(z, x, y)`; the column defaults to `geom` |
| Facade.RejectedWrapped | index.js:73-80 | a rejection becomes `Query execution failed: <message>` |
| Facade.BoundsErrorNotWrapped | index.js:43-45 | a builder's TypeError reaches the caller unwrapped |
| Facade.MalformedPointNotSent | index.js:63-65 | a point that fails the regex fails with a TypeError whatever the client does |
| Facade.GeobufEmpty | index.js:55-56 | no rows: `rows[0].st_asgeobuf` throws a TypeError |
| Facade.GeoJsonFeatures | index.js:45-50 | the features keep the rows' order |

## Left out

- The real PostgreSQL client and the promises. The client is a function from query text to an outcome. Awaiting, concurrency, connection state and `res` fields other than `rows` are not modelled.
- The client's thrown values. Only their message is modelled; a rejection whose value has no `message` (`${undefined}`) is not distinguished.
- PostGIS and SQL semantics. The model states the text sent, not what the database does with it.
- Literal white space and line breaks. Every run of template white space is one space. Consequence: in `lib/list_tables.js` the real text ends the `-- Optional where filter` comment at a line break. The collapsed text written by `ListTables.Rendered` keeps the comment as a piece of its own.
- Numbers with a fraction or an exponent. `Numerals.Numeral` prints them with their written digits, not with Number::toString. Which tokens are numbers, and the characters a printed number can contain, are exact.
- Huge integers. JavaScript number precision for integers beyond 2^53 is not modelled; `Js.ParseInt` reads any number of digits exactly.
- `parseInt` on values whose `${v}` is not the model's `Js.Text`, such as objects and arrays. `Value` has only undefined, null, booleans, integer-valued numbers and strings.
- Option objects. A `null` options object, or one that is not an object (which would throw while destructuring), is not modelled. The options are records whose fields default to `undefined`, as `{}` provides.
- The text of V8's TypeError messages. The model records which operation failed (`Js.Cause`), not the message.
- Cells of the result. `jsonb` and `Buffer` cells are modelled as `Value`s.
- `lib/index.js`. This is only the barrel that re-exports the builders.
- Facade.Postgis: the methods that only forward (`ListTables` … `TransformPoint`) carry no contract of their own. What they send is stated by the `Facade` lemmas beside them.
- Facade.TransformPointOmitted: does not compare the sent text with the builder's default `'4326'`; it states only that the number prints as `4326`.
