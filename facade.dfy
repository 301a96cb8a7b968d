/**
 * index.js: the `Postgis` class. The constructor checks that it was given a
 * client with a `query` function and keeps it; every other method fills in
 * its options' defaults, hands its arguments to one builder in the
 * builder's own order, sends the query text through the client
 * (`_executeQuery`) and, for `geojson` and `geobuf`, reshapes the rows.
 *
 * The client is modelled as a function from query text to an outcome: the
 * promise it returns either resolves with a result's rows or rejects with
 * an error message.
 */
module Facade {
  import opened Wrappers
  import opened Js
  import opened SqlText
  import opened PointString
  import opened Spatial
  import Bounds
  import ListTables
  import ListColumns
  import QueryTable
  import Bbox
  import Centroid
  import IntersectFeature
  import IntersectPoint
  import GeoJson
  import Geobuf
  import Mvt
  import Nearest
  import TransformPoint

  /** One row of a result: column name to cell. */
  type Row = map<string, Value>

  /** `row.<name>`: reading a column the row does not have gives `undefined`. */
  function Field(row: Row, name: string): (v: Value)
    ensures name !in row ==> v == Undefined
    ensures name in row ==> v == row[name]
  {
    if name in row then row[name] else Undefined
  }

  /** How `client.query(text)` settles. */
  datatype Outcome = Resolved(rows: seq<Row>) | Rejected(message: string)

  /**
   * What the constructor is given: nothing (a falsy value), an object whose
   * `query` is not a function, or a client whose `query` is one.
   */
  datatype Client = Missing | WithoutQuery | PgClient(query: string -> Outcome)

  const ClientRequired := "A valid pg.Client instance is required."
  const QueryFailed := "Query execution failed: "

  /** The constructor's check: only a client with a `query` function is accepted. */
  function Validate(client: Client): (r: Result<string -> Outcome, Error>)
    ensures r.Failure? <==> !client.PgClient?
    ensures r.Failure? ==> r.error == Thrown(ClientRequired)
    ensures r.Success? ==> r.value == client.query
  {
    if client.PgClient? then Success(client.query) else Failure(Thrown(ClientRequired))
  }

  /** `{ filter } = {}`; `ListTablesOptions()` is the omitted object. */
  datatype ListTablesOptions = ListTablesOptions(filter: Value := Undefined)
  datatype QueryTableOptions = QueryTableOptions(columns: Value := Undefined, filter: Value := Undefined,
                                                 group: Value := Undefined, sort: Value := Undefined,
                                                 limit: Value := Undefined)
  datatype BboxOptions = BboxOptions(geom: Value := Undefined, srid: Value := Undefined, filter: Value := Undefined)
  datatype CentroidOptions = CentroidOptions(force: Value := Undefined, geom: Value := Undefined,
                                             srid: Value := Undefined, filter: Value := Undefined)
  datatype IntersectFeatureOptions = IntersectFeatureOptions(columns: Value := Undefined, distance: Value := Undefined,
                                                             geomFrom: Value := Undefined, geomTo: Value := Undefined,
                                                             filter: Value := Undefined, sort: Value := Undefined,
                                                             limit: Value := Undefined)
  datatype IntersectPointOptions = IntersectPointOptions(columns: Value := Undefined, distance: Value := Undefined,
                                                         geom: Value := Undefined, filter: Value := Undefined,
                                                         sort: Value := Undefined, limit: Value := Undefined)
  datatype GeoJsonOptions = GeoJsonOptions(bounds: Value := Undefined, id: Value := Undefined,
                                           precision: Value := Undefined, geom: Value := Undefined,
                                           columns: Value := Undefined, filter: Value := Undefined)
  datatype GeobufOptions = GeobufOptions(bounds: Value := Undefined, geom: Value := Undefined,
                                         columns: Value := Undefined, filter: Value := Undefined)
  datatype MvtOptions = MvtOptions(columns: Value := Undefined, id: Value := Undefined,
                                   geom: Value := Undefined, filter: Value := Undefined)
  datatype NearestOptions = NearestOptions(columns: Value := Undefined, geom: Value := Undefined,
                                           filter: Value := Undefined, limit: Value := Undefined)
  datatype TransformPointOptions = TransformPointOptions(srid: Value := Undefined)

  // The queries the methods send: defaults filled in, arguments forwarded in the builder's order.

  function ListTablesQuery(o: ListTablesOptions): Query {
    ListTables.Build(o.filter)
  }

  function ListColumnsQuery(table: Value): Query {
    ListColumns.Build(table)
  }

  function QueryTableQuery(table: Value, o: QueryTableOptions): Query {
    QueryTable.Build(table, Default(o.columns, Str("*")), o.filter, o.group, o.sort, Default(o.limit, Int(100)))
  }

  function BboxQuery(table: Value, o: BboxOptions): Query {
    Bbox.Build(table, Default(o.geom, Str("geom")), Default(o.srid, Int(4326)), o.filter)
  }

  function CentroidQuery(table: Value, o: CentroidOptions): Query {
    Centroid.Build(table, Default(o.force, Bool(false)), Default(o.geom, Str("geom")), Default(o.srid, Str("4326")), o.filter)
  }

  function IntersectFeatureQuery(from: Value, to: Value, o: IntersectFeatureOptions): Query {
    IntersectFeature.Build(from, to, Default(o.columns, Str("*")), Default(o.distance, Str("0")),
                           Default(o.geomFrom, Str("geom")), Default(o.geomTo, Str("geom")), o.filter, o.sort, o.limit)
  }

  function IntersectPointQuery(table: Value, point: Value, o: IntersectPointOptions): Result<Query, Error> {
    IntersectPoint.Build(table, point, Default(o.columns, Str("*")), Default(o.distance, Str("0")),
                         Default(o.geom, Str("geom")), o.filter, o.sort, Default(o.limit, Int(10)))
  }

  function GeoJsonQuery(table: Value, o: GeoJsonOptions): Result<Query, Error> {
    GeoJson.Build(table, o.bounds, o.id, Default(o.precision, Int(9)), Default(o.geom, Str("geom")), o.columns, o.filter)
  }

  function GeobufQuery(table: Value, o: GeobufOptions): Result<Query, Error> {
    Geobuf.Build(table, o.bounds, Default(o.geom, Str("geom")), o.columns, o.filter)
  }

  function MvtQuery(table: Value, x: Value, y: Value, z: Value, o: MvtOptions): Query {
    Mvt.Build(table, x, y, z, o.columns, o.id, Default(o.geom, Str("geom")), o.filter)
  }

  function NearestQuery(table: Value, point: Value, o: NearestOptions): Result<Query, Error> {
    Nearest.Build(table, point, Default(o.columns, Str("*")), Default(o.geom, Str("geom")), o.filter, Default(o.limit, Int(10)))
  }

  function TransformPointQuery(point: Value, o: TransformPointOptions): Result<Query, Error> {
    TransformPoint.Build(point, Default(o.srid, Int(4326)))
  }

  /** `{ type: 'FeatureCollection', features }` */
  datatype FeatureCollection = FeatureCollection(kind: string, features: seq<Value>)

  /** `rows.map((el) => el.geojson)` */
  function Features(rows: seq<Row>): (f: seq<Value>)
    ensures |f| == |rows|
    ensures forall i :: 0 <= i < |rows| ==> f[i] == Field(rows[i], "geojson")
  {
    if rows == [] then [] else [Field(rows[0], "geojson")] + Features(rows[1..])
  }

  /** The features of consecutive row lists are the features of each, in order. */
  lemma {:induction false} FeaturesAppend(a: seq<Row>, b: seq<Row>)
    ensures Features(a + b) == Features(a) + Features(b)
  {
    if a != [] {
      assert (a + b)[1..] == a[1..] + b;
      FeaturesAppend(a[1..], b);
    }
  }

  /** `rows[0].st_asgeobuf`: reading a field of `rows[0]` throws when there is no row. */
  function FirstGeobuf(rows: seq<Row>): (r: Result<Value, Error>)
    ensures r.Failure? <==> rows == []
    ensures r.Failure? ==> r.error == TypeError(MissingFirstRow)
    ensures r.Success? ==> r.value == Field(rows[0], "st_asgeobuf")
  {
    if rows == [] then Failure(TypeError(MissingFirstRow)) else Success(Field(rows[0], "st_asgeobuf"))
  }

  class Postgis {
    /** `this.client.query`, fixed at construction. */
    const query: string -> Outcome

    constructor (query: string -> Outcome)
      ensures this.query == query
    {
      this.query := query;
    }

    /** `new Postgis(client)`: throws unless the client has a `query` function, which is then kept. */
    static method Connect(client: Client) returns (r: Result<Postgis, Error>)
      ensures r.Failure? <==> Validate(client).Failure?
      ensures r.Failure? ==> r.error == Validate(client).error
      ensures r.Success? ==> fresh(r.value) && r.value.query == Validate(client).value
    {
      var v := Validate(client);
      if v.Failure? {
        return Failure(v.error);
      }
      var p := new Postgis(v.value);
      return Success(p);
    }

    /**
     * `_executeQuery`: the rows of the result when the query resolves; when
     * it rejects, an error whose message is `Query execution failed: `
     * followed by the client's message.
     */
    function Execute(q: Query): (r: Result<seq<Row>, Error>)
      ensures query(Sql(q)).Resolved? <==> r.Success?
      ensures r.Success? ==> r.value == query(Sql(q)).rows
      ensures r.Failure? ==> r.error.Thrown? && QueryFailed <= r.error.message &&
                             r.error.message[|QueryFailed|..] == query(Sql(q)).message
    {
      match query(Sql(q))
      case Resolved(rows) => Success(rows)
      case Rejected(m) => Failure(Thrown(QueryFailed + m))
    }

    /** A builder that throws does so before anything is sent; the error is not wrapped. */
    function Send(q: Result<Query, Error>): (r: Result<seq<Row>, Error>)
      ensures q.Failure? ==> r == Failure(q.error)
      ensures q.Success? ==> r == Execute(q.value)
    {
      match q
      case Failure(e) => Failure(e)
      case Success(v) => Execute(v)
    }

    function ListTables(o: ListTablesOptions): Result<seq<Row>, Error> {
      Execute(ListTablesQuery(o))
    }

    function ListColumns(table: Value): Result<seq<Row>, Error> {
      Execute(ListColumnsQuery(table))
    }

    function QueryTable(table: Value, o: QueryTableOptions): Result<seq<Row>, Error> {
      Execute(QueryTableQuery(table, o))
    }

    function Bbox(table: Value, o: BboxOptions): Result<seq<Row>, Error> {
      Execute(BboxQuery(table, o))
    }

    function Centroid(table: Value, o: CentroidOptions): Result<seq<Row>, Error> {
      Execute(CentroidQuery(table, o))
    }

    function IntersectFeature(from: Value, to: Value, o: IntersectFeatureOptions): Result<seq<Row>, Error> {
      Execute(IntersectFeatureQuery(from, to, o))
    }

    function IntersectPoint(table: Value, point: Value, o: IntersectPointOptions): Result<seq<Row>, Error> {
      Send(IntersectPointQuery(table, point, o))
    }

    /** `geojson`: the rows' `geojson` cells as the features of a FeatureCollection. */
    function GeoJson(table: Value, o: GeoJsonOptions): (r: Result<FeatureCollection, Error>)
      ensures var rows := Send(GeoJsonQuery(table, o));
              (r.Success? <==> rows.Success?) &&
              (rows.Failure? ==> r.error == rows.error) &&
              (r.Success? ==> r.value.kind == "FeatureCollection" && |r.value.features| == |rows.value| &&
                              forall i :: 0 <= i < |rows.value| ==> r.value.features[i] == Field(rows.value[i], "geojson"))
    {
      var rows :- Send(GeoJsonQuery(table, o));
      Success(FeatureCollection("FeatureCollection", Features(rows)))
    }

    /** `geobuf`: the `st_asgeobuf` cell of the first row. */
    function Geobuf(table: Value, o: GeobufOptions): (r: Result<Value, Error>)
      ensures var rows := Send(GeobufQuery(table, o));
              (rows.Failure? ==> r == Failure(rows.error)) &&
              (rows.Success? ==> r == FirstGeobuf(rows.value))
    {
      var rows :- Send(GeobufQuery(table, o));
      FirstGeobuf(rows)
    }

    function Mvt(table: Value, x: Value, y: Value, z: Value, o: MvtOptions): Result<seq<Row>, Error> {
      Execute(MvtQuery(table, x, y, z, o))
    }

    function Nearest(table: Value, point: Value, o: NearestOptions): Result<seq<Row>, Error> {
      Send(NearestQuery(table, point, o))
    }

    function TransformPoint(point: Value, o: TransformPointOptions): Result<seq<Row>, Error> {
      Send(TransformPointQuery(point, o))
    }
  }

  /**
   * `list_tables` sends the catalog text, then `and <filter>` only for a
   * truthy filter, then `ORDER BY table_name`.
   */
  lemma ListTablesSends(db: Postgis, o: ListTablesOptions)
    ensures db.ListTables(o).Success? <==>
            db.query(ListTables.CatalogText(Written) + (Optional(LowerAnd, o.filter, Written) + WordText(OrderByTableName))).Resolved?
  {
    ListTables.Rendered(o.filter, Written);
  }

  /** `list_columns` sends the catalog text with the table name, unescaped, before the closing quote. */
  lemma ListColumnsSends(db: Postgis, table: Value)
    ensures db.ListColumns(table).Success? <==>
            db.query(ListColumns.Prefix(Written) + (Text(table) + WordText(Quote))).Resolved?
  {
    ListColumns.Rendered(table, Written);
  }

  /** The number 4326 the facade passes prints as the builders' default string `'4326'`. */
  lemma NumberSridText()
    ensures Text(Int(4326)) == Text(DefaultSrid)
  {
    assert NatToString(4) == "4";
    AppendDigit(4, 3, "4");
    AppendDigit(43, 2, "43");
    AppendDigit(432, 6, "432");
  }

  /** Appending the digit `d` to a positive number's digits. */
  lemma AppendDigit(n: nat, d: nat, t: string)
    requires 1 <= n && d < 10 && NatToString(n) == t
    ensures NatToString(10 * n + d) == t + [DigitChar(d)]
  {
    var m := 10 * n + d;
    assert m / 10 == n && m % 10 == d;
  }

  /** `query_table(table)` with no options sends `SELECT * FROM <table> LIMIT 100`. */
  lemma QueryTableOmitted(table: Value)
    ensures QueryTableQuery(table, QueryTableOptions()) ==
            [Kw(Select), Arg(Str("*")), Kw(From), Arg(table), Kw(Limit), Arg(Int(100))]
  {
  }

  /**
   * An omitted limit becomes `LIMIT 100`; an explicit `null` (or 0) is
   * forwarded as it is and suppresses the clause.
   */
  lemma QueryTableLimit(table: Value, o: QueryTableOptions)
    ensures var q := QueryTableQuery(table, o);
            (o.limit == Undefined ==> Shows(q, Limit, Int(100))) &&
            (o.limit == Null || o.limit == Int(0) ==> Kw(Limit) !in q)
  {
    var c := Default(o.columns, Str("*"));
    QueryTable.LimitDefault(table, c, o.filter, o.group, o.sort);
    QueryTable.ShowsLimit(table, c, o.filter, o.group, o.sort, Int(100));
  }

  /** `bbox` writes the same text as the builder's own defaults: the number 4326 prints as `'4326'`. */
  lemma BboxLikeBuilder(table: Value, filter: Value)
    ensures Sql(BboxQuery(table, BboxOptions(filter := filter))) == Sql(Bbox.Build(table, Undefined, Undefined, filter))
  {
    NumberSridText();
    Bbox.Rendered(table, Str("geom"), Int(4326), filter, Written);
    Bbox.Rendered(table, Undefined, Undefined, filter, Written);
  }

  /** `centroid`'s defaults are the builder's: without `force_on_surface` the centre is `ST_Centroid`. */
  lemma CentroidLikeBuilder(table: Value, filter: Value)
    ensures var q := CentroidQuery(table, CentroidOptions(filter := filter));
            q == Centroid.Build(table, Undefined, Undefined, Undefined, filter) &&
            Kw(SqlText.Centroid) in q && Kw(PointOnSurface) !in q
  {
    Centroid.NeverMixed(table, Undefined, Undefined, Undefined, filter);
  }

  /** `intersect_feature`'s defaults are exactly the builder's: the facade changes nothing. */
  lemma IntersectFeatureLikeBuilder(from: Value, to: Value, o: IntersectFeatureOptions)
    ensures IntersectFeatureQuery(from, to, o) ==
            IntersectFeature.Build(from, to, o.columns, o.distance, o.geomFrom, o.geomTo, o.filter, o.sort, o.limit)
  {
  }

  /**
   * `intersect_point(table, point)` with no options: all columns, distance
   * 0, column `geom`, and `LIMIT 10` at the end.
   */
  lemma IntersectPointOmitted(table: Value, point: Value, p: Point)
    requires Spells(point, p, Whole)
    ensures var r := IntersectPointQuery(table, point, IntersectPointOptions());
            r == Success(IntersectPoint.WithPoint(p, table, Str("*"), Str("0"), Str("geom"), Undefined, Undefined, Int(10))) &&
            r.value[|r.value| - 2..] == [Kw(Limit), Arg(Int(10))]
  {
    IntersectPoint.Reads(table, point, Str("*"), Str("0"), Str("geom"), Undefined, Undefined, Int(10), p);
    IntersectPoint.Placed(p, table, Str("*"), Str("0"), Str("geom"), Undefined, Undefined, Int(10));
  }

  /** `nearest(table, point)` with no options: all columns, column `geom`, and `LIMIT 10`. */
  lemma NearestOmitted(table: Value, point: Value, p: Point)
    requires Spells(point, p, AtStart)
    ensures var r := NearestQuery(table, point, NearestOptions());
            r == Success(Nearest.WithPoint(p, table, Str("*"), Str("geom"), Undefined, Int(10))) &&
            r.value[|r.value| - 2..] == [Kw(Limit), Arg(Int(10))]
  {
    Nearest.Reads(table, point, Str("*"), Str("geom"), Undefined, Int(10), p);
    Nearest.LimitAlways(p, table, Str("*"), Str("geom"), Undefined, Int(10));
  }

  /**
   * `geojson(table)` with no options: precision 9, column `geom`, no id, no
   * restriction at all.
   */
  lemma GeoJsonOmitted(table: Value)
    ensures var r := GeoJsonQuery(table, GeoJsonOptions());
            r == Success(GeoJson.WithBounds(table, Bounds.NoBounds, Undefined, Str("9"), Str("geom"), Undefined, Undefined)) &&
            Kw(WhereWord) !in r.value && Kw(IdMember) !in r.value
  {
    GeoJson.PrecisionOfInteger(9);
    assert IntToString(9) == "9";
    GeoJson.Keywords(table, Undefined, Undefined, Int(9), Str("geom"), Undefined, Undefined);
    GeoJson.IdNamed(table, Bounds.NoBounds, Undefined, Str("9"), Str("geom"), Undefined, Undefined);
  }

  /** `geobuf(table)` with no options reads the table alone: no srid subquery, no restriction. */
  lemma GeobufOmitted(table: Value)
    ensures var r := GeobufQuery(table, GeobufOptions());
            r == Success(Geobuf.WithBounds(table, Bounds.NoBounds, Str("geom"), Undefined, Undefined)) &&
            Kw(SridAlias) !in r.value && Kw(WhereWord) !in r.value
  {
    Geobuf.SridOnlyForBounds(table, Bounds.NoBounds, Str("geom"), Undefined, Undefined);
    Geobuf.Keywords(table, Undefined, Str("geom"), Undefined, Undefined);
  }

  /** `transform_point(point)` with no options moves the point into 4326, given as a number. */
  lemma TransformPointOmitted(point: Value, p: Point)
    requires Spells(point, p, AtStart)
    ensures TransformPointQuery(point, TransformPointOptions()) == Success(TransformPoint.WithPoint(p, Int(4326)))
    ensures Text(Int(4326)) == "4326"
  {
    TransformPoint.Reads(point, Int(4326), p);
    NumberSridText();
  }

  /**
   * `mvt(table, x, y, z)` hands the coordinates on in the builder's order,
   * which writes both tile envelopes as `(z, x, y)`; the geometry column
   * defaults to `geom`.
   */
  lemma MvtForwards(table: Value, x: Value, y: Value, z: Value, o: MvtOptions)
    ensures var q := MvtQuery(table, x, y, z, o);
            var w := Mvt.Width(o.columns, o.id);
            q[3..10] == Tile(z, x, y) && q[w + 15..w + 22] == Tile(z, x, y) &&
            q[1] == Arg(Default(o.geom, Str("geom")))
  {
    Mvt.TileTwice(table, x, y, z, o.columns, o.id, Default(o.geom, Str("geom")), o.filter);
  }

  /** A query the client rejects fails with the client's message behind `Query execution failed: `. */
  lemma RejectedWrapped(db: Postgis, table: Value, o: QueryTableOptions, m: string)
    requires db.query(Sql(QueryTableQuery(table, o))) == Rejected(m)
    ensures db.QueryTable(table, o) == Failure(Thrown("Query execution failed: " + m))
  {
  }

  /**
   * Bounds that are truthy but not a string make `geojson` fail with the
   * builder's TypeError, unwrapped: nothing is sent to the client.
   */
  lemma BoundsErrorNotWrapped(db: Postgis, table: Value, o: GeoJsonOptions)
    requires Truthy(o.bounds) && !o.bounds.Str?
    ensures db.GeoJson(table, o) == Failure(TypeError(NotAString("bounds")))
  {
    GeoJson.Rejects(table, o.bounds, o.id, Default(o.precision, Int(9)), Default(o.geom, Str("geom")), o.columns, o.filter);
  }

  /** A point the prefix regex rejects makes `nearest` fail with a TypeError before anything is sent. */
  lemma MalformedPointNotSent(db: Postgis, table: Value, point: Value, o: NearestOptions)
    requires forall p: Point :: !Spells(point, p, AtStart)
    ensures db.Nearest(table, point, o).Failure? && db.Nearest(table, point, o).error.TypeError?
  {
    Nearest.Rejects(table, point, Default(o.columns, Str("*")), Default(o.geom, Str("geom")), o.filter, Default(o.limit, Int(10)));
  }

  /** `geobuf` over an empty result throws on `rows[0]`. */
  lemma GeobufEmpty(db: Postgis, table: Value, o: GeobufOptions)
    requires db.Send(GeobufQuery(table, o)) == Success([])
    ensures db.Geobuf(table, o) == Failure(TypeError(MissingFirstRow))
  {
  }

  /** The features keep the rows' order: the rows of two results give their features one after the other. */
  lemma GeoJsonFeatures(db: Postgis, table: Value, o: GeoJsonOptions, a: seq<Row>, b: seq<Row>)
    requires db.Send(GeoJsonQuery(table, o)) == Success(a + b)
    ensures db.GeoJson(table, o).Success?
    ensures db.GeoJson(table, o).value.features == Features(a) + Features(b)
  {
    FeaturesAppend(a, b);
  }
}
