/**
 * lib/bbox.js: the extent of a table's geometries, reprojected:
 * `SELECT ST_Extent(ST_Transform(<geom>, <srid>)) as bbox FROM <table>`
 * with an optional `WHERE <filter>`.
 */
module Bbox {
  import opened Js
  import opened SqlText
  import opened Spatial

  /** `bbox(table, geom_column = 'geom', srid = '4326', filter)` */
  function Build(table: Value, geom: Value, srid: Value, filter: Value): Query {
    [Kw(ExtentOpen), Arg(Default(geom, DefaultGeom)), Kw(Comma), Arg(Default(srid, DefaultSrid)), Kw(ExtentClose),
     Kw(From), Arg(table)] + Clause(Where, filter)
  }

  /**
   * The projection is always the extent of the reprojected geometry column,
   * followed by `FROM <table>`; `'geom'` and `'4326'` stand in for an
   * undefined column and srid.
   */
  lemma Projection(table: Value, geom: Value, srid: Value, filter: Value)
    ensures var q := Build(table, geom, srid, filter);
            q[..7] == [Kw(ExtentOpen), Arg(Default(geom, DefaultGeom)), Kw(Comma), Arg(Default(srid, DefaultSrid)),
                       Kw(ExtentClose), Kw(From), Arg(table)]
    ensures Build(table, Undefined, Undefined, filter)[1] == Arg(Str("geom"))
    ensures Build(table, Undefined, Undefined, filter)[3] == Arg(Str("4326"))
  {
  }

  /**
   * `WHERE <filter>` follows the table name iff the filter is truthy;
   * otherwise the query ends after the table name.
   */
  lemma Filter(table: Value, geom: Value, srid: Value, filter: Value)
    ensures var q := Build(table, geom, srid, filter);
            (Kw(Where) in q <==> Truthy(filter)) &&
            (Truthy(filter) ==> q[6..] == [Arg(table), Kw(Where), Arg(filter)]) &&
            (!Truthy(filter) ==> |q| == 7 && q[6] == Arg(table))
  {
    InClause(Where, Where, filter);
  }

  /** The parameters in order: the geometry column, the srid, the table, then a truthy filter. */
  lemma Interpolated(table: Value, geom: Value, srid: Value, filter: Value)
    ensures Params(Build(table, geom, srid, filter)) ==
            [Default(geom, DefaultGeom), Default(srid, DefaultSrid), table] + Present(filter)
  {
    Rendered(table, geom, srid, filter, Parameters);
    ClauseParams(Where, filter);
  }

  /** The query string, in any spelling: extent, `FROM <table>`, then the optional `WHERE <filter>`. */
  lemma Rendered<T>(table: Value, geom: Value, srid: Value, filter: Value, sp: Spelling<T>)
    ensures Render(Build(table, geom, srid, filter), sp) ==
            sp.word(ExtentOpen) + (sp.value(Default(geom, DefaultGeom)) + (sp.word(Comma) +
            (sp.value(Default(srid, DefaultSrid)) + (sp.word(ExtentClose) + (sp.word(From) +
            (sp.value(table) + Optional(Where, filter, sp)))))))
  {
    var h := [Kw(ExtentOpen), Arg(Default(geom, DefaultGeom)), Kw(Comma), Arg(Default(srid, DefaultSrid)), Kw(ExtentClose),
              Kw(From), Arg(table)];
    var w := Clause(Where, filter);
    RenderClause(Where, filter, sp);
    RenderAppend(h, w, sp);
    RenderSeven(h[0], h[1], h[2], h[3], h[4], h[5], h[6], sp);
  }
}
