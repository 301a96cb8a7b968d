/**
 * lib/nearest.js: the rows of a table with their distance to a point given
 * as `x,y,srid`, nearest first. The point is read with the prefix regex and
 * moved into the srid of the table's geometry column, once for the
 * `distance` column and once for the `<->` ordering; `LIMIT` is always
 * written.
 */
module Nearest {
  import opened Wrappers
  import opened Js
  import opened SqlText
  import opened PointString
  import opened Spatial

  /** `, <geom> ) as distance FROM <table>` */
  function Measured(table: Value, geom: Value): Query {
    [Kw(Comma), Arg(geom), Kw(DistanceClose), Kw(From), Arg(table)]
  }

  /** `SELECT <columns>, ST_Distance( <point moved>, <geom> ) as distance FROM <table>` */
  function Projection(p: Point, table: Value, columns: Value, geom: Value): Query {
    [Kw(Select), Arg(columns), Kw(DistanceOpen)] + (PointInTable(p, geom, table) + Measured(table, geom))
  }

  /** `ORDER BY <geom> <-> <point moved> LIMIT <limit>` */
  function Ordering(p: Point, table: Value, geom: Value, limit: Value): Query {
    [Kw(OrderBy), Arg(geom), Kw(NearTo)] + (PointInTable(p, geom, table) + [Kw(Limit), Arg(limit)])
  }

  /** The query once the point has been read. */
  function WithPoint(p: Point, table: Value, columns: Value, geom: Value, filter: Value, limit: Value): Query {
    Projection(p, table, columns, geom) + (Clause(Where, filter) + Ordering(p, table, geom, limit))
  }

  /** `nearest(table, point, columns, geom_column, filter, limit)` */
  function Build(table: Value, point: Value, columns: Value, geom: Value, filter: Value, limit: Value): Result<Query, Error> {
    match MatchPoint(point, AtStart)
    case Failure(e) => Failure(e)
    case Success(p) => Success(WithPoint(p, table, columns, geom, filter, limit))
  }

  /**
   * A point string that starts with `<num>,<num>,dddd` is read as those three
   * texts, whatever follows the four srid digits.
   */
  lemma Reads(table: Value, point: Value, columns: Value, geom: Value, filter: Value, limit: Value, p: Point)
    requires Spells(point, p, AtStart)
    ensures Build(table, point, columns, geom, filter, limit) == Success(WithPoint(p, table, columns, geom, filter, limit))
  {
    MatchPointExact(point, AtStart, p);
  }

  /** Any other point gives no query text at all. */
  lemma Rejects(table: Value, point: Value, columns: Value, geom: Value, filter: Value, limit: Value)
    ensures var r := Build(table, point, columns, geom, filter, limit);
            (r.Failure? <==> forall p: Point :: !Spells(point, p, AtStart)) &&
            (r.Failure? ==> r.error == if point.Str? then TypeError(MatchFailed) else TypeError(NotAString("point")))
  {
    MatchPointFails(point, AtStart);
  }

  /** `12.5,3.4,43267` is read as srid `4326`: the fifth digit is ignored. */
  lemma FifthSridDigit(table: Value, columns: Value, geom: Value, filter: Value, limit: Value)
    ensures Build(table, Str("12.5,3.4,43267"), columns, geom, filter, limit) ==
            Success(WithPoint(Point("12.5", "3.4", "4326"), table, columns, geom, filter, limit))
  {
    PointString.FifthSridDigit("12.5,3.4,43267");
  }

  /**
   * A coordinate with fewer than two digits before its point, as in
   * `5,6,4326`, fails before any text is built.
   */
  lemma ShortCoordinateRejected(table: Value, columns: Value, geom: Value, filter: Value, limit: Value, x: string, y: string, tail: string)
    requires ',' !in x && ',' !in y
    requires |WithoutMinus(x)| < 2 || |WithoutMinus(y)| < 2
    ensures Build(table, Str(x + "," + y + "," + tail), columns, geom, filter, limit) == Failure(TypeError(MatchFailed))
  {
    PointString.ShortCoordinateRejected(x, y, tail);
  }

  /** The lengths of the fixed parts. */
  lemma Lengths(p: Point, table: Value, columns: Value, geom: Value, limit: Value)
    ensures |Projection(p, table, columns, geom)| == 23 && |Ordering(p, table, geom, limit)| == 20
  {
    PointInTablePieces(Select, p, geom, table);
  }

  /**
   * The distance column and the `<->` ordering use the same point
   * expression: the matched point moved into the srid of the geometry column
   * of the same table. The columns come first, before `, ST_Distance(`.
   */
  lemma SamePoint(p: Point, table: Value, columns: Value, geom: Value, filter: Value, limit: Value)
    ensures var q := WithPoint(p, table, columns, geom, filter, limit);
            var e := PointInTable(p, geom, table);
            q[..3] == [Kw(Select), Arg(columns), Kw(DistanceOpen)] &&
            q[3..18] == e && q[18..20] == [Kw(Comma), Arg(geom)] &&
            q[|q| - 20..|q| - 17] == [Kw(OrderBy), Arg(geom), Kw(NearTo)] &&
            q[|q| - 17..|q| - 2] == e
  {
    var a := Projection(p, table, columns, geom);
    var c := Clause(Where, filter);
    var o := Ordering(p, table, geom, limit);
    ProjectionShape(p, table, columns, geom);
    OrderingShape(p, table, geom, limit);
    SliceFront(a, c + o, 0, 3);
    SliceFront(a, c + o, 3, 18);
    SliceFront(a, c + o, 18, 20);
    SliceLast(a, c, o, 0, 3);
    SliceLast(a, c, o, 3, 18);
  }

  /** The projection: the columns, the moved point, then the geometry column it is measured to. */
  lemma ProjectionShape(p: Point, table: Value, columns: Value, geom: Value)
    ensures var a := Projection(p, table, columns, geom);
            |a| == 23 && a[..3] == [Kw(Select), Arg(columns), Kw(DistanceOpen)] &&
            a[3..18] == PointInTable(p, geom, table) && a[18..20] == [Kw(Comma), Arg(geom)]
  {
    var e := PointInTable(p, geom, table);
    var m := Measured(table, geom);
    PointInTablePieces(Select, p, geom, table);
    SliceFront([Kw(Select), Arg(columns), Kw(DistanceOpen)], e + m, 0, 3);
    SliceMiddle([Kw(Select), Arg(columns), Kw(DistanceOpen)], e, m, 0, 15);
    SliceLast([Kw(Select), Arg(columns), Kw(DistanceOpen)], e, m, 0, 2);
  }

  /** The ordering: the geometry column, `<->`, then the same moved point. */
  lemma OrderingShape(p: Point, table: Value, geom: Value, limit: Value)
    ensures var o := Ordering(p, table, geom, limit);
            |o| == 20 && o[..3] == [Kw(OrderBy), Arg(geom), Kw(NearTo)] && o[3..18] == PointInTable(p, geom, table)
  {
    var e := PointInTable(p, geom, table);
    PointInTablePieces(Select, p, geom, table);
    SliceFront([Kw(OrderBy), Arg(geom), Kw(NearTo)], e + [Kw(Limit), Arg(limit)], 0, 3);
    SliceMiddle([Kw(OrderBy), Arg(geom), Kw(NearTo)], e, [Kw(Limit), Arg(limit)], 0, 15);
  }

  /** `LIMIT <limit>` always ends the query, the limit written as it is, without a truthiness test. */
  lemma LimitAlways(p: Point, table: Value, columns: Value, geom: Value, filter: Value, limit: Value)
    ensures var q := WithPoint(p, table, columns, geom, filter, limit);
            q[|q| - 2..] == [Kw(Limit), Arg(limit)]
  {
    var o := Ordering(p, table, geom, limit);
    var q := WithPoint(p, table, columns, geom, filter, limit);
    Lengths(p, table, columns, geom, limit);
    assert q[|q| - 20..] == o;
  }

  /**
   * `WHERE <filter>` appears iff the filter is truthy, between `FROM <table>`
   * and `ORDER BY`; without it `ORDER BY` follows the table name.
   */
  lemma Filter(p: Point, table: Value, columns: Value, geom: Value, filter: Value, limit: Value)
    ensures var q := WithPoint(p, table, columns, geom, filter, limit);
            (Kw(Where) in q <==> Truthy(filter)) &&
            (Truthy(filter) ==> q[21..26] == [Kw(From), Arg(table), Kw(Where), Arg(filter), Kw(OrderBy)]) &&
            (!Truthy(filter) ==> q[21..24] == [Kw(From), Arg(table), Kw(OrderBy)])
  {
    var a := Projection(p, table, columns, geom);
    var o := Ordering(p, table, geom, limit);
    Lengths(p, table, columns, geom, limit);
    PointInTablePieces(Where, p, geom, table);
    InClause(Where, Where, filter);
    assert Kw(Where) !in a && Kw(Where) !in o;
    var q := WithPoint(p, table, columns, geom, filter, limit);
    assert q[21..] == [Kw(From), Arg(table)] + (Clause(Where, filter) + o);
  }

  lemma RenderMeasured<T>(table: Value, geom: Value, sp: Spelling<T>)
    ensures Render(Measured(table, geom), sp) ==
            sp.word(Comma) + (sp.value(geom) + (sp.word(DistanceClose) + (sp.word(From) + sp.value(table))))
  {
    var q := Measured(table, geom);
    assert q == [q[0], q[1], q[2], q[3], q[4]];
    RenderFive(q[0], q[1], q[2], q[3], q[4], sp);
  }

  lemma RenderProjection<T>(p: Point, table: Value, columns: Value, geom: Value, sp: Spelling<T>)
    ensures Render(Projection(p, table, columns, geom), sp) ==
            sp.word(Select) + (sp.value(columns) + (sp.word(DistanceOpen) +
            (Render(PointInTable(p, geom, table), sp) + Render(Measured(table, geom), sp))))
  {
    var q := Projection(p, table, columns, geom);
    assert q == [q[0], q[1], q[2]] + (PointInTable(p, geom, table) + Measured(table, geom));
    RenderThreeThen(q[0], q[1], q[2], PointInTable(p, geom, table) + Measured(table, geom), sp);
    RenderAppend(PointInTable(p, geom, table), Measured(table, geom), sp);
  }

  lemma RenderOrdering<T>(p: Point, table: Value, geom: Value, limit: Value, sp: Spelling<T>)
    ensures Render(Ordering(p, table, geom, limit), sp) ==
            sp.word(OrderBy) + (sp.value(geom) + (sp.word(NearTo) +
            (Render(PointInTable(p, geom, table), sp) + (sp.word(Limit) + sp.value(limit)))))
  {
    var q := Ordering(p, table, geom, limit);
    var e := PointInTable(p, geom, table);
    assert q == [q[0], q[1], q[2]] + (e + [Kw(Limit), Arg(limit)]);
    RenderThreeThen(q[0], q[1], q[2], e + [Kw(Limit), Arg(limit)], sp);
    RenderAppend(e, [Kw(Limit), Arg(limit)], sp);
    RenderCons(Kw(Limit), [Arg(limit)], sp);
    RenderCons(Arg(limit), [], sp);
  }

  /**
   * The query string, in any spelling: the projection with the distance,
   * the optional `WHERE <filter>`, the ordering by distance and the limit.
   */
  lemma Rendered<T>(p: Point, table: Value, columns: Value, geom: Value, filter: Value, limit: Value, sp: Spelling<T>)
    ensures Render(WithPoint(p, table, columns, geom, filter, limit), sp) ==
            Render(Projection(p, table, columns, geom), sp) +
            (Optional(Where, filter, sp) + Render(Ordering(p, table, geom, limit), sp))
  {
    RenderClause(Where, filter, sp);
    RenderAppend(Clause(Where, filter), Ordering(p, table, geom, limit), sp);
    RenderAppend(Projection(p, table, columns, geom), Clause(Where, filter) + Ordering(p, table, geom, limit), sp);
  }

  /**
   * The parameters in order: columns, the moved point (x, y, srid, geometry
   * column, table), the geometry column and the table, a truthy filter, the
   * geometry column and the moved point again, and the limit.
   */
  lemma Interpolated(p: Point, table: Value, columns: Value, geom: Value, filter: Value, limit: Value)
    ensures var e := [Str(p.x), Str(p.y), Str(p.srid), geom, table];
            Params(WithPoint(p, table, columns, geom, filter, limit)) ==
            ([columns] + (e + [geom, table])) + (Present(filter) + ([geom] + (e + [limit])))
  {
    ProjectionParams(p, table, columns, geom);
    OrderingParams(p, table, geom, limit);
    ClauseParams(Where, filter);
    Rendered(p, table, columns, geom, filter, limit, Parameters);
  }

  lemma ProjectionParams(p: Point, table: Value, columns: Value, geom: Value)
    ensures Params(Projection(p, table, columns, geom)) == [columns] + ([Str(p.x), Str(p.y), Str(p.srid), geom, table] + [geom, table])
  {
    RenderProjection(p, table, columns, geom, Parameters);
    RenderMeasured(table, geom, Parameters);
    PointInTableParams(p, geom, table);
  }

  lemma OrderingParams(p: Point, table: Value, geom: Value, limit: Value)
    ensures Params(Ordering(p, table, geom, limit)) == [geom] + ([Str(p.x), Str(p.y), Str(p.srid), geom, table] + [limit])
  {
    RenderOrdering(p, table, geom, limit, Parameters);
    PointInTableParams(p, geom, table);
  }
}
