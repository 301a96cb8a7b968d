/**
 * lib/intersect_point.js: the rows within a distance of a point given as
 * `x,y,srid`. The point is read with the anchored regex, moved into the srid
 * of the table's geometry column, and compared with `ST_DWithin`; the
 * optional AND, ORDER BY and LIMIT follow. The builder has no defaults of
 * its own: the facade supplies them.
 */
module IntersectPoint {
  import opened Wrappers
  import opened Js
  import opened SqlText
  import opened PointString
  import opened Spatial

  /** `SELECT <columns> FROM <table> WHERE ST_DWithin( <geom>, ` */
  function Lead(table: Value, columns: Value, geom: Value): Query {
    [Kw(Select), Arg(columns), Kw(From), Arg(table), Kw(DWithinOpen), Arg(geom), Kw(Comma)]
  }

  /** `, <distance> )`, closing `ST_DWithin`. */
  function Within(distance: Value): Query {
    [Kw(Comma), Arg(distance), Kw(DWithinClose)]
  }

  /** `SELECT <columns> FROM <table> WHERE ST_DWithin( <geom>, <point moved>, <distance> )` */
  function Near(p: Point, table: Value, columns: Value, distance: Value, geom: Value): Query {
    Lead(table, columns, geom) + (PointInTable(p, geom, table) + Within(distance))
  }

  /** The query once the point has been read. */
  function WithPoint(p: Point, table: Value, columns: Value, distance: Value, geom: Value,
                     filter: Value, sort: Value, limit: Value): Query {
    Near(p, table, columns, distance, geom) + Refinements(filter, sort, limit)
  }

  /** `intersect_point(table, point, columns, distance, geom_column, filter, sort, limit)` */
  function Build(table: Value, point: Value, columns: Value, distance: Value, geom: Value,
                 filter: Value, sort: Value, limit: Value): Result<Query, Error> {
    match MatchPoint(point, Whole)
    case Failure(e) => Failure(e)
    case Success(p) => Success(WithPoint(p, table, columns, distance, geom, filter, sort, limit))
  }

  /** A point string that is exactly `<num>,<num>,dddd` is read as those three texts. */
  lemma Reads(table: Value, point: Value, columns: Value, distance: Value, geom: Value,
              filter: Value, sort: Value, limit: Value, p: Point)
    requires Spells(point, p, Whole)
    ensures Build(table, point, columns, distance, geom, filter, sort, limit) ==
            Success(WithPoint(p, table, columns, distance, geom, filter, sort, limit))
  {
    MatchPointExact(point, Whole, p);
  }

  /**
   * Any other point gives no query: a string the regex does not match in
   * full fails on indexing the `null` match, anything else has no `match`.
   */
  lemma Rejects(table: Value, point: Value, columns: Value, distance: Value, geom: Value,
                filter: Value, sort: Value, limit: Value)
    ensures var r := Build(table, point, columns, distance, geom, filter, sort, limit);
            (r.Failure? <==> forall p: Point :: !Spells(point, p, Whole)) &&
            (r.Failure? ==> r.error == if point.Str? then TypeError(MatchFailed) else TypeError(NotAString("point")))
  {
    MatchPointFails(point, Whole);
  }

  /** A fifth srid digit is rejected here, though the prefix regex of nearest accepts it. */
  lemma FifthSridDigit(table: Value, columns: Value, distance: Value, geom: Value,
                       filter: Value, sort: Value, limit: Value)
    ensures Build(table, Str("12.5,3.4,43267"), columns, distance, geom, filter, sort, limit) == Failure(TypeError(MatchFailed))
  {
    PointString.FifthSridDigit("12.5,3.4,43267");
  }

  /**
   * The predicate: the columns and the table, then `ST_DWithin` over the
   * geometry column, the point moved into the srid that the same geometry
   * column of the same table has, and the distance, which is always emitted.
   */
  lemma Shape(p: Point, table: Value, columns: Value, distance: Value, geom: Value,
              filter: Value, sort: Value, limit: Value)
    ensures var q := WithPoint(p, table, columns, distance, geom, filter, sort, limit);
            q[..7] == [Kw(Select), Arg(columns), Kw(From), Arg(table), Kw(DWithinOpen), Arg(geom), Kw(Comma)] &&
            q[7..22] == PointInTable(p, geom, table) &&
            q[22..25] == [Kw(Comma), Arg(distance), Kw(DWithinClose)] &&
            q[25..] == Refinements(filter, sort, limit)
  {
    PointInTablePieces(Select, p, geom, table);
    FourParts(Lead(table, columns, geom), PointInTable(p, geom, table), Within(distance), Refinements(filter, sort, limit));
  }

  /** The predicate ends in `ST_DWithin(...)` and holds no clause keyword. */
  lemma NearPieces(p: Point, table: Value, columns: Value, distance: Value, geom: Value)
    ensures EndsPredicate(Near(p, table, columns, distance, geom))
  {
    var n := Near(p, table, columns, distance, geom);
    PointInTablePieces(And, p, geom, table);
    PointInTablePieces(OrderBy, p, geom, table);
    PointInTablePieces(Limit, p, geom, table);
    assert n[|n| - 1] == Kw(DWithinClose);
  }

  /** `AND`, `ORDER BY` and `LIMIT` each appear iff their parameter is truthy; a limit of 0 omits LIMIT. */
  lemma Optionals(p: Point, table: Value, columns: Value, distance: Value, geom: Value,
                  filter: Value, sort: Value, limit: Value)
    ensures var q := WithPoint(p, table, columns, distance, geom, filter, sort, limit);
            (Kw(And) in q <==> Truthy(filter)) &&
            (Kw(OrderBy) in q <==> Truthy(sort)) &&
            (Kw(Limit) in q <==> Truthy(limit))
  {
    NearPieces(p, table, columns, distance, geom);
    AfterPredicatePieces(Near(p, table, columns, distance, geom), filter, sort, limit);
  }

  /**
   * A truthy filter comes immediately after the `ST_DWithin` predicate, a
   * truthy sort follows `ORDER BY`, and a truthy limit ends the query.
   */
  lemma Placed(p: Point, table: Value, columns: Value, distance: Value, geom: Value,
               filter: Value, sort: Value, limit: Value)
    ensures var q := WithPoint(p, table, columns, distance, geom, filter, sort, limit);
            (Truthy(filter) ==> Follows(q, Kw(DWithinClose), Kw(And)) && Shows(q, And, filter)) &&
            (Truthy(sort) ==> Shows(q, OrderBy, sort)) &&
            (Truthy(limit) ==> q[|q| - 2..] == [Kw(Limit), Arg(limit)])
  {
    var n := Near(p, table, columns, distance, geom);
    NearPieces(p, table, columns, distance, geom);
    AfterPredicatePlaces(n, filter, sort, limit);
    assert WithPoint(p, table, columns, distance, geom, filter, sort, limit) == n + Refinements(filter, sort, limit);
  }

  /** The present clauses come in the order AND, ORDER BY, LIMIT. */
  lemma Order(p: Point, table: Value, columns: Value, distance: Value, geom: Value,
              filter: Value, sort: Value, limit: Value)
    ensures var q := WithPoint(p, table, columns, distance, geom, filter, sort, limit);
            (Truthy(filter) && Truthy(sort) ==> Precedes(q, Kw(And), Kw(OrderBy))) &&
            (Truthy(filter) && Truthy(limit) ==> Precedes(q, Kw(And), Kw(Limit))) &&
            (Truthy(sort) && Truthy(limit) ==> Precedes(q, Kw(OrderBy), Kw(Limit)))
  {
    AfterPredicateOrder(Near(p, table, columns, distance, geom), filter, sort, limit);
  }

  lemma RenderLead<T>(table: Value, columns: Value, geom: Value, sp: Spelling<T>)
    ensures Render(Lead(table, columns, geom), sp) ==
            sp.word(Select) + (sp.value(columns) + (sp.word(From) + (sp.value(table) + (sp.word(DWithinOpen) +
            (sp.value(geom) + sp.word(Comma))))))
  {
    RenderSeven(Kw(Select), Arg(columns), Kw(From), Arg(table), Kw(DWithinOpen), Arg(geom), Kw(Comma), sp);
  }

  lemma RenderWithin<T>(distance: Value, sp: Spelling<T>)
    ensures Render(Within(distance), sp) == sp.word(Comma) + (sp.value(distance) + sp.word(DWithinClose))
  {
    RenderThree(Kw(Comma), Arg(distance), Kw(DWithinClose), sp);
  }

  lemma RenderNear<T>(p: Point, table: Value, columns: Value, distance: Value, geom: Value, sp: Spelling<T>)
    ensures Render(Near(p, table, columns, distance, geom), sp) ==
            Render(Lead(table, columns, geom), sp) + (Render(PointInTable(p, geom, table), sp) + Render(Within(distance), sp))
  {
    RenderAppend(PointInTable(p, geom, table), Within(distance), sp);
    RenderAppend(Lead(table, columns, geom), PointInTable(p, geom, table) + Within(distance), sp);
  }

  /** The query string, in any spelling: the predicate, then the optional AND, ORDER BY and LIMIT. */
  lemma Rendered<T>(p: Point, table: Value, columns: Value, distance: Value, geom: Value,
                    filter: Value, sort: Value, limit: Value, sp: Spelling<T>)
    ensures Render(WithPoint(p, table, columns, distance, geom, filter, sort, limit), sp) ==
            Render(Near(p, table, columns, distance, geom), sp) +
            (Optional(And, filter, sp) + (Optional(OrderBy, sort, sp) + Optional(Limit, limit, sp)))
  {
    RenderRefinements(filter, sort, limit, sp);
    RenderAppend(Near(p, table, columns, distance, geom), Refinements(filter, sort, limit), sp);
  }

  /**
   * The parameters in order: columns, table, geometry column, the point's x,
   * y and srid, the geometry column and table of the srid lookup, the
   * distance, then the truthy ones of filter, sort and limit.
   */
  lemma Interpolated(p: Point, table: Value, columns: Value, distance: Value, geom: Value,
                     filter: Value, sort: Value, limit: Value)
    ensures Params(WithPoint(p, table, columns, distance, geom, filter, sort, limit)) ==
            [columns, table, geom, Str(p.x), Str(p.y), Str(p.srid), geom, table, distance] +
            (Present(filter) + (Present(sort) + Present(limit)))
  {
    var n := Near(p, table, columns, distance, geom);
    var r := Refinements(filter, sort, limit);
    NearParams(p, table, columns, distance, geom);
    RefinementParams(filter, sort, limit);
    RenderAppend(n, r, Parameters);
    Flatten(columns, table, geom, Str(p.x), Str(p.y), Str(p.srid), geom, table, distance);
  }

  lemma Flatten(v1: Value, v2: Value, v3: Value, v4: Value, v5: Value, v6: Value, v7: Value, v8: Value, v9: Value)
    ensures [v1, v2, v3] + ([v4, v5, v6, v7, v8] + [v9]) == [v1, v2, v3, v4, v5, v6, v7, v8, v9]
  {
  }

  lemma NearParams(p: Point, table: Value, columns: Value, distance: Value, geom: Value)
    ensures Params(Near(p, table, columns, distance, geom)) ==
            [columns, table, geom] + ([Str(p.x), Str(p.y), Str(p.srid), geom, table] + [distance])
  {
    RenderNear(p, table, columns, distance, geom, Parameters);
    RenderLead(table, columns, geom, Parameters);
    RenderWithin(distance, Parameters);
    PointInTableParams(p, geom, table);
  }
}
