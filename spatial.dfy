/**
 * Pieces of SQL several spatial builders share: the point the point builders
 * read from their `point` argument and the expressions built from it, the
 * srid lookups on a table's geometry column, and a tile envelope.
 */
module Spatial {
  import opened Wrappers
  import opened Js
  import opened SqlText
  import opened PointString

  /** The default geometry column, `'geom'`. */
  const DefaultGeom := Str("geom")

  /** The default target srid of the builders, the string `'4326'` (WGS 84). */
  const DefaultSrid := Str("4326")

  /** Which of the two point regexes a builder applies. */
  datatype Anchoring =
    | AtStart   // nearest, transform_point: `^...`, text after the srid ignored
    | Whole     // intersect_point: `^...$`

  /**
   * `point.match(<regex>)` and the three texts taken from the match. A value
   * that is not a string has no `match` method; a failed match returns `null`,
   * and indexing it throws. Either way no query text is built.
   */
  function MatchPoint(point: Value, a: Anchoring): (r: Result<Point, Error>)
    ensures r.Success? ==> point.Str? && IsNumber(r.value.x) && IsNumber(r.value.y) && IsSrid(r.value.srid)
    ensures r.Success? && a == Whole ==> point.s == PointText(r.value)
    ensures r.Success? && a == AtStart ==> PointText(r.value) <= point.s
    ensures r.Failure? ==> r.error == if point.Str? then TypeError(MatchFailed) else TypeError(NotAString("point"))
  {
    if !point.Str? then Failure(TypeError(NotAString("point")))
    else
      var m := if a == Whole then ParseAnchored(point.s) else ParsePrefix(point.s);
      if m.None? then Failure(TypeError(MatchFailed)) else Success(m.value)
  }

  /**
   * `point` is a string the regex reads as `p`: `<num>,<num>,dddd` spelling
   * `p`, the whole string when anchored, its start otherwise.
   */
  predicate Spells(point: Value, p: Point, a: Anchoring) {
    point.Str? && IsNumber(p.x) && IsNumber(p.y) && IsSrid(p.srid) &&
    (if a == Whole then point.s == PointText(p) else PointText(p) <= point.s)
  }

  /** The match yields `p` exactly when the point spells `p`. */
  lemma MatchPointExact(point: Value, a: Anchoring, p: Point)
    ensures MatchPoint(point, a) == Success(p) <==> Spells(point, p, a)
  {
    if point.Str? {
      ParsePrefixExact(point.s, p);
      ParseAnchoredExact(point.s, p);
    }
  }

  /** The match fails exactly when the point spells no point at all. */
  lemma MatchPointFails(point: Value, a: Anchoring)
    ensures MatchPoint(point, a).Failure? <==> forall p: Point :: !Spells(point, p, a)
  {
    if MatchPoint(point, a).Failure? {
      forall p: Point ensures !Spells(point, p, a) {
        MatchPointExact(point, a, p);
      }
    } else {
      MatchPointExact(point, a, MatchPoint(point, a).value);
    }
  }

  /** `st_setsrid( st_makepoint(<x>, <y>), <srid> )` over the three matched texts. */
  function SetSrid(p: Point): Query {
    [Kw(SetSridOpen), Arg(Str(p.x)), Kw(Comma), Arg(Str(p.y)), Kw(SetSridSrid), Arg(Str(p.srid)), Kw(SetSridClose)]
  }

  /** `ST_Transform( <the point>, <target> )`. */
  function Reproject(p: Point, target: Query): Query {
    [Kw(TransformOpen)] + (SetSrid(p) + ([Kw(Comma)] + (target + [Kw(TransformClose)])))
  }

  /** `(SELECT ST_SRID(<geom>) FROM <table> LIMIT 1)`. */
  function SridOf(geom: Value, table: Value): Query {
    [Kw(SridOpen), Arg(geom), Kw(SridFrom), Arg(table), Kw(LimitOne)]
  }

  /** `(SELECT ST_SRID(<geom>) AS srid FROM <table> WHERE <geom> IS NOT NULL LIMIT 1)`. */
  function SridSubquery(geom: Value, table: Value): Query {
    [Kw(SridOpen), Arg(geom), Kw(AsSridFrom), Arg(table), Kw(SridWhere), Arg(geom), Kw(NotNullLimitOne)]
  }

  /** `ST_TileEnvelope(<z>, <x>, <y>)`. */
  function Tile(z: Value, x: Value, y: Value): Query {
    [Kw(TileOpen), Arg(z), Kw(Comma), Arg(x), Kw(Comma), Arg(y), Kw(CloseParen)]
  }

  lemma RenderSetSrid<T>(p: Point, sp: Spelling<T>)
    ensures Render(SetSrid(p), sp) ==
            sp.word(SetSridOpen) + (sp.value(Str(p.x)) + (sp.word(Comma) + (sp.value(Str(p.y)) +
            (sp.word(SetSridSrid) + (sp.value(Str(p.srid)) + sp.word(SetSridClose))))))
  {
    var q := SetSrid(p);
    assert q == [q[0], q[1], q[2], q[3], q[4], q[5], q[6]];
    RenderSeven(q[0], q[1], q[2], q[3], q[4], q[5], q[6], sp);
  }

  lemma RenderReproject<T>(p: Point, target: Query, sp: Spelling<T>)
    ensures Render(Reproject(p, target), sp) ==
            sp.word(TransformOpen) + (Render(SetSrid(p), sp) + (sp.word(Comma) + (Render(target, sp) + sp.word(TransformClose))))
  {
    var s := SetSrid(p);
    RenderCons(Kw(TransformClose), [], sp);
    RenderAppend(target, [Kw(TransformClose)], sp);
    RenderCons(Kw(Comma), target + [Kw(TransformClose)], sp);
    RenderAppend(s, [Kw(Comma)] + (target + [Kw(TransformClose)]), sp);
    RenderCons(Kw(TransformOpen), s + ([Kw(Comma)] + (target + [Kw(TransformClose)])), sp);
  }

  lemma RenderSridOf<T>(geom: Value, table: Value, sp: Spelling<T>)
    ensures Render(SridOf(geom, table), sp) ==
            sp.word(SridOpen) + (sp.value(geom) + (sp.word(SridFrom) + (sp.value(table) + sp.word(LimitOne))))
  {
    var q := SridOf(geom, table);
    assert q == [q[0], q[1], q[2], q[3], q[4]];
    RenderFive(q[0], q[1], q[2], q[3], q[4], sp);
  }

  lemma RenderSridSubquery<T>(geom: Value, table: Value, sp: Spelling<T>)
    ensures Render(SridSubquery(geom, table), sp) ==
            sp.word(SridOpen) + (sp.value(geom) + (sp.word(AsSridFrom) + (sp.value(table) +
            (sp.word(SridWhere) + (sp.value(geom) + sp.word(NotNullLimitOne))))))
  {
    var q := SridSubquery(geom, table);
    assert q == [q[0], q[1], q[2], q[3], q[4], q[5], q[6]];
    RenderSeven(q[0], q[1], q[2], q[3], q[4], q[5], q[6], sp);
  }

  lemma RenderTile<T>(z: Value, x: Value, y: Value, sp: Spelling<T>)
    ensures Render(Tile(z, x, y), sp) ==
            sp.word(TileOpen) + (sp.value(z) + (sp.word(Comma) + (sp.value(x) + (sp.word(Comma) + (sp.value(y) + sp.word(CloseParen))))))
  {
    var q := Tile(z, x, y);
    assert q == [q[0], q[1], q[2], q[3], q[4], q[5], q[6]];
    RenderSeven(q[0], q[1], q[2], q[3], q[4], q[5], q[6], sp);
  }

  /**
   * The reprojected point takes the three matched texts in the order x, y,
   * source srid, and then whatever the target interpolates.
   */
  lemma ReprojectParams(p: Point, target: Query)
    ensures Params(Reproject(p, target)) == [Str(p.x), Str(p.y), Str(p.srid)] + Params(target)
  {
    RenderReproject(p, target, Parameters);
    RenderSetSrid(p, Parameters);
  }

  /** The srid lookup names the geometry column, then the table. */
  lemma SridOfParams(geom: Value, table: Value)
    ensures Params(SridOf(geom, table)) == [geom, table]
  {
    RenderSridOf(geom, table, Parameters);
  }

  /** The srid subquery names the geometry column, the table, and the geometry column again. */
  lemma SridSubqueryParams(geom: Value, table: Value)
    ensures Params(SridSubquery(geom, table)) == [geom, table, geom]
  {
    RenderSridSubquery(geom, table, Parameters);
  }

  /** A tile envelope takes its coordinates in the order given. */
  lemma TileParams(z: Value, x: Value, y: Value)
    ensures Params(Tile(z, x, y)) == [z, x, y]
  {
    RenderTile(z, x, y, Parameters);
  }

  /**
   * The point moved into the srid of the table's geometry column:
   * `ST_Transform( <point>, (SELECT ST_SRID(<geom>) FROM <table> LIMIT 1) )`.
   */
  function PointInTable(p: Point, geom: Value, table: Value): Query {
    Reproject(p, SridOf(geom, table))
  }

  /** The pieces of the moved point: none of the clause keywords is among them. */
  lemma PointInTablePieces(k: Word, p: Point, geom: Value, table: Value)
    ensures |PointInTable(p, geom, table)| == 15
    ensures Kw(k) in PointInTable(p, geom, table) ==>
            k in {TransformOpen, SetSridOpen, Comma, SetSridSrid, SetSridClose, SridOpen, SridFrom, LimitOne, TransformClose}
  {
  }

  /** The moved point interpolates x, y and the source srid, then the geometry column and the table. */
  lemma PointInTableParams(p: Point, geom: Value, table: Value)
    ensures Params(PointInTable(p, geom, table)) == [Str(p.x), Str(p.y), Str(p.srid), geom, table]
  {
    ReprojectParams(p, SridOf(geom, table));
    SridOfParams(geom, table);
  }

  /**
   * The tail of both `ST_DWithin` builders: ` AND <filter>`, ` ORDER BY <sort>`
   * and ` LIMIT <limit>`, each when its parameter is truthy.
   */
  function Refinements(filter: Value, sort: Value, limit: Value): Query {
    Clause(And, filter) + (Clause(OrderBy, sort) + Clause(Limit, limit))
  }

  /** Each keyword of the tail is there iff its parameter is truthy; no other piece is. */
  lemma RefinementPieces(k: Word, filter: Value, sort: Value, limit: Value)
    ensures Kw(k) in Refinements(filter, sort, limit) <==>
            (k == And && Truthy(filter)) || (k == OrderBy && Truthy(sort)) || (k == Limit && Truthy(limit))
  {
    InClause(k, And, filter);
    InClause(k, OrderBy, sort);
    InClause(k, Limit, limit);
  }

  /** A truthy filter opens the tail, a truthy limit ends it, and a truthy sort shows its text. */
  lemma RefinementPlaces(filter: Value, sort: Value, limit: Value)
    ensures var r := Refinements(filter, sort, limit);
            (Truthy(filter) ==> r[..2] == [Kw(And), Arg(filter)] && Shows(r, And, filter)) &&
            (Truthy(sort) ==> Shows(r, OrderBy, sort)) &&
            (Truthy(limit) ==> r[|r| - 2..] == [Kw(Limit), Arg(limit)])
  {
    var a := Clause(And, filter);
    var o := Clause(OrderBy, sort);
    if Truthy(filter) {
      ShowsFront(And, filter, o + Clause(Limit, limit));
    }
    if Truthy(sort) {
      ShowsFront(OrderBy, sort, Clause(Limit, limit));
      ShowsAfter(a, o + Clause(Limit, limit), OrderBy, sort);
    }
  }

  /** Present parts of the tail come in the order filter, sort, limit. */
  lemma RefinementOrder(filter: Value, sort: Value, limit: Value)
    ensures var r := Refinements(filter, sort, limit);
            (Truthy(filter) && Truthy(sort) ==> Precedes(r, Kw(And), Kw(OrderBy))) &&
            (Truthy(filter) && Truthy(limit) ==> Precedes(r, Kw(And), Kw(Limit))) &&
            (Truthy(sort) && Truthy(limit) ==> Precedes(r, Kw(OrderBy), Kw(Limit)))
  {
    var a := Clause(And, filter);
    var o := Clause(OrderBy, sort);
    var l := Clause(Limit, limit);
    if Truthy(filter) && Truthy(sort) {
      assert Kw(And) in a && Kw(OrderBy) in o + l;
      PrecedesAcross(a, o + l, Kw(And), Kw(OrderBy));
    }
    if Truthy(filter) && Truthy(limit) {
      assert Kw(And) in a && Kw(Limit) in o + l;
      PrecedesAcross(a, o + l, Kw(And), Kw(Limit));
    }
    if Truthy(sort) && Truthy(limit) {
      assert Kw(OrderBy) in o && Kw(Limit) in l;
      PrecedesAcross(o, l, Kw(OrderBy), Kw(Limit));
      PrecedesAfter(a, o + l, Kw(OrderBy), Kw(Limit));
    }
  }

  lemma RenderRefinements<T>(filter: Value, sort: Value, limit: Value, sp: Spelling<T>)
    ensures Render(Refinements(filter, sort, limit), sp) ==
            Optional(And, filter, sp) + (Optional(OrderBy, sort, sp) + Optional(Limit, limit, sp))
  {
    RenderClause(And, filter, sp);
    RenderClause(OrderBy, sort, sp);
    RenderClause(Limit, limit, sp);
    RenderAppend(Clause(OrderBy, sort), Clause(Limit, limit), sp);
    RenderAppend(Clause(And, filter), Clause(OrderBy, sort) + Clause(Limit, limit), sp);
  }

  /** The tail interpolates the truthy ones of filter, sort and limit, in that order. */
  lemma RefinementParams(filter: Value, sort: Value, limit: Value)
    ensures Params(Refinements(filter, sort, limit)) == Present(filter) + (Present(sort) + Present(limit))
  {
    ClauseParams(And, filter);
    ClauseParams(OrderBy, sort);
    ClauseParams(Limit, limit);
    RenderAppend(Clause(OrderBy, sort), Clause(Limit, limit), Parameters);
    RenderAppend(Clause(And, filter), Clause(OrderBy, sort) + Clause(Limit, limit), Parameters);
  }

  /** A predicate the `ST_DWithin` builders' tail can follow: it ends the predicate and holds none of the tail's keywords. */
  predicate EndsPredicate(h: Query) {
    h != [] && h[|h| - 1] == Kw(DWithinClose) && Kw(And) !in h && Kw(OrderBy) !in h && Kw(Limit) !in h
  }

  /** After such a predicate, each keyword of the tail is there iff its parameter is truthy. */
  lemma AfterPredicatePieces(h: Query, filter: Value, sort: Value, limit: Value)
    requires EndsPredicate(h)
    ensures var q := h + Refinements(filter, sort, limit);
            (Kw(And) in q <==> Truthy(filter)) &&
            (Kw(OrderBy) in q <==> Truthy(sort)) &&
            (Kw(Limit) in q <==> Truthy(limit))
  {
    RefinementPieces(And, filter, sort, limit);
    RefinementPieces(OrderBy, filter, sort, limit);
    RefinementPieces(Limit, filter, sort, limit);
  }

  /**
   * After such a predicate, a truthy filter comes right after it, a truthy
   * sort follows `ORDER BY`, and a truthy limit ends the query.
   */
  lemma AfterPredicatePlaces(h: Query, filter: Value, sort: Value, limit: Value)
    requires EndsPredicate(h)
    ensures var q := h + Refinements(filter, sort, limit);
            (Truthy(filter) ==> Follows(q, Kw(DWithinClose), Kw(And)) && Shows(q, And, filter)) &&
            (Truthy(sort) ==> Shows(q, OrderBy, sort)) &&
            (Truthy(limit) ==> q[|q| - 2..] == [Kw(Limit), Arg(limit)])
  {
    RefinementPlaces(filter, sort, limit);
    PlacedAfter(h, Refinements(filter, sort, limit), filter, sort, limit);
  }

  /** What a tail places, it still places behind a predicate. */
  lemma PlacedAfter(h: Query, r: Query, filter: Value, sort: Value, limit: Value)
    requires h != [] && h[|h| - 1] == Kw(DWithinClose)
    requires Truthy(filter) ==> |r| >= 2 && r[..2] == [Kw(And), Arg(filter)] && Shows(r, And, filter)
    requires Truthy(sort) ==> Shows(r, OrderBy, sort)
    requires Truthy(limit) ==> |r| >= 2 && r[|r| - 2..] == [Kw(Limit), Arg(limit)]
    ensures var q := h + r;
            (Truthy(filter) ==> Follows(q, Kw(DWithinClose), Kw(And)) && Shows(q, And, filter)) &&
            (Truthy(sort) ==> Shows(q, OrderBy, sort)) &&
            (Truthy(limit) ==> q[|q| - 2..] == [Kw(Limit), Arg(limit)])
  {
    if Truthy(filter) {
      assert r[0] == Kw(And);
      Junction(h, r);
      ShowsAfter(h, r, And, filter);
    }
    if Truthy(sort) {
      ShowsAfter(h, r, OrderBy, sort);
    }
    if Truthy(limit) {
      assert (h + r)[|h + r| - 2..] == r[|r| - 2..];
    }
  }

  /** After any query, the present parts of the tail keep the order filter, sort, limit. */
  lemma AfterPredicateOrder(h: Query, filter: Value, sort: Value, limit: Value)
    ensures var q := h + Refinements(filter, sort, limit);
            (Truthy(filter) && Truthy(sort) ==> Precedes(q, Kw(And), Kw(OrderBy))) &&
            (Truthy(filter) && Truthy(limit) ==> Precedes(q, Kw(And), Kw(Limit))) &&
            (Truthy(sort) && Truthy(limit) ==> Precedes(q, Kw(OrderBy), Kw(Limit)))
  {
    var r := Refinements(filter, sort, limit);
    RefinementOrder(filter, sort, limit);
    if Truthy(filter) && Truthy(sort) {
      PrecedesAfter(h, r, Kw(And), Kw(OrderBy));
    }
    if Truthy(filter) && Truthy(limit) {
      PrecedesAfter(h, r, Kw(And), Kw(Limit));
    }
    if Truthy(sort) && Truthy(limit) {
      PrecedesAfter(h, r, Kw(OrderBy), Kw(Limit));
    }
  }

  /**
   * The table joined with the one-row subquery `a` that reads the srid of its
   * geometry column (lib/mvt.js, lib/geojson.js):
   * ` FROM <table>, (SELECT ST_SRID(<geom>) AS srid FROM <table> WHERE <geom> IS NOT NULL LIMIT 1) a`
   */
  function SridSource(table: Value, geom: Value): Query {
    [Kw(From), Arg(table), Kw(Comma)] + (SridSubquery(geom, table) + [Kw(SubqueryAlias)])
  }

  /** The pieces of the srid source: none of the clause keywords is among them. */
  lemma SridSourcePieces(k: Word, table: Value, geom: Value)
    ensures var r := SridSource(table, geom);
            |r| == 11 && r[..3] == [Kw(From), Arg(table), Kw(Comma)] && r[3..10] == SridSubquery(geom, table) &&
            r[10] == Kw(SubqueryAlias) &&
            (Kw(k) in r ==> k in {From, Comma, SridOpen, AsSridFrom, SridWhere, NotNullLimitOne, SubqueryAlias})
  {
  }

  lemma RenderSridSource<T>(table: Value, geom: Value, sp: Spelling<T>)
    ensures Render(SridSource(table, geom), sp) ==
            sp.word(From) + (sp.value(table) + (sp.word(Comma) + (Render(SridSubquery(geom, table), sp) + sp.word(SubqueryAlias))))
  {
    var q := SridSource(table, geom);
    var s := SridSubquery(geom, table);
    assert q == [q[0], q[1], q[2]] + (s + [Kw(SubqueryAlias)]);
    RenderThreeThen(q[0], q[1], q[2], s + [Kw(SubqueryAlias)], sp);
    RenderAppend(s, [Kw(SubqueryAlias)], sp);
    RenderCons(Kw(SubqueryAlias), [], sp);
  }

  lemma SridSourceParams(table: Value, geom: Value)
    ensures Params(SridSource(table, geom)) == [table] + [geom, table, geom]
  {
    RenderSridSource(table, geom, Parameters);
    SridSubqueryParams(geom, table);
  }
}
