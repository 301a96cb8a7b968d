/**
 * lib/geobuf.js: the rows of a table encoded as one geobuf with
 * `ST_AsGeobuf`, the geometry moved into WGS 84. Only when `bounds` is
 * truthy is the table joined with the subquery `sq` reading its srid, which
 * the envelope predicates need.
 */
module Geobuf {
  import opened Wrappers
  import opened Js
  import opened SqlText
  import opened Bounds
  import opened Spatial

  /** `SELECT ST_AsGeobuf(q, 'geom') FROM ( SELECT ST_Transform(<geom>, 4326) as geom [, <columns>] FROM <table>` */
  function Head(table: Value, geom: Value, columns: Value): Query {
    [Kw(GeobufOpen), Arg(geom), Kw(Wgs84Geom)] + (Clause(CommaGap, columns) + [Kw(From), Arg(table)])
  }

  /** `, (SELECT ST_SRID(<geom>) AS srid FROM <table> WHERE <geom> IS NOT NULL LIMIT 1) sq`, only for bounds. */
  function SridJoin(table: Value, geom: Value, b: BoundsValue): Query {
    if b.Numbers? then [Kw(CommaGap)] + (SridSubquery(geom, table) + [Kw(SridAlias)]) else []
  }

  /** The query once the bounds have been split. */
  function WithBounds(table: Value, b: BoundsValue, geom: Value, columns: Value, filter: Value): Query {
    Head(table, geom, columns) + (SridJoin(table, geom, b) + (Restriction(filter, geom, b) + [Kw(GeobufClose)]))
  }

  /** `geobuf(table, bounds, geom_column, columns, filter)` */
  function Build(table: Value, bounds: Value, geom: Value, columns: Value, filter: Value): Result<Query, Error> {
    match ParseBounds(bounds)
    case Failure(e) => Failure(e)
    case Success(b) => Success(WithBounds(table, b, geom, columns, filter))
  }

  /** Only a truthy bounds value that is not a string fails; it fails before any text is built. */
  lemma Rejects(table: Value, bounds: Value, geom: Value, columns: Value, filter: Value)
    ensures var r := Build(table, bounds, geom, columns, filter);
            (r.Failure? <==> Truthy(bounds) && !bounds.Str?) &&
            (r.Failure? ==> r.error == TypeError(NotAString("bounds")))
  {
  }

  /** Otherwise the query is built from the split bounds. */
  lemma Reads(table: Value, bounds: Value, geom: Value, columns: Value, filter: Value, b: BoundsValue)
    requires ParseBounds(bounds) == Success(b)
    ensures Build(table, bounds, geom, columns, filter) == Success(WithBounds(table, b, geom, columns, filter))
    ensures b.Numbers? <==> Truthy(bounds)
  {
  }

  lemma HeadPieces(k: Word, table: Value, geom: Value, columns: Value)
    ensures var h := Head(table, geom, columns);
            |h| == 5 + |Clause(CommaGap, columns)| && h[..3] == [Kw(GeobufOpen), Arg(geom), Kw(Wgs84Geom)] &&
            h[|h| - 2..] == [Kw(From), Arg(table)] &&
            (Kw(k) in h ==> k in {GeobufOpen, Wgs84Geom, CommaGap, From})
  {
    InClause(k, CommaGap, columns);
    var h := Head(table, geom, columns);
    assert h[3..] == Clause(CommaGap, columns) + [Kw(From), Arg(table)];
  }

  lemma SridJoinPieces(k: Word, table: Value, geom: Value, b: BoundsValue)
    ensures var j := SridJoin(table, geom, b);
            (b.Numbers? ==> |j| == 9 && j[1..8] == SridSubquery(geom, table)) &&
            (Kw(k) in j <==> b.Numbers? && k in {CommaGap, SridOpen, AsSridFrom, SridWhere, NotNullLimitOne, SridAlias})
  {
    if b.Numbers? {
      var j := SridJoin(table, geom, b);
      assert j[0] == Kw(CommaGap) && j[1] == Kw(SridOpen) && j[3] == Kw(AsSridFrom) && j[5] == Kw(SridWhere) &&
             j[7] == Kw(NotNullLimitOne) && j[8] == Kw(SridAlias);
    }
  }

  /**
   * The srid subquery `sq` is joined iff the bounds are truthy, right
   * after the table name; without bounds the rows are read from the table
   * alone and the query never mentions an srid.
   */
  lemma SridOnlyForBounds(table: Value, b: BoundsValue, geom: Value, columns: Value, filter: Value)
    ensures var q := WithBounds(table, b, geom, columns, filter);
            var n := 5 + |Clause(CommaGap, columns)|;
            (Kw(SridAlias) in q <==> b.Numbers?) && (Kw(SridOpen) in q <==> b.Numbers?) &&
            (b.Numbers? ==> q[n - 2..n] == [Kw(From), Arg(table)] && q[n..n + 9] == [Kw(CommaGap)] + (SridSubquery(geom, table) + [Kw(SridAlias)]))
  {
    var h := Head(table, geom, columns);
    var j := SridJoin(table, geom, b);
    var q := WithBounds(table, b, geom, columns, filter);
    HeadPieces(SridAlias, table, geom, columns);
    HeadPieces(SridOpen, table, geom, columns);
    SridJoinPieces(SridAlias, table, geom, b);
    SridJoinPieces(SridOpen, table, geom, b);
    RestrictionPieces(SridAlias, filter, geom, b);
    RestrictionPieces(SridOpen, filter, geom, b);
    assert q[..|h|] == h;
    assert q[|h|..] == j + (Restriction(filter, geom, b) + [Kw(GeobufClose)]);
  }

  /** The feature id is not part of a geobuf: there is no id column, and 'geom' names the geometry. */
  lemma Outer(table: Value, b: BoundsValue, geom: Value, columns: Value, filter: Value)
    ensures var q := WithBounds(table, b, geom, columns, filter);
            q[..3] == [Kw(GeobufOpen), Arg(geom), Kw(Wgs84Geom)] && q[|q| - 1] == Kw(GeobufClose)
  {
    HeadPieces(From, table, geom, columns);
  }

  lemma Restricted(k: Word, table: Value, b: BoundsValue, geom: Value, columns: Value, filter: Value)
    requires k in {WhereWord, AndWord, BoxOpen, TileEnvelopeOpen}
    ensures Kw(k) in WithBounds(table, b, geom, columns, filter) <==> Kw(k) in Restriction(filter, geom, b)
  {
    HeadPieces(k, table, geom, columns);
    SridJoinPieces(k, table, geom, b);
  }

  /**
   * `WHERE` is written iff there is a filter or bounds, `AND` iff there are
   * both; four numbers give an envelope, three a tile, never both.
   */
  lemma Keywords(table: Value, bounds: Value, geom: Value, columns: Value, filter: Value)
    requires !Truthy(bounds) || bounds.Str?
    ensures var r := Build(table, bounds, geom, columns, filter);
            var b := ParseBounds(bounds).value;
            r.Success? &&
            (Kw(WhereWord) in r.value <==> Truthy(filter) || Truthy(bounds)) &&
            (Kw(AndWord) in r.value <==> Truthy(filter) && Truthy(bounds)) &&
            (Kw(BoxOpen) in r.value <==> Truthy(bounds) && |b.values| == 4) &&
            (Kw(TileEnvelopeOpen) in r.value <==> Truthy(bounds) && |b.values| == 3)
  {
    var b := ParseBounds(bounds).value;
    Restricted(WhereWord, table, b, geom, columns, filter);
    Restricted(AndWord, table, b, geom, columns, filter);
    Restricted(BoxOpen, table, b, geom, columns, filter);
    Restricted(TileEnvelopeOpen, table, b, geom, columns, filter);
    HasWhere(filter, geom, b);
    HasAnd(filter, geom, b);
    EnvelopeKinds(filter, geom, b);
  }

  lemma RenderHead<T>(table: Value, geom: Value, columns: Value, sp: Spelling<T>)
    ensures Render(Head(table, geom, columns), sp) ==
            sp.word(GeobufOpen) + (sp.value(geom) + (sp.word(Wgs84Geom) +
            (Optional(CommaGap, columns, sp) + (sp.word(From) + sp.value(table)))))
  {
    var q := Head(table, geom, columns);
    var t := [Kw(From), Arg(table)];
    RenderThreeThen(Kw(GeobufOpen), Arg(geom), Kw(Wgs84Geom), Clause(CommaGap, columns) + t, sp);
    RenderAppend(Clause(CommaGap, columns), t, sp);
    RenderClause(CommaGap, columns, sp);
    RenderTwo(Kw(From), Arg(table), sp);
  }

  lemma RenderSridJoin<T>(table: Value, geom: Value, b: BoundsValue, sp: Spelling<T>)
    ensures Render(SridJoin(table, geom, b), sp) ==
            if b.Numbers? then sp.word(CommaGap) + (Render(SridSubquery(geom, table), sp) + sp.word(SridAlias)) else []
  {
    if b.Numbers? {
      var s := SridSubquery(geom, table);
      RenderCons(Kw(CommaGap), s + [Kw(SridAlias)], sp);
      RenderAppend(s, [Kw(SridAlias)], sp);
      RenderCons(Kw(SridAlias), [], sp);
    }
  }

  /** The query string, in any spelling, part by part. */
  lemma Rendered<T>(table: Value, b: BoundsValue, geom: Value, columns: Value, filter: Value, sp: Spelling<T>)
    ensures Render(WithBounds(table, b, geom, columns, filter), sp) ==
            Render(Head(table, geom, columns), sp) + (Render(SridJoin(table, geom, b), sp) +
            (Render(Restriction(filter, geom, b), sp) + sp.word(GeobufClose)))
  {
    var h := Head(table, geom, columns);
    var j := SridJoin(table, geom, b);
    var r := Restriction(filter, geom, b);
    RenderCons(Kw(GeobufClose), [], sp);
    RenderAppend(r, [Kw(GeobufClose)], sp);
    RenderAppend(j, r + [Kw(GeobufClose)], sp);
    RenderAppend(h, j + (r + [Kw(GeobufClose)]), sp);
  }

  lemma HeadParams(table: Value, geom: Value, columns: Value)
    ensures Params(Head(table, geom, columns)) == [geom] + (Present(columns) + [table])
  {
    RenderHead(table, geom, columns, Parameters);
    ClauseParams(CommaGap, columns);
    RenderClause(CommaGap, columns, Parameters);
  }

  lemma SridJoinParams(table: Value, geom: Value, b: BoundsValue)
    ensures Params(SridJoin(table, geom, b)) == if b.Numbers? then [geom, table, geom] else []
  {
    RenderSridJoin(table, geom, b, Parameters);
    SridSubqueryParams(geom, table);
  }

  /**
   * The parameters in order: the geometry column, truthy columns, the
   * table; for bounds the srid subquery's geometry column and table; a
   * truthy filter; then, for three or four numbers, the geometry column and
   * the joined numbers.
   */
  lemma Interpolated(table: Value, b: BoundsValue, geom: Value, columns: Value, filter: Value)
    ensures Params(WithBounds(table, b, geom, columns, filter)) ==
            ([geom] + (Present(columns) + [table])) + ((if b.Numbers? then [geom, table, geom] else []) +
            (Present(filter) + ((if b.Numbers? && (|b.values| == 3 || |b.values| == 4) then [geom, Corners(b)] else []) + [])))
  {
    HeadParams(table, geom, columns);
    SridJoinParams(table, geom, b);
    RestrictionParams(filter, geom, b);
    Rendered(table, b, geom, columns, filter, Parameters);
    assert Parameters.word(GeobufClose) == [];
  }
}
