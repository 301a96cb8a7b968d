/**
 * lib/mvt.js: one Mapbox vector tile of a table. The geometries are moved
 * into web mercator (3857) and clipped to the tile envelope `z/x/y`; rows
 * are kept when their geometry meets the same envelope moved into the
 * table's srid, read from the subquery `a`. Optional extra columns, an
 * optional id column (also named as the feature id of the layer) and an
 * optional ` AND <filter>` are written only when truthy.
 */
module Mvt {
  import opened Js
  import opened SqlText
  import opened Spatial

  /** `WITH mvtgeom as ( SELECT ST_AsMVTGeom ( ST_Transform(<geom>, 3857), <tile> ) as geom [, <columns>] [, <id>]` */
  function Projection(geom: Value, z: Value, x: Value, y: Value, columns: Value, id: Value): Query {
    [Kw(MvtOpen), Arg(geom), Kw(WebMercator)] + (Tile(z, x, y) + ([Kw(GeomAlias)] + (Clause(CommaGap, columns) + Clause(CommaGap, id))))
  }

  /** ` WHERE ST_Intersects( <geom>, ST_Transform( <tile>, srid ) ) [AND <filter>]` */
  function Intersecting(geom: Value, z: Value, x: Value, y: Value, filter: Value): Query {
    [Kw(IntersectsOpen), Arg(geom), Kw(Comma), Kw(TransformOpen)] + (Tile(z, x, y) + ([Kw(SridClose)] + Clause(And, filter)))
  }

  /** `) SELECT ST_AsMVT(mvtgeom.*, '<table>', 4096, 'geom' [, '<id>']) AS mvt from mvtgeom;` */
  function Layer(table: Value, id: Value): Query {
    [Kw(MvtSelect), Arg(table), Kw(MvtExtent)] + (Wrapped(IdLiteral, id, Quote) + [Kw(MvtClose)])
  }

  /** `mvt(table, x, y, z, columns, id_column, geom_column, filter)` */
  function Build(table: Value, x: Value, y: Value, z: Value, columns: Value, id: Value, geom: Value, filter: Value): Query {
    Projection(geom, z, x, y, columns, id) + (SridSource(table, geom) + (Intersecting(geom, z, x, y, filter) + Layer(table, id)))
  }

  /** The number of fragments of the projection: 11 fixed ones and two per truthy optional column. */
  function Width(columns: Value, id: Value): nat {
    11 + |Clause(CommaGap, columns)| + |Clause(CommaGap, id)|
  }

  lemma ProjectionPieces(geom: Value, z: Value, x: Value, y: Value, columns: Value, id: Value)
    ensures var r := Projection(geom, z, x, y, columns, id);
            |r| == Width(columns, id) && r[..3] == [Kw(MvtOpen), Arg(geom), Kw(WebMercator)] &&
            r[3..10] == Tile(z, x, y) && r[10] == Kw(GeomAlias) &&
            r[11..] == Clause(CommaGap, columns) + Clause(CommaGap, id) &&
            Kw(And) !in r && Kw(IdLiteral) !in r
  {
    var h := [Kw(MvtOpen), Arg(geom), Kw(WebMercator)];
    var t := Tile(z, x, y);
    var o := Clause(CommaGap, columns) + Clause(CommaGap, id);
    InClause(And, CommaGap, columns);
    InClause(And, CommaGap, id);
    InClause(IdLiteral, CommaGap, columns);
    InClause(IdLiteral, CommaGap, id);
    assert |t| == 7 && Kw(And) !in t && Kw(IdLiteral) !in t;
    ProjectionParts(h, t, Kw(GeomAlias), o);
  }

  /** The parts of a projection: a head of three, the tile of seven, the alias and the columns. */
  lemma ProjectionParts(h: Query, t: Query, g: Fragment, o: Query)
    requires |h| == 3 && |t| == 7
    ensures var r := h + (t + ([g] + o));
            |r| == 11 + |o| && r[..3] == h && r[3..10] == t && r[10] == g && r[11..] == o &&
            forall f :: f in r <==> f in h || f in t || f == g || f in o
  {
    var r := h + (t + ([g] + o));
    assert r[3..] == t + ([g] + o);
  }

  lemma IntersectingPieces(geom: Value, z: Value, x: Value, y: Value, filter: Value)
    ensures Kw(IdLiteral) !in Intersecting(geom, z, x, y, filter)
  {
    InClause(IdLiteral, And, filter);
  }

  lemma LayerPieces(table: Value, id: Value)
    ensures var r := Layer(table, id);
            r[..3] == [Kw(MvtSelect), Arg(table), Kw(MvtExtent)] &&
            (Truthy(id) ==> r[3..] == [Kw(IdLiteral), Arg(id), Kw(Quote), Kw(MvtClose)]) &&
            (!Truthy(id) ==> r[3..] == [Kw(MvtClose)]) &&
            Kw(And) !in r && (Kw(IdLiteral) in r <==> Truthy(id))
  {
    InWrapped(And, IdLiteral, id, Quote);
    InWrapped(IdLiteral, IdLiteral, id, Quote);
  }

  /**
   * The tile envelope `ST_TileEnvelope(z, x, y)` is written twice with the
   * coordinates in the same order: once to clip the geometry, once (moved
   * into the table's srid) to select the rows; between them the geometry
   * column is moved into 3857 and the table's srid is read from the table.
   */
  lemma TileTwice(table: Value, x: Value, y: Value, z: Value, columns: Value, id: Value, geom: Value, filter: Value)
    ensures var q := Build(table, x, y, z, columns, id, geom, filter);
            var w := Width(columns, id);
            q[..3] == [Kw(MvtOpen), Arg(geom), Kw(WebMercator)] && q[3..10] == Tile(z, x, y) &&
            q[w..w + 3] == [Kw(From), Arg(table), Kw(Comma)] && q[w + 3..w + 10] == SridSubquery(geom, table) &&
            q[w + 11..w + 15] == [Kw(IntersectsOpen), Arg(geom), Kw(Comma), Kw(TransformOpen)] &&
            q[w + 15..w + 22] == Tile(z, x, y)
  {
    var a := Projection(geom, z, x, y, columns, id);
    var s := SridSource(table, geom);
    var i := Intersecting(geom, z, x, y, filter);
    var l := Layer(table, id);
    ProjectionPieces(geom, z, x, y, columns, id);
    SridSourcePieces(From, table, geom);
    assert |i| >= 11 && i[..4] == [Kw(IntersectsOpen), Arg(geom), Kw(Comma), Kw(TransformOpen)] && i[4..11] == Tile(z, x, y);
    PartsOfFour(a, s, i, l);
  }

  /** Where the first ten fragments of the projection, of the srid source and of the restriction land in the query. */
  lemma PartsOfFour(a: Query, s: Query, i: Query, l: Query)
    requires |a| >= 10 && |s| == 11 && |i| >= 11
    ensures var q := a + (s + (i + l));
            q[..3] == a[..3] && q[3..10] == a[3..10] &&
            q[|a|..|a| + 3] == s[..3] && q[|a| + 3..|a| + 10] == s[3..10] &&
            q[|a| + 11..|a| + 15] == i[..4] && q[|a| + 15..|a| + 22] == i[4..11]
  {
    SliceFront(a, s + (i + l), 0, 3);
    SliceFront(a, s + (i + l), 3, 10);
    SliceMiddle(a, s, i + l, 0, 3);
    SliceMiddle(a, s, i + l, 3, 10);
    SliceLast(a, s, i + l, 0, 4);
    SliceLast(a, s, i + l, 4, 11);
    SliceFront(i, l, 0, 4);
    SliceFront(i, l, 4, 11);
  }

  /**
   * The extra columns and then the id column stand right after ` ) as geom`
   * and before ` FROM`, each only when truthy.
   */
  lemma Columns(table: Value, x: Value, y: Value, z: Value, columns: Value, id: Value, geom: Value, filter: Value)
    ensures var q := Build(table, x, y, z, columns, id, geom, filter);
            var w := Width(columns, id);
            q[10] == Kw(GeomAlias) && q[11..w] == Clause(CommaGap, columns) + Clause(CommaGap, id) && q[w] == Kw(From)
  {
    var a := Projection(geom, z, x, y, columns, id);
    ProjectionPieces(geom, z, x, y, columns, id);
    var q := Build(table, x, y, z, columns, id, geom, filter);
    assert q[..Width(columns, id)] == a;
    assert q[Width(columns, id)] == SridSource(table, geom)[0];
  }

  /**
   * ` AND <filter>` is written iff the filter is truthy, right after the
   * tile intersection.
   */
  lemma Filter(table: Value, x: Value, y: Value, z: Value, columns: Value, id: Value, geom: Value, filter: Value)
    ensures var q := Build(table, x, y, z, columns, id, geom, filter);
            (Kw(And) in q <==> Truthy(filter)) &&
            (Truthy(filter) ==> Follows(q, Kw(SridClose), Kw(And)) && Shows(q, And, filter))
  {
    var h := [Kw(IntersectsOpen), Arg(geom), Kw(Comma), Kw(TransformOpen)];
    ProjectionPieces(geom, z, x, y, columns, id);
    SridSourcePieces(And, table, geom);
    LayerPieces(table, id);
    InClause(And, And, filter);
    assert Kw(And) !in Tile(z, x, y);
    FilterAmong(Projection(geom, z, x, y, columns, id), SridSource(table, geom), h, Tile(z, x, y),
                Clause(And, filter), Layer(table, id), filter);
  }

  /** The `AND` of a filter clause placed right after ` srid ) )`, among parts that hold no `AND`. */
  lemma FilterAmong(a: Query, s: Query, h: Query, t: Query, c: Query, l: Query, filter: Value)
    requires Kw(And) !in a && Kw(And) !in s && Kw(And) !in h && Kw(And) !in t && Kw(And) !in l
    requires Kw(And) in c <==> Truthy(filter)
    requires Truthy(filter) ==> c == [Kw(And), Arg(filter)]
    ensures var q := a + (s + ((h + (t + ([Kw(SridClose)] + c))) + l));
            (Kw(And) in q <==> Truthy(filter)) &&
            (Truthy(filter) ==> Follows(q, Kw(SridClose), Kw(And)) && Shows(q, And, filter))
  {
    var q := a + (s + ((h + (t + ([Kw(SridClose)] + c))) + l));
    if Truthy(filter) {
      var k := |a| + |s| + |h| + |t|;
      assert q[k] == Kw(SridClose) && q[k + 1] == Kw(And) && q[k + 2] == Arg(filter);
    }
  }

  /** The id column is named as the feature id iff it is truthy. */
  lemma IdNamed(table: Value, x: Value, y: Value, z: Value, columns: Value, id: Value, geom: Value, filter: Value)
    ensures Kw(IdLiteral) in Build(table, x, y, z, columns, id, geom, filter) <==> Truthy(id)
  {
    ProjectionPieces(geom, z, x, y, columns, id);
    SridSourcePieces(IdLiteral, table, geom);
    IntersectingPieces(geom, z, x, y, filter);
    LayerPieces(table, id);
  }

  /**
   * The query ends with the layer clause (see `LayerPieces`: the layer is
   * named after the table, and a truthy id column is named as the feature
   * id, between quotes, just before the close).
   */
  lemma LayerLast(table: Value, x: Value, y: Value, z: Value, columns: Value, id: Value, geom: Value, filter: Value)
    ensures var q := Build(table, x, y, z, columns, id, geom, filter);
            var l := Layer(table, id);
            |l| <= |q| && q[|q| - |l|..] == l
  {
    EndsWith(Projection(geom, z, x, y, columns, id), SridSource(table, geom), Intersecting(geom, z, x, y, filter), Layer(table, id));
  }

  lemma RenderProjection<T>(geom: Value, z: Value, x: Value, y: Value, columns: Value, id: Value, sp: Spelling<T>)
    ensures Render(Projection(geom, z, x, y, columns, id), sp) ==
            sp.word(MvtOpen) + (sp.value(geom) + (sp.word(WebMercator) + (Render(Tile(z, x, y), sp) +
            (sp.word(GeomAlias) + (Optional(CommaGap, columns, sp) + Optional(CommaGap, id, sp))))))
  {
    var q := Projection(geom, z, x, y, columns, id);
    var t := Tile(z, x, y);
    var o := Clause(CommaGap, columns) + Clause(CommaGap, id);
    RenderThreeThen(Kw(MvtOpen), Arg(geom), Kw(WebMercator), t + ([Kw(GeomAlias)] + o), sp);
    RenderAppend(t, [Kw(GeomAlias)] + o, sp);
    RenderCons(Kw(GeomAlias), o, sp);
    RenderAppend(Clause(CommaGap, columns), Clause(CommaGap, id), sp);
    RenderClause(CommaGap, columns, sp);
    RenderClause(CommaGap, id, sp);
  }

  lemma RenderIntersecting<T>(geom: Value, z: Value, x: Value, y: Value, filter: Value, sp: Spelling<T>)
    ensures Render(Intersecting(geom, z, x, y, filter), sp) ==
            sp.word(IntersectsOpen) + (sp.value(geom) + (sp.word(Comma) + (sp.word(TransformOpen) +
            (Render(Tile(z, x, y), sp) + (sp.word(SridClose) + Optional(And, filter, sp))))))
  {
    var q := Intersecting(geom, z, x, y, filter);
    var t := Tile(z, x, y);
    var r := t + ([Kw(SridClose)] + Clause(And, filter));
    assert q == [Kw(IntersectsOpen)] + ([Arg(geom), Kw(Comma), Kw(TransformOpen)] + r);
    RenderCons(Kw(IntersectsOpen), [Arg(geom), Kw(Comma), Kw(TransformOpen)] + r, sp);
    RenderThreeThen(Arg(geom), Kw(Comma), Kw(TransformOpen), r, sp);
    RenderAppend(t, [Kw(SridClose)] + Clause(And, filter), sp);
    RenderCons(Kw(SridClose), Clause(And, filter), sp);
    RenderClause(And, filter, sp);
  }

  lemma RenderLayer<T>(table: Value, id: Value, sp: Spelling<T>)
    ensures Render(Layer(table, id), sp) ==
            sp.word(MvtSelect) + (sp.value(table) + (sp.word(MvtExtent) +
            ((if Truthy(id) then sp.word(IdLiteral) + (sp.value(id) + sp.word(Quote)) else []) + sp.word(MvtClose))))
  {
    var q := Layer(table, id);
    var o := Wrapped(IdLiteral, id, Quote);
    RenderThreeThen(Kw(MvtSelect), Arg(table), Kw(MvtExtent), o + [Kw(MvtClose)], sp);
    RenderAppend(o, [Kw(MvtClose)], sp);
    RenderCons(Kw(MvtClose), [], sp);
    RenderWrapped(IdLiteral, id, Quote, sp);
  }

  /** The query string, in any spelling, part by part. */
  lemma Rendered<T>(table: Value, x: Value, y: Value, z: Value, columns: Value, id: Value, geom: Value, filter: Value, sp: Spelling<T>)
    ensures Render(Build(table, x, y, z, columns, id, geom, filter), sp) ==
            Render(Projection(geom, z, x, y, columns, id), sp) + (Render(SridSource(table, geom), sp) +
            (Render(Intersecting(geom, z, x, y, filter), sp) + Render(Layer(table, id), sp)))
  {
    var a := Projection(geom, z, x, y, columns, id);
    var s := SridSource(table, geom);
    var i := Intersecting(geom, z, x, y, filter);
    var l := Layer(table, id);
    RenderAppend(i, l, sp);
    RenderAppend(s, i + l, sp);
    RenderAppend(a, s + (i + l), sp);
  }

  lemma ProjectionParams(geom: Value, z: Value, x: Value, y: Value, columns: Value, id: Value)
    ensures Params(Projection(geom, z, x, y, columns, id)) == [geom] + ([z, x, y] + (Present(columns) + Present(id)))
  {
    RenderProjection(geom, z, x, y, columns, id, Parameters);
    TileParams(z, x, y);
    ClauseParams(CommaGap, columns);
    ClauseParams(CommaGap, id);
    RenderClause(CommaGap, columns, Parameters);
    RenderClause(CommaGap, id, Parameters);
  }

  lemma IntersectingParams(geom: Value, z: Value, x: Value, y: Value, filter: Value)
    ensures Params(Intersecting(geom, z, x, y, filter)) == [geom] + ([z, x, y] + Present(filter))
  {
    RenderIntersecting(geom, z, x, y, filter, Parameters);
    TileParams(z, x, y);
    ClauseParams(And, filter);
    RenderClause(And, filter, Parameters);
  }

  lemma LayerParams(table: Value, id: Value)
    ensures Params(Layer(table, id)) == [table] + Present(id)
  {
    RenderLayer(table, id, Parameters);
    WrappedParams(IdLiteral, id, Quote);
    RenderWrapped(IdLiteral, id, Quote, Parameters);
  }

  /**
   * The parameters in order: the geometry column and the tile, the truthy
   * optional columns, the table's srid subquery, the geometry column and the
   * tile again, a truthy filter, the layer name and a truthy id column.
   */
  lemma Interpolated(table: Value, x: Value, y: Value, z: Value, columns: Value, id: Value, geom: Value, filter: Value)
    ensures Params(Build(table, x, y, z, columns, id, geom, filter)) ==
            ([geom] + ([z, x, y] + (Present(columns) + Present(id)))) + (([table] + [geom, table, geom]) +
            (([geom] + ([z, x, y] + Present(filter))) + ([table] + Present(id))))
  {
    ProjectionParams(geom, z, x, y, columns, id);
    SridSourceParams(table, geom);
    IntersectingParams(geom, z, x, y, filter);
    LayerParams(table, id);
    Rendered(table, x, y, z, columns, id, geom, filter, Parameters);
  }
}
