/**
 * lib/geojson.js: one GeoJSON Feature per row, built in SQL with
 * `jsonb_build_object`. The geometry is moved into WGS 84 and written with
 * the precision `parseInt(precision, 10)`; the properties are the row
 * without its geometry (and without the id column when there is one). A
 * truthy `bounds` string is split into numbers and restricts the rows to an
 * envelope or a tile, in the table's own srid.
 */
module GeoJson {
  import opened Wrappers
  import opened Js
  import opened SqlText
  import opened Bounds
  import opened Spatial

  /** `${parseInt(precision, 10)}`: the integer read from the start of the precision's text, or `NaN`. */
  function PrecisionText(precision: Value): (r: string)
    ensures r == "NaN" <==> ParseInt(Text(precision)).None?
    ensures ParseInt(Text(precision)).Some? ==> r == IntToString(ParseInt(Text(precision)).value)
  {
    match ParseInt(Text(precision))
    case None => "NaN"
    case Some(n) => IntToString(n)
  }

  /** An integer precision is written as it is. */
  lemma PrecisionOfInteger(n: int)
    ensures PrecisionText(Int(n)) == IntToString(n)
  {
    ParseIntOfIntToString(n);
  }

  /** A missing precision is `NaN`. */
  lemma PrecisionOfUndefined()
    ensures PrecisionText(Undefined) == "NaN"
  {
    assert TrimStart("undefined") == "undefined";
    assert Unsigned("undefined") == "undefined";
    assert DigitPrefix("undefined") == [];
  }

  /**
   * `SELECT jsonb_build_object( 'type', 'Feature', ['id', <id>,] 'geometry',
   * ST_AsGeoJSON(geom, <digits>)::jsonb, 'properties', to_jsonb( subq.* ) - 'geom' [- '<id>']`
   */
  function Feature(id: Value, digits: Value): Query {
    [Kw(FeatureOpen)] + (Wrapped(IdMember, id, CommaTight) +
    ([Kw(GeometryMember), Arg(digits), Kw(PropertiesMember)] + Wrapped(IdExclusion, id, Quote)))
  }

  /** ` ) AS geojson FROM ( SELECT ST_Transform(<geom>, 4326) as geom [, <columns>] [, <id>] FROM <table>, <srid subquery> a` */
  function Inner(table: Value, geom: Value, columns: Value, id: Value): Query {
    [Kw(FeaturesFrom), Arg(geom), Kw(Wgs84Geom)] + (Clause(CommaGap, columns) + (Clause(CommaGap, id) + SridSource(table, geom)))
  }

  /** The query once the bounds have been split and the precision read into `digits`. */
  function WithBounds(table: Value, b: BoundsValue, id: Value, digits: Value, geom: Value, columns: Value, filter: Value): Query {
    Feature(id, digits) + (Inner(table, geom, columns, id) + (Restriction(filter, geom, b) + [Kw(FeaturesClose)]))
  }

  /** `geojson(table, bounds, id_column, precision, geom_column, columns, filter)` */
  function Build(table: Value, bounds: Value, id: Value, precision: Value, geom: Value, columns: Value, filter: Value): Result<Query, Error> {
    match ParseBounds(bounds)
    case Failure(e) => Failure(e)
    case Success(b) => Success(WithBounds(table, b, id, Str(PrecisionText(precision)), geom, columns, filter))
  }

  /** Only a truthy bounds value that is not a string fails; it fails before any text is built. */
  lemma Rejects(table: Value, bounds: Value, id: Value, precision: Value, geom: Value, columns: Value, filter: Value)
    ensures var r := Build(table, bounds, id, precision, geom, columns, filter);
            (r.Failure? <==> Truthy(bounds) && !bounds.Str?) &&
            (r.Failure? ==> r.error == TypeError(NotAString("bounds")))
  {
  }

  /** Otherwise the query is built from the split bounds. */
  lemma Reads(table: Value, bounds: Value, id: Value, precision: Value, geom: Value, columns: Value, filter: Value, b: BoundsValue)
    requires ParseBounds(bounds) == Success(b)
    ensures Build(table, bounds, id, precision, geom, columns, filter) ==
            Success(WithBounds(table, b, id, Str(PrecisionText(precision)), geom, columns, filter))
    ensures b.Numbers? <==> Truthy(bounds)
  {
  }

  lemma FeaturePieces(k: Word, id: Value, digits: Value)
    ensures Kw(k) in Feature(id, digits) ==>
            k in {FeatureOpen, IdMember, CommaTight, GeometryMember, PropertiesMember, IdExclusion, Quote}
  {
    InWrapped(k, IdMember, id, CommaTight);
    InWrapped(k, IdExclusion, id, Quote);
  }

  lemma FeatureId(id: Value, digits: Value)
    ensures Kw(IdMember) in Feature(id, digits) <==> Truthy(id)
    ensures Kw(IdExclusion) in Feature(id, digits) <==> Truthy(id)
  {
    if Truthy(id) {
      var f := Feature(id, digits);
      assert f[1] == Kw(IdMember) && f[7] == Kw(IdExclusion);
    } else {
      assert Feature(id, digits) == [Kw(FeatureOpen), Kw(GeometryMember), Arg(digits), Kw(PropertiesMember)];
    }
  }

  lemma InnerPieces(k: Word, table: Value, geom: Value, columns: Value, id: Value)
    ensures var r := Inner(table, geom, columns, id);
            |r| == 14 + |Clause(CommaGap, columns)| + |Clause(CommaGap, id)| &&
            (Kw(k) in r ==> k in {FeaturesFrom, Wgs84Geom, CommaGap, From, Comma, SridOpen, AsSridFrom, SridWhere, NotNullLimitOne, SubqueryAlias})
  {
    InClause(k, CommaGap, columns);
    InClause(k, CommaGap, id);
    SridSourcePieces(k, table, geom);
  }

  /**
   * A truthy id column is written three times: as the feature's `'id'`
   * member, as a key removed from the properties, and as a column of the
   * inner select; a falsy one not at all.
   */
  lemma IdNamed(table: Value, b: BoundsValue, id: Value, digits: Value, geom: Value, columns: Value, filter: Value)
    ensures var q := WithBounds(table, b, id, digits, geom, columns, filter);
            (Kw(IdMember) in q <==> Truthy(id)) && (Kw(IdExclusion) in q <==> Truthy(id))
  {
    FeatureId(id, digits);
    InnerPieces(IdMember, table, geom, columns, id);
    InnerPieces(IdExclusion, table, geom, columns, id);
    RestrictionPieces(IdMember, filter, geom, b);
    RestrictionPieces(IdExclusion, filter, geom, b);
  }

  lemma IdPlaced(table: Value, b: BoundsValue, id: Value, digits: Value, geom: Value, columns: Value, filter: Value)
    requires Truthy(id)
    ensures var q := WithBounds(table, b, id, digits, geom, columns, filter);
            Shows(q, IdMember, id) && Shows(q, IdExclusion, id) && Shows(q, CommaGap, id)
  {
    var f := Feature(id, digits);
    var i := Inner(table, geom, columns, id);
    var t := Restriction(filter, geom, b) + [Kw(FeaturesClose)];
    var w1 := Wrapped(IdMember, id, CommaTight);
    var w2 := Wrapped(IdExclusion, id, Quote);
    var g := [Kw(GeometryMember), Arg(digits), Kw(PropertiesMember)];
    // the `'id'` member and the removed key
    ShowsWrapped(IdMember, id, CommaTight, g + w2);
    ShowsAfter([Kw(FeatureOpen)], w1 + (g + w2), IdMember, id);
    ShowsBefore(f, i + t, IdMember, id);
    ShowsWrapped(IdExclusion, id, Quote, []);
    assert w2 + [] == w2;
    ShowsAfter(g, w2, IdExclusion, id);
    ShowsAfter(w1, g + w2, IdExclusion, id);
    ShowsAfter([Kw(FeatureOpen)], w1 + (g + w2), IdExclusion, id);
    ShowsBefore(f, i + t, IdExclusion, id);
    // the column of the inner select
    var s := SridSource(table, geom);
    ShowsFront(CommaGap, id, s);
    ShowsAfter(Clause(CommaGap, columns), Clause(CommaGap, id) + s, CommaGap, id);
    ShowsAfter([Kw(FeaturesFrom), Arg(geom), Kw(Wgs84Geom)], Clause(CommaGap, columns) + (Clause(CommaGap, id) + s), CommaGap, id);
    ShowsBefore(i, t, CommaGap, id);
    ShowsAfter(f, i + t, CommaGap, id);
  }

  /**
   * The geometry is always written with the precision's digits, and the
   * properties always leave out the `geom` key.
   */
  lemma Geometry(table: Value, b: BoundsValue, id: Value, digits: Value, geom: Value, columns: Value, filter: Value)
    ensures var q := WithBounds(table, b, id, digits, geom, columns, filter);
            q[0] == Kw(FeatureOpen) && Shows(q, GeometryMember, digits) && Follows(q, Arg(digits), Kw(PropertiesMember))
  {
    var a := Feature(id, digits);
    var t := Inner(table, geom, columns, id) + (Restriction(filter, geom, b) + [Kw(FeaturesClose)]);
    FeatureGeometry(id, digits);
    FollowsBefore(a, t, Kw(GeometryMember), Arg(digits));
    FollowsBefore(a, t, Arg(digits), Kw(PropertiesMember));
  }

  lemma FeatureGeometry(id: Value, digits: Value)
    ensures var f := Feature(id, digits);
            Follows(f, Kw(GeometryMember), Arg(digits)) && Follows(f, Arg(digits), Kw(PropertiesMember))
  {
    TripleFollows(Kw(FeatureOpen), Wrapped(IdMember, id, CommaTight), Kw(GeometryMember), Arg(digits), Kw(PropertiesMember),
                  Wrapped(IdExclusion, id, Quote));
  }

  /** In `[s] + (w1 + ([a, b, c] + w2))`, `b` follows `a` and `c` follows `b`. */
  lemma TripleFollows(s: Fragment, w1: Query, a: Fragment, b: Fragment, c: Fragment, w2: Query)
    ensures var q := [s] + (w1 + ([a, b, c] + w2));
            Follows(q, a, b) && Follows(q, b, c)
  {
    var q := [s] + (w1 + ([a, b, c] + w2));
    var k := 1 + |w1|;
    assert q[k] == a && q[k + 1] == b && q[k + 2] == c;
  }

  /**
   * The inner select always joins the table with the subquery reading its
   * srid, after the geometry in WGS 84 and the optional columns; the
   * restriction follows, then ` ) as subq`.
   */
  lemma Layout(table: Value, b: BoundsValue, id: Value, digits: Value, geom: Value, columns: Value, filter: Value)
    ensures var q := WithBounds(table, b, id, digits, geom, columns, filter);
            var f := |Feature(id, digits)|;
            var w := f + 3 + |Clause(CommaGap, columns)| + |Clause(CommaGap, id)|;
            |q| >= w + 12 &&
            q[f..f + 3] == [Kw(FeaturesFrom), Arg(geom), Kw(Wgs84Geom)] &&
            q[w..w + 11] == SridSource(table, geom) &&
            q[w + 11..] == Restriction(filter, geom, b) + [Kw(FeaturesClose)]
  {
    InnerShape(table, geom, columns, id);
    Around(Feature(id, digits), Inner(table, geom, columns, id), Restriction(filter, geom, b) + [Kw(FeaturesClose)],
           |Clause(CommaGap, columns)| + |Clause(CommaGap, id)|, [Kw(FeaturesFrom), Arg(geom), Kw(Wgs84Geom)], SridSource(table, geom));
  }

  /** Where the parts of a subquery `i` of the shape `h`, `c` fragments, `s` land once it is placed between `a` and `t`. */
  lemma Around(a: Query, i: Query, t: Query, c: nat, h: Query, s: Query)
    requires |h| == 3 && |s| == 11 && |i| == 14 + c && i[..3] == h && i[3 + c..] == s
    ensures var q := a + (i + t);
            |q| >= |a| + 3 + c + 11 + |t| &&
            q[|a|..|a| + 3] == h && q[|a| + 3 + c..|a| + 3 + c + 11] == s && q[|a| + 3 + c + 11..] == t
  {
    SliceMiddle(a, i, t, 0, 3);
    SliceMiddle(a, i, t, 3 + c, 14 + c);
    SliceLast(a, i, t, 0, |t|);
  }

  /** The subquery: the geometry in WGS 84, the optional columns, then the table and its srid. */
  lemma InnerShape(table: Value, geom: Value, columns: Value, id: Value)
    ensures var i := Inner(table, geom, columns, id);
            var c := |Clause(CommaGap, columns)| + |Clause(CommaGap, id)|;
            |i| == 14 + c && i[..3] == [Kw(FeaturesFrom), Arg(geom), Kw(Wgs84Geom)] &&
            i[3 + c..] == SridSource(table, geom)
  {
    var h := [Kw(FeaturesFrom), Arg(geom), Kw(Wgs84Geom)];
    var c1 := Clause(CommaGap, columns);
    var c2 := Clause(CommaGap, id);
    var r := SridSource(table, geom);
    SridSourcePieces(From, table, geom);
    SliceFront(h, c1 + (c2 + r), 0, 3);
    SliceLast(h, c1, c2 + r, |c2|, |c2| + |r|);
    SliceLast(c2, [], r, 0, |r|);
  }

  lemma Restricted(k: Word, table: Value, b: BoundsValue, id: Value, digits: Value, geom: Value, columns: Value, filter: Value)
    requires k in {WhereWord, AndWord, BoxOpen, TileEnvelopeOpen}
    ensures Kw(k) in WithBounds(table, b, id, digits, geom, columns, filter) <==> Kw(k) in Restriction(filter, geom, b)
  {
    FeaturePieces(k, id, digits);
    InnerPieces(k, table, geom, columns, id);
  }

  /**
   * `WHERE` is written iff there is a filter or bounds, `AND` iff there are
   * both; four numbers give an envelope, three a tile, never both.
   */
  lemma Keywords(table: Value, bounds: Value, id: Value, precision: Value, geom: Value, columns: Value, filter: Value)
    requires !Truthy(bounds) || bounds.Str?
    ensures var r := Build(table, bounds, id, precision, geom, columns, filter);
            var b := ParseBounds(bounds).value;
            r.Success? &&
            (Kw(WhereWord) in r.value <==> Truthy(filter) || Truthy(bounds)) &&
            (Kw(AndWord) in r.value <==> Truthy(filter) && Truthy(bounds)) &&
            (Kw(BoxOpen) in r.value <==> Truthy(bounds) && |b.values| == 4) &&
            (Kw(TileEnvelopeOpen) in r.value <==> Truthy(bounds) && |b.values| == 3)
  {
    var b := ParseBounds(bounds).value;
    var d := Str(PrecisionText(precision));
    Reads(table, bounds, id, precision, geom, columns, filter, b);
    KeywordsWith(table, b, id, d, geom, columns, filter);
  }

  /** The same keywords, once the bounds are split. */
  lemma KeywordsWith(table: Value, b: BoundsValue, id: Value, digits: Value, geom: Value, columns: Value, filter: Value)
    ensures var q := WithBounds(table, b, id, digits, geom, columns, filter);
            (Kw(WhereWord) in q <==> Truthy(filter) || b.Numbers?) &&
            (Kw(AndWord) in q <==> Truthy(filter) && b.Numbers?) &&
            (Kw(BoxOpen) in q <==> b.Numbers? && |b.values| == 4) &&
            (Kw(TileEnvelopeOpen) in q <==> b.Numbers? && |b.values| == 3)
  {
    Restricted(WhereWord, table, b, id, digits, geom, columns, filter);
    Restricted(AndWord, table, b, id, digits, geom, columns, filter);
    Restricted(BoxOpen, table, b, id, digits, geom, columns, filter);
    Restricted(TileEnvelopeOpen, table, b, id, digits, geom, columns, filter);
    HasWhere(filter, geom, b);
    HasAnd(filter, geom, b);
    EnvelopeKinds(filter, geom, b);
  }

  lemma RenderFeature<T>(id: Value, digits: Value, sp: Spelling<T>)
    ensures Render(Feature(id, digits), sp) ==
            sp.word(FeatureOpen) + (Render(Wrapped(IdMember, id, CommaTight), sp) +
            (sp.word(GeometryMember) + (sp.value(digits) + (sp.word(PropertiesMember) + Render(Wrapped(IdExclusion, id, Quote), sp)))))
  {
    var w1 := Wrapped(IdMember, id, CommaTight);
    var w2 := Wrapped(IdExclusion, id, Quote);
    var g := [Kw(GeometryMember), Arg(digits), Kw(PropertiesMember)];
    RenderCons(Kw(FeatureOpen), w1 + (g + w2), sp);
    RenderAppend(w1, g + w2, sp);
    assert g + w2 == [Kw(GeometryMember)] + ([Arg(digits)] + ([Kw(PropertiesMember)] + w2));
    RenderCons(Kw(GeometryMember), [Arg(digits)] + ([Kw(PropertiesMember)] + w2), sp);
    RenderCons(Arg(digits), [Kw(PropertiesMember)] + w2, sp);
    RenderCons(Kw(PropertiesMember), w2, sp);
  }

  lemma RenderInner<T>(table: Value, geom: Value, columns: Value, id: Value, sp: Spelling<T>)
    ensures Render(Inner(table, geom, columns, id), sp) ==
            sp.word(FeaturesFrom) + (sp.value(geom) + (sp.word(Wgs84Geom) +
            (Optional(CommaGap, columns, sp) + (Optional(CommaGap, id, sp) + Render(SridSource(table, geom), sp)))))
  {
    var q := Inner(table, geom, columns, id);
    var s := SridSource(table, geom);
    RenderThreeThen(Kw(FeaturesFrom), Arg(geom), Kw(Wgs84Geom), Clause(CommaGap, columns) + (Clause(CommaGap, id) + s), sp);
    RenderAppend(Clause(CommaGap, columns), Clause(CommaGap, id) + s, sp);
    RenderAppend(Clause(CommaGap, id), s, sp);
    RenderClause(CommaGap, columns, sp);
    RenderClause(CommaGap, id, sp);
  }

  /** The query string, in any spelling, part by part. */
  lemma Rendered<T>(table: Value, b: BoundsValue, id: Value, digits: Value, geom: Value, columns: Value, filter: Value, sp: Spelling<T>)
    ensures Render(WithBounds(table, b, id, digits, geom, columns, filter), sp) ==
            Render(Feature(id, digits), sp) + (Render(Inner(table, geom, columns, id), sp) +
            (Render(Restriction(filter, geom, b), sp) + sp.word(FeaturesClose)))
  {
    var a := Feature(id, digits);
    var i := Inner(table, geom, columns, id);
    var r := Restriction(filter, geom, b);
    RenderCons(Kw(FeaturesClose), [], sp);
    RenderAppend(r, [Kw(FeaturesClose)], sp);
    RenderAppend(i, r + [Kw(FeaturesClose)], sp);
    RenderAppend(a, i + (r + [Kw(FeaturesClose)]), sp);
  }

  lemma FeatureParams(id: Value, digits: Value)
    ensures Params(Feature(id, digits)) == Present(id) + ([digits] + Present(id))
  {
    RenderFeature(id, digits, Parameters);
    WrappedParams(IdMember, id, CommaTight);
    WrappedParams(IdExclusion, id, Quote);
  }

  lemma InnerParams(table: Value, geom: Value, columns: Value, id: Value)
    ensures Params(Inner(table, geom, columns, id)) == [geom] + (Present(columns) + (Present(id) + ([table] + [geom, table, geom])))
  {
    RenderInner(table, geom, columns, id, Parameters);
    ClauseParams(CommaGap, columns);
    ClauseParams(CommaGap, id);
    RenderClause(CommaGap, columns, Parameters);
    RenderClause(CommaGap, id, Parameters);
    SridSourceParams(table, geom);
  }

  /**
   * The parameters in order: a truthy id, the digits and the id again; the
   * geometry column, truthy columns and id, the srid subquery's table and
   * geometry column; a truthy filter; then, for three or four numbers, the
   * geometry column and the joined numbers.
   */
  lemma Interpolated(table: Value, b: BoundsValue, id: Value, digits: Value, geom: Value, columns: Value, filter: Value)
    ensures Params(WithBounds(table, b, id, digits, geom, columns, filter)) ==
            (Present(id) + ([digits] + Present(id))) +
            (([geom] + (Present(columns) + (Present(id) + ([table] + [geom, table, geom])))) +
            (Present(filter) + (if b.Numbers? && (|b.values| == 3 || |b.values| == 4) then [geom, Corners(b)] else [])))
  {
    var f := Feature(id, digits);
    var i := Inner(table, geom, columns, id);
    var r := Restriction(filter, geom, b);
    var c := [Kw(FeaturesClose)];
    FeatureParams(id, digits);
    InnerParams(table, geom, columns, id);
    RestrictionParams(filter, geom, b);
    assert c == [Kw(FeaturesClose)] + [];
    RenderCons(Kw(FeaturesClose), [], Parameters);
    assert Params(c) == [];
    RenderAppend(r, c, Parameters);
    assert Params(r + c) == Params(r);
    RenderAppend(i, r + c, Parameters);
    RenderAppend(f, i + (r + c), Parameters);
  }
}
