/**
 * lib/centroid.js: the x and y of each geometry's centre, reprojected. The
 * centre is `ST_PointOnSurface` when `force_on_surface` is truthy and
 * `ST_Centroid` otherwise, the same choice in both coordinates.
 */
module Centroid {
  import opened Js
  import opened SqlText
  import opened Spatial

  /** The function named by `force_on_surface ? 'ST_PointOnSurface' : 'ST_Centroid'`. */
  function Centre(force: Value): Word {
    if Truthy(force) then PointOnSurface else SqlText.Centroid
  }

  /** `ST_Transform( <centre>( <geom> ), <srid>)`, the argument of `ST_X` and of `ST_Y`. */
  function Axis(centre: Word, geom: Value, srid: Value): Query {
    [Kw(TransformOpen), Kw(centre), Kw(OpenArg), Arg(geom), Kw(CloseArgComma), Arg(srid), Kw(CloseParen)]
  }

  /** `centroid(table, force_on_surface = false, geom_column = 'geom', srid = '4326', filter)` */
  function Build(table: Value, force: Value, geom: Value, srid: Value, filter: Value): Query {
    var a := Axis(Centre(Default(force, Bool(false))), Default(geom, DefaultGeom), Default(srid, DefaultSrid));
    [Kw(SelectX)] + (a + ([Kw(XAlias)] + (a + ([Kw(YAlias), Kw(From), Arg(table)] + Clause(Where, filter)))))
  }

  /**
   * A truthy `force_on_surface` gives `ST_PointOnSurface` and anything else
   * `ST_Centroid`, in both coordinates; the two never appear together.
   * Left undefined it is `false`.
   */
  lemma NeverMixed(table: Value, force: Value, geom: Value, srid: Value, filter: Value)
    ensures var q := Build(table, force, geom, srid, filter);
            (Kw(PointOnSurface) in q <==> Truthy(force)) &&
            (Kw(SqlText.Centroid) in q <==> !Truthy(force)) &&
            q[2] == q[10] == Kw(Centre(force))
    ensures Kw(SqlText.Centroid) in Build(table, Undefined, geom, srid, filter)
  {
    CentreIn(PointOnSurface, table, force, geom, srid, filter);
    CentreIn(SqlText.Centroid, table, force, geom, srid, filter);
    CentreIn(SqlText.Centroid, table, Undefined, geom, srid, filter);
    CentreAt(table, force, geom, srid, filter);
  }

  lemma CentreAt(table: Value, force: Value, geom: Value, srid: Value, filter: Value)
    ensures var q := Build(table, force, geom, srid, filter);
            q[2] == q[10] == Kw(Centre(force))
  {
    SameExpression(table, force, geom, srid, filter);
    var q := Build(table, force, geom, srid, filter);
    var d := Default(force, Bool(false));
    var a := Axis(Centre(d), Default(geom, DefaultGeom), Default(srid, DefaultSrid));
    assert q[2] == q[1..8][1] && q[10] == q[9..16][1];
    assert a[1] == Kw(Centre(d)) && Centre(d) == Centre(force);
  }

  /** A centre function is in the query iff it is the one `force_on_surface` chooses. */
  lemma CentreIn(k: Word, table: Value, force: Value, geom: Value, srid: Value, filter: Value)
    requires k == PointOnSurface || k == SqlText.Centroid
    ensures Kw(k) in Build(table, force, geom, srid, filter) <==> k == Centre(force)
  {
    var d := Default(force, Bool(false));
    var a := Axis(Centre(d), Default(geom, DefaultGeom), Default(srid, DefaultSrid));
    var t := [Kw(YAlias), Kw(From), Arg(table)];
    assert Centre(d) == Centre(force);
    InClause(k, Where, filter);
    AxisPieces(k, Centre(d), Default(geom, DefaultGeom), Default(srid, DefaultSrid));
    assert Kw(k) !in t;
    InFiveParts(Kw(k), Kw(SelectX), a, Kw(XAlias), t, Clause(Where, filter));
  }

  /** Membership in a query laid out as the x axis, the y axis and the tail. */
  lemma InFiveParts(f: Fragment, s: Fragment, a: Query, x: Fragment, t: Query, c: Query)
    ensures f in [s] + (a + ([x] + (a + (t + c)))) <==> f == s || f in a || f == x || f in t || f in c
  {
  }

  /** The pieces of an axis: its centre function is the only one that varies. */
  lemma AxisPieces(k: Word, centre: Word, geom: Value, srid: Value)
    ensures Kw(k) in Axis(centre, geom, srid) <==>
            k == centre || k in {TransformOpen, OpenArg, CloseArgComma, CloseParen}
  {
    var a := Axis(centre, geom, srid);
    assert a[0] == Kw(TransformOpen) && a[1] == Kw(centre) && a[2] == Kw(OpenArg) && a[4] == Kw(CloseArgComma) && a[6] == Kw(CloseParen);
  }

  /**
   * The x and y expressions are the same expression: they differ only in
   * `ST_X` and `ST_Y` and the aliases `x` and `y`.
   */
  lemma SameExpression(table: Value, force: Value, geom: Value, srid: Value, filter: Value)
    ensures var q := Build(table, force, geom, srid, filter);
            q[1..8] == q[9..16] ==
            Axis(Centre(Default(force, Bool(false))), Default(geom, DefaultGeom), Default(srid, DefaultSrid)) &&
            q[0] == Kw(SelectX) && q[8] == Kw(XAlias) && q[16] == Kw(YAlias)
  {
    var q := Build(table, force, geom, srid, filter);
    var a := Axis(Centre(Default(force, Bool(false))), Default(geom, DefaultGeom), Default(srid, DefaultSrid));
    assert q == [Kw(SelectX)] + a + [Kw(XAlias)] + a + ([Kw(YAlias), Kw(From), Arg(table)] + Clause(Where, filter));
  }

  /** `WHERE <filter>` follows `FROM <table>` iff the filter is truthy. */
  lemma Filter(table: Value, force: Value, geom: Value, srid: Value, filter: Value)
    ensures var q := Build(table, force, geom, srid, filter);
            (Kw(Where) in q <==> Truthy(filter)) &&
            (Truthy(filter) ==> q[17..] == [Kw(From), Arg(table), Kw(Where), Arg(filter)]) &&
            (!Truthy(filter) ==> q[17..] == [Kw(From), Arg(table)])
  {
    var q := Build(table, force, geom, srid, filter);
    InClause(Where, Where, filter);
    SameExpression(table, force, geom, srid, filter);
    assert q[17..] == [Kw(From), Arg(table)] + Clause(Where, filter);
  }

  /**
   * The parameters in order: the geometry column and the srid for x, the
   * same two for y, the table, then a truthy filter; `'geom'` and `'4326'`
   * stand in for undefined ones.
   */
  lemma Interpolated(table: Value, force: Value, geom: Value, srid: Value, filter: Value)
    ensures var g := Default(geom, DefaultGeom);
            var s := Default(srid, DefaultSrid);
            Params(Build(table, force, geom, srid, filter)) == [g, s, g, s, table] + Present(filter)
  {
    var c := Centre(Default(force, Bool(false)));
    Rendered(table, force, geom, srid, filter, Parameters);
    RenderAxis(c, Default(geom, DefaultGeom), Default(srid, DefaultSrid), Parameters);
    ClauseParams(Where, filter);
  }

  lemma RenderAxis<T>(centre: Word, geom: Value, srid: Value, sp: Spelling<T>)
    ensures Render(Axis(centre, geom, srid), sp) ==
            sp.word(TransformOpen) + (sp.word(centre) + (sp.word(OpenArg) + (sp.value(geom) +
            (sp.word(CloseArgComma) + (sp.value(srid) + sp.word(CloseParen))))))
  {
    RenderSeven(Kw(TransformOpen), Kw(centre), Kw(OpenArg), Arg(geom), Kw(CloseArgComma), Arg(srid), Kw(CloseParen), sp);
  }

  /** The query string, in any spelling: `ST_X(` the axis `) as x, ST_Y(` the axis `) as y`, `FROM`, the optional filter. */
  lemma Rendered<T>(table: Value, force: Value, geom: Value, srid: Value, filter: Value, sp: Spelling<T>)
    ensures var a := Axis(Centre(Default(force, Bool(false))), Default(geom, DefaultGeom), Default(srid, DefaultSrid));
            Render(Build(table, force, geom, srid, filter), sp) ==
            sp.word(SelectX) + (Render(a, sp) + (sp.word(XAlias) + (Render(a, sp) + (sp.word(YAlias) +
            (sp.word(From) + (sp.value(table) + Optional(Where, filter, sp)))))))
  {
    var a := Axis(Centre(Default(force, Bool(false))), Default(geom, DefaultGeom), Default(srid, DefaultSrid));
    var t := [Kw(YAlias), Kw(From), Arg(table)];
    var w := Clause(Where, filter);
    RenderClause(Where, filter, sp);
    RenderThreeThen(t[0], t[1], t[2], w, sp);
    RenderAppend(a, [Kw(XAlias)] + (a + (t + w)), sp);
    RenderCons(Kw(XAlias), a + (t + w), sp);
    RenderAppend(a, t + w, sp);
    RenderCons(Kw(SelectX), a + ([Kw(XAlias)] + (a + (t + w))), sp);
  }
}
