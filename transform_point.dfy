/**
 * lib/transform_point.js: the x and y of a point given as `x,y,srid`, moved
 * into another spatial reference system (4326 unless given). The point is
 * read with the prefix regex; the same `ST_Transform` expression is
 * written under `ST_X` and under `ST_Y`.
 */
module TransformPoint {
  import opened Wrappers
  import opened Js
  import opened SqlText
  import opened PointString
  import opened Spatial

  /** `ST_Transform( st_setsrid(st_makepoint(<x>, <y>), <point srid>), <srid> )` */
  function Moved(p: Point, srid: Value): Query {
    Reproject(p, [Arg(srid)])
  }

  /** `SELECT ST_X( <moved> ) as x, ST_Y( <moved> ) as y` */
  function WithPoint(p: Point, srid: Value): Query {
    [Kw(SelectX)] + (Moved(p, srid) + ([Kw(XAlias)] + (Moved(p, srid) + [Kw(YAlias)])))
  }

  /** `transform_point(point, srid = '4326')` */
  function Build(point: Value, srid: Value): Result<Query, Error> {
    match MatchPoint(point, AtStart)
    case Failure(e) => Failure(e)
    case Success(p) => Success(WithPoint(p, Default(srid, DefaultSrid)))
  }

  /** A point string that starts with `<num>,<num>,dddd` is read as those three texts. */
  lemma Reads(point: Value, srid: Value, p: Point)
    requires Spells(point, p, AtStart)
    ensures Build(point, srid) == Success(WithPoint(p, Default(srid, DefaultSrid)))
  {
    MatchPointExact(point, AtStart, p);
  }

  /** Any other point gives no query text at all. */
  lemma Rejects(point: Value, srid: Value)
    ensures var r := Build(point, srid);
            (r.Failure? <==> forall p: Point :: !Spells(point, p, AtStart)) &&
            (r.Failure? ==> r.error == if point.Str? then TypeError(MatchFailed) else TypeError(NotAString("point")))
  {
    MatchPointFails(point, AtStart);
  }

  /** `invalid,point,format` does not start with a number and fails. */
  lemma MalformedRejected(srid: Value)
    ensures Build(Str("invalid" + "," + "point" + "," + "format"), srid) == Failure(TypeError(MatchFailed))
  {
    LetterRejected("invalid", "point", "format");
  }

  /** `12.5,3.4,43267` is read as srid `4326`: the fifth digit is ignored. */
  lemma FifthSridDigit(srid: Value)
    ensures Build(Str("12.5,3.4,43267"), srid) == Success(WithPoint(Point("12.5", "3.4", "4326"), Default(srid, DefaultSrid)))
  {
    PointString.FifthSridDigit("12.5,3.4,43267");
  }

  /** Without a srid the point is moved into 4326; any other value, even a falsy one, is used as given. */
  lemma TargetSrid(point: Value, srid: Value)
    ensures srid == Undefined ==> Build(point, srid) == Build(point, Str("4326"))
    ensures srid != Undefined ==> Build(point, srid) == match MatchPoint(point, AtStart)
                                                        case Failure(e) => Failure(e)
                                                        case Success(p) => Success(WithPoint(p, srid))
  {
  }

  lemma MovedPieces(p: Point, srid: Value)
    ensures var m := Moved(p, srid);
            |m| == 11 && m[0] == Kw(TransformOpen) && m[1..8] == SetSrid(p) &&
            m[8..] == [Kw(Comma), Arg(srid), Kw(TransformClose)]
  {
  }

  /**
   * The x and the y are taken of the very same expression: the point built
   * from its two coordinates in its own srid, then moved into the target.
   */
  lemma SameExpression(p: Point, srid: Value)
    ensures var q := WithPoint(p, srid);
            |q| == 25 && q[0] == Kw(SelectX) && q[12] == Kw(XAlias) && q[24] == Kw(YAlias) &&
            q[1..12] == Moved(p, srid) && q[13..24] == Moved(p, srid)
  {
    MovedPieces(p, srid);
    var q := WithPoint(p, srid);
    assert q[1..] == Moved(p, srid) + ([Kw(XAlias)] + (Moved(p, srid) + [Kw(YAlias)]));
    assert q[13..] == Moved(p, srid) + [Kw(YAlias)];
  }

  /**
   * The parameters in order: the point's x, y and srid, then the target
   * srid; twice.
   */
  lemma Interpolated(p: Point, srid: Value)
    ensures var e := [Str(p.x), Str(p.y), Str(p.srid), srid];
            Params(WithPoint(p, srid)) == e + e
  {
    var m := Moved(p, srid);
    ReprojectParams(p, [Arg(srid)]);
    assert [Arg(srid)] + [] == [Arg(srid)];
    RenderCons(Arg(srid), [], Parameters);
    assert Params([Arg(srid)]) == [srid];
    assert Params(m) == [Str(p.x), Str(p.y), Str(p.srid), srid];
    Rendered(p, srid, Parameters);
    assert Parameters.word(SelectX) == [] && Parameters.word(XAlias) == [] && Parameters.word(YAlias) == [];
  }

  /** The query string, in any spelling. */
  lemma Rendered<T>(p: Point, srid: Value, sp: Spelling<T>)
    ensures Render(WithPoint(p, srid), sp) ==
            sp.word(SelectX) + (Render(Moved(p, srid), sp) + (sp.word(XAlias) + (Render(Moved(p, srid), sp) + sp.word(YAlias))))
  {
    var m := Moved(p, srid);
    var q := WithPoint(p, srid);
    RenderCons(Kw(SelectX), q[1..], sp);
    RenderAppend(m, [Kw(XAlias)] + (m + [Kw(YAlias)]), sp);
    RenderCons(Kw(XAlias), m + [Kw(YAlias)], sp);
    RenderAppend(m, [Kw(YAlias)], sp);
    RenderCons(Kw(YAlias), [], sp);
  }
}
