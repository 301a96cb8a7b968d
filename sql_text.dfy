/**
 * Query text as the builders produce it. Every builder's template literal is
 * read as a sequence of fragments: a fixed piece of the template (`Kw`) or
 * an interpolated parameter (`Arg`). The query string is the fragments'
 * texts in order, with each run of template white space written as one
 * space, which is the whitespace-collapsed form the tests compare. Keeping
 * the two kinds apart shows where caller-supplied text enters a query:
 * nothing is escaped or quoted on the way in.
 */
module SqlText {
  import opened Wrappers
  import opened Js

  /** The fixed pieces of template text the builders use, numbered. */
  type Word = nat
  // shared by several builders
  const Select: Word := 0
  const From: Word := 1
  const Where: Word := 2
  const And: Word := 3
  const GroupBy: Word := 4
  const OrderBy: Word := 5
  const Limit: Word := 6
  const Gap: Word := 7
  const CommaGap: Word := 8
  const Comma: Word := 9
  const CommaTight: Word := 10
  const Quote: Word := 11
  const CloseParen: Word := 12
  const TransformOpen: Word := 13
  const TransformClose: Word := 14
  const SridOpen: Word := 15
  const SridFrom: Word := 16
  const LimitOne: Word := 17
  const SetSridOpen: Word := 18
  const SetSridSrid: Word := 19
  const SetSridClose: Word := 20
  const TileOpen: Word := 21
  const AsSridFrom: Word := 22
  const SridWhere: Word := 23
  const NotNullLimitOne: Word := 24
  const SubqueryAlias: Word := 25
  const Wgs84Geom: Word := 26
  const DWithinOpen: Word := 27
  const DWithinClose: Word := 28
  const Dot: Word := 29
  // lib/list_tables.js
  const TablesSelect: Word := 30
  const TablesFrom: Word := 31
  const PrivilegeJoin: Word := 32
  const SchemaExclusion: Word := 33
  const FilterComment: Word := 34
  const LowerAnd: Word := 35
  const OrderByTableName: Word := 36
  // lib/list_columns.js
  const ColumnsSelect: Word := 37
  const ColumnsFrom: Word := 38
  const CatalogJoin: Word := 39
  const RelnameIs: Word := 40
  // lib/bbox.js
  const ExtentOpen: Word := 41
  const ExtentClose: Word := 42
  // lib/centroid.js and lib/transform_point.js
  const SelectX: Word := 43
  const PointOnSurface: Word := 44
  const Centroid: Word := 45
  const OpenArg: Word := 46
  const CloseArgComma: Word := 47
  const XAlias: Word := 48
  const YAlias: Word := 49
  // lib/nearest.js
  const DistanceOpen: Word := 50
  const DistanceClose: Word := 51
  const NearTo: Word := 52
  // lib/mvt.js
  const MvtOpen: Word := 53
  const WebMercator: Word := 54
  const GeomAlias: Word := 55
  const IntersectsOpen: Word := 56
  const SridClose: Word := 57
  const MvtSelect: Word := 58
  const MvtExtent: Word := 59
  const IdLiteral: Word := 60
  const MvtClose: Word := 61
  // lib/geojson.js
  const FeatureOpen: Word := 62
  const IdMember: Word := 63
  const GeometryMember: Word := 64
  const PropertiesMember: Word := 65
  const IdExclusion: Word := 66
  const FeaturesFrom: Word := 67
  const FeaturesClose: Word := 68
  // lib/geobuf.js
  const GeobufOpen: Word := 69
  const SridAlias: Word := 70
  const GeobufClose: Word := 71
  // the bounds restriction of lib/geojson.js and lib/geobuf.js
  const WhereWord: Word := 72
  const AndWord: Word := 73
  const BoxOpen: Word := 74
  const BoxClose: Word := 75
  const TileEnvelopeOpen: Word := 76
  const TileEnvelopeClose: Word := 77

  /** The text of each piece, with the template's white space collapsed; other numbers spell nothing. */
  function WordText(w: Word): string {
    if w == Select then "SELECT "
    else if w == From then " FROM "
    else if w == Where then " WHERE "
    else if w == And then " AND "
    else if w == GroupBy then " GROUP BY "
    else if w == OrderBy then " ORDER BY "
    else if w == Limit then " LIMIT "
    else if w == Gap then " "
    else if w == CommaGap then " , "
    else if w == Comma then ", "
    else if w == CommaTight then ","
    else if w == Quote then "'"
    else if w == CloseParen then ")"
    else if w == TransformOpen then "ST_Transform( "
    else if w == TransformClose then " )"
    else if w == SridOpen then "(SELECT ST_SRID("
    else if w == SridFrom then ") FROM "
    else if w == LimitOne then " LIMIT 1)"
    else if w == SetSridOpen then "st_setsrid( st_makepoint("
    else if w == SetSridSrid then "), "
    else if w == SetSridClose then " )"
    else if w == TileOpen then "ST_TileEnvelope("
    else if w == AsSridFrom then ") AS srid FROM "
    else if w == SridWhere then " WHERE "
    else if w == NotNullLimitOne then " IS NOT NULL LIMIT 1)"
    else if w == SubqueryAlias then " a"
    else if w == Wgs84Geom then ", 4326) as geom"
    else if w == DWithinOpen then " WHERE ST_DWithin( "
    else if w == DWithinClose then " )"
    else if w == Dot then "."
    else if w == TablesSelect then "SELECT i.table_name, i.table_type, g.f_geometry_column as geometry_column, g.coord_dimension, g.srid, g.type"
    else if w == TablesFrom then " FROM information_schema.tables i LEFT JOIN geometry_columns g ON i.table_name = g.f_table_name"
    else if w == PrivilegeJoin then " INNER JOIN information_schema.table_privileges p ON i.table_name = p.table_name" +
      " AND p.grantee in (current_user, 'PUBLIC') AND p.privilege_type = 'SELECT'"
    else if w == SchemaExclusion then " WHERE i.table_schema not in ('pg_catalog', 'information_schema')"
    else if w == FilterComment then " -- Optional where filter"
    else if w == LowerAnd then " and "
    else if w == OrderByTableName then " ORDER BY table_name"
    else if w == ColumnsSelect then "SELECT attname as field_name, typname as field_type"
    else if w == ColumnsFrom then " FROM pg_namespace, pg_attribute, pg_type, pg_class"
    else if w == CatalogJoin then " WHERE pg_type.oid = atttypid AND pg_class.oid = attrelid AND relnamespace = pg_namespace.oid AND attnum >= 1"
    else if w == RelnameIs then " AND relname = '"
    else if w == ExtentOpen then "SELECT ST_Extent(ST_Transform("
    else if w == ExtentClose then ")) as bbox"
    else if w == SelectX then "SELECT ST_X( "
    else if w == PointOnSurface then "ST_PointOnSurface"
    else if w == Centroid then "ST_Centroid"
    else if w == OpenArg then "( "
    else if w == CloseArgComma then " ), "
    else if w == XAlias then " ) as x, ST_Y( "
    else if w == YAlias then " ) as y"
    else if w == DistanceOpen then ", ST_Distance( "
    else if w == DistanceClose then " ) as distance"
    else if w == NearTo then " <-> "
    else if w == MvtOpen then "WITH mvtgeom as ( SELECT ST_AsMVTGeom ( ST_Transform("
    else if w == WebMercator then ", 3857), "
    else if w == GeomAlias then " ) as geom"
    else if w == IntersectsOpen then " WHERE ST_Intersects( "
    else if w == SridClose then ", srid ) )"
    else if w == MvtSelect then " ) SELECT ST_AsMVT(mvtgeom.*, '"
    else if w == MvtExtent then "', 4096, 'geom' "
    else if w == IdLiteral then ", '"
    else if w == MvtClose then ") AS mvt from mvtgeom;"
    else if w == FeatureOpen then "SELECT jsonb_build_object( 'type', 'Feature',"
    else if w == IdMember then " 'id', "
    else if w == GeometryMember then " 'geometry', ST_AsGeoJSON(geom, "
    else if w == PropertiesMember then ")::jsonb, 'properties', to_jsonb( subq.* ) - 'geom'"
    else if w == IdExclusion then " - '"
    else if w == FeaturesFrom then " ) AS geojson FROM ( SELECT ST_Transform("
    else if w == FeaturesClose then " ) as subq"
    else if w == GeobufOpen then "SELECT ST_AsGeobuf(q, 'geom') FROM ( SELECT ST_Transform("
    else if w == SridAlias then " sq"
    else if w == GeobufClose then " ) as q;"
    else if w == WhereWord then " WHERE"
    else if w == AndWord then " AND"
    else if w == BoxOpen then " && ST_Transform( ST_MakeEnvelope("
    else if w == BoxClose then ", 4326), srid )"
    else if w == TileEnvelopeOpen then " && ST_Transform( ST_TileEnvelope("
    else if w == TileEnvelopeClose then "), srid )"
    else ""
  }

  datatype Fragment = Kw(word: Word) | Arg(value: Value)

  type Query = seq<Fragment>

  /**
   * How fragments are written out: what each piece and each parameter
   * contributes. The query string is one spelling; the list of interpolated
   * parameters is another.
   */
  datatype Spelling<T> = Spelling(word: Word -> seq<T>, value: Value -> seq<T>)

  /** The spelling of the template literals: the collapsed piece texts, and `${v}` for parameters. */
  const Written: Spelling<char> := Spelling(WordText, Text)

  /** Only the parameters, each as itself: which caller values enter the query, in order. */
  const Parameters: Spelling<Value> := Spelling(Silent, Itself)

  function Silent(w: Word): seq<Value> {
    []
  }

  function Itself(v: Value): seq<Value> {
    [v]
  }

  function Piece<T>(f: Fragment, sp: Spelling<T>): seq<T> {
    match f
    case Kw(w) => sp.word(w)
    case Arg(v) => sp.value(v)
  }

  /** The fragments written out one after another. */
  function Render<T>(q: Query, sp: Spelling<T>): seq<T> {
    if q == [] then [] else Piece(q[0], sp) + Render(q[1..], sp)
  }

  /** The query string. */
  function Sql(q: Query): string {
    Render(q, Written)
  }

  /** The values interpolated into the query, in order. */
  function Params(q: Query): seq<Value> {
    Render(q, Parameters)
  }

  lemma {:induction false} RenderAppend<T>(a: Query, b: Query, sp: Spelling<T>)
    ensures Render(a + b, sp) == Render(a, sp) + Render(b, sp)
  {
    if a == [] {
      assert a + b == b;
    } else {
      assert (a + b)[1..] == a[1..] + b;
      RenderAppend(a[1..], b, sp);
    }
  }

  lemma RenderCons<T>(f: Fragment, q: Query, sp: Spelling<T>)
    ensures Render([f] + q, sp) == Piece(f, sp) + Render(q, sp)
  {
    assert ([f] + q)[1..] == q;
  }

  /** Short literal queries written out fragment by fragment. */
  lemma RenderTwo<T>(f1: Fragment, f2: Fragment, sp: Spelling<T>)
    ensures Render([f1, f2], sp) == Piece(f1, sp) + Piece(f2, sp)
  {
    assert [f1, f2] == [f1] + [f2];
    RenderCons(f1, [f2], sp);
    RenderCons(f2, [], sp);
  }

  lemma RenderThree<T>(f1: Fragment, f2: Fragment, f3: Fragment, sp: Spelling<T>)
    ensures Render([f1, f2, f3], sp) == Piece(f1, sp) + (Piece(f2, sp) + Piece(f3, sp))
  {
    assert [f1, f2, f3] == [f1] + [f2, f3];
    RenderCons(f1, [f2, f3], sp);
    RenderTwo(f2, f3, sp);
  }

  lemma RenderFour<T>(f1: Fragment, f2: Fragment, f3: Fragment, f4: Fragment, sp: Spelling<T>)
    ensures Render([f1, f2, f3, f4], sp) == Piece(f1, sp) + (Piece(f2, sp) + (Piece(f3, sp) + Piece(f4, sp)))
  {
    assert [f1, f2, f3, f4] == [f1] + [f2, f3, f4];
    RenderCons(f1, [f2, f3, f4], sp);
    RenderThree(f2, f3, f4, sp);
  }

  lemma RenderFive<T>(f1: Fragment, f2: Fragment, f3: Fragment, f4: Fragment, f5: Fragment, sp: Spelling<T>)
    ensures Render([f1, f2, f3, f4, f5], sp) ==
            Piece(f1, sp) + (Piece(f2, sp) + (Piece(f3, sp) + (Piece(f4, sp) + Piece(f5, sp))))
  {
    assert [f1, f2, f3, f4, f5] == [f1] + [f2, f3, f4, f5];
    RenderCons(f1, [f2, f3, f4, f5], sp);
    RenderFour(f2, f3, f4, f5, sp);
  }

  lemma RenderSix<T>(f1: Fragment, f2: Fragment, f3: Fragment, f4: Fragment, f5: Fragment, f6: Fragment, sp: Spelling<T>)
    ensures Render([f1, f2, f3, f4, f5, f6], sp) ==
            Piece(f1, sp) + (Piece(f2, sp) + (Piece(f3, sp) + (Piece(f4, sp) + (Piece(f5, sp) + Piece(f6, sp)))))
  {
    assert [f1, f2, f3, f4, f5, f6] == [f1] + [f2, f3, f4, f5, f6];
    RenderCons(f1, [f2, f3, f4, f5, f6], sp);
    RenderFive(f2, f3, f4, f5, f6, sp);
  }

  lemma RenderSeven<T>(f1: Fragment, f2: Fragment, f3: Fragment, f4: Fragment, f5: Fragment, f6: Fragment, f7: Fragment,
                       sp: Spelling<T>)
    ensures Render([f1, f2, f3, f4, f5, f6, f7], sp) ==
            Piece(f1, sp) + (Piece(f2, sp) + (Piece(f3, sp) + (Piece(f4, sp) + (Piece(f5, sp) + (Piece(f6, sp) + Piece(f7, sp))))))
  {
    assert [f1, f2, f3, f4, f5, f6, f7] == [f1] + [f2, f3, f4, f5, f6, f7];
    RenderCons(f1, [f2, f3, f4, f5, f6, f7], sp);
    RenderSix(f2, f3, f4, f5, f6, f7, sp);
  }

  /** Three fragments, then the rest of a query. */
  lemma RenderThreeThen<T>(f1: Fragment, f2: Fragment, f3: Fragment, r: Query, sp: Spelling<T>)
    ensures Render([f1, f2, f3] + r, sp) == Piece(f1, sp) + (Piece(f2, sp) + (Piece(f3, sp) + Render(r, sp)))
  {
    assert [f1, f2, f3] + r == [f1] + ([f2] + ([f3] + r));
    RenderCons(f1, [f2] + ([f3] + r), sp);
    RenderCons(f2, [f3] + r, sp);
    RenderCons(f3, r, sp);
  }

  /** A piece followed by a parameter contributes that one parameter. */
  lemma PairParams(w: Word, v: Value, r: Query)
    ensures Params([Kw(w), Arg(v)] + r) == [v] + Params(r)
  {
    assert [Kw(w), Arg(v)] + r == [Kw(w)] + ([Arg(v)] + r);
    RenderCons(Kw(w), [Arg(v)] + r, Parameters);
    RenderCons(Arg(v), r, Parameters);
  }

  /** A query made of four parts ends with the last one. */
  lemma EndsWith(a: Query, b: Query, c: Query, d: Query)
    ensures var q := a + (b + (c + d));
            |d| <= |q| && q[|q| - |d|..] == d
  {
    var q := a + (b + (c + d));
    assert q[|a| + |b| + |c|..] == d;
  }

  /** Where each of four parts lies in `(a + (b + c)) + r`. */
  lemma FourParts(a: Query, b: Query, c: Query, r: Query)
    ensures var q := (a + (b + c)) + r;
            q[..|a|] == a && q[|a|..|a| + |b|] == b && q[|a| + |b|..|a| + |b| + |c|] == c &&
            q[|a| + |b| + |c|..] == r
  {
    var q := (a + (b + c)) + r;
    assert q[|a|..] == (b + c) + r;
  }

  /** A slice within the first part of a query. */
  lemma SliceFront(a: Query, r: Query, i: nat, j: nat)
    requires i <= j <= |a|
    ensures (a + r)[i..j] == a[i..j]
  {
  }

  /** A slice within the middle part of a query made of three. */
  lemma SliceMiddle(x: Query, y: Query, z: Query, i: nat, j: nat)
    requires i <= j <= |y|
    ensures (x + (y + z))[|x| + i..|x| + j] == y[i..j]
  {
    assert (x + (y + z))[|x|..] == y + z;
  }

  /** A slice within the last part of a query made of three. */
  lemma SliceLast(x: Query, y: Query, z: Query, i: nat, j: nat)
    requires i <= j <= |z|
    ensures (x + (y + z))[|x| + |y| + i..|x| + |y| + j] == z[i..j]
  {
    assert (x + (y + z))[|x| + |y|..] == z;
  }

  lemma ConcatAssoc(a: string, b: string, c: string)
    ensures a + (b + c) == a + b + c
  {
  }

  /** `${p ? `<w> ${p}` : ''}`: the piece and the parameter when `p` is truthy. */
  function Clause(w: Word, p: Value): Query {
    if Truthy(p) then [Kw(w), Arg(p)] else []
  }

  /** `${c ? '<w>' : ''}`: a fixed piece of text emitted under a condition. */
  function Flag(w: Word, c: bool): Query {
    if c then [Kw(w)] else []
  }

  /** `${p ? `<open>${p}<close>` : ''}`: the parameter between two pieces when it is truthy. */
  function Wrapped(open: Word, p: Value, close: Word): Query {
    if Truthy(p) then [Kw(open), Arg(p), Kw(close)] else []
  }

  /** What a query reveals of an optional parameter: the parameter when truthy, nothing otherwise. */
  function Shown(p: Value): Option<Value> {
    if Truthy(p) then Some(p) else None
  }

  /** The text an optional clause adds to the query string. */
  function Optional<T>(w: Word, p: Value, sp: Spelling<T>): seq<T> {
    if Truthy(p) then sp.word(w) + sp.value(p) else []
  }

  lemma RenderClause<T>(w: Word, p: Value, sp: Spelling<T>)
    ensures Render(Clause(w, p), sp) == Optional(w, p, sp)
  {
    if Truthy(p) {
      RenderCons(Kw(w), [Arg(p)], sp);
      RenderCons(Arg(p), [], sp);
    }
  }

  /** What an optional parameter contributes to the parameter list: itself when truthy. */
  function Present(p: Value): (r: seq<Value>)
    ensures r == [] <==> !Truthy(p)
  {
    if Truthy(p) then [p] else []
  }

  /** An optional clause interpolates its parameter only when it is truthy. */
  lemma ClauseParams(w: Word, p: Value)
    ensures Params(Clause(w, p)) == Present(p)
  {
    RenderClause(w, p, Parameters);
  }

  /** A fixed piece interpolates nothing. */
  lemma FlagParams(w: Word, c: bool)
    ensures Params(Flag(w, c)) == []
  {
    if c {
      assert Flag(w, c) == [Kw(w)] + [];
      RenderCons(Kw(w), [], Parameters);
      assert Parameters.word(w) == [];
    }
  }

  /** A wrapped parameter likewise. */
  lemma WrappedParams(open: Word, p: Value, close: Word)
    ensures Params(Wrapped(open, p, close)) == Present(p)
  {
    if Truthy(p) {
      RenderCons(Kw(open), [Arg(p), Kw(close)], Parameters);
      RenderCons(Arg(p), [Kw(close)], Parameters);
      RenderCons(Kw(close), [], Parameters);
    }
  }

  lemma RenderWrapped<T>(open: Word, p: Value, close: Word, sp: Spelling<T>)
    ensures Render(Wrapped(open, p, close), sp) ==
            if Truthy(p) then sp.word(open) + (sp.value(p) + sp.word(close)) else []
  {
    if Truthy(p) {
      RenderCons(Kw(open), [Arg(p), Kw(close)], sp);
      RenderCons(Arg(p), [Kw(close)], sp);
      RenderCons(Kw(close), [], sp);
    }
  }

  /** `a` occurs somewhere before an occurrence of `b`. */
  predicate Precedes(q: Query, a: Fragment, b: Fragment) {
    exists i, j :: 0 <= i < j < |q| && q[i] == a && q[j] == b
  }

  /** `b` occurs immediately after an occurrence of `a`. */
  predicate Follows(q: Query, a: Fragment, b: Fragment) {
    exists i :: 0 <= i < |q| - 1 && q[i] == a && q[i + 1] == b
  }

  /** The piece `w` is immediately followed by the interpolated parameter `v`. */
  predicate Shows(q: Query, w: Word, v: Value) {
    Follows(q, Kw(w), Arg(v))
  }

  lemma PrecedesAcross(x: Query, y: Query, a: Fragment, b: Fragment)
    requires a in x && b in y
    ensures Precedes(x + y, a, b)
  {
    var i :| 0 <= i < |x| && x[i] == a;
    var j :| 0 <= j < |y| && y[j] == b;
    assert (x + y)[i] == a && (x + y)[|x| + j] == b;
  }

  /** Text placed in front of a query keeps the order of what follows. */
  lemma PrecedesAfter(x: Query, q: Query, a: Fragment, b: Fragment)
    requires Precedes(q, a, b)
    ensures Precedes(x + q, a, b)
  {
    var i, j :| 0 <= i < j < |q| && q[i] == a && q[j] == b;
    assert (x + q)[|x| + i] == a && (x + q)[|x| + j] == b;
  }

  /** Where two queries meet, the first one's last fragment is followed by the second one's first. */
  lemma Junction(x: Query, y: Query)
    requires x != [] && y != []
    ensures Follows(x + y, x[|x| - 1], y[0])
  {
    assert (x + y)[|x| - 1] == x[|x| - 1] && (x + y)[|x|] == y[0];
  }

  /** A clause inside a query shows its parameter right after its piece. */
  lemma ShowsClause(x: Query, w: Word, p: Value, y: Query)
    requires Truthy(p)
    ensures Shows(x + (Clause(w, p) + y), w, p)
  {
    var q := x + (Clause(w, p) + y);
    assert q[|x|] == Kw(w) && q[|x| + 1] == Arg(p);
  }

  /** Text placed in front of a query keeps what it shows. */
  lemma ShowsAfter(x: Query, q: Query, w: Word, v: Value)
    requires Shows(q, w, v)
    ensures Shows(x + q, w, v)
  {
    var i :| 0 <= i < |q| - 1 && q[i] == Kw(w) && q[i + 1] == Arg(v);
    assert (x + q)[|x| + i] == Kw(w) && (x + q)[|x| + i + 1] == Arg(v);
  }

  /** A present clause at the front of a query shows its parameter. */
  lemma FollowsBefore(q: Query, y: Query, a: Fragment, b: Fragment)
    requires Follows(q, a, b)
    ensures Follows(q + y, a, b)
  {
    var i :| 0 <= i < |q| - 1 && q[i] == a && q[i + 1] == b;
    assert (q + y)[i] == a && (q + y)[i + 1] == b;
  }

  lemma ShowsBefore(q: Query, y: Query, w: Word, v: Value)
    requires Shows(q, w, v)
    ensures Shows(q + y, w, v)
  {
    var i :| 0 <= i < |q| - 1 && q[i] == Kw(w) && q[i + 1] == Arg(v);
    assert (q + y)[i] == Kw(w) && (q + y)[i + 1] == Arg(v);
  }

  lemma ShowsFront(w: Word, p: Value, y: Query)
    requires Truthy(p)
    ensures Shows(Clause(w, p) + y, w, p)
  {
    assert (Clause(w, p) + y)[0] == Kw(w) && (Clause(w, p) + y)[1] == Arg(p);
  }

  /** A piece occurs in a query with one clause of its own iff that clause's parameter is truthy. */
  lemma ClauseMember(x: Query, w: Word, p: Value, y: Query)
    requires Kw(w) !in x && Kw(w) !in y
    ensures Kw(w) in x + (Clause(w, p) + y) <==> Truthy(p)
  {
    if Truthy(p) {
      assert (x + (Clause(w, p) + y))[|x|] == Kw(w);
    }
  }

  /** A clause holds a piece only if it is the clause's own, present one. */
  lemma InClause(k: Word, w: Word, p: Value)
    ensures Kw(k) in Clause(w, p) <==> k == w && Truthy(p)
  {
    if Truthy(p) {
      assert Clause(w, p)[0] == Kw(w);
    }
  }

  /** A flag holds only its own piece, and that when its condition holds. */
  lemma InFlag(k: Word, w: Word, c: bool)
    ensures Kw(k) in Flag(w, c) <==> k == w && c
  {
    if c {
      assert Flag(w, c)[0] == Kw(w);
    }
  }

  /** A wrapped parameter holds only its two pieces, and those when it is truthy. */
  lemma InWrapped(k: Word, open: Word, p: Value, close: Word)
    ensures Kw(k) in Wrapped(open, p, close) <==> (k == open || k == close) && Truthy(p)
  {
    if Truthy(p) {
      assert Wrapped(open, p, close)[0] == Kw(open) && Wrapped(open, p, close)[2] == Kw(close);
    }
  }

  /** A present wrapped parameter at the front of a query shows it. */
  lemma ShowsWrapped(open: Word, p: Value, close: Word, y: Query)
    requires Truthy(p)
    ensures Shows(Wrapped(open, p, close) + y, open, p)
    ensures Follows(Wrapped(open, p, close) + y, Arg(p), Kw(close))
  {
    var q := Wrapped(open, p, close) + y;
    assert q[0] == Kw(open) && q[1] == Arg(p) && q[2] == Kw(close);
  }

  /** A query text determines what follows a common prefix. */
  lemma CancelLeft(a: string, x: string, y: string)
    requires a + x == a + y
    ensures x == y
  {
    assert x == (a + x)[|a|..];
    assert y == (a + y)[|a|..];
  }

  /** A query text determines what precedes a common suffix. */
  lemma CancelRight(x: string, y: string, c: string)
    requires x + c == y + c
    ensures x == y
  {
    assert x == (x + c)[..|x|];
    assert y == (y + c)[..|y|];
  }

  /** Equal queries whose first parts have the same length agree part by part. */
  lemma PeelPrefix(a1: Query, r1: Query, a2: Query, r2: Query)
    requires a1 + r1 == a2 + r2 && |a1| == |a2|
    ensures a1 == a2 && r1 == r2
  {
    assert a1 == (a1 + r1)[..|a1|];
    assert a2 == (a2 + r2)[..|a2|];
    assert r1 == (a1 + r1)[|a1|..];
    assert r2 == (a2 + r2)[|a2|..];
  }

  /** The query does not start with the piece `w`. */
  predicate StartsOutside(r: Query, w: Word) {
    r == [] || r[0] != Kw(w)
  }

  /** An optional clause of another piece keeps a query from starting with `x`. */
  lemma ClauseStarts(w: Word, p: Value, r: Query, x: Word)
    requires w != x && StartsOutside(r, x)
    ensures StartsOutside(Clause(w, p) + r, x)
  {
    if Truthy(p) {
      assert (Clause(w, p) + r)[0] == Kw(w);
    } else {
      assert Clause(w, p) + r == r;
    }
  }

  /**
   * An optional clause can be read back: when neither continuation starts
   * with the clause's piece, equal queries show the parameter the same way
   * and continue the same way.
   */
  lemma PeelClause(w: Word, p1: Value, r1: Query, p2: Value, r2: Query)
    requires Clause(w, p1) + r1 == Clause(w, p2) + r2
    requires StartsOutside(r1, w) && StartsOutside(r2, w)
    ensures Shown(p1) == Shown(p2) && r1 == r2
  {
    var q := Clause(w, p1) + r1;
    assert Truthy(p1) <==> |q| > 0 && q[0] == Kw(w);
    assert Truthy(p2) <==> |q| > 0 && q[0] == Kw(w);
    if Truthy(p1) {
      assert q[1] == Arg(p1) && q[1] == Arg(p2);
      PeelPrefix(Clause(w, p1), r1, Clause(w, p2), r2);
    } else {
      assert Clause(w, p1) + r1 == r1 && Clause(w, p2) + r2 == r2;
    }
  }
}
