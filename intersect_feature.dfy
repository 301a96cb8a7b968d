/**
 * lib/intersect_feature.js: the pairs of two tables' rows within a distance:
 * `SELECT <columns> FROM <from>, <to> WHERE ST_DWithin( <from>.<geom>,
 * <to>.<geom>, <distance> )`, then the optional AND, ORDER BY and LIMIT.
 */
module IntersectFeature {
  import opened Js
  import opened SqlText
  import opened Spatial

  /** `<table>.<geom>` */
  function Qualified(table: Value, geom: Value): Query {
    [Arg(table), Kw(Dot), Arg(geom)]
  }

  /** `WHERE ST_DWithin( <from>.<geom_from>, <to>.<geom_to>, <distance> )` */
  function Within(from: Value, to: Value, distance: Value, geomFrom: Value, geomTo: Value): Query {
    [Kw(DWithinOpen)] + (Qualified(from, geomFrom) + ([Kw(Comma)] + (Qualified(to, geomTo) +
    [Kw(Comma), Arg(distance), Kw(DWithinClose)])))
  }

  /** The selection, the Cartesian pair of tables and the `ST_DWithin` predicate. */
  function Head(from: Value, to: Value, columns: Value, distance: Value, geomFrom: Value, geomTo: Value): Query {
    [Kw(Select), Arg(columns), Kw(From), Arg(from), Kw(Comma), Arg(to)] + Within(from, to, distance, geomFrom, geomTo)
  }

  /**
   * `intersect_feature(table_from, table_to, columns = '*', distance = '0',
   * geom_column_from = 'geom', geom_column_to = 'geom', filter, sort, limit)`
   */
  function Build(from: Value, to: Value, columns: Value, distance: Value, geomFrom: Value, geomTo: Value,
                 filter: Value, sort: Value, limit: Value): Query {
    Head(from, to, Default(columns, Str("*")), Default(distance, Str("0")),
         Default(geomFrom, DefaultGeom), Default(geomTo, DefaultGeom)) +
    Refinements(filter, sort, limit)
  }

  /**
   * FROM is always the pair `<from>, <to>`, and `ST_DWithin` always compares
   * `<from>.<geom_from>` with `<to>.<geom_to>` within the distance, which is
   * emitted whatever its value. Columns `'*'`, distance `'0'` and both
   * geometry columns `'geom'` stand in for undefined ones.
   */
  lemma Predicate(from: Value, to: Value, columns: Value, distance: Value, geomFrom: Value, geomTo: Value,
                  filter: Value, sort: Value, limit: Value)
    ensures var q := Build(from, to, columns, distance, geomFrom, geomTo, filter, sort, limit);
            q[..6] == [Kw(Select), Arg(Default(columns, Str("*"))), Kw(From), Arg(from), Kw(Comma), Arg(to)] &&
            q[6..17] == [Kw(DWithinOpen), Arg(from), Kw(Dot), Arg(Default(geomFrom, Str("geom"))), Kw(Comma),
                         Arg(to), Kw(Dot), Arg(Default(geomTo, Str("geom"))), Kw(Comma),
                         Arg(Default(distance, Str("0"))), Kw(DWithinClose)] &&
            q[17..] == Refinements(filter, sort, limit)
  {
    var w := Within(from, to, Default(distance, Str("0")), Default(geomFrom, DefaultGeom), Default(geomTo, DefaultGeom));
    var s := [Kw(Select), Arg(Default(columns, Str("*"))), Kw(From), Arg(from), Kw(Comma), Arg(to)];
    WithinSpelled(from, to, Default(distance, Str("0")), Default(geomFrom, DefaultGeom), Default(geomTo, DefaultGeom));
    ThreeParts(s, w, Refinements(filter, sort, limit));
  }

  lemma WithinSpelled(from: Value, to: Value, distance: Value, geomFrom: Value, geomTo: Value)
    ensures Within(from, to, distance, geomFrom, geomTo) ==
            [Kw(DWithinOpen), Arg(from), Kw(Dot), Arg(geomFrom), Kw(Comma), Arg(to), Kw(Dot), Arg(geomTo),
             Kw(Comma), Arg(distance), Kw(DWithinClose)]
  {
  }

  /** The parts of a query made of a selection, a predicate and a tail. */
  lemma ThreeParts(s: Query, w: Query, r: Query)
    ensures var q := (s + w) + r;
            q[..|s|] == s && q[|s|..|s| + |w|] == w && q[|s| + |w|..] == r
  {
  }

  /** The head ends with the `ST_DWithin` predicate and holds no clause keyword. */
  lemma HeadPieces(from: Value, to: Value, columns: Value, distance: Value, geomFrom: Value, geomTo: Value)
    ensures EndsPredicate(Head(from, to, columns, distance, geomFrom, geomTo))
  {
    var w := Within(from, to, distance, geomFrom, geomTo);
    WithinSpelled(from, to, distance, geomFrom, geomTo);
    var h := Head(from, to, columns, distance, geomFrom, geomTo);
    assert |h| == 17 && h[16] == Kw(DWithinClose);
    assert forall i :: 0 <= i < 17 ==> h[i] != Kw(And) && h[i] != Kw(OrderBy) && h[i] != Kw(Limit);
  }

  /** `AND`, `ORDER BY` and `LIMIT` each appear iff their parameter is truthy. */
  lemma Optionals(from: Value, to: Value, columns: Value, distance: Value, geomFrom: Value, geomTo: Value,
                  filter: Value, sort: Value, limit: Value)
    ensures var q := Build(from, to, columns, distance, geomFrom, geomTo, filter, sort, limit);
            (Kw(And) in q <==> Truthy(filter)) &&
            (Kw(OrderBy) in q <==> Truthy(sort)) &&
            (Kw(Limit) in q <==> Truthy(limit))
  {
    HeadPieces(from, to, Default(columns, Str("*")), Default(distance, Str("0")), Default(geomFrom, DefaultGeom), Default(geomTo, DefaultGeom));
    AfterPredicatePieces(Head(from, to, Default(columns, Str("*")), Default(distance, Str("0")), Default(geomFrom, DefaultGeom), Default(geomTo, DefaultGeom)), filter, sort, limit);
  }

  /**
   * A truthy filter comes right after the `ST_DWithin` predicate, a truthy
   * sort follows `ORDER BY`, and a truthy limit ends the query.
   */
  lemma Placed(from: Value, to: Value, columns: Value, distance: Value, geomFrom: Value, geomTo: Value,
               filter: Value, sort: Value, limit: Value)
    ensures var q := Build(from, to, columns, distance, geomFrom, geomTo, filter, sort, limit);
            (Truthy(filter) ==> Follows(q, Kw(DWithinClose), Kw(And)) && Shows(q, And, filter)) &&
            (Truthy(sort) ==> Shows(q, OrderBy, sort)) &&
            (Truthy(limit) ==> q[|q| - 2..] == [Kw(Limit), Arg(limit)])
  {
    var h := Head(from, to, Default(columns, Str("*")), Default(distance, Str("0")), Default(geomFrom, DefaultGeom), Default(geomTo, DefaultGeom));
    HeadPieces(from, to, Default(columns, Str("*")), Default(distance, Str("0")), Default(geomFrom, DefaultGeom), Default(geomTo, DefaultGeom));
    AfterPredicatePlaces(h, filter, sort, limit);
    assert Build(from, to, columns, distance, geomFrom, geomTo, filter, sort, limit) == h + Refinements(filter, sort, limit);
  }

  /** The present clauses come in the order AND, ORDER BY, LIMIT. */
  lemma Order(from: Value, to: Value, columns: Value, distance: Value, geomFrom: Value, geomTo: Value,
              filter: Value, sort: Value, limit: Value)
    ensures var q := Build(from, to, columns, distance, geomFrom, geomTo, filter, sort, limit);
            (Truthy(filter) && Truthy(sort) ==> Precedes(q, Kw(And), Kw(OrderBy))) &&
            (Truthy(filter) && Truthy(limit) ==> Precedes(q, Kw(And), Kw(Limit))) &&
            (Truthy(sort) && Truthy(limit) ==> Precedes(q, Kw(OrderBy), Kw(Limit)))
  {
    AfterPredicateOrder(Head(from, to, Default(columns, Str("*")), Default(distance, Str("0")), Default(geomFrom, DefaultGeom), Default(geomTo, DefaultGeom)), filter, sort, limit);
  }

  /**
   * The parameters in order: columns, the two tables, each table with its
   * geometry column, the distance, then the truthy ones of filter, sort and
   * limit.
   */
  lemma Interpolated(from: Value, to: Value, columns: Value, distance: Value, geomFrom: Value, geomTo: Value,
                     filter: Value, sort: Value, limit: Value)
    ensures Params(Build(from, to, columns, distance, geomFrom, geomTo, filter, sort, limit)) ==
            [Default(columns, Str("*")), from, to, from, Default(geomFrom, DefaultGeom), to, Default(geomTo, DefaultGeom),
             Default(distance, Str("0"))] + (Present(filter) + (Present(sort) + Present(limit)))
  {
    var h := Head(from, to, Default(columns, Str("*")), Default(distance, Str("0")), Default(geomFrom, DefaultGeom), Default(geomTo, DefaultGeom));
    HeadParams(from, to, Default(columns, Str("*")), Default(distance, Str("0")), Default(geomFrom, DefaultGeom), Default(geomTo, DefaultGeom));
    RefinementParams(filter, sort, limit);
    RenderAppend(h, Refinements(filter, sort, limit), Parameters);
  }

  lemma HeadParams(from: Value, to: Value, columns: Value, distance: Value, geomFrom: Value, geomTo: Value)
    ensures Params(Head(from, to, columns, distance, geomFrom, geomTo)) ==
            [columns, from, to, from, geomFrom, to, geomTo, distance]
  {
    var s := [Kw(Select), Arg(columns), Kw(From), Arg(from), Kw(Comma), Arg(to)];
    var w := Within(from, to, distance, geomFrom, geomTo);
    WithinParams(from, to, distance, geomFrom, geomTo);
    SelectionParams(columns, from, to);
    RenderAppend(s, w, Parameters);
    assert [columns, from, to] + [from, geomFrom, to, geomTo, distance] == [columns, from, to, from, geomFrom, to, geomTo, distance];
  }

  lemma SelectionParams(columns: Value, from: Value, to: Value)
    ensures Params([Kw(Select), Arg(columns), Kw(From), Arg(from), Kw(Comma), Arg(to)]) == [columns, from, to]
  {
    var t := [Kw(Comma), Arg(to)];
    var m := [Kw(From), Arg(from)] + t;
    PairParams(Comma, to, []);
    assert t + [] == t && Params([]) == [];
    PairParams(From, from, t);
    PairParams(Select, columns, m);
    assert [Kw(Select), Arg(columns)] + m == [Kw(Select), Arg(columns), Kw(From), Arg(from), Kw(Comma), Arg(to)];
  }

  lemma WithinParams(from: Value, to: Value, distance: Value, geomFrom: Value, geomTo: Value)
    ensures Params(Within(from, to, distance, geomFrom, geomTo)) == [from, geomFrom, to, geomTo, distance]
  {
    RenderWithin(from, to, distance, geomFrom, geomTo, Parameters);
    RenderQualified(from, geomFrom, Parameters);
    RenderQualified(to, geomTo, Parameters);
  }

  lemma RenderQualified<T>(table: Value, geom: Value, sp: Spelling<T>)
    ensures Render(Qualified(table, geom), sp) == sp.value(table) + (sp.word(Dot) + sp.value(geom))
  {
    RenderThree(Arg(table), Kw(Dot), Arg(geom), sp);
  }

  lemma RenderWithin<T>(from: Value, to: Value, distance: Value, geomFrom: Value, geomTo: Value, sp: Spelling<T>)
    ensures Render(Within(from, to, distance, geomFrom, geomTo), sp) ==
            sp.word(DWithinOpen) + (Render(Qualified(from, geomFrom), sp) + (sp.word(Comma) +
            (Render(Qualified(to, geomTo), sp) + (sp.word(Comma) + (sp.value(distance) + sp.word(DWithinClose))))))
  {
    var a := Qualified(from, geomFrom);
    var b := Qualified(to, geomTo);
    var t := [Kw(Comma), Arg(distance), Kw(DWithinClose)];
    RenderThree(t[0], t[1], t[2], sp);
    RenderAppend(b, t, sp);
    RenderCons(Kw(Comma), b + t, sp);
    RenderAppend(a, [Kw(Comma)] + (b + t), sp);
    RenderCons(Kw(DWithinOpen), a + ([Kw(Comma)] + (b + t)), sp);
  }

  lemma RenderHead<T>(from: Value, to: Value, columns: Value, distance: Value, geomFrom: Value, geomTo: Value, sp: Spelling<T>)
    ensures Render(Head(from, to, columns, distance, geomFrom, geomTo), sp) ==
            sp.word(Select) + (sp.value(columns) + (sp.word(From) + (sp.value(from) + (sp.word(Comma) + (sp.value(to) +
            Render(Within(from, to, distance, geomFrom, geomTo), sp))))))
  {
    var w := Within(from, to, distance, geomFrom, geomTo);
    assert Head(from, to, columns, distance, geomFrom, geomTo) ==
           [Kw(Select), Arg(columns), Kw(From)] + ([Arg(from), Kw(Comma), Arg(to)] + w);
    RenderThreeThen(Kw(Select), Arg(columns), Kw(From), [Arg(from), Kw(Comma), Arg(to)] + w, sp);
    RenderThreeThen(Arg(from), Kw(Comma), Arg(to), w, sp);
  }

  /** The query string, in any spelling: the head, then the optional AND, ORDER BY and LIMIT. */
  lemma Rendered<T>(from: Value, to: Value, columns: Value, distance: Value, geomFrom: Value, geomTo: Value,
                    filter: Value, sort: Value, limit: Value, sp: Spelling<T>)
    ensures Render(Build(from, to, columns, distance, geomFrom, geomTo, filter, sort, limit), sp) ==
            Render(Head(from, to, Default(columns, Str("*")), Default(distance, Str("0")),
                        Default(geomFrom, DefaultGeom), Default(geomTo, DefaultGeom)), sp) +
            (Optional(And, filter, sp) + (Optional(OrderBy, sort, sp) + Optional(Limit, limit, sp)))
  {
    var h := Head(from, to, Default(columns, Str("*")), Default(distance, Str("0")),
                  Default(geomFrom, DefaultGeom), Default(geomTo, DefaultGeom));
    RenderRefinements(filter, sort, limit, sp);
    RenderAppend(h, Refinements(filter, sort, limit), sp);
  }
}
