/**
 * lib/query.js: `SELECT <columns> FROM <table>` followed by the optional
 * `WHERE`, `GROUP BY`, `ORDER BY` and `LIMIT` clauses, each present when its
 * parameter is truthy, always in that order, with `limit` defaulting to 100.
 */
module QueryTable {
  import opened Js
  import opened SqlText

  const DefaultLimit := Int(100)

  function Head(table: Value, columns: Value): Query {
    [Kw(Select), Arg(columns), Kw(From), Arg(table)]
  }

  /** The query `query_table(table, columns, filter, group, sort, limit)` returns. */
  function Build(table: Value, columns: Value, filter: Value, group: Value, sort: Value, limit: Value): Query {
    Head(table, columns) +
    (Clause(Where, filter) +
    (Clause(GroupBy, group) +
    (Clause(OrderBy, sort) +
     Clause(Limit, Default(limit, DefaultLimit)))))
  }

  /** `SELECT <columns> FROM <table>`, both parameters verbatim. */
  function HeadText<T>(table: Value, columns: Value, sp: Spelling<T>): seq<T> {
    sp.word(Select) + (sp.value(columns) + (sp.word(From) + sp.value(table)))
  }

  lemma RenderHead<T>(table: Value, columns: Value, sp: Spelling<T>)
    ensures Render(Head(table, columns), sp) == HeadText(table, columns, sp)
  {
    var h := Head(table, columns);
    RenderCons(Kw(Select), h[1..], sp);
    RenderCons(Arg(columns), h[2..], sp);
    RenderCons(Kw(From), h[3..], sp);
    RenderCons(Arg(table), [], sp);
  }

  /**
   * The whole query string, as the tests match it: the columns and the
   * table verbatim, then each present clause as its keyword and its
   * parameter's text, in the fixed order WHERE, GROUP BY, ORDER BY, LIMIT.
   */
  lemma Rendered<T>(table: Value, columns: Value, filter: Value, group: Value, sort: Value, limit: Value, sp: Spelling<T>)
    ensures Render(Build(table, columns, filter, group, sort, limit), sp) ==
            HeadText(table, columns, sp) + (Optional(Where, filter, sp) + (Optional(GroupBy, group, sp) +
            (Optional(OrderBy, sort, sp) + Optional(Limit, Default(limit, DefaultLimit), sp))))
  {
    var h := Head(table, columns);
    var w := Clause(Where, filter);
    var g := Clause(GroupBy, group);
    var o := Clause(OrderBy, sort);
    var l := Clause(Limit, Default(limit, DefaultLimit));
    RenderHead(table, columns, sp);
    RenderClause(Where, filter, sp);
    RenderClause(GroupBy, group, sp);
    RenderClause(OrderBy, sort, sp);
    RenderClause(Limit, Default(limit, DefaultLimit), sp);
    RenderAppend(o, l, sp);
    RenderAppend(g, o + l, sp);
    RenderAppend(w, g + (o + l), sp);
    RenderAppend(h, w + (g + (o + l)), sp);
  }

  /** The query starts with `SELECT <columns> FROM <table>`. */
  lemma StartsWithHead(table: Value, columns: Value, filter: Value, group: Value, sort: Value, limit: Value)
    ensures Build(table, columns, filter, group, sort, limit)[..4] == [Kw(Select), Arg(columns), Kw(From), Arg(table)]
  {
  }

  /** Which pieces the optional clauses contribute. */
  lemma ClausePieces(k: Word, table: Value, columns: Value, filter: Value, group: Value, sort: Value, limit: Value)
    requires k != Select && k != From
    ensures Kw(k) in Build(table, columns, filter, group, sort, limit) <==>
            (k == Where && Truthy(filter)) || (k == GroupBy && Truthy(group)) ||
            (k == OrderBy && Truthy(sort)) || (k == Limit && Truthy(Default(limit, DefaultLimit)))
  {
    InClause(k, Where, filter);
    InClause(k, GroupBy, group);
    InClause(k, OrderBy, sort);
    InClause(k, Limit, Default(limit, DefaultLimit));
  }

  lemma HasWhere(table: Value, columns: Value, filter: Value, group: Value, sort: Value, limit: Value)
    ensures Kw(Where) in Build(table, columns, filter, group, sort, limit) <==> Truthy(filter)
  {
    ClausePieces(Where, table, columns, filter, group, sort, limit);
  }

  lemma HasGroupBy(table: Value, columns: Value, filter: Value, group: Value, sort: Value, limit: Value)
    ensures Kw(GroupBy) in Build(table, columns, filter, group, sort, limit) <==> Truthy(group)
  {
    ClausePieces(GroupBy, table, columns, filter, group, sort, limit);
  }

  lemma HasOrderBy(table: Value, columns: Value, filter: Value, group: Value, sort: Value, limit: Value)
    ensures Kw(OrderBy) in Build(table, columns, filter, group, sort, limit) <==> Truthy(sort)
  {
    ClausePieces(OrderBy, table, columns, filter, group, sort, limit);
  }

  lemma HasLimit(table: Value, columns: Value, filter: Value, group: Value, sort: Value, limit: Value)
    ensures Kw(Limit) in Build(table, columns, filter, group, sort, limit) <==> Truthy(Default(limit, DefaultLimit))
  {
    ClausePieces(Limit, table, columns, filter, group, sort, limit);
  }

  /** A truthy filter follows `WHERE`. */
  lemma ShowsFilter(table: Value, columns: Value, filter: Value, group: Value, sort: Value, limit: Value)
    requires Truthy(filter)
    ensures Shows(Build(table, columns, filter, group, sort, limit), Where, filter)
  {
    var y := Clause(GroupBy, group) + (Clause(OrderBy, sort) + Clause(Limit, Default(limit, DefaultLimit)));
    ShowsFront(Where, filter, y);
    ShowsAfter(Head(table, columns), Clause(Where, filter) + y, Where, filter);
  }

  /** A truthy group follows `GROUP BY`. */
  lemma ShowsGroup(table: Value, columns: Value, filter: Value, group: Value, sort: Value, limit: Value)
    requires Truthy(group)
    ensures Shows(Build(table, columns, filter, group, sort, limit), GroupBy, group)
  {
    var y := Clause(OrderBy, sort) + Clause(Limit, Default(limit, DefaultLimit));
    var q := Clause(GroupBy, group) + y;
    ShowsFront(GroupBy, group, y);
    ShowsAfter(Clause(Where, filter), q, GroupBy, group);
    ShowsAfter(Head(table, columns), Clause(Where, filter) + q, GroupBy, group);
  }

  /** A truthy sort follows `ORDER BY`. */
  lemma ShowsSort(table: Value, columns: Value, filter: Value, group: Value, sort: Value, limit: Value)
    requires Truthy(sort)
    ensures Shows(Build(table, columns, filter, group, sort, limit), OrderBy, sort)
  {
    var y := Clause(Limit, Default(limit, DefaultLimit));
    var q := Clause(OrderBy, sort) + y;
    ShowsFront(OrderBy, sort, y);
    ShowsAfter(Clause(GroupBy, group), q, OrderBy, sort);
    ShowsAfter(Clause(Where, filter), Clause(GroupBy, group) + q, OrderBy, sort);
    ShowsAfter(Head(table, columns), Clause(Where, filter) + (Clause(GroupBy, group) + q), OrderBy, sort);
  }

  /** A truthy limit, after the default, follows `LIMIT`. */
  lemma ShowsLimit(table: Value, columns: Value, filter: Value, group: Value, sort: Value, limit: Value)
    requires Truthy(Default(limit, DefaultLimit))
    ensures Shows(Build(table, columns, filter, group, sort, limit), Limit, Default(limit, DefaultLimit))
  {
    var l := Default(limit, DefaultLimit);
    var q := Clause(Limit, l);
    ShowsFront(Limit, l, []);
    assert q + [] == q;
    ShowsAfter(Clause(OrderBy, sort), q, Limit, l);
    ShowsAfter(Clause(GroupBy, group), Clause(OrderBy, sort) + q, Limit, l);
    ShowsAfter(Clause(Where, filter), Clause(GroupBy, group) + (Clause(OrderBy, sort) + q), Limit, l);
    ShowsAfter(Head(table, columns), Clause(Where, filter) + (Clause(GroupBy, group) + (Clause(OrderBy, sort) + q)), Limit, l);
  }

  /** A WHERE clause comes before every other clause present. */
  lemma WhereFirst(table: Value, columns: Value, filter: Value, group: Value, sort: Value, limit: Value)
    requires Truthy(filter)
    ensures var q := Build(table, columns, filter, group, sort, limit);
            (Truthy(group) ==> Precedes(q, Kw(Where), Kw(GroupBy))) &&
            (Truthy(sort) ==> Precedes(q, Kw(Where), Kw(OrderBy))) &&
            (Truthy(Default(limit, DefaultLimit)) ==> Precedes(q, Kw(Where), Kw(Limit)))
  {
    var h := Head(table, columns);
    var w := Clause(Where, filter);
    var rest := Clause(GroupBy, group) + (Clause(OrderBy, sort) + Clause(Limit, Default(limit, DefaultLimit)));
    if Truthy(group) {
      PrecedesAcross(w, rest, Kw(Where), Kw(GroupBy));
      PrecedesAfter(h, w + rest, Kw(Where), Kw(GroupBy));
    }
    if Truthy(sort) {
      PrecedesAcross(w, rest, Kw(Where), Kw(OrderBy));
      PrecedesAfter(h, w + rest, Kw(Where), Kw(OrderBy));
    }
    if Truthy(Default(limit, DefaultLimit)) {
      PrecedesAcross(w, rest, Kw(Where), Kw(Limit));
      PrecedesAfter(h, w + rest, Kw(Where), Kw(Limit));
    }
  }

  /** A GROUP BY clause comes before ORDER BY and LIMIT. */
  lemma GroupBySecond(table: Value, columns: Value, filter: Value, group: Value, sort: Value, limit: Value)
    requires Truthy(group)
    ensures var q := Build(table, columns, filter, group, sort, limit);
            (Truthy(sort) ==> Precedes(q, Kw(GroupBy), Kw(OrderBy))) &&
            (Truthy(Default(limit, DefaultLimit)) ==> Precedes(q, Kw(GroupBy), Kw(Limit)))
  {
    var front := Head(table, columns) + Clause(Where, filter);
    var g := Clause(GroupBy, group);
    var rest := Clause(OrderBy, sort) + Clause(Limit, Default(limit, DefaultLimit));
    assert Build(table, columns, filter, group, sort, limit) == front + (g + rest);
    if Truthy(sort) {
      PrecedesAcross(g, rest, Kw(GroupBy), Kw(OrderBy));
      PrecedesAfter(front, g + rest, Kw(GroupBy), Kw(OrderBy));
    }
    if Truthy(Default(limit, DefaultLimit)) {
      PrecedesAcross(g, rest, Kw(GroupBy), Kw(Limit));
      PrecedesAfter(front, g + rest, Kw(GroupBy), Kw(Limit));
    }
  }

  /** An ORDER BY clause comes before LIMIT. */
  lemma OrderByThird(table: Value, columns: Value, filter: Value, group: Value, sort: Value, limit: Value)
    requires Truthy(sort) && Truthy(Default(limit, DefaultLimit))
    ensures Precedes(Build(table, columns, filter, group, sort, limit), Kw(OrderBy), Kw(Limit))
  {
    var front := Head(table, columns) + Clause(Where, filter) + Clause(GroupBy, group);
    var o := Clause(OrderBy, sort);
    var l := Clause(Limit, Default(limit, DefaultLimit));
    assert Build(table, columns, filter, group, sort, limit) == front + (o + l);
    PrecedesAcross(o, l, Kw(OrderBy), Kw(Limit));
    PrecedesAfter(front, o + l, Kw(OrderBy), Kw(Limit));
  }

  /** An undefined limit becomes `LIMIT 100`; `null` and `0` suppress the clause. */
  lemma LimitDefault(table: Value, columns: Value, filter: Value, group: Value, sort: Value)
    ensures Build(table, columns, filter, group, sort, Undefined) == Build(table, columns, filter, group, sort, Int(100))
    ensures Shows(Build(table, columns, filter, group, sort, Undefined), Limit, Int(100))
    ensures Kw(Limit) !in Build(table, columns, filter, group, sort, Null)
    ensures Kw(Limit) !in Build(table, columns, filter, group, sort, Int(0))
  {
    ShowsLimit(table, columns, filter, group, sort, Undefined);
    HasLimit(table, columns, filter, group, sort, Null);
    HasLimit(table, columns, filter, group, sort, Int(0));
  }

  /** The default limit prints as `100`. */
  lemma DefaultLimitText()
    ensures Text(DefaultLimit) == "100"
  {
    assert NatToString(100) == NatToString(10) + [DigitChar(0)];
    assert NatToString(10) == NatToString(1) + [DigitChar(0)];
  }

  /**
   * The clause structure is unambiguous: two calls that build the same
   * fragments agree on the columns, the table, and on which optional
   * parameters are present and what they are.
   */
  lemma Determined(t1: Value, c1: Value, f1: Value, g1: Value, s1: Value, l1: Value,
                   t2: Value, c2: Value, f2: Value, g2: Value, s2: Value, l2: Value)
    requires Build(t1, c1, f1, g1, s1, l1) == Build(t2, c2, f2, g2, s2, l2)
    ensures t1 == t2 && c1 == c2
    ensures Shown(f1) == Shown(f2) && Shown(g1) == Shown(g2) && Shown(s1) == Shown(s2)
    ensures Shown(Default(l1, DefaultLimit)) == Shown(Default(l2, DefaultLimit))
  {
    var h1 := Head(t1, c1);
    var h2 := Head(t2, c2);
    var ls1 := Clause(Limit, Default(l1, DefaultLimit));
    var ls2 := Clause(Limit, Default(l2, DefaultLimit));
    var os1 := Clause(OrderBy, s1) + ls1;
    var os2 := Clause(OrderBy, s2) + ls2;
    var gs1 := Clause(GroupBy, g1) + os1;
    var gs2 := Clause(GroupBy, g2) + os2;
    var ws1 := Clause(Where, f1) + gs1;
    var ws2 := Clause(Where, f2) + gs2;
    assert ls1 + [] == ls1 && ls2 + [] == ls2;
    ClauseStarts(Limit, Default(l1, DefaultLimit), [], OrderBy);
    ClauseStarts(Limit, Default(l2, DefaultLimit), [], OrderBy);
    ClauseStarts(Limit, Default(l1, DefaultLimit), [], GroupBy);
    ClauseStarts(Limit, Default(l2, DefaultLimit), [], GroupBy);
    ClauseStarts(Limit, Default(l1, DefaultLimit), [], Where);
    ClauseStarts(Limit, Default(l2, DefaultLimit), [], Where);
    ClauseStarts(OrderBy, s1, ls1, GroupBy);
    ClauseStarts(OrderBy, s2, ls2, GroupBy);
    ClauseStarts(OrderBy, s1, ls1, Where);
    ClauseStarts(OrderBy, s2, ls2, Where);
    ClauseStarts(GroupBy, g1, os1, Where);
    ClauseStarts(GroupBy, g2, os2, Where);
    PeelPrefix(h1, ws1, h2, ws2);
    assert h1[1] == h2[1] && h1[3] == h2[3];
    PeelClause(Where, f1, gs1, f2, gs2);
    PeelClause(GroupBy, g1, os1, g2, os2);
    PeelClause(OrderBy, s1, ls1, s2, ls2);
    PeelClause(Limit, Default(l1, DefaultLimit), [], Default(l2, DefaultLimit), []);
  }

  /**
   * The query string does not determine the parameters: nothing is escaped,
   * so a filter that itself contains ` GROUP BY ` yields the same SQL as a
   * separate filter and group, although the two calls differ.
   */
  lemma FilterIsNotEscaped(table: Value, columns: Value, filter: string, group: string)
    requires filter != "" && group != ""
    ensures Sql(Build(table, columns, Str(filter + WordText(GroupBy) + group), Undefined, Undefined, Null)) ==
            Sql(Build(table, columns, Str(filter), Str(group), Undefined, Null))
    ensures Shown(Str(filter + WordText(GroupBy) + group)) != Shown(Str(filter))
  {
    var h := Head(table, columns);
    var joined := Str(filter + WordText(GroupBy) + group);
    assert Truthy(joined);
    var q1 := Build(table, columns, joined, Undefined, Undefined, Null);
    var q2 := Build(table, columns, Str(filter), Str(group), Undefined, Null);
    assert q1 == h + (Clause(Where, joined) + []);
    assert q2 == h + (Clause(Where, Str(filter)) + Clause(GroupBy, Str(group)));
    RenderAppend(h, Clause(Where, joined) + [], Written);
    RenderAppend(h, Clause(Where, Str(filter)) + Clause(GroupBy, Str(group)), Written);
    RenderAppend(Clause(Where, Str(filter)), Clause(GroupBy, Str(group)), Written);
    RenderClause(Where, joined, Written);
    RenderClause(Where, Str(filter), Written);
    RenderClause(GroupBy, Str(group), Written);
    assert Clause(Where, joined) + [] == Clause(Where, joined);
    ConcatAssoc(WordText(Where) + filter, WordText(GroupBy), group);
    ConcatAssoc(WordText(Where), filter, WordText(GroupBy) + group);
    ConcatAssoc(filter, WordText(GroupBy), group);
    assert |filter + WordText(GroupBy) + group| > |filter|;
  }
}
