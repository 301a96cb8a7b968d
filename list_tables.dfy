/**
 * lib/list_tables.js: the catalog query over `information_schema.tables`,
 * joined with `geometry_columns` and restricted to tables the current user
 * (or PUBLIC) may SELECT from, outside the system schemas, with an optional
 * lower-case `and <filter>` before the final `ORDER BY table_name`.
 */
module ListTables {
  import opened Js
  import opened SqlText

  /** The fixed part of the query up to the place of the optional filter. */
  function Catalog(): Query {
    [Kw(TablesSelect), Kw(TablesFrom), Kw(PrivilegeJoin), Kw(SchemaExclusion), Kw(FilterComment)]
  }

  /** The query `list_tables(filter)` returns. */
  function Build(filter: Value): Query {
    Catalog() + (Clause(LowerAnd, filter) + [Kw(OrderByTableName)])
  }

  /**
   * The privilege join and the system-schema exclusion are always there, and
   * the query always ends with `ORDER BY table_name`.
   */
  lemma AlwaysRestricted(filter: Value)
    ensures var q := Build(filter);
            q[..5] == Catalog() && Kw(PrivilegeJoin) in q && Kw(SchemaExclusion) in q &&
            q[|q| - 1] == Kw(OrderByTableName)
  {
    var q := Build(filter);
    assert q[2] == Kw(PrivilegeJoin) && q[3] == Kw(SchemaExclusion);
  }

  /** `and ` appears iff the filter is truthy. */
  lemma HasFilter(filter: Value)
    ensures Kw(LowerAnd) in Build(filter) <==> Truthy(filter)
  {
    InClause(LowerAnd, LowerAnd, filter);
    assert Kw(LowerAnd) !in Catalog();
  }

  /** Without a filter nothing stands between the schema restriction and `ORDER BY table_name`. */
  lemma NoFilter(filter: Value)
    requires !Truthy(filter)
    ensures Build(filter) == Catalog() + [Kw(OrderByTableName)]
  {
  }

  /**
   * A truthy filter follows `and `, after the schema restriction and before
   * `ORDER BY table_name`.
   */
  lemma FilterPlaced(filter: Value)
    requires Truthy(filter)
    ensures var q := Build(filter);
            Shows(q, LowerAnd, filter) &&
            Precedes(q, Kw(SchemaExclusion), Kw(LowerAnd)) && Precedes(q, Arg(filter), Kw(OrderByTableName))
  {
    var q := Build(filter);
    assert q[3] == Kw(SchemaExclusion) && q[5] == Kw(LowerAnd) && q[6] == Arg(filter) && q[7] == Kw(OrderByTableName);
  }

  /** The catalog text, fixed whatever the filter. */
  function CatalogText<T>(sp: Spelling<T>): seq<T> {
    sp.word(TablesSelect) + (sp.word(TablesFrom) + (sp.word(PrivilegeJoin) +
    (sp.word(SchemaExclusion) + sp.word(FilterComment))))
  }

  /**
   * Written out in any spelling, the query is the catalog text, the optional
   * `and <filter>`, then `ORDER BY table_name`.
   */
  lemma Rendered<T>(filter: Value, sp: Spelling<T>)
    ensures Render(Build(filter), sp) == CatalogText(sp) + (Optional(LowerAnd, filter, sp) + sp.word(OrderByTableName))
  {
    var c := Catalog();
    RenderFive(c[0], c[1], c[2], c[3], c[4], sp);
    RenderClause(LowerAnd, filter, sp);
    RenderCons(Kw(OrderByTableName), [], sp);
    RenderAppend(Clause(LowerAnd, filter), [Kw(OrderByTableName)], sp);
    RenderAppend(c, Clause(LowerAnd, filter) + [Kw(OrderByTableName)], sp);
  }
}
