/**
 * lib/list_columns.js: the names and types of a table's columns, read from
 * the PostgreSQL catalogs. The table name is the only parameter; it is
 * placed between single quotes as written, without escaping.
 */
module ListColumns {
  import opened Js
  import opened SqlText

  /** The query `list_columns(table)` returns. */
  function Build(table: Value): Query {
    [Kw(ColumnsSelect), Kw(ColumnsFrom), Kw(CatalogJoin), Kw(RelnameIs), Arg(table), Kw(Quote)]
  }

  /** Everything before the table name: the selected fields, the four catalogs, the join conditions and `attnum >= 1`. */
  function Prefix<T>(sp: Spelling<T>): seq<T> {
    sp.word(ColumnsSelect) + (sp.word(ColumnsFrom) + (sp.word(CatalogJoin) + sp.word(RelnameIs)))
  }

  /**
   * The table name is the one interpolated parameter, placed between
   * `relname = '` and the closing quote; every other piece is fixed.
   */
  lemma OnlyTheTableName(table: Value)
    ensures Params(Build(table)) == [table]
    ensures Build(table)[3..] == [Kw(RelnameIs), Arg(table), Kw(Quote)]
  {
    Rendered(table, Parameters);
  }

  /**
   * Written out in any spelling, the query is a fixed prefix, the table
   * name's text, and a closing quote.
   */
  lemma Rendered<T>(table: Value, sp: Spelling<T>)
    ensures Render(Build(table), sp) == Prefix(sp) + (sp.value(table) + sp.word(Quote))
  {
    RenderSix(Kw(ColumnsSelect), Kw(ColumnsFrom), Kw(CatalogJoin), Kw(RelnameIs), Arg(table), Kw(Quote), sp);
  }

  /** Different table texts give different query strings. */
  lemma Injective(t1: Value, t2: Value)
    requires Sql(Build(t1)) == Sql(Build(t2))
    ensures Text(t1) == Text(t2)
  {
    Rendered(t1, Written);
    Rendered(t2, Written);
    CancelLeft(Prefix(Written), Text(t1) + WordText(Quote), Text(t2) + WordText(Quote));
    CancelRight(Text(t1), Text(t2), WordText(Quote));
  }

  /**
   * Nothing is escaped: a table name that closes the quote itself adds SQL
   * of its own to the condition.
   */
  lemma NameIsNotEscaped(name: string, condition: string)
    ensures Sql(Build(Str(name + WordText(Quote) + condition))) ==
            Prefix(Written) + (name + (WordText(Quote) + (condition + WordText(Quote))))
  {
    Rendered(Str(name + WordText(Quote) + condition), Written);
    ConcatAssoc(name + WordText(Quote), condition, WordText(Quote));
    ConcatAssoc(name, WordText(Quote), condition + WordText(Quote));
    ConcatAssoc(name, WordText(Quote), condition);
  }
}
