/** Conversion of a dashboard's compact query into SAQL text (scripts/agents/dashboardReader.js). */
module Saql {
  import opened Basics
  import opened Text
  import opened Json

  /**
   * A query column: `aggregate` holds the `field` pair `[function, field]`
   * when it is set, `formula` is "" when unset, and a missing `name` prints
   * as "undefined".
   */
  datatype Column = Column(aggregate: Option<(string, string)>, formula: string, name: Option<string>)

  datatype Source = Source(groups: seq<string>, columns: seq<Column>)

  datatype Order = Order(name: Option<string>, ascending: bool)

  /** A compact query; `limit` is 0 when the query has none. */
  datatype Query = Query(sourceFilters: seq<Field>, sources: seq<Source>, orders: seq<Order>, limit: int)

  /** A string spliced into a template literal: a missing value prints as "undefined". */
  function Shown(o: Option<string>): string
  {
    if o.Some? then o.value else "undefined"
  }

  function FilterTerm(f: Field): string
  {
    f.0 + " == " + ToJsString(f.1)
  }

  /** One generated column; a column with neither field nor formula contributes the empty string. */
  function ColumnTerm(c: Column): string
  {
    if c.aggregate.Some? then c.aggregate.value.0 + "(" + c.aggregate.value.1 + ") as " + Shown(c.name)
    else if c.formula != [] then c.formula + " as " + Shown(c.name)
    else []
  }

  function LoadClause(datasetId: string): string
  {
    "q = load \"" + datasetId + "\";"
  }

  function FilterClause(filters: seq<Field>): string
  {
    "q = filter q by " + Join(seq(|filters|, i requires 0 <= i < |filters| => FilterTerm(filters[i])), " and ") + ";"
  }

  function GroupClause(groups: seq<string>): string
  {
    "q = group q by " + Join(groups, ", ") + ";"
  }

  function ForeachClause(columns: seq<Column>): string
  {
    "q = foreach q generate " + Join(seq(|columns|, i requires 0 <= i < |columns| => ColumnTerm(columns[i])), ", ") + ";"
  }

  function OrderClause(o: Order): string
  {
    "q = order q by " + Shown(o.name) + " " + (if o.ascending then "asc" else "desc") + ";"
  }

  function LimitClause(limit: int): string
  {
    "limit " + IntToString(limit) + ";"
  }

  /**
   * The clauses of the SAQL text in their fixed order: load, filter (when
   * there are filters), group, foreach, order (when there is an order) and
   * limit (when the limit is non-zero). Only the first source is read.
   */
  function Clauses(q: Query, datasetId: string): (r: seq<string>)
    requires |q.sources| > 0
  {
    [LoadClause(datasetId)] + FilterPart(q)
    + [GroupClause(q.sources[0].groups), ForeachClause(q.sources[0].columns)]
    + OrderPart(q) + LimitPart(q)
  }

  function FilterPart(q: Query): seq<string>
  {
    if |q.sourceFilters| > 0 then [FilterClause(q.sourceFilters)] else []
  }

  function OrderPart(q: Query): seq<string>
  {
    if |q.orders| > 0 then [OrderClause(q.orders[0])] else []
  }

  function LimitPart(q: Query): seq<string>
  {
    if q.limit != 0 then [LimitClause(q.limit)] else []
  }

  /** The SAQL text: its clauses one per line; a query with no source fails reading `sources[0].groups`. */
  function SaqlOf(q: Query, datasetId: string): Result<string>
  {
    if |q.sources| == 0 then Error("TypeError: Cannot read properties of undefined (reading 'groups')")
    else Ok(Join(Clauses(q, datasetId), "\n"))
  }

  /**
   * Group and foreach are always present; filter, order and limit appear
   * exactly when the query has them.
   */
  lemma ClauseCount(q: Query, datasetId: string)
    requires |q.sources| > 0
    ensures |Clauses(q, datasetId)| ==
              3 + (if |q.sourceFilters| > 0 then 1 else 0) + (if |q.orders| > 0 then 1 else 0)
                + (if q.limit != 0 then 1 else 0)
    ensures Clauses(q, datasetId)[0] == LoadClause(datasetId)
    ensures Clauses(q, datasetId)[|Clauses(q, datasetId)| - 1] ==
              if q.limit != 0 then LimitClause(q.limit)
              else if |q.orders| > 0 then OrderClause(q.orders[0])
              else ForeachClause(q.sources[0].columns)
  {
  }

  /** No line feed in any clause: the dataset id and every spliced value are single-line. */
  predicate SingleLine(q: Query, datasetId: string)
    requires |q.sources| > 0
  {
    forall i :: 0 <= i < |Clauses(q, datasetId)| ==> '\n' !in Clauses(q, datasetId)[i]
  }

  /** The lines of the SAQL text are exactly its clauses. */
  lemma SaqlLines(q: Query, datasetId: string)
    requires |q.sources| > 0 && SingleLine(q, datasetId)
    ensures SaqlOf(q, datasetId).Ok?
    ensures Split(SaqlOf(q, datasetId).value, '\n') == Clauses(q, datasetId)
  {
    SplitJoin(Clauses(q, datasetId), '\n');
  }

  /** Appends one clause on a new line (the `saql += "\n" + ...` step). */
  method AppendClause(saql: string, ghost lines: seq<string>, clause: string) returns (s: string)
    requires |lines| >= 1 && saql == Join(lines, "\n")
    ensures s == Join(lines + [clause], "\n")
  {
    JoinAppend(lines, "\n", clause);
    s := saql + "\n" + clause;
  }

  /** `queryToSaql`: the SAQL text built clause by clause. */
  method QueryToSaql(q: Query, datasetId: string) returns (r: Result<string>)
    ensures r == SaqlOf(q, datasetId)
    ensures r.Error? <==> |q.sources| == 0
  {
    var saql := LoadClause(datasetId);
    ghost var lines := [saql];
    if |q.sourceFilters| > 0 {
      saql := AppendClause(saql, lines, FilterClause(q.sourceFilters));
      lines := lines + [FilterClause(q.sourceFilters)];
    }
    assert lines == [LoadClause(datasetId)] + FilterPart(q);
    if |q.sources| == 0 {
      return Error("TypeError: Cannot read properties of undefined (reading 'groups')");
    }
    var source := q.sources[0];
    saql := AppendClause(saql, lines, GroupClause(source.groups));
    lines := lines + [GroupClause(source.groups)];
    saql := AppendClause(saql, lines, ForeachClause(source.columns));
    lines := lines + [ForeachClause(source.columns)];
    ghost var head := lines;
    assert head == [LoadClause(datasetId)] + FilterPart(q) + [GroupClause(source.groups), ForeachClause(source.columns)];
    if |q.orders| > 0 {
      saql := AppendClause(saql, lines, OrderClause(q.orders[0]));
      lines := lines + [OrderClause(q.orders[0])];
    }
    assert lines == head + OrderPart(q);
    if q.limit != 0 {
      saql := AppendClause(saql, lines, LimitClause(q.limit));
      lines := lines + [LimitClause(q.limit)];
    }
    assert lines == head + OrderPart(q) + LimitPart(q);
    r := Ok(saql);
  }
}
