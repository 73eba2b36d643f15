/**
 * The backend store, abstracted. A table is a sequence of rows held in
 * memory, and a query is what the screens' query builder collects: the
 * table, a list of column predicates (`.eq`, `.is`) and one ordering
 * (`.order`). The hosted service that really evaluates a query is not part
 * of this model; `Select` states what such a query returns on a table.
 */
module Store {
  import opened Common
  import opened Seqs
  import opened Sorting

  /** A column value of a row. */
  datatype Value = Null | Num(n: int) | Text(s: string)

  /** A nullable text column. */
  function TextOrNull(s: Option<string>): Value {
    if s.Some? then Text(s.value) else Null
  }

  /** A nullable numeric column. */
  function NumOrNull(n: Option<int>): Value {
    if n.Some? then Num(n.value) else Null
  }

  /** A column predicate: `.eq(column, value)` or `.is(column, value)`. */
  datatype Predicate = Eq(column: string, value: Value) | Is(column: string, value: Value)

  /** `.order(column, { ascending })` */
  datatype Order = Order(column: string, ascending: bool)

  /** A query under construction. */
  datatype Query = Query(table: string, predicates: seq<Predicate>, order: Order) {
    /** `query.eq(column, value)`: one more predicate, everything else kept. */
    function WhereEq(column: string, value: Value): Query {
      Query(table, predicates + [Eq(column, value)], order)
    }

    /** `query.is(column, value)` */
    function WhereIs(column: string, value: Value): Query {
      Query(table, predicates + [Is(column, value)], order)
    }
  }

  /** `from(table).select(...).order(column, { ascending })`: no predicates yet. */
  function From(table: string, column: string, ascending: bool): Query {
    Query(table, [], Order(column, ascending))
  }

  /**
   * Whether a column value passes a predicate. An equality with null never
   * holds (SQL `= NULL`); `.is` compares exactly, so `.is(c, null)` keeps
   * the rows whose `c` is null.
   */
  predicate Holds(p: Predicate, v: Value) {
    match p
    case Eq(_, w) => w != Null && v == w
    case Is(_, w) => v == w
  }

  /** A row passes every predicate; `col(row, c)` reads column `c` of a row. */
  predicate Satisfies<R>(row: R, predicates: seq<Predicate>, col: (R, string) -> Value) {
    forall i :: 0 <= i < |predicates| ==> Holds(predicates[i], col(row, predicates[i].column))
  }

  /** The filter a query applies, as a function value. */
  function Matching<R>(q: Query, col: (R, string) -> Value): R -> bool {
    (row: R) => Satisfies(row, q.predicates, col)
  }

  /** The sort key of a value under an ordering; non-numeric values sort as 0. */
  function SortKey(o: Order, v: Value): int {
    if v.Num? then (if o.ascending then v.n else -v.n) else 0
  }

  /** The sort key a query applies to a row, as a function value. */
  function KeyOf<R>(q: Query, col: (R, string) -> Value): R -> int {
    (row: R) => SortKey(q.order, col(row, q.order.column))
  }

  /**
   * What running `q` on the rows of its table returns: exactly the rows
   * that pass every predicate, each once, ordered by the query's column.
   */
  function Select<R(!new)>(rows: seq<R>, q: Query, col: (R, string) -> Value): (r: seq<R>)
    ensures forall x :: x in r <==> x in rows && Satisfies(x, q.predicates, col)
    ensures |r| <= |rows|
    ensures multiset(r) == multiset(Filter(rows, Matching(q, col)))
    ensures forall i, j :: 0 <= i < j < |r| && col(r[i], q.order.column).Num? && col(r[j], q.order.column).Num? ==>
              if q.order.ascending then col(r[i], q.order.column).n <= col(r[j], q.order.column).n
              else col(r[i], q.order.column).n >= col(r[j], q.order.column).n
  {
    var kept := Filter(rows, Matching(q, col));
    SortByMembers(kept, KeyOf(q, col));
    var r := SortBy(kept, KeyOf(q, col));
    assert multiset(r) == multiset(kept);
    forall i, j | 0 <= i < j < |r| && col(r[i], q.order.column).Num? && col(r[j], q.order.column).Num?
      ensures if q.order.ascending then col(r[i], q.order.column).n <= col(r[j], q.order.column).n
              else col(r[i], q.order.column).n >= col(r[j], q.order.column).n
    {
      KeyOrder(q, col, r[i], r[j]);
    }
    r
  }

  /** Rows in sort-key order are in the query's column order, when both values are numbers. */
  lemma KeyOrder<R>(q: Query, col: (R, string) -> Value, x: R, y: R)
    requires KeyOf(q, col)(x) <= KeyOf(q, col)(y)
    requires col(x, q.order.column).Num? && col(y, q.order.column).Num?
    ensures if q.order.ascending then col(x, q.order.column).n <= col(y, q.order.column).n
            else col(x, q.order.column).n >= col(y, q.order.column).n
  {
  }

  /** Adding a predicate to a query keeps exactly the rows that also pass it. */
  lemma SatisfiesSnoc<R>(row: R, predicates: seq<Predicate>, p: Predicate, col: (R, string) -> Value)
    ensures Satisfies(row, predicates + [p], col) <==> Satisfies(row, predicates, col) && Holds(p, col(row, p.column))
  {
    var all := predicates + [p];
    assert all[|predicates|] == p;
    assert forall i :: 0 <= i < |predicates| ==> all[i] == predicates[i];
  }
}
