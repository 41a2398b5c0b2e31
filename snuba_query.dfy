/**
 * The boundary with the analytic engine: the descriptor that `snuba.query`
 * receives, and a literal reading of which events a descriptor selects.
 *
 * The engine itself is not part of this model. `Selects` is the reading the
 * descriptor is written for: an event is selected when its timestamp lies in
 * the time range, every filter column holds one of the listed values, and
 * every top-level condition holds, a nested list of conditions holding when
 * one of its members does.
 */
module SnubaQuery {
  import opened Wrappers

  /** A literal in a filter list or a condition. */
  datatype Value = Int(i: int) | Str(s: string) | Null

  /** The comparison operators the tag store uses: `=`, `!=`, `IN`, `IS NOT NULL`. */
  datatype Op = Eq | Neq | In | IsNotNull

  /** The third element of a condition triple: a literal, a list, or `None`. */
  datatype Operand = One(v: Value) | Many(vs: seq<Value>) | NoOperand

  /** A `[column, op, operand]` triple. */
  datatype Condition = Condition(column: string, op: Op, operand: Operand)

  /** An entry of the conditions list: a triple, or a nested list of triples read as OR. */
  datatype Clause = Single(c: Condition) | AnyOf(cs: seq<Condition>)

  /** An `[function, column, alias]` aggregation triple. */
  datatype Aggregation = Aggregation(fn: string, column: string, alias: string)

  /** An `orderby` string: `'-x'` is `OrderBy("x", true)`, `'x'` is `OrderBy("x", false)`. */
  datatype OrderBy = OrderBy(column: string, descending: bool)

  /** A `(start, end)` pair of timestamps, in seconds. */
  datatype TimeRange = TimeRange(start: int, end: int)

  /** The arguments of one `snuba.query` call. An omitted keyword argument is `None`. */
  datatype Query = Query(
    range: TimeRange,
    groupBy: seq<string>,
    conditions: Option<seq<Clause>>,
    filters: map<string, seq<Value>>,
    aggregations: seq<Aggregation>,
    limit: Option<int>,
    orderBy: Option<OrderBy>)

  /** The event timestamp: the column the engine restricts to the time range. */
  const TimestampColumn := "timestamp"

  /** One stored event, as a row of named columns. */
  type Event = map<string, Value>

  /** A named aggregate row that the caller reads nothing from. */
  type Row = map<string, Value>

  /** The value of a column of an event; `Null` when the event has no such column. */
  function Lookup(e: Event, column: string): Value {
    if column in e then e[column] else Null
  }

  predicate InRange(t: Value, r: TimeRange) {
    t.Int? && r.start <= t.i < r.end
  }

  /**
   * A condition triple, read as SQL reads it: a comparison with a missing
   * column (`Null`) does not hold, so `[col, '!=', '']` needs `col` present.
   */
  predicate ConditionHolds(c: Condition, e: Event) {
    var v := Lookup(e, c.column);
    match c.op
    case Eq => c.operand.One? && v == c.operand.v
    case Neq => c.operand.One? && v != Null && v != c.operand.v
    case In => c.operand.Many? && v in c.operand.vs
    case IsNotNull => v != Null
  }

  predicate ClauseHolds(cl: Clause, e: Event) {
    match cl
    case Single(c) => ConditionHolds(c, e)
    case AnyOf(cs) => exists c :: c in cs && ConditionHolds(c, e)
  }

  /** `None` as the conditions argument restricts nothing. */
  predicate ConditionsHold(cs: Option<seq<Clause>>, e: Event) {
    cs.None? || forall cl :: cl in cs.value ==> ClauseHolds(cl, e)
  }

  predicate MatchesFilters(filters: map<string, seq<Value>>, e: Event) {
    forall column :: column in filters ==> Lookup(e, column) in filters[column]
  }

  /** The events a descriptor asks the engine to aggregate over. */
  predicate Selects(q: Query, e: Event) {
    && InRange(Lookup(e, TimestampColumn), q.range)
    && MatchesFilters(q.filters, e)
    && ConditionsHold(q.conditions, e)
  }
}
