/**
 * `SnubaTagStorage`: the tag store answered by the analytic engine.
 *
 * Every operation builds one query descriptor from its arguments, hands it to
 * the engine, and maps the engine's answer to records or to an error. The
 * engine is a function parameter `engine: Query -> A` whose answer type `A`
 * is the shape the operation reads: a scalar, an optional aggregate row, a
 * list of (group-by key, row) pairs in the engine's order, or a dictionary.
 * The current time is the parameter `now`, in seconds.
 */
module SnubaBackend {
  import opened Wrappers
  import opened SnubaQuery
  import opened TagTypes

  /** `SEEN_COLUMN`: first and last seen are aggregated over the event timestamp. */
  const SeenColumn := TimestampColumn

  const DefaultDays := 90
  const SecondsPerDay := 86400

  /** Default `limit` of `__get_tag_keys`. */
  const DefaultTagKeysLimit := 1000
  /** Default `limit` of `get_top_group_tag_values`. */
  const DefaultTopValuesLimit := 3
  /** Default `limit` of the two user queries. */
  const DefaultUsersLimit := 100

  /** Label of the records that `get_release_tags` returns. */
  const ReleaseLabel := "release"
  /** Label of the records that `get_group_tag_values_for_users` returns. */
  const UserLabel := "sentry:user"

  // ---------------------------------------------------------------------------
  // The time window

  /** `get_time_range`: the `days` days that end at `now`. */
  function GetTimeRange(now: int, days: int := DefaultDays): (r: TimeRange)
    ensures r.end == now
    ensures forall t :: InRange(Int(t), r) <==> 0 < now - t <= days * SecondsPerDay
  {
    TimeRange(now - days * SecondsPerDay, now)
  }

  /** The event lies in the default window every operation queries. */
  predicate InWindow(e: Event, now: int) {
    InRange(Lookup(e, TimestampColumn), GetTimeRange(now))
  }

  // ---------------------------------------------------------------------------
  // Pieces of descriptors

  /** `'tags[{}]'.format(key)`: the column holding a tag's value. */
  function TagColumn(key: string): (c: string)
    ensures |c| == |key| + 6
    ensures c[5..|c| - 1] == key
  {
    "tags[" + key + "]"
  }

  /** Distinct tag keys are looked up in distinct columns. */
  lemma TagColumnInjective(a: string, b: string)
    requires TagColumn(a) == TagColumn(b)
    ensures a == b
  {
    assert a == TagColumn(a)[5..|a| + 5];
  }

  /** The filter value of an optional id: the id, or `None`. */
  function OptionalId(id: Option<int>): (v: Value)
    ensures v.Int? <==> id.Some?
    ensures id.Some? ==> v == Int(id.value)
    ensures id.None? ==> v == Null
  {
    if id.Some? then Int(id.value) else Null
  }

  /** A list of ids as filter values, in the same order. */
  function Ints(ids: seq<int>): (vs: seq<Value>)
    ensures |vs| == |ids|
    ensures forall i :: 0 <= i < |ids| ==> vs[i] == Int(ids[i])
    ensures forall v :: v in vs ==> v.Int? && v.i in ids
  {
    seq(|ids|, i requires 0 <= i < |ids| => Int(ids[i]))
  }

  /** A list of strings as condition values, in the same order. */
  function Strs(xs: seq<string>): (vs: seq<Value>)
    ensures |vs| == |xs|
    ensures forall i :: 0 <= i < |xs| ==> vs[i] == Str(xs[i])
    ensures forall v :: v in vs ==> v.Str? && v.s in xs
  {
    seq(|xs|, i requires 0 <= i < |xs| => Str(xs[i]))
  }

  /** The filters of every project/issue-scoped builder. */
  function ScopeFilters(projectId: int, groupId: Option<int>, environmentId: Option<int>): (f: map<string, seq<Value>>)
    ensures f.Keys == {"project_id", "environment"} + (if groupId.Some? then {"issue"} else {})
    ensures f["project_id"] == [Int(projectId)]
    ensures f["environment"] == [OptionalId(environmentId)]
    ensures "issue" in f <==> groupId.Some?
    ensures groupId.Some? ==> f["issue"] == [Int(groupId.value)]
  {
    var base := map["project_id" := [Int(projectId)], "environment" := [OptionalId(environmentId)]];
    if groupId.Some? then base["issue" := [Int(groupId.value)]] else base
  }

  /** The event belongs to the project and environment, and to the issue when one is given. */
  predicate InScope(e: Event, projectId: int, groupId: Option<int>, environmentId: Option<int>) {
    && Lookup(e, "project_id") == Int(projectId)
    && Lookup(e, "environment") == OptionalId(environmentId)
    && (groupId.Some? ==> Lookup(e, "issue") == Int(groupId.value))
  }

  /** The scope filters admit exactly the events in scope. */
  lemma ScopeFiltersMatch(projectId: int, groupId: Option<int>, environmentId: Option<int>, e: Event)
    ensures MatchesFilters(ScopeFilters(projectId, groupId, environmentId), e)
            <==> InScope(e, projectId, groupId, environmentId)
  {
    var f := ScopeFilters(projectId, groupId, environmentId);
    if MatchesFilters(f, e) {
      assert Lookup(e, "project_id") in f["project_id"];
      assert Lookup(e, "environment") in f["environment"];
      if groupId.Some? {
        assert Lookup(e, "issue") in f["issue"];
      }
    }
  }

  /** The filters of the builders scoped to a list of issues. */
  function IssuesFilters(projectId: int, groupIds: seq<int>, environmentId: Option<int>): (f: map<string, seq<Value>>)
    ensures f.Keys == {"project_id", "environment", "issue"}
    ensures f["project_id"] == [Int(projectId)] && f["environment"] == [OptionalId(environmentId)]
    ensures f["issue"] == Ints(groupIds)
  {
    map["project_id" := [Int(projectId)], "environment" := [OptionalId(environmentId)], "issue" := Ints(groupIds)]
  }

  /** The issue-list filters admit the events in scope whose issue is one of the list. */
  lemma IssuesFiltersMatch(projectId: int, groupIds: seq<int>, environmentId: Option<int>, e: Event)
    ensures MatchesFilters(IssuesFilters(projectId, groupIds, environmentId), e)
            <==> InScope(e, projectId, None, environmentId) && exists g :: g in groupIds && Lookup(e, "issue") == Int(g)
  {
    var f := IssuesFilters(projectId, groupIds, environmentId);
    if MatchesFilters(f, e) {
      assert Lookup(e, "project_id") in f["project_id"];
      assert Lookup(e, "environment") in f["environment"];
      assert Lookup(e, "issue") in f["issue"];
    }
    if exists g :: g in groupIds && Lookup(e, "issue") == Int(g) {
      var g :| g in groupIds && Lookup(e, "issue") == Int(g);
      var i :| 0 <= i < |groupIds| && groupIds[i] == g;
      assert f["issue"][i] == Int(g);
    }
  }

  /** The event has the tag, with a non-empty value. */
  predicate CarriesTag(e: Event, key: string) {
    Lookup(e, TagColumn(key)) !in {Null, Str("")}
  }

  /** `[tag, '!=', '']`: holds exactly on the events that carry the tag. */
  function HasTag(key: string): (cl: Clause)
    ensures forall e :: ClauseHolds(cl, e) <==> CarriesTag(e, key)
  {
    Single(Condition(TagColumn(key), Neq, One(Str(""))))
  }

  /** `[tag, '=', value]`: holds exactly on the events whose tag has that value. */
  function TagEquals(key: string, value: string): (c: Condition)
    ensures forall e :: ConditionHolds(c, e) <==> Lookup(e, TagColumn(key)) == Str(value)
  {
    Condition(TagColumn(key), Eq, One(Str(value)))
  }

  /**
   * count / min / max of the seen column: the count under the given alias,
   * `first_seen` the earliest and `last_seen` the latest timestamp.
   */
  function StatsAggregations(countAlias: string): (aggs: seq<Aggregation>)
    ensures |aggs| == 3
    ensures aggs[0].fn == "count()" && aggs[0].alias == countAlias
    ensures aggs[1].fn == "min" && aggs[1].column == TimestampColumn && aggs[1].alias == "first_seen"
    ensures aggs[2].fn == "max" && aggs[2].column == TimestampColumn && aggs[2].alias == "last_seen"
  {
    [ Aggregation("count()", "", countAlias),
      Aggregation("min", SeenColumn, "first_seen"),
      Aggregation("max", SeenColumn, "last_seen") ]
  }

  // ---------------------------------------------------------------------------
  // Record constructors, chosen once per call

  /** `TagKey`, or `GroupTagKey` with `group_id` bound. */
  function KeyCtor(groupId: Option<int>): (c: Ctor)
    ensures WellScoped(c) && c.groupId == groupId
    ensures c.kind == (if groupId.None? then TagKeyKind else GroupTagKeyKind)
  {
    if groupId.None? then Ctor(TagKeyKind, None) else Ctor(GroupTagKeyKind, groupId)
  }

  /** `TagValue`, or `GroupTagValue` with `group_id` bound. */
  function ValueCtor(groupId: Option<int>): (c: Ctor)
    ensures WellScoped(c) && c.groupId == groupId
    ensures c.kind == (if groupId.None? then TagValueKind else GroupTagValueKind)
  {
    if groupId.None? then Ctor(TagValueKind, None) else Ctor(GroupTagValueKind, groupId)
  }

  // ---------------------------------------------------------------------------
  // Key lookup: __get_tag_key and its wrappers

  /** The descriptor of `__get_tag_key`: distinct values of the tag, no group-by. */
  function TagKeyQuery(now: int, projectId: int, groupId: Option<int>, environmentId: Option<int>, key: string): (q: Query)
    ensures q.filters == ScopeFilters(projectId, groupId, environmentId)
    ensures q.groupBy == [] && q.limit.None? && q.orderBy.None?
    ensures q.aggregations == [Aggregation("uniq", TagColumn(key), "unique_values")]
  {
    Query(GetTimeRange(now), [], Some([HasTag(key)]),
          ScopeFilters(projectId, groupId, environmentId),
          [Aggregation("uniq", TagColumn(key), "unique_values")], None, None)
  }

  /** `__get_tag_key`: the engine's answer is the number of distinct values of the tag. */
  function TagKeyLookup(now: int, projectId: int, groupId: Option<int>, environmentId: Option<int>, key: string,
                        engine: Query -> int): (r: Result<TagRecord, TagStoreError>)
    ensures var n := engine(TagKeyQuery(now, projectId, groupId, environmentId, key));
      && (r.Failure? <==> n == 0)
      && (r.Failure? ==> r.error == if groupId.None? then TagKeyNotFound else GroupTagKeyNotFound)
      && (r.Success? ==> && r.value.key == key && r.value.attrs == KeyAttrs(n) && r.value.groupId == groupId
                         && r.value.kind == if groupId.None? then TagKeyKind else GroupTagKeyKind)
  {
    var n := engine(TagKeyQuery(now, projectId, groupId, environmentId, key));
    if n == 0 then
      Failure(if groupId.None? then TagKeyNotFound else GroupTagKeyNotFound)
    else
      Success(Apply(KeyCtor(groupId), key, KeyAttrs(n)))
  }

  /** `get_tag_key`: only visible keys are served. */
  function GetTagKey(now: int, projectId: int, environmentId: Option<int>, key: string, status: TagKeyStatus,
                     engine: Query -> int): (r: Result<TagRecord, TagStoreError>)
    requires status == Visible
    ensures var n := engine(TagKeyQuery(now, projectId, None, environmentId, key));
      && (n == 0 ==> r == Failure(TagKeyNotFound))
      && (n != 0 ==> r == Success(TagRecord(TagKeyKind, None, key, KeyAttrs(n))))
  {
    TagKeyLookup(now, projectId, None, environmentId, key, engine)
  }

  /** `get_group_tag_key`. */
  function GetGroupTagKey(now: int, projectId: int, groupId: int, environmentId: Option<int>, key: string,
                          engine: Query -> int): (r: Result<TagRecord, TagStoreError>)
    ensures var n := engine(TagKeyQuery(now, projectId, Some(groupId), environmentId, key));
      && (n == 0 ==> r == Failure(GroupTagKeyNotFound))
      && (n != 0 ==> r == Success(TagRecord(GroupTagKeyKind, Some(groupId), key, KeyAttrs(n))))
  {
    TagKeyLookup(now, projectId, Some(groupId), environmentId, key, engine)
  }

  // ---------------------------------------------------------------------------
  // Key listing: __get_tag_keys and its wrappers

  /** The descriptor of `__get_tag_keys`: distinct values per tag key, most varied first. */
  function TagKeysQuery(now: int, projectId: int, groupId: Option<int>, environmentId: Option<int>, limit: Option<int>): (q: Query)
    ensures q.filters == ScopeFilters(projectId, groupId, environmentId)
    ensures q.groupBy == ["tags_key"] && q.conditions == Some([])
    ensures q.aggregations == [Aggregation("uniq", "tags_value", "values_seen")]
    ensures q.limit == limit && q.orderBy == Some(OrderBy("values_seen", true))
  {
    Query(GetTimeRange(now), ["tags_key"], Some([]),
          ScopeFilters(projectId, groupId, environmentId),
          [Aggregation("uniq", "tags_value", "values_seen")], limit, Some(OrderBy("values_seen", true)))
  }

  /** The `values_seen` of a key record; 0 for any other record. */
  function ValuesSeenOf(r: TagRecord): int {
    if r.attrs.KeyAttrs? then r.attrs.valuesSeen else 0
  }

  /** One record per (key, values_seen) row whose count is non-zero, in row order. */
  function KeysFromRows(c: Ctor, rows: seq<(string, int)>): (r: seq<TagRecord>)
    ensures |r| <= |rows|
    ensures forall i :: 0 <= i < |r| ==>
      && r[i].kind == c.kind && r[i].groupId == c.groupId && r[i].attrs.KeyAttrs?
      && r[i].attrs.valuesSeen != 0 && (r[i].key, r[i].attrs.valuesSeen) in rows
  {
    if rows == [] then []
    else
      var rest := KeysFromRows(c, rows[1..]);
      if rows[0].1 != 0 then [Apply(c, rows[0].0, KeyAttrs(rows[0].1))] + rest else rest
  }

  /** Every row with a non-zero count yields a record. */
  lemma {:induction false} KeysFromRowsComplete(c: Ctor, rows: seq<(string, int)>, key: string, n: int)
    requires (key, n) in rows && n != 0
    ensures Apply(c, key, KeyAttrs(n)) in KeysFromRows(c, rows)
  {
    if rows[0] != (key, n) {
      KeysFromRowsComplete(c, rows[1..], key, n);
    }
  }

  /** Rows are kept or dropped one at a time, in order. */
  lemma {:induction false} KeysFromRowsAppend(c: Ctor, a: seq<(string, int)>, b: seq<(string, int)>)
    ensures KeysFromRows(c, a + b) == KeysFromRows(c, a) + KeysFromRows(c, b)
  {
    if a == [] {
      assert a + b == b;
    } else {
      assert (a + b)[1..] == a[1..] + b;
      KeysFromRowsAppend(c, a[1..], b);
    }
  }

  predicate CountsDescending(rows: seq<(string, int)>) {
    forall i, j :: 0 <= i < j < |rows| ==> rows[i].1 >= rows[j].1
  }

  predicate KeysDescending(r: seq<TagRecord>) {
    forall i, j :: 0 <= i < j < |r| ==> ValuesSeenOf(r[i]) >= ValuesSeenOf(r[j])
  }

  /** When the engine honours `orderby='-values_seen'`, so does the listing. */
  lemma {:induction false} KeysFromRowsDescending(c: Ctor, rows: seq<(string, int)>)
    requires CountsDescending(rows)
    ensures KeysDescending(KeysFromRows(c, rows))
  {
    if rows != [] {
      var rest := KeysFromRows(c, rows[1..]);
      assert CountsDescending(rows[1..]) by {
        forall i, j | 0 <= i < j < |rows[1..]| ensures rows[1..][i].1 >= rows[1..][j].1 {
          assert rows[1..][i] == rows[i + 1] && rows[1..][j] == rows[j + 1];
        }
      }
      KeysFromRowsDescending(c, rows[1..]);
      if rows[0].1 != 0 {
        var head := Apply(c, rows[0].0, KeyAttrs(rows[0].1));
        var r := [head] + rest;
        forall j | 0 <= j < |rest| ensures ValuesSeenOf(head) >= ValuesSeenOf(rest[j]) {
          var k :| 0 <= k < |rows[1..]| && rows[1..][k] == (rest[j].key, rest[j].attrs.valuesSeen);
          assert rows[k + 1] == rows[1..][k];
        }
        forall i, j | 0 <= i < j < |r| ensures ValuesSeenOf(r[i]) >= ValuesSeenOf(r[j]) {
          if i == 0 {
            assert r[j] == rest[j - 1];
          } else {
            assert r[i] == rest[i - 1] && r[j] == rest[j - 1];
          }
        }
      }
    }
  }

  /** `__get_tag_keys`: the engine's answer is (key, values_seen) rows. */
  function TagKeysLookup(now: int, projectId: int, groupId: Option<int>, environmentId: Option<int>,
                         limit: Option<int> := Some(DefaultTagKeysLimit),
                         engine: Query -> seq<(string, int)>): (r: seq<TagRecord>)
    ensures var rows := engine(TagKeysQuery(now, projectId, groupId, environmentId, limit));
      && (forall i :: 0 <= i < |r| ==>
            && r[i].groupId == groupId && r[i].kind == (if groupId.None? then TagKeyKind else GroupTagKeyKind)
            && r[i].attrs.KeyAttrs? && r[i].attrs.valuesSeen != 0 && (r[i].key, r[i].attrs.valuesSeen) in rows)
      && (forall k, n :: (k, n) in rows && n != 0 ==> TagRecord(KeyCtor(groupId).kind, groupId, k, KeyAttrs(n)) in r)
      && (CountsDescending(rows) ==> KeysDescending(r))
  {
    var rows := engine(TagKeysQuery(now, projectId, groupId, environmentId, limit));
    var r := KeysFromRows(KeyCtor(groupId), rows);
    assert forall k, n :: (k, n) in rows && n != 0 ==> TagRecord(KeyCtor(groupId).kind, groupId, k, KeyAttrs(n)) in r by {
      forall k, n | (k, n) in rows && n != 0
        ensures TagRecord(KeyCtor(groupId).kind, groupId, k, KeyAttrs(n)) in r
      {
        KeysFromRowsComplete(KeyCtor(groupId), rows, k, n);
      }
    }
    if CountsDescending(rows) then
      KeysFromRowsDescending(KeyCtor(groupId), rows);
      r
    else
      r
  }

  /** `get_tag_keys`: at most the default number of keys, project-wide records. */
  function GetTagKeys(now: int, projectId: int, environmentId: Option<int>, status: TagKeyStatus,
                      engine: Query -> seq<(string, int)>): (r: seq<TagRecord>)
    requires status == Visible
    ensures var rows := engine(TagKeysQuery(now, projectId, None, environmentId, Some(1000)));
      && (forall i :: 0 <= i < |r| ==>
            && r[i].kind == TagKeyKind && r[i].groupId.None?
            && r[i].attrs.KeyAttrs? && r[i].attrs.valuesSeen != 0 && (r[i].key, r[i].attrs.valuesSeen) in rows)
      && (forall k, n :: (k, n) in rows && n != 0 ==> TagRecord(TagKeyKind, None, k, KeyAttrs(n)) in r)
      && (CountsDescending(rows) ==> KeysDescending(r))
  {
    TagKeysLookup(now, projectId, None, environmentId, engine := engine)
  }

  /** `get_group_tag_keys`: the caller's `limit`, whose default `None` lifts the 1000 cap. */
  function GetGroupTagKeys(now: int, projectId: int, groupId: int, environmentId: Option<int>, limit: Option<int> := None,
                           engine: Query -> seq<(string, int)>): (r: seq<TagRecord>)
    ensures var rows := engine(TagKeysQuery(now, projectId, Some(groupId), environmentId, limit));
      && (forall i :: 0 <= i < |r| ==>
            && r[i].kind == GroupTagKeyKind && r[i].groupId == Some(groupId)
            && r[i].attrs.KeyAttrs? && r[i].attrs.valuesSeen != 0 && (r[i].key, r[i].attrs.valuesSeen) in rows)
      && (forall k, n :: (k, n) in rows && n != 0 ==> TagRecord(GroupTagKeyKind, Some(groupId), k, KeyAttrs(n)) in r)
      && (CountsDescending(rows) ==> KeysDescending(r))
  {
    TagKeysLookup(now, projectId, Some(groupId), environmentId, limit, engine)
  }

  // ---------------------------------------------------------------------------
  // Value lookup: __get_tag_value and its wrappers

  /** The descriptor of `__get_tag_value`: count, first and last seen of one tag value. */
  function TagValueQuery(now: int, projectId: int, groupId: Option<int>, environmentId: Option<int>,
                         key: string, value: string): (q: Query)
    ensures q.filters == ScopeFilters(projectId, groupId, environmentId)
    ensures q.groupBy == [] && q.limit.None? && q.orderBy.None?
    ensures q.aggregations == StatsAggregations("times_seen")
  {
    Query(GetTimeRange(now), [], Some([Single(TagEquals(key, value))]),
          ScopeFilters(projectId, groupId, environmentId), StatsAggregations("times_seen"), None, None)
  }

  /**
   * `__get_tag_value`: the engine's answer is the aggregate row, or `None`
   * for a falsy answer. A present row whose count is 0 still yields a record.
   * The record is built with the key classes (`TagKey`, `GroupTagKey`).
   */
  function TagValueLookup(now: int, projectId: int, groupId: Option<int>, environmentId: Option<int>,
                          key: string, value: string, engine: Query -> Option<Stats>): (r: Result<TagRecord, TagStoreError>)
    ensures var data := engine(TagValueQuery(now, projectId, groupId, environmentId, key, value));
      && (r.Failure? <==> data.None?)
      && (r.Failure? ==> r.error == if groupId.None? then TagValueNotFound else GroupTagValueNotFound)
      && (r.Success? ==> && r.value.key == key && r.value.attrs == ValueAttrs(value, data.value)
                         && r.value.groupId == groupId
                         && r.value.kind == if groupId.None? then TagKeyKind else GroupTagKeyKind)
  {
    var data := engine(TagValueQuery(now, projectId, groupId, environmentId, key, value));
    if data.None? then
      Failure(if groupId.None? then TagValueNotFound else GroupTagValueNotFound)
    else
      Success(Apply(KeyCtor(groupId), key, ValueAttrs(value, data.value)))
  }

  /** `get_tag_value`. */
  function GetTagValue(now: int, projectId: int, environmentId: Option<int>, key: string, value: string,
                       engine: Query -> Option<Stats>): (r: Result<TagRecord, TagStoreError>)
    ensures var data := engine(TagValueQuery(now, projectId, None, environmentId, key, value));
      && (data.None? ==> r == Failure(TagValueNotFound))
      && (data.Some? ==> r == Success(TagRecord(TagKeyKind, None, key, ValueAttrs(value, data.value))))
  {
    TagValueLookup(now, projectId, None, environmentId, key, value, engine)
  }

  /** `get_group_tag_value`. */
  function GetGroupTagValue(now: int, projectId: int, groupId: int, environmentId: Option<int>, key: string, value: string,
                            engine: Query -> Option<Stats>): (r: Result<TagRecord, TagStoreError>)
    ensures var data := engine(TagValueQuery(now, projectId, Some(groupId), environmentId, key, value));
      && (data.None? ==> r == Failure(GroupTagValueNotFound))
      && (data.Some? ==> r == Success(TagRecord(GroupTagKeyKind, Some(groupId), key, ValueAttrs(value, data.value))))
  {
    TagValueLookup(now, projectId, Some(groupId), environmentId, key, value, engine)
  }

  // ---------------------------------------------------------------------------
  // Value listing: __get_tag_values, its wrappers, and the top values

  /** The descriptor of `__get_tag_values`: count, first and last seen per value of the tag. */
  function TagValuesQuery(now: int, projectId: int, groupId: Option<int>, environmentId: Option<int>, key: string): (q: Query)
    ensures q.filters == ScopeFilters(projectId, groupId, environmentId)
    ensures q.groupBy == [TagColumn(key)] && q.limit.None? && q.orderBy.None?
    ensures q.aggregations == StatsAggregations("times_seen")
  {
    Query(GetTimeRange(now), [TagColumn(key)], Some([HasTag(key)]),
          ScopeFilters(projectId, groupId, environmentId), StatsAggregations("times_seen"), None, None)
  }

  /** One record per (value, aggregates) row, in row order; no row is dropped. */
  function ValuesFromRows(c: Ctor, key: string, rows: seq<(string, Stats)>): (r: seq<TagRecord>)
    ensures |r| == |rows|
    ensures forall i :: 0 <= i < |r| ==>
      && r[i].kind == c.kind && r[i].groupId == c.groupId && r[i].key == key
      && r[i].attrs == ValueAttrs(rows[i].0, rows[i].1)
  {
    seq(|rows|, i requires 0 <= i < |rows| => Apply(c, key, ValueAttrs(rows[i].0, rows[i].1)))
  }

  predicate TimesSeenDescending(rows: seq<(string, Stats)>) {
    forall i, j :: 0 <= i < j < |rows| ==> rows[i].1.timesSeen >= rows[j].1.timesSeen
  }

  /** `__get_tag_values`: the engine's answer is (value, aggregates) rows. */
  function TagValuesLookup(now: int, projectId: int, groupId: Option<int>, environmentId: Option<int>, key: string,
                           engine: Query -> seq<(string, Stats)>): (r: seq<TagRecord>)
    ensures var rows := engine(TagValuesQuery(now, projectId, groupId, environmentId, key));
      && |r| == |rows|
      && forall i :: 0 <= i < |r| ==>
           && r[i].groupId == groupId && r[i].kind == (if groupId.None? then TagValueKind else GroupTagValueKind)
           && r[i].key == key && r[i].attrs == ValueAttrs(rows[i].0, rows[i].1)
  {
    ValuesFromRows(ValueCtor(groupId), key, engine(TagValuesQuery(now, projectId, groupId, environmentId, key)))
  }

  /** `get_tag_values`. */
  function GetTagValues(now: int, projectId: int, environmentId: Option<int>, key: string,
                        engine: Query -> seq<(string, Stats)>): (r: seq<TagRecord>)
    ensures var rows := engine(TagValuesQuery(now, projectId, None, environmentId, key));
      && |r| == |rows|
      && forall i :: 0 <= i < |r| ==> r[i] == TagRecord(TagValueKind, None, key, ValueAttrs(rows[i].0, rows[i].1))
  {
    TagValuesLookup(now, projectId, None, environmentId, key, engine)
  }

  /** `get_group_tag_values`. */
  function GetGroupTagValues(now: int, projectId: int, groupId: int, environmentId: Option<int>, key: string,
                             engine: Query -> seq<(string, Stats)>): (r: seq<TagRecord>)
    ensures var rows := engine(TagValuesQuery(now, projectId, Some(groupId), environmentId, key));
      && |r| == |rows|
      && forall i :: 0 <= i < |r| ==>
           r[i] == TagRecord(GroupTagValueKind, Some(groupId), key, ValueAttrs(rows[i].0, rows[i].1))
  {
    TagValuesLookup(now, projectId, Some(groupId), environmentId, key, engine)
  }

  /** The descriptor of `get_top_group_tag_values`: the most frequent values first, at most `limit`. */
  function TopGroupTagValuesQuery(now: int, projectId: int, groupId: int, environmentId: Option<int>, key: string,
                                  limit: int): (q: Query)
    ensures q.filters == ScopeFilters(projectId, Some(groupId), environmentId)
    ensures q.groupBy == [TagColumn(key)] && q.aggregations == StatsAggregations("times_seen")
    ensures q.limit == Some(limit) && q.orderBy == Some(OrderBy("times_seen", true))
  {
    Query(GetTimeRange(now), [TagColumn(key)], Some([HasTag(key)]),
          ScopeFilters(projectId, Some(groupId), environmentId), StatsAggregations("times_seen"),
          Some(limit), Some(OrderBy("times_seen", true)))
  }

  /** `get_top_group_tag_values`. */
  function GetTopGroupTagValues(now: int, projectId: int, groupId: int, environmentId: Option<int>, key: string,
                                limit: int := DefaultTopValuesLimit, engine: Query -> seq<(string, Stats)>): (r: seq<TagRecord>)
    ensures var rows := engine(TopGroupTagValuesQuery(now, projectId, groupId, environmentId, key, limit));
      && |r| == |rows|
      && (forall i :: 0 <= i < |r| ==>
            && r[i].kind == GroupTagValueKind && r[i].groupId == Some(groupId) && r[i].key == key
            && r[i].attrs == ValueAttrs(rows[i].0, rows[i].1))
      && (TimesSeenDescending(rows) ==>
            forall i, j :: 0 <= i < j < |r| ==> r[i].attrs.stats.timesSeen >= r[j].attrs.stats.timesSeen)
  {
    ValuesFromRows(Ctor(GroupTagValueKind, Some(groupId)), key,
                   engine(TopGroupTagValuesQuery(now, projectId, groupId, environmentId, key, limit)))
  }

  // ---------------------------------------------------------------------------
  // One tag value across several issues

  /** The descriptor of `get_group_list_tag_value`: one tag value, per issue of a list. */
  function GroupListTagValueQuery(now: int, projectId: int, groupIds: seq<int>, environmentId: Option<int>,
                                  key: string, value: string): (q: Query)
    ensures q.filters == IssuesFilters(projectId, groupIds, environmentId)
    ensures q.groupBy == ["issue"] && q.aggregations == StatsAggregations("times_seen")
    ensures q.limit.None? && q.orderBy.None?
  {
    Query(GetTimeRange(now), ["issue"], Some([Single(TagEquals(key, value))]),
          IssuesFilters(projectId, groupIds, environmentId), StatsAggregations("times_seen"), None, None)
  }

  /** `get_group_list_tag_value`: the engine's answer is a dictionary from issue to aggregates. */
  function GetGroupListTagValue(now: int, projectId: int, groupIds: seq<int>, environmentId: Option<int>,
                                key: string, value: string, engine: Query -> map<int, Stats>): (r: map<int, TagRecord>)
    ensures var result := engine(GroupListTagValueQuery(now, projectId, groupIds, environmentId, key, value));
      && r.Keys == result.Keys
      && forall issue :: issue in r ==>
           && r[issue].kind == GroupTagValueKind && r[issue].groupId == Some(issue)
           && r[issue].key == key && r[issue].attrs == ValueAttrs(value, result[issue])
  {
    var result := engine(GroupListTagValueQuery(now, projectId, groupIds, environmentId, key, value));
    map issue | issue in result :: TagRecord(GroupTagValueKind, Some(issue), key, ValueAttrs(value, result[issue]))
  }

  // ---------------------------------------------------------------------------
  // Counting the values of a tag on one issue

  /** The descriptor of `get_group_tag_value_count`: the number of the issue's events that carry the tag. */
  function GroupTagValueCountQuery(now: int, projectId: int, groupId: int, environmentId: Option<int>, key: string): (q: Query)
    ensures q.filters == ScopeFilters(projectId, Some(groupId), environmentId)
    ensures q.groupBy == [] && q.aggregations == [Aggregation("count()", "", "count")]
    ensures q.limit.None? && q.orderBy.None?
  {
    Query(GetTimeRange(now), [], Some([HasTag(key)]),
          ScopeFilters(projectId, Some(groupId), environmentId), [Aggregation("count()", "", "count")], None, None)
  }

  /** `get_group_tag_value_count`: the engine's scalar, returned as it is. */
  function GetGroupTagValueCount(now: int, projectId: int, groupId: int, environmentId: Option<int>, key: string,
                                 engine: Query -> int): (r: int)
    ensures r == engine(GroupTagValueCountQuery(now, projectId, groupId, environmentId, key))
  {
    engine(GroupTagValueCountQuery(now, projectId, groupId, environmentId, key))
  }

  // ---------------------------------------------------------------------------
  // First and last release

  /** The descriptor of `get_release`: the release seen first (`min`, ascending) or last (`max`, descending). */
  function ReleaseQuery(now: int, projectId: int, groupId: Option<int>, first: bool): (q: Query)
    ensures q.filters.Keys == {"project_id"} + (if groupId.Some? then {"issue"} else {})
    ensures q.filters["project_id"] == [Int(projectId)]
    ensures ("issue" in q.filters <==> groupId.Some?) && (groupId.Some? ==> q.filters["issue"] == [Int(groupId.value)])
    ensures q.groupBy == ["release"] && q.limit == Some(1)
    ensures q.aggregations == [Aggregation(if first then "min" else "max", SeenColumn, "seen")]
    ensures q.orderBy == Some(OrderBy("seen", !first))
  {
    var base := map["project_id" := [Int(projectId)]];
    var filters := if groupId.Some? then base["issue" := [Int(groupId.value)]] else base;
    Query(GetTimeRange(now), ["release"],
          Some([Single(Condition("release", IsNotNull, NoOperand))]), filters,
          [Aggregation(if first then "min" else "max", SeenColumn, "seen")],
          Some(1), Some(OrderBy("seen", !first)))
  }

  /** `get_release`: the engine's answer is (release, seen) rows; the first release key, or `None`. */
  function GetRelease(now: int, projectId: int, groupId: Option<int>, first: bool,
                      engine: Query -> seq<(string, int)>): (r: Option<string>)
    ensures var rows := engine(ReleaseQuery(now, projectId, groupId, first));
      && (r.None? <==> rows == [])
      && (r.Some? ==> r.value == rows[0].0)
  {
    var rows := engine(ReleaseQuery(now, projectId, groupId, first));
    if rows == [] then None else Some(rows[0].0)
  }

  /** `get_first_release`: the earliest-seen release. */
  function GetFirstRelease(now: int, projectId: int, groupId: Option<int>, engine: Query -> seq<(string, int)>): (r: Option<string>)
    ensures var rows := engine(ReleaseQuery(now, projectId, groupId, true));
      && (r.None? <==> rows == [])
      && (r.Some? ==> r.value == rows[0].0)
  {
    GetRelease(now, projectId, groupId, true, engine)
  }

  /** `get_last_release`: the latest-seen release. */
  function GetLastRelease(now: int, projectId: int, groupId: Option<int>, engine: Query -> seq<(string, int)>): (r: Option<string>)
    ensures var rows := engine(ReleaseQuery(now, projectId, groupId, false));
      && (r.None? <==> rows == [])
      && (r.Some? ==> r.value == rows[0].0)
  {
    GetRelease(now, projectId, groupId, false, engine)
  }

  // ---------------------------------------------------------------------------
  // Labelled records: release statistics

  /** One labelled record per (name, aggregates) row, in row order. */
  function WrapRows(fixedKey: string, rows: seq<(string, Stats)>): (r: seq<ObjectWrapper>)
    ensures |r| == |rows|
    ensures forall i :: 0 <= i < |r| ==> r[i].id == 0 && Unwrap(r[i]) == Labelled(fixedKey, rows[i].0, rows[i].1)
  {
    seq(|rows|, i requires 0 <= i < |rows| => Wrap(Labelled(fixedKey, rows[i].0, rows[i].1)))
  }

  /** The descriptor of `get_release_tags`: count, first and last seen per release version. */
  function ReleaseTagsQuery(now: int, projectIds: seq<int>, environmentId: Option<int>, versions: seq<string>): (q: Query)
    ensures q.filters == map["project_id" := Ints(projectIds), "environment" := [OptionalId(environmentId)]]
    ensures q.groupBy == ["release"] && q.aggregations == StatsAggregations("count")
    ensures q.limit.None? && q.orderBy.None?
  {
    var filters := map["project_id" := Ints(projectIds), "environment" := [OptionalId(environmentId)]];
    Query(GetTimeRange(now), ["release"],
          Some([Single(Condition("release", In, Many(Strs(versions))))]), filters,
          StatsAggregations("count"), None, None)
  }

  /** `get_release_tags`: the engine's answer is (version, aggregates) rows. */
  function GetReleaseTags(now: int, projectIds: seq<int>, environmentId: Option<int>, versions: seq<string>,
                          engine: Query -> seq<(string, Stats)>): (r: seq<ObjectWrapper>)
    ensures var rows := engine(ReleaseTagsQuery(now, projectIds, environmentId, versions));
      && |r| == |rows|
      && forall i :: 0 <= i < |r| ==> r[i].id == 0 && Unwrap(r[i]) == Labelled(ReleaseLabel, rows[i].0, rows[i].1)
  {
    WrapRows(ReleaseLabel, engine(ReleaseTagsQuery(now, projectIds, environmentId, versions)))
  }

  // ---------------------------------------------------------------------------
  // Event ids matching a set of tags

  /** The group-by keys of an answer, in its order. */
  function Keys<K, V>(rows: seq<(K, V)>): (r: seq<K>)
    ensures |r| == |rows|
    ensures forall i :: 0 <= i < |r| ==> r[i] == rows[i].0
  {
    seq(|rows|, i requires 0 <= i < |rows| => rows[i].0)
  }

  /** One `[tag, '=', value]` triple per (tag, value) pair, in order. */
  function TagEqualities(tags: seq<(string, string)>): (cs: seq<Condition>)
    ensures |cs| == |tags|
    ensures forall i :: 0 <= i < |tags| ==> cs[i] == TagEquals(tags[i].0, tags[i].1)
  {
    seq(|tags|, i requires 0 <= i < |tags| => TagEquals(tags[i].0, tags[i].1))
  }

  /** The OR-group of the tag pairs holds exactly when the event carries one of the pairs. */
  lemma TagEqualitiesMatch(tags: seq<(string, string)>, e: Event)
    ensures ClauseHolds(AnyOf(TagEqualities(tags)), e) <==>
      exists i :: 0 <= i < |tags| && Lookup(e, TagColumn(tags[i].0)) == Str(tags[i].1)
  {
    var cs := TagEqualities(tags);
    if ClauseHolds(AnyOf(cs), e) {
      var c :| c in cs && ConditionHolds(c, e);
      var i :| 0 <= i < |cs| && cs[i] == c;
      assert Lookup(e, TagColumn(tags[i].0)) == Str(tags[i].1);
    }
    if exists i :: 0 <= i < |tags| && Lookup(e, TagColumn(tags[i].0)) == Str(tags[i].1) {
      var i :| 0 <= i < |tags| && Lookup(e, TagColumn(tags[i].0)) == Str(tags[i].1);
      assert cs[i] in cs && ConditionHolds(cs[i], e);
    }
  }

  /** The descriptor of `get_group_event_ids`; the issue id it is given plays no part. */
  function GroupEventIdsQuery(now: int, projectId: int, groupId: Option<int>, environmentId: Option<int>,
                              tags: seq<(string, string)>): (q: Query)
    ensures q.filters == ScopeFilters(projectId, None, environmentId)
    ensures q.groupBy == ["event_id"] && q.aggregations == [] && q.limit.None? && q.orderBy.None?
  {
    Query(GetTimeRange(now), ["event_id"], Some([AnyOf(TagEqualities(tags))]),
          ScopeFilters(projectId, None, environmentId), [], None, None)
  }

  /** `get_group_event_ids`: the keys of the engine's answer. */
  function GetGroupEventIds(now: int, projectId: int, groupId: Option<int>, environmentId: Option<int>,
                            tags: seq<(string, string)>, engine: Query -> seq<(string, Row)>): (r: seq<string>)
    ensures var rows := engine(GroupEventIdsQuery(now, projectId, groupId, environmentId, tags));
      |r| == |rows| && forall i :: 0 <= i < |r| ==> r[i] == rows[i].0
  {
    Keys(engine(GroupEventIdsQuery(now, projectId, groupId, environmentId, tags)))
  }

  /** The issue id passed to `get_group_event_ids` does not change its answer. */
  lemma GroupEventIdsIgnoreGroup(now: int, projectId: int, g1: Option<int>, g2: Option<int>, environmentId: Option<int>,
                                 tags: seq<(string, string)>, engine: Query -> seq<(string, Row)>)
    ensures GetGroupEventIds(now, projectId, g1, environmentId, tags, engine)
         == GetGroupEventIds(now, projectId, g2, environmentId, tags, engine)
  {
  }

  // ---------------------------------------------------------------------------
  // The event-user OR-group

  /** The identity fields of an event user, in the order the OR-group lists them. */
  datatype UserField = UserId | Email | Username | IpAddress

  function FieldColumn(f: UserField): string {
    match f
    case UserId => "user_id"
    case Email => "email"
    case Username => "username"
    case IpAddress => "ip_address"
  }

  function FieldOf(u: EventUser, f: UserField): string {
    match f
    case UserId => u.ident
    case Email => u.email
    case Username => u.username
    case IpAddress => u.ipAddress
  }

  /** The position of a column in the OR-group's fixed order; 4 for any other column. */
  function ColumnRank(column: string): nat {
    if column == "user_id" then 0
    else if column == "email" then 1
    else if column == "username" then 2
    else if column == "ip_address" then 3
    else 4
  }

  /** `[eu.<field> for eu in event_users if eu.<field>]`. */
  function FieldValues(users: seq<EventUser>, f: UserField): (vs: seq<Value>)
    ensures |vs| <= |users|
    ensures forall v :: v in vs ==> v.Str? && v.s != ""
  {
    if users == [] then []
    else
      var rest := FieldValues(users[1..], f);
      if FieldOf(users[0], f) != "" then [Str(FieldOf(users[0], f))] + rest else rest
  }

  /** A value is listed exactly when it is non-empty and some user has it in that field. */
  lemma {:induction false} FieldValuesMembers(users: seq<EventUser>, f: UserField, x: string)
    ensures Str(x) in FieldValues(users, f) <==> x != "" && exists u :: u in users && FieldOf(u, f) == x
  {
    if users != [] {
      FieldValuesMembers(users[1..], f, x);
      if exists u :: u in users[1..] && FieldOf(u, f) == x {
        var u :| u in users[1..] && FieldOf(u, f) == x;
        assert u in users;
      }
      if exists u :: u in users && FieldOf(u, f) == x {
        var u :| u in users && FieldOf(u, f) == x;
        if u != users[0] {
          var k :| 0 <= k < |users| && users[k] == u;
          assert users[1..][k - 1] == u;
        }
      }
    }
  }

  /** Users are read one at a time, in input order. */
  lemma {:induction false} FieldValuesAppend(a: seq<EventUser>, b: seq<EventUser>, f: UserField)
    ensures FieldValues(a + b, f) == FieldValues(a, f) + FieldValues(b, f)
  {
    if a == [] {
      assert a + b == b;
    } else {
      assert (a + b)[1..] == a[1..] + b;
      FieldValuesAppend(a[1..], b, f);
    }
  }

  /** Some user has a non-empty value in this field. */
  predicate AnyUserHas(users: seq<EventUser>, f: UserField) {
    exists u :: u in users && FieldOf(u, f) != ""
  }

  /** A field's list is empty exactly when no user has that field set. */
  lemma FieldValuesEmpty(users: seq<EventUser>, f: UserField)
    ensures FieldValues(users, f) == [] <==> !AnyUserHas(users, f)
  {
    var vs := FieldValues(users, f);
    if vs != [] {
      assert vs[0] in vs;
      FieldValuesMembers(users, f, vs[0].s);
    }
    if AnyUserHas(users, f) {
      var u :| u in users && FieldOf(u, f) != "";
      FieldValuesMembers(users, f, FieldOf(u, f));
    }
  }

  /** `(<column>, 'IN', [...])` for one identity field: its column, and the users' non-empty values of it. */
  function InClause(users: seq<EventUser>, f: UserField): (c: Condition)
    ensures c.column == FieldColumn(f) && c.op == In && c.operand.Many?
    ensures forall v :: v in c.operand.vs ==> v.Str? && v.s != ""
  {
    Condition(FieldColumn(f), In, Many(FieldValues(users, f)))
  }

  /** A field's clause holds exactly when the event's column has a non-empty value of that field of some user. */
  lemma InClauseMatches(users: seq<EventUser>, f: UserField, e: Event)
    ensures ConditionHolds(InClause(users, f), e) <==>
      exists u :: u in users && FieldOf(u, f) != "" && Lookup(e, FieldColumn(f)) == Str(FieldOf(u, f))
  {
    var v := Lookup(e, FieldColumn(f));
    if ConditionHolds(InClause(users, f), e) {
      assert v in FieldValues(users, f);
      FieldValuesMembers(users, f, v.s);
    }
    if exists u :: u in users && FieldOf(u, f) != "" && v == Str(FieldOf(u, f)) {
      var u :| u in users && FieldOf(u, f) != "" && v == Str(FieldOf(u, f));
      FieldValuesMembers(users, f, FieldOf(u, f));
    }
  }

  /** `[cond for cond in candidates if cond[2] != []]`. */
  function NonEmptyIns(cands: seq<Condition>): (r: seq<Condition>)
    ensures |r| <= |cands|
    ensures forall c :: c in r <==> c in cands && c.operand != Many([])
  {
    if cands == [] then []
    else
      var rest := NonEmptyIns(cands[1..]);
      if cands[0].operand != Many([]) then [cands[0]] + rest else rest
  }

  predicate RanksIncreasing(cs: seq<Condition>) {
    forall i, j :: 0 <= i < j < |cs| ==> ColumnRank(cs[i].column) < ColumnRank(cs[j].column)
  }

  predicate RanksAbove(cs: seq<Condition>, rank: nat) {
    forall c :: c in cs ==> rank < ColumnRank(c.column)
  }

  lemma RanksIncreasingTail(cs: seq<Condition>)
    requires cs != [] && RanksIncreasing(cs)
    ensures RanksIncreasing(cs[1..]) && RanksAbove(cs[1..], ColumnRank(cs[0].column))
  {
    var tail := cs[1..];
    forall i, j | 0 <= i < j < |tail| ensures ColumnRank(tail[i].column) < ColumnRank(tail[j].column) {
      assert tail[i] == cs[i + 1] && tail[j] == cs[j + 1];
    }
    forall c | c in tail ensures ColumnRank(cs[0].column) < ColumnRank(c.column) {
      var k :| 0 <= k < |tail| && tail[k] == c;
      assert cs[k + 1] == c;
    }
  }

  lemma RanksIncreasingCons(c: Condition, cs: seq<Condition>)
    requires RanksIncreasing(cs) && RanksAbove(cs, ColumnRank(c.column))
    ensures RanksIncreasing([c] + cs)
  {
    var r := [c] + cs;
    forall i, j | 0 <= i < j < |r| ensures ColumnRank(r[i].column) < ColumnRank(r[j].column) {
      assert r[j] == cs[j - 1] && r[j] in cs;
      if i > 0 {
        assert r[i] == cs[i - 1];
      }
    }
  }

  /** Dropping clauses keeps the order of the ones that remain. */
  lemma {:induction false} NonEmptyInsOrdered(cands: seq<Condition>)
    requires RanksIncreasing(cands)
    ensures RanksIncreasing(NonEmptyIns(cands))
  {
    if cands != [] {
      RanksIncreasingTail(cands);
      NonEmptyInsOrdered(cands[1..]);
      var rest := NonEmptyIns(cands[1..]);
      if cands[0].operand != Many([]) {
        assert RanksAbove(rest, ColumnRank(cands[0].column));
        RanksIncreasingCons(cands[0], rest);
      }
    }
  }

  /** The four candidate clauses, in the source's fixed order. */
  function UserCandidates(users: seq<EventUser>): (cs: seq<Condition>)
    ensures RanksIncreasing(cs)
  {
    [InClause(users, UserId), InClause(users, Email), InClause(users, Username), InClause(users, IpAddress)]
  }

  /** The OR-group of the two user queries. */
  function UserOrGroup(users: seq<EventUser>): (r: seq<Condition>)
    ensures RanksIncreasing(r)
    ensures forall c :: c in r <==> c in UserCandidates(users) && c.operand != Many([])
  {
    NonEmptyInsOrdered(UserCandidates(users));
    NonEmptyIns(UserCandidates(users))
  }

  /** A field's clause is in the OR-group exactly when some user has that field set. */
  lemma OrGroupHasField(users: seq<EventUser>, f: UserField)
    ensures InClause(users, f) in UserOrGroup(users) <==> AnyUserHas(users, f)
  {
    FieldValuesEmpty(users, f);
    var cands := UserCandidates(users);
    match f
    case UserId => assert cands[0] == InClause(users, f);
    case Email => assert cands[1] == InClause(users, f);
    case Username => assert cands[2] == InClause(users, f);
    case IpAddress => assert cands[3] == InClause(users, f);
  }

  /** Every member of the OR-group is the clause of a field some user has set. */
  lemma OrGroupMember(users: seq<EventUser>, c: Condition)
    requires c in UserOrGroup(users)
    ensures exists f :: c == InClause(users, f) && AnyUserHas(users, f)
  {
    var cands := UserCandidates(users);
    var k :| 0 <= k < 4 && cands[k] == c;
    var f := if k == 0 then UserId else if k == 1 then Email else if k == 2 then Username else IpAddress;
    assert c == InClause(users, f);
    OrGroupHasField(users, f);
  }

  /**
   * The OR-group has one `IN` clause per identity field, in the order
   * user_id, email, username, ip_address, present exactly when some user
   * has that field set; when no user has any field set it is empty.
   */
  lemma UserOrGroupClauses(users: seq<EventUser>)
    ensures forall f :: InClause(users, f) in UserOrGroup(users) <==> AnyUserHas(users, f)
    ensures forall c :: c in UserOrGroup(users) ==> exists f :: c == InClause(users, f) && AnyUserHas(users, f)
    ensures RanksIncreasing(UserOrGroup(users))
    ensures UserOrGroup(users) == [] <==> forall f :: !AnyUserHas(users, f)
  {
    var r := UserOrGroup(users);
    forall f ensures InClause(users, f) in r <==> AnyUserHas(users, f) {
      OrGroupHasField(users, f);
    }
    forall c | c in r ensures exists f :: c == InClause(users, f) && AnyUserHas(users, f) {
      OrGroupMember(users, c);
    }
    if r != [] {
      OrGroupMember(users, r[0]);
    }
  }

  /** The event has, in some identity column, the non-empty value one of the users has there. */
  predicate MatchesSomeUser(users: seq<EventUser>, e: Event) {
    exists u, f :: u in users && FieldOf(u, f) != "" && Lookup(e, FieldColumn(f)) == Str(FieldOf(u, f))
  }

  /** The OR-group holds exactly for the events that match one of the users. */
  lemma UserOrGroupMatches(users: seq<EventUser>, e: Event)
    ensures ClauseHolds(AnyOf(UserOrGroup(users)), e) <==> MatchesSomeUser(users, e)
  {
    var r := UserOrGroup(users);
    UserOrGroupClauses(users);
    if ClauseHolds(AnyOf(r), e) {
      var c :| c in r && ConditionHolds(c, e);
      var f :| c == InClause(users, f) && AnyUserHas(users, f);
      var v := Lookup(e, FieldColumn(f));
      assert v in FieldValues(users, f);
      FieldValuesMembers(users, f, v.s);
      var u :| u in users && FieldOf(u, f) == v.s;
      assert u in users && FieldOf(u, f) != "" && Lookup(e, FieldColumn(f)) == Str(FieldOf(u, f));
    }
    if MatchesSomeUser(users, e) {
      var u, f :| u in users && FieldOf(u, f) != "" && Lookup(e, FieldColumn(f)) == Str(FieldOf(u, f));
      FieldValuesMembers(users, f, FieldOf(u, f));
      assert AnyUserHas(users, f);
      assert InClause(users, f) in r && ConditionHolds(InClause(users, f), e);
    }
  }

  // ---------------------------------------------------------------------------
  // Issues touched by users

  /** The descriptor of `get_group_ids_for_users`: issues by latest event of the users, most recent first. */
  function GroupIdsForUsersQuery(now: int, projectIds: seq<int>, users: seq<EventUser>, limit: int): (q: Query)
    ensures q.filters == map["project_id" := Ints(projectIds)]
    ensures q.conditions == Some([AnyOf(UserOrGroup(users))])
    ensures q.groupBy == ["issue"] && q.aggregations == [Aggregation("max", SeenColumn, "seen")]
    ensures q.limit == Some(limit) && q.orderBy == Some(OrderBy("seen", true))
  {
    var filters := map["project_id" := Ints(projectIds)];
    Query(GetTimeRange(now), ["issue"], Some([AnyOf(UserOrGroup(users))]), filters,
          [Aggregation("max", SeenColumn, "seen")], Some(limit), Some(OrderBy("seen", true)))
  }

  /** `get_group_ids_for_users`: the issue keys of the engine's answer. */
  function GetGroupIdsForUsers(now: int, projectIds: seq<int>, users: seq<EventUser>, limit: int := DefaultUsersLimit,
                               engine: Query -> seq<(int, int)>): (r: seq<int>)
    ensures var rows := engine(GroupIdsForUsersQuery(now, projectIds, users, limit));
      |r| == |rows| && forall i :: 0 <= i < |r| ==> r[i] == rows[i].0
  {
    Keys(engine(GroupIdsForUsersQuery(now, projectIds, users, limit)))
  }

  /** `[eu.project_id for eu in event_users]`: one entry per user, repeats kept. */
  function UserProjects(users: seq<EventUser>): (ps: seq<int>)
    ensures |ps| == |users|
    ensures forall i :: 0 <= i < |users| ==> ps[i] == users[i].projectId
  {
    seq(|users|, i requires 0 <= i < |users| => users[i].projectId)
  }

  /** The descriptor of `get_group_tag_values_for_users`: count, first and last seen per user id, most recent first. */
  function GroupTagValuesForUsersQuery(now: int, users: seq<EventUser>, limit: int): (q: Query)
    ensures q.filters == map["project_id" := Ints(UserProjects(users))]
    ensures |q.filters["project_id"]| == |users|
    ensures q.conditions == Some([AnyOf(UserOrGroup(users))])
    ensures q.groupBy == ["user_id"] && q.aggregations == StatsAggregations("count")
    ensures q.limit == Some(limit) && q.orderBy == Some(OrderBy("last_seen", true))
  {
    var projects := UserProjects(users);
    var filters := map["project_id" := Ints(projects)];
    Query(GetTimeRange(now), ["user_id"], Some([AnyOf(UserOrGroup(users))]), filters,
          StatsAggregations("count"), Some(limit), Some(OrderBy("last_seen", true)))
  }

  /** `get_group_tag_values_for_users`: one labelled record per (user_id, aggregates) row. */
  function GetGroupTagValuesForUsers(now: int, users: seq<EventUser>, limit: int := DefaultUsersLimit,
                                     engine: Query -> seq<(string, Stats)>): (r: seq<ObjectWrapper>)
    ensures var rows := engine(GroupTagValuesForUsersQuery(now, users, limit));
      && |r| == |rows|
      && forall i :: 0 <= i < |r| ==> r[i].id == 0 && Unwrap(r[i]) == Labelled(UserLabel, rows[i].0, rows[i].1)
  {
    WrapRows(UserLabel, engine(GroupTagValuesForUsersQuery(now, users, limit)))
  }

  /**
   * Users with no identity field set still produce an OR-group, an empty one,
   * and under the reading of `Selects` it selects no event.
   */
  lemma EmptyUserOrGroup(now: int, projectIds: seq<int>, users: seq<EventUser>, limit: int)
    requires forall u, f :: u in users ==> FieldOf(u, f) == ""
    ensures GroupIdsForUsersQuery(now, projectIds, users, limit).conditions == Some([AnyOf([])])
    ensures GroupTagValuesForUsersQuery(now, users, limit).conditions == Some([AnyOf([])])
    ensures forall e :: !Selects(GroupIdsForUsersQuery(now, projectIds, users, limit), e)
    ensures forall e :: !Selects(GroupTagValuesForUsersQuery(now, users, limit), e)
  {
    assert forall f :: !AnyUserHas(users, f);
    UserOrGroupClauses(users);
    forall e ensures !Selects(GroupIdsForUsersQuery(now, projectIds, users, limit), e)
                  && !Selects(GroupTagValuesForUsersQuery(now, users, limit), e) {
      SelectsOneClause(GroupIdsForUsersQuery(now, projectIds, users, limit), now, AnyOf([]), e);
      SelectsOneClause(GroupTagValuesForUsersQuery(now, users, limit), now, AnyOf([]), e);
    }
  }

  // ---------------------------------------------------------------------------
  // Distinct users per issue

  /** A `defaultdict(int)`: an issue the engine did not return reads as 0. */
  datatype UserCounts = UserCounts(counts: map<int, int>) {
    function Get(issue: int): (n: int)
      ensures issue in counts ==> n == counts[issue]
      ensures issue !in counts ==> n == 0
    {
      if issue in counts then counts[issue] else 0
    }
  }

  /** The descriptor of `get_groups_user_counts`: distinct users per issue of a list. */
  function GroupsUserCountsQuery(now: int, projectId: int, groupIds: seq<int>, environmentId: Option<int>): (q: Query)
    ensures q.filters == IssuesFilters(projectId, groupIds, environmentId)
    ensures q.conditions.None? && q.groupBy == ["issue"]
    ensures q.aggregations == [Aggregation("uniq", "user_id", "count")]
    ensures q.limit.None? && q.orderBy.None?
  {
    Query(GetTimeRange(now), ["issue"], None, IssuesFilters(projectId, groupIds, environmentId),
          [Aggregation("uniq", "user_id", "count")], None, None)
  }

  /** `get_groups_user_counts`: the engine's answer is a dictionary from issue to distinct users. */
  function GetGroupsUserCounts(now: int, projectId: int, groupIds: seq<int>, environmentId: Option<int>,
                               engine: Query -> map<int, int>): (r: UserCounts)
    ensures var result := engine(GroupsUserCountsQuery(now, projectId, groupIds, environmentId));
      && (forall g :: g in result ==> r.Get(g) == result[g])
      && (forall g :: g !in result ==> r.Get(g) == 0)
      && ((forall g :: g in result ==> result[g] >= 0) ==> forall g :: r.Get(g) >= 0)
  {
    UserCounts(engine(GroupsUserCountsQuery(now, projectId, groupIds, environmentId)))
  }

  // ---------------------------------------------------------------------------
  // Which events each descriptor selects

  /** Every descriptor covers the default window; a single clause holds when it does. */
  lemma SelectsOneClause(q: Query, now: int, cl: Clause, e: Event)
    requires q.range == GetTimeRange(now) && q.conditions == Some([cl])
    ensures Selects(q, e) <==> InWindow(e, now) && MatchesFilters(q.filters, e) && ClauseHolds(cl, e)
  {
    assert forall x :: x in [cl] <==> x == cl;
  }

  /** Key lookup counts the distinct values of the tag on the events in scope that carry it. */
  lemma TagKeyQuerySelects(now: int, projectId: int, groupId: Option<int>, environmentId: Option<int>, key: string, e: Event)
    ensures Selects(TagKeyQuery(now, projectId, groupId, environmentId, key), e) <==>
      InWindow(e, now) && InScope(e, projectId, groupId, environmentId) && CarriesTag(e, key)
  {
    SelectsOneClause(TagKeyQuery(now, projectId, groupId, environmentId, key), now, HasTag(key), e);
    ScopeFiltersMatch(projectId, groupId, environmentId, e);
  }

  /** Key listing reads every event in scope. */
  lemma TagKeysQuerySelects(now: int, projectId: int, groupId: Option<int>, environmentId: Option<int>, limit: Option<int>, e: Event)
    ensures Selects(TagKeysQuery(now, projectId, groupId, environmentId, limit), e) <==>
      InWindow(e, now) && InScope(e, projectId, groupId, environmentId)
  {
    ScopeFiltersMatch(projectId, groupId, environmentId, e);
  }

  /** Value lookup aggregates the events in scope whose tag has exactly that value. */
  lemma TagValueQuerySelects(now: int, projectId: int, groupId: Option<int>, environmentId: Option<int>,
                             key: string, value: string, e: Event)
    ensures Selects(TagValueQuery(now, projectId, groupId, environmentId, key, value), e) <==>
      InWindow(e, now) && InScope(e, projectId, groupId, environmentId) && Lookup(e, TagColumn(key)) == Str(value)
  {
    SelectsOneClause(TagValueQuery(now, projectId, groupId, environmentId, key, value), now,
                     Single(TagEquals(key, value)), e);
    ScopeFiltersMatch(projectId, groupId, environmentId, e);
  }

  /** Value listing aggregates the events in scope that carry the tag. */
  lemma TagValuesQuerySelects(now: int, projectId: int, groupId: Option<int>, environmentId: Option<int>, key: string, e: Event)
    ensures Selects(TagValuesQuery(now, projectId, groupId, environmentId, key), e) <==>
      InWindow(e, now) && InScope(e, projectId, groupId, environmentId) && CarriesTag(e, key)
  {
    SelectsOneClause(TagValuesQuery(now, projectId, groupId, environmentId, key), now, HasTag(key), e);
    ScopeFiltersMatch(projectId, groupId, environmentId, e);
  }

  /** The top values are taken from the issue's events that carry the tag. */
  lemma TopGroupTagValuesQuerySelects(now: int, projectId: int, groupId: int, environmentId: Option<int>, key: string,
                                      limit: int, e: Event)
    ensures Selects(TopGroupTagValuesQuery(now, projectId, groupId, environmentId, key, limit), e) <==>
      InWindow(e, now) && InScope(e, projectId, Some(groupId), environmentId) && CarriesTag(e, key)
  {
    SelectsOneClause(TopGroupTagValuesQuery(now, projectId, groupId, environmentId, key, limit), now, HasTag(key), e);
    ScopeFiltersMatch(projectId, Some(groupId), environmentId, e);
  }

  /** The multi-issue lookup reads the events of the listed issues whose tag has the value. */
  lemma GroupListTagValueQuerySelects(now: int, projectId: int, groupIds: seq<int>, environmentId: Option<int>,
                                      key: string, value: string, e: Event)
    ensures Selects(GroupListTagValueQuery(now, projectId, groupIds, environmentId, key, value), e) <==>
      && InWindow(e, now) && InScope(e, projectId, None, environmentId)
      && (exists g :: g in groupIds && Lookup(e, "issue") == Int(g))
      && Lookup(e, TagColumn(key)) == Str(value)
  {
    SelectsOneClause(GroupListTagValueQuery(now, projectId, groupIds, environmentId, key, value), now,
                     Single(TagEquals(key, value)), e);
    IssuesFiltersMatch(projectId, groupIds, environmentId, e);
  }

  /** The count covers the issue's events that carry the tag. */
  lemma GroupTagValueCountQuerySelects(now: int, projectId: int, groupId: int, environmentId: Option<int>, key: string, e: Event)
    ensures Selects(GroupTagValueCountQuery(now, projectId, groupId, environmentId, key), e) <==>
      InWindow(e, now) && InScope(e, projectId, Some(groupId), environmentId) && CarriesTag(e, key)
  {
    SelectsOneClause(GroupTagValueCountQuery(now, projectId, groupId, environmentId, key), now, HasTag(key), e);
    ScopeFiltersMatch(projectId, Some(groupId), environmentId, e);
  }

  /** The release lookup reads the events of the project (and issue) that have a release, in any environment. */
  lemma ReleaseQuerySelects(now: int, projectId: int, groupId: Option<int>, first: bool, e: Event)
    ensures Selects(ReleaseQuery(now, projectId, groupId, first), e) <==>
      && InWindow(e, now) && Lookup(e, "project_id") == Int(projectId)
      && (groupId.Some? ==> Lookup(e, "issue") == Int(groupId.value))
      && Lookup(e, "release") != Null
  {
    var q := ReleaseQuery(now, projectId, groupId, first);
    SelectsOneClause(q, now, Single(Condition("release", IsNotNull, NoOperand)), e);
    if MatchesFilters(q.filters, e) {
      assert Lookup(e, "project_id") in q.filters["project_id"];
      if groupId.Some? {
        assert Lookup(e, "issue") in q.filters["issue"];
      }
    }
  }

  /** Release statistics read the events of the listed projects whose release is one of the versions. */
  lemma ReleaseTagsQuerySelects(now: int, projectIds: seq<int>, environmentId: Option<int>, versions: seq<string>, e: Event)
    ensures Selects(ReleaseTagsQuery(now, projectIds, environmentId, versions), e) <==>
      && InWindow(e, now)
      && (exists p :: p in projectIds && Lookup(e, "project_id") == Int(p))
      && Lookup(e, "environment") == OptionalId(environmentId)
      && (exists v :: v in versions && Lookup(e, "release") == Str(v))
  {
    var q := ReleaseTagsQuery(now, projectIds, environmentId, versions);
    SelectsOneClause(q, now, Single(Condition("release", In, Many(Strs(versions)))), e);
    if MatchesFilters(q.filters, e) {
      assert Lookup(e, "project_id") in q.filters["project_id"];
      assert Lookup(e, "environment") in q.filters["environment"];
    }
    if exists p :: p in projectIds && Lookup(e, "project_id") == Int(p) {
      var p :| p in projectIds && Lookup(e, "project_id") == Int(p);
      var i :| 0 <= i < |projectIds| && projectIds[i] == p;
      assert q.filters["project_id"][i] == Int(p);
    }
    if exists v :: v in versions && Lookup(e, "release") == Str(v) {
      var v :| v in versions && Lookup(e, "release") == Str(v);
      var i :| 0 <= i < |versions| && versions[i] == v;
      assert Strs(versions)[i] == Str(v);
    }
  }

  /** Event ids come from the events in scope that carry one of the (tag, value) pairs. */
  lemma GroupEventIdsQuerySelects(now: int, projectId: int, groupId: Option<int>, environmentId: Option<int>,
                                  tags: seq<(string, string)>, e: Event)
    ensures Selects(GroupEventIdsQuery(now, projectId, groupId, environmentId, tags), e) <==>
      && InWindow(e, now) && InScope(e, projectId, None, environmentId)
      && exists i :: 0 <= i < |tags| && Lookup(e, TagColumn(tags[i].0)) == Str(tags[i].1)
  {
    SelectsOneClause(GroupEventIdsQuery(now, projectId, groupId, environmentId, tags), now, AnyOf(TagEqualities(tags)), e);
    ScopeFiltersMatch(projectId, None, environmentId, e);
    TagEqualitiesMatch(tags, e);
  }

  /** Issue ids come from the events of the listed projects that match one of the users. */
  lemma GroupIdsForUsersQuerySelects(now: int, projectIds: seq<int>, users: seq<EventUser>, limit: int, e: Event)
    ensures Selects(GroupIdsForUsersQuery(now, projectIds, users, limit), e) <==>
      && InWindow(e, now)
      && (exists p :: p in projectIds && Lookup(e, "project_id") == Int(p))
      && MatchesSomeUser(users, e)
  {
    var q := GroupIdsForUsersQuery(now, projectIds, users, limit);
    SelectsOneClause(q, now, AnyOf(UserOrGroup(users)), e);
    UserOrGroupMatches(users, e);
    if MatchesFilters(q.filters, e) {
      assert Lookup(e, "project_id") in q.filters["project_id"];
    }
    if exists p :: p in projectIds && Lookup(e, "project_id") == Int(p) {
      var p :| p in projectIds && Lookup(e, "project_id") == Int(p);
      var i :| 0 <= i < |projectIds| && projectIds[i] == p;
      assert q.filters["project_id"][i] == Int(p);
    }
  }

  /** User statistics come from the events of the users' projects that match one of the users. */
  lemma GroupTagValuesForUsersQuerySelects(now: int, users: seq<EventUser>, limit: int, e: Event)
    ensures Selects(GroupTagValuesForUsersQuery(now, users, limit), e) <==>
      && InWindow(e, now)
      && (exists u :: u in users && Lookup(e, "project_id") == Int(u.projectId))
      && MatchesSomeUser(users, e)
  {
    var q := GroupTagValuesForUsersQuery(now, users, limit);
    var projects := UserProjects(users);
    SelectsOneClause(q, now, AnyOf(UserOrGroup(users)), e);
    UserOrGroupMatches(users, e);
    if MatchesFilters(q.filters, e) {
      assert Lookup(e, "project_id") in q.filters["project_id"];
      var i :| 0 <= i < |projects| && Int(projects[i]) == Lookup(e, "project_id");
      assert users[i] in users;
    }
    if exists u :: u in users && Lookup(e, "project_id") == Int(u.projectId) {
      var u :| u in users && Lookup(e, "project_id") == Int(u.projectId);
      var i :| 0 <= i < |users| && users[i] == u;
      assert q.filters["project_id"][i] == Int(u.projectId);
    }
  }

  /** User counts read every event of the listed issues in scope; there is no condition. */
  lemma GroupsUserCountsQuerySelects(now: int, projectId: int, groupIds: seq<int>, environmentId: Option<int>, e: Event)
    ensures Selects(GroupsUserCountsQuery(now, projectId, groupIds, environmentId), e) <==>
      && InWindow(e, now) && InScope(e, projectId, None, environmentId)
      && (exists g :: g in groupIds && Lookup(e, "issue") == Int(g))
  {
    IssuesFiltersMatch(projectId, groupIds, environmentId, e);
  }

  // ---------------------------------------------------------------------------
  // Search filter

  /** `get_group_ids_for_search_filter`: not implemented, whatever the arguments; no query is built. */
  function GetGroupIdsForSearchFilter(projectId: int, environmentId: Option<int>, tags: seq<(string, string)>,
                                      candidates: Option<seq<int>>, limit: int): (r: Result<seq<int>, TagStoreError>)
    ensures r == Failure(NotImplemented)
  {
    Failure(NotImplemented)
  }
}
