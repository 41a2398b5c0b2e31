# SnubaTagStorage, modelled in Dafny

This project models the tag-store backend `SnubaTagStorage` of Sentry
(`src/sentry/tagstore/snuba/backend.py`). The backend answers questions about
tags (keys, values, per-issue statistics, releases, users) by building one query
descriptor for the Snuba analytic engine and mapping the engine's answer back to
records, or to a not-found / not-implemented error.

Everything on either side of the `snuba.query` call is deterministic, so the model
is pure: datatypes, functions and lemmas.

- `wrappers.dfy` (`Wrappers`): `Option` (Python's `None`) and `Result` (a value or a raised exception).
- `snuba_query.dfy` (`SnubaQuery`): the descriptor `Query` that `snuba.query` receives.
  It holds the time range, group-by, conditions, filters, aggregations, limit and orderby.
  The predicate `Selects(q, e)` is a literal reading of which events a descriptor selects:
  - the timestamp is in `[start, end)`;
  - every filter column holds one of its listed values;
  - every condition holds, and a nested list holds when one of its members does.
- `tag_types.dfy` (`TagTypes`): the records, the errors, `ObjectWrapper` and event users.
  `TagKey`, `GroupTagKey`, `TagValue` and `GroupTagValue` are one `TagRecord` tagged by class.
- `backend.dfy` (`SnubaBackend`): the time window, every query builder, every result mapper and every public operation.

Each operation takes the engine as a parameter `engine: Query -> A`. `A` is the answer shape it reads:
- a scalar;
- an optional aggregate row;
- a sequence of (group-by key, row) pairs in the engine's order;
- a dictionary.

Each operation also takes the current time `now`, in seconds.

Each builder `XQuery` has a lemma `XQuerySelects` that says which events its descriptor covers.
Each operation's contract says what it returns in terms of the engine's answer to that descriptor.

The model keeps these quirks of the code:
- `__get_tag_key` names its aggregation `unique_values`, while `__get_tag_keys` names it `values_seen`.
- `__get_tag_value` builds key-class records (`TagKey`/`GroupTagKey`) from a value lookup.
- `get_group_tag_keys` defaults `limit` to `None`, so the issue-scoped listing has no cap, while `get_tag_keys` gets the 1000 of `__get_tag_keys`.
- When no event user has any identity field set, the user queries still send an empty OR-group `[[]]`.
  Nothing guards against it. `EmptyUserOrGroup` shows that, under the literal reading, it selects no event.
- `get_group_event_ids` ignores its `group_id` argument (`GroupEventIdsIgnoreGroup`).
- A value lookup whose answer is a present row with count 0 yields a record, not an error.
  Only a falsy answer raises not-found.

## Model

| member | source | states |
|---|---|---|
| `TagTypes.Wrap` | src/sentry/tagstore/snuba/backend.py:33-36 | a wrapper always has `id = 0` and keeps every field of its dictionary (`Unwrap` gives it back) |
| `SnubaBackend.GetTimeRange` | src/sentry/tagstore/snuba/backend.py:47-54 | the window (90 days by default) ends at `now` and contains exactly the timestamps `t` with `0 < now - t <= days` days |
| `SnubaBackend.OptionalId` | src/sentry/tagstore/snuba/backend.py:61 | the filter value of an environment id is that id, or `Null` when there is none |
| `SnubaBackend.Ints` | src/sentry/tagstore/snuba/backend.py:310 | a list of ids becomes filter values one for one, in order, and nothing else |
| `SnubaBackend.Strs` | src/sentry/tagstore/snuba/backend.py:316 | a list of versions becomes condition values one for one, in order, and nothing else |
| `SnubaBackend.HasTag` | src/sentry/tagstore/snuba/backend.py:65 | `[tag, '!=', '']` holds exactly on the events that carry the tag with a non-empty value |
| `SnubaBackend.TagEquals` | src/sentry/tagstore/snuba/backend.py:109 | `[tag, '=', value]` holds exactly on the events whose tag has that value |
| `SnubaBackend.StatsAggregations` | src/sentry/tagstore/snuba/backend.py:111-115 | three aggregates: the count under the caller's alias, `first_seen` as the `min` and `last_seen` as the `max` of the event timestamp |
| `SnubaBackend.TagColumn` | src/sentry/tagstore/snuba/backend.py:58 | the tag column is `tags[key]`: six characters longer than the key, which can be read back from it |
| `SnubaBackend.TagColumnInjective` | src/sentry/tagstore/snuba/backend.py:58 | distinct keys query distinct columns |
| `SnubaBackend.ScopeFilters` | src/sentry/tagstore/snuba/backend.py:59-64 | filters hold `project_id = [project_id]` and `environment = [environment_id]`, and `issue = [group_id]` exactly when a group is given |
| `SnubaBackend.ScopeFiltersMatch` | src/sentry/tagstore/snuba/backend.py:59-64 | the scope filters admit exactly the events of the project and environment, and of the issue when one is given |
| `SnubaBackend.IssuesFilters` | src/sentry/tagstore/snuba/backend.py:185-189 | multi-issue filters hold the project, the environment and the whole issue list |
| `SnubaBackend.IssuesFiltersMatch` | src/sentry/tagstore/snuba/backend.py:185-189 | the multi-issue filters admit exactly the events in scope whose issue is in the list |
| `SnubaBackend.KeyCtor` | src/sentry/tagstore/snuba/backend.py:93-96 | the key constructor is `TagKey` unscoped and `GroupTagKey` with the group bound when scoped |
| `SnubaBackend.ValueCtor` | src/sentry/tagstore/snuba/backend.py:149-152 | the value constructor is `TagValue` unscoped and `GroupTagValue` with the group bound when scoped |
| `SnubaBackend.TagKeyQuery` | src/sentry/tagstore/snuba/backend.py:56-68 | key lookup: scope filters, no group-by, a `uniq` aggregation of the tag column, no limit or orderby |
| `SnubaBackend.TagKeyQuerySelects` | src/sentry/tagstore/snuba/backend.py:56-68 | key lookup covers the events in the window and scope that carry a non-empty value for the tag |
| `SnubaBackend.TagKeyLookup` | src/sentry/tagstore/snuba/backend.py:56-79 | a scalar 0 fails with `TagKeyNotFound` unscoped or `GroupTagKeyNotFound` scoped; otherwise a record with the key, `values_seen` = the scalar, the group, and a group class exactly when scoped |
| `SnubaBackend.GetTagKey` | src/sentry/tagstore/snuba/backend.py:156-158 | only the visible status is accepted; the unscoped lookup: `TagKeyNotFound`, or a `TagKey` record |
| `SnubaBackend.GetGroupTagKey` | src/sentry/tagstore/snuba/backend.py:170-171 | the issue-scoped lookup: `GroupTagKeyNotFound`, or a `GroupTagKey` record for that issue |
| `SnubaBackend.TagKeysQuery` | src/sentry/tagstore/snuba/backend.py:81-91 | key listing: group-by `tags_key`, `uniq(tags_value)` as `values_seen`, orderby `-values_seen`, the caller's limit |
| `SnubaBackend.TagKeysQuerySelects` | src/sentry/tagstore/snuba/backend.py:81-91 | key listing covers every event in the window and scope |
| `SnubaBackend.KeysFromRows` | src/sentry/tagstore/snuba/backend.py:93-98 | each record comes from a row with non-zero `values_seen` and carries the constructor's class and group |
| `SnubaBackend.KeysFromRowsComplete` | src/sentry/tagstore/snuba/backend.py:98 | every row with non-zero `values_seen` yields its record |
| `SnubaBackend.KeysFromRowsAppend` | src/sentry/tagstore/snuba/backend.py:98 | rows are kept or dropped one at a time, in result order |
| `SnubaBackend.KeysFromRowsDescending` | src/sentry/tagstore/snuba/backend.py:91-98 | if the rows come ordered by descending `values_seen`, so do the records |
| `SnubaBackend.TagKeysLookup` | src/sentry/tagstore/snuba/backend.py:81-98 | the listing (limit 1000 by default) is exactly the non-zero rows, each with the request's group and class, ordered when the rows are |
| `SnubaBackend.GetTagKeys` | src/sentry/tagstore/snuba/backend.py:160-162 | only the visible status is accepted; asks with limit 1000 and returns exactly the non-zero rows as `TagKey` records, ordered when the rows are |
| `SnubaBackend.GetGroupTagKeys` | src/sentry/tagstore/snuba/backend.py:173-174 | asks with the caller's limit (default `None`) and returns exactly the non-zero rows as `GroupTagKey` records of that issue, ordered when the rows are |
| `SnubaBackend.TagValueQuery` | src/sentry/tagstore/snuba/backend.py:100-117 | value lookup: scope filters, no group-by, count/min/max aggregations |
| `SnubaBackend.TagValueQuerySelects` | src/sentry/tagstore/snuba/backend.py:100-117 | value lookup covers the events in the window and scope whose tag equals the value |
| `SnubaBackend.TagValueLookup` | src/sentry/tagstore/snuba/backend.py:100-128 | a falsy answer fails with `TagValueNotFound` or `GroupTagValueNotFound` by scope; otherwise a key-class record with the aggregates, the key and the value |
| `SnubaBackend.GetTagValue` | src/sentry/tagstore/snuba/backend.py:164-165 | the unscoped value lookup: `TagValueNotFound`, or a `TagKey`-class record with the value and aggregates |
| `SnubaBackend.GetGroupTagValue` | src/sentry/tagstore/snuba/backend.py:176-177 | the issue-scoped value lookup: `GroupTagValueNotFound`, or a `GroupTagKey`-class record for the issue |
| `SnubaBackend.TagValuesQuery` | src/sentry/tagstore/snuba/backend.py:130-147 | value listing: group-by the tag column, count/min/max, no limit or orderby |
| `SnubaBackend.TagValuesQuerySelects` | src/sentry/tagstore/snuba/backend.py:130-147 | value listing covers the events in the window and scope that carry the tag |
| `SnubaBackend.ValuesFromRows` | src/sentry/tagstore/snuba/backend.py:149-154 | one record per row, in row order, none dropped, each with the constructor's class and group, the key, the row's value and aggregates |
| `SnubaBackend.TagValuesLookup` | src/sentry/tagstore/snuba/backend.py:130-154 | the listing has one value record per engine row, with the request's group and the class chosen by scope |
| `SnubaBackend.GetTagValues` | src/sentry/tagstore/snuba/backend.py:167-168 | one `TagValue` record per answer row, in order, with the key and the row's value and aggregates |
| `SnubaBackend.GetGroupTagValues` | src/sentry/tagstore/snuba/backend.py:179-180 | one `GroupTagValue` record of the issue per answer row, in order, with the key and the row's value and aggregates |
| `SnubaBackend.TopGroupTagValuesQuery` | src/sentry/tagstore/snuba/backend.py:223-239 | top values: the issue's scope, group-by the tag column, orderby `-times_seen`, the given limit |
| `SnubaBackend.TopGroupTagValuesQuerySelects` | src/sentry/tagstore/snuba/backend.py:223-239 | top values cover the issue's events in the window that carry the tag |
| `SnubaBackend.GetTopGroupTagValues` | src/sentry/tagstore/snuba/backend.py:223-247 | one `GroupTagValue` record of the issue per row, in order; ordered by descending `times_seen` when the rows are |
| `SnubaBackend.GroupListTagValueQuery` | src/sentry/tagstore/snuba/backend.py:182-199 | multi-issue lookup: the issue list as filter, group-by `issue`, count/min/max |
| `SnubaBackend.GroupListTagValueQuerySelects` | src/sentry/tagstore/snuba/backend.py:182-199 | the multi-issue lookup covers the events of the listed issues whose tag equals the value |
| `SnubaBackend.GetGroupListTagValue` | src/sentry/tagstore/snuba/backend.py:182-208 | the mapping's keys are exactly the answer's issues; each entry is a `GroupTagValue` whose group is its key, with the key, value and that issue's aggregates |
| `SnubaBackend.GroupTagValueCountQuery` | src/sentry/tagstore/snuba/backend.py:210-221 | value count: the issue's scope, no group-by, a single `count()` |
| `SnubaBackend.GroupTagValueCountQuerySelects` | src/sentry/tagstore/snuba/backend.py:210-221 | the count covers the issue's events in the window that carry the tag |
| `SnubaBackend.GetGroupTagValueCount` | src/sentry/tagstore/snuba/backend.py:210-221 | the engine's scalar is returned unchanged |
| `SnubaBackend.ReleaseQuery` | src/sentry/tagstore/snuba/backend.py:283-295 | release lookup: project (and issue) filters only, `min` with orderby `seen` when first, `max` with `-seen` when last, limit 1 |
| `SnubaBackend.ReleaseQuerySelects` | src/sentry/tagstore/snuba/backend.py:283-295 | the release lookup covers the project's (and issue's) events in any environment that have a release |
| `SnubaBackend.GetRelease` | src/sentry/tagstore/snuba/backend.py:283-299 | `None` exactly when the answer is empty; otherwise the first release key |
| `SnubaBackend.GetFirstRelease` | src/sentry/tagstore/snuba/backend.py:301-302 | asks the `min`/ascending release lookup; `None` exactly when the answer is empty, otherwise its first release |
| `SnubaBackend.GetLastRelease` | src/sentry/tagstore/snuba/backend.py:304-305 | asks the `max`/descending release lookup; `None` exactly when the answer is empty, otherwise its first release |
| `SnubaBackend.WrapRows` | src/sentry/tagstore/snuba/backend.py:325-331 | one wrapper per row, in order, each with `id = 0`, the fixed key, the row's name as value and its aggregates |
| `SnubaBackend.ReleaseTagsQuery` | src/sentry/tagstore/snuba/backend.py:307-323 | release statistics: the project list and environment as filters, group-by `release`, count/min/max |
| `SnubaBackend.ReleaseTagsQuerySelects` | src/sentry/tagstore/snuba/backend.py:307-323 | release statistics cover the events of the listed projects whose release string is one of the versions |
| `SnubaBackend.GetReleaseTags` | src/sentry/tagstore/snuba/backend.py:307-331 | one wrapper labelled `release` per answer row, with the version as value |
| `SnubaBackend.Keys` | src/sentry/tagstore/snuba/backend.py:347 | the keys of an answer, in its order |
| `SnubaBackend.TagEqualities` | src/sentry/tagstore/snuba/backend.py:343 | one `tags[tag] = value` condition per pair, in order |
| `SnubaBackend.TagEqualitiesMatch` | src/sentry/tagstore/snuba/backend.py:343-344 | the OR-group of the pairs holds exactly when the event carries one of the pairs |
| `SnubaBackend.GroupEventIdsQuery` | src/sentry/tagstore/snuba/backend.py:333-346 | event ids: project and environment filters, one OR-group, group-by `event_id`, no aggregations |
| `SnubaBackend.GroupEventIdsQuerySelects` | src/sentry/tagstore/snuba/backend.py:333-346 | event ids come from the events in scope that carry one of the (tag, value) pairs |
| `SnubaBackend.GetGroupEventIds` | src/sentry/tagstore/snuba/backend.py:333-347 | the answer's event ids, in order |
| `SnubaBackend.GroupEventIdsIgnoreGroup` | src/sentry/tagstore/snuba/backend.py:333-347 | the `group_id` argument does not change the answer |
| `SnubaBackend.FieldValues` | src/sentry/tagstore/snuba/backend.py:355-358 | a field's list has only non-empty values, at most one per user |
| `SnubaBackend.FieldValuesMembers` | src/sentry/tagstore/snuba/backend.py:355-358 | a value is listed exactly when it is non-empty and some user has it in that field |
| `SnubaBackend.FieldValuesAppend` | src/sentry/tagstore/snuba/backend.py:355-358 | the list follows the users' input order |
| `SnubaBackend.FieldValuesEmpty` | src/sentry/tagstore/snuba/backend.py:354-359 | a field's list is empty exactly when no user has that field set |
| `SnubaBackend.InClause` | src/sentry/tagstore/snuba/backend.py:355-358 | a field's `IN` clause is on that field's column and lists only non-empty values |
| `SnubaBackend.InClauseMatches` | src/sentry/tagstore/snuba/backend.py:355-358 | a field's clause holds exactly when the event's column equals a non-empty value some user has in that field |
| `SnubaBackend.NonEmptyIns` | src/sentry/tagstore/snuba/backend.py:354-359 | the clauses kept are exactly the candidates whose list is not empty |
| `SnubaBackend.NonEmptyInsOrdered` | src/sentry/tagstore/snuba/backend.py:354-359 | dropping clauses keeps the remaining ones in candidate order |
| `SnubaBackend.UserCandidates` | src/sentry/tagstore/snuba/backend.py:354-358 | the candidates come in the fixed order user_id, email, username, ip_address |
| `SnubaBackend.UserOrGroup` | src/sentry/tagstore/snuba/backend.py:354-360 | the OR-group is the non-empty candidates, in the fixed field order |
| `SnubaBackend.OrGroupHasField` | src/sentry/tagstore/snuba/backend.py:354-359 | a field's clause is present exactly when some user has that field set |
| `SnubaBackend.OrGroupMember` | src/sentry/tagstore/snuba/backend.py:354-359 | every clause of the OR-group is the clause of a field some user has set |
| `SnubaBackend.UserOrGroupClauses` | src/sentry/tagstore/snuba/backend.py:354-360 | one clause per field some user has set, nothing else, in fixed order; empty exactly when no user has any field set |
| `SnubaBackend.UserOrGroupMatches` | src/sentry/tagstore/snuba/backend.py:354-360 | the OR-group holds exactly for the events whose identity column equals a non-empty value some user has in that field |
| `SnubaBackend.GroupIdsForUsersQuery` | src/sentry/tagstore/snuba/backend.py:349-364 | issues for users: the project list as filter, the user OR-group, `max` seen, group-by `issue`, orderby `-seen`, the limit |
| `SnubaBackend.GroupIdsForUsersQuerySelects` | src/sentry/tagstore/snuba/backend.py:349-364 | covers the events of the listed projects that match one of the users |
| `SnubaBackend.GetGroupIdsForUsers` | src/sentry/tagstore/snuba/backend.py:349-365 | the answer's issue ids, in order |
| `SnubaBackend.UserProjects` | src/sentry/tagstore/snuba/backend.py:370 | one project entry per user, in order, repeats kept |
| `SnubaBackend.GroupTagValuesForUsersQuery` | src/sentry/tagstore/snuba/backend.py:367-386 | user statistics: one project filter entry per user (repeats kept), the user OR-group, group-by `user_id`, orderby `-last_seen`, the limit |
| `SnubaBackend.GroupTagValuesForUsersQuerySelects` | src/sentry/tagstore/snuba/backend.py:367-386 | covers the events of the users' projects that match one of the users |
| `SnubaBackend.GetGroupTagValuesForUsers` | src/sentry/tagstore/snuba/backend.py:367-394 | one wrapper labelled `sentry:user` per answer row, with the user id as value |
| `SnubaBackend.EmptyUserOrGroup` | src/sentry/tagstore/snuba/backend.py:354-378 | with no identity field set, both user queries still send `[[]]`, which selects no event |
| `SnubaBackend.GroupsUserCountsQuery` | src/sentry/tagstore/snuba/backend.py:396-405 | user counts: the issue-list filters, conditions `None`, `uniq(user_id)`, group-by `issue` |
| `SnubaBackend.GroupsUserCountsQuerySelects` | src/sentry/tagstore/snuba/backend.py:396-405 | user counts cover every event in scope of the listed issues |
| `SnubaBackend.UserCounts.Get` | src/sentry/tagstore/snuba/backend.py:406 | a `defaultdict(int)` read: a present issue reads its count, any other issue reads 0 |
| `SnubaBackend.GetGroupsUserCounts` | src/sentry/tagstore/snuba/backend.py:396-406 | every issue in the answer reads its count; any other issue reads 0; no count is negative when the answer's are not |
| `SnubaBackend.GetGroupIdsForSearchFilter` | src/sentry/tagstore/snuba/backend.py:408-410 | always the not-implemented error, whatever the arguments |

## Left out

- `snuba.query` itself is not modelled: it is network I/O to an engine whose code is not part of this model. Each operation takes it as the parameter `engine`.
- `Selects` is a literal reading of a descriptor, not the engine's own semantics. It covers which events are read, with SQL's rule that a comparison with a missing column does not hold. Aggregation, limit and ordering are left to the engine.
- The ordering guarantees of `KeysFromRowsDescending` and `GetTopGroupTagValues` hold only if the engine honours the orderby it is given.
- `first_seen <= last_seen` comes from the engine's `min`/`max`. The mappers copy the aggregates unchanged, so the invariant is the engine's.
- `timezone.now()` is a wall-clock read; it is the parameter `now`. Timestamps are integer seconds and `timedelta(days=d)` is `d * 86400` seconds.
- `ObjectWrapperSerializer` and `@register` are API serialisation plumbing.
- The commented-out `get_group_tag_keys_and_top_values` block is dead code.
- The classes `TagKey`, `TagValue`, `GroupTagKey`, `GroupTagValue` and the exception classes are defined in files that are not part of this model. They are modelled only by the fields used here.
- `TagKeyStatus` is defined elsewhere. Only its visible member matters here, because `get_tag_key` and `get_tag_keys` assert that status.
- Python dictionaries are modelled as sequences of (key, row) pairs in the engine's order, or as Dafny maps where the result is itself a dictionary.
- `ObjectWrapper`'s `__dict__` attribute bag is modelled as a record with fixed fields.
- The translation of environment ids into engine filters is done by the Snuba utility, which is not part of this model. Filter values are matched literally, and an absent environment id is `Null`.
- An event user's field that is `None` and one that is `""` are both `""`. Both are falsy and both are skipped.
- Omitted `snuba.query` arguments are `None`, and omitted aggregations are `[]`.
- `GetRelease`: `result.keys()[0]` takes an arbitrary key of a Python 2 dictionary. The model takes the first pair of the answer, which with `limit=1` is its only pair.
