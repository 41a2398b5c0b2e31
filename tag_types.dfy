/**
 * The records the tag store returns and the errors it raises.
 *
 * `TagKey`, `GroupTagKey`, `TagValue` and `GroupTagValue` are one datatype
 * tagged by class, so that a record of one class carrying the attributes of
 * another (the value lookup builds key-class records) can be written down.
 */
module TagTypes {
  import opened Wrappers

  /** The status a caller may ask keys for; only `Visible` is served. */
  datatype TagKeyStatus = Visible | OtherStatus(code: int)

  /** The three aggregates of a value query: `times_seen`, `first_seen`, `last_seen`. */
  datatype Stats = Stats(timesSeen: int, firstSeen: int, lastSeen: int)

  /** The class a record is constructed with. */
  datatype Kind = TagKeyKind | GroupTagKeyKind | TagValueKind | GroupTagValueKind

  predicate IsGroupKind(k: Kind) {
    k == GroupTagKeyKind || k == GroupTagValueKind
  }

  /** The keyword arguments a record is built from, besides `key` and `group_id`. */
  datatype Attrs = KeyAttrs(valuesSeen: int) | ValueAttrs(value: string, stats: Stats)

  datatype TagRecord = TagRecord(kind: Kind, groupId: Option<int>, key: string, attrs: Attrs)

  /**
   * A record constructor chosen once per call: a class, with `group_id`
   * bound in advance when the call is scoped to an issue.
   */
  datatype Ctor = Ctor(kind: Kind, groupId: Option<int>)

  /** A constructor is well formed when it binds a group id exactly for the issue-scoped classes. */
  predicate WellScoped(c: Ctor) {
    IsGroupKind(c.kind) <==> c.groupId.Some?
  }

  function Apply(c: Ctor, key: string, attrs: Attrs): TagRecord {
    TagRecord(c.kind, c.groupId, key, attrs)
  }

  /**
   * The labelled record for statistics that are not tags (releases, users):
   * the wrapped dictionary's fields, with `id` forced to 0.
   */
  datatype ObjectWrapper = ObjectWrapper(
    id: int, key: string, value: string, timesSeen: int, firstSeen: int, lastSeen: int)

  /** The dictionary an `ObjectWrapper` is built from. */
  datatype Labelled = Labelled(key: string, value: string, stats: Stats)

  /** The dictionary a wrapper exposes, without its synthetic identity. */
  function Unwrap(w: ObjectWrapper): Labelled {
    Labelled(w.key, w.value, Stats(w.timesSeen, w.firstSeen, w.lastSeen))
  }

  /** `ObjectWrapper(dictionary)`: every wrapper has identity 0 and keeps the whole dictionary. */
  function Wrap(d: Labelled): (w: ObjectWrapper)
    ensures w.id == 0
    ensures Unwrap(w) == d
  {
    ObjectWrapper(0, d.key, d.value, d.stats.timesSeen, d.stats.firstSeen, d.stats.lastSeen)
  }

  /** The exceptions the tag store raises. */
  datatype TagStoreError =
    | TagKeyNotFound
    | GroupTagKeyNotFound
    | TagValueNotFound
    | GroupTagValueNotFound
    | NotImplemented

  /**
   * The fields of an event user that the user queries read. An absent
   * (`None`) or empty field is `""`: both are falsy and both are skipped.
   */
  datatype EventUser = EventUser(projectId: int, ident: string, email: string, username: string, ipAddress: string)
}
