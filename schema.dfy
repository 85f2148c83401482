/** The journal's tables: entries, tags, the entry_tags link table and
    the body maps. A row is a value; a table is a sequence of rows in
    table order. The constraints the schema declares become predicates
    over the tables that every store operation keeps. */
module Schema {
  import opened Base

  /** Timestamps are milliseconds since the epoch. */
  type Timestamp = int

  /** `title` and `content` are NOT NULL, so they are plain strings;
      `image_url` is nullable. `date` and `updated_at` default to the
      insertion time. */
  datatype Entry = Entry(
    id: nat,
    title: string,
    content: string,
    date: Timestamp,
    imageUrl: Option<string>,
    updatedAt: Timestamp)

  datatype Tag = Tag(id: nat, name: string)

  /** A link row. The table has no primary key and no uniqueness
      constraint, so the same (entry, tag) pair may appear twice. */
  datatype EntryTag = EntryTag(entryId: nat, tagId: nat)

  /** The body_maps table is not declared in the schema file: its columns
      are the ones the routes read and write. Every column but the id and
      the two timestamps is taken to be nullable. */
  datatype BodyMap = BodyMap(
    id: nat,
    sensations: Option<string>,
    emotionalState: Option<string>,
    notes: Option<string>,
    relatedMemoryId: Option<int>,
    date: Timestamp,
    updatedAt: Timestamp)

  function EntryIds(entries: seq<Entry>): set<nat>
  {
    set e | e in entries :: e.id
  }

  function TagIds(tags: seq<Tag>): set<nat>
  {
    set t | t in tags :: t.id
  }

  function TagNames(tags: seq<Tag>): set<string>
  {
    set t | t in tags :: t.name
  }

  function EntryKey(e: Entry): nat { e.id }
  function TagKey(t: Tag): nat { t.id }
  function TagName(t: Tag): string { t.name }
  function BodyMapKey(m: BodyMap): nat { m.id }

  /** `entries.id` is a serial primary key: unique and below the next
      value of its sequence. */
  ghost predicate EntryKeys(entries: seq<Entry>, nextId: nat)
  {
    && DistinctKeys(entries, EntryKey)
    && (forall k :: 0 <= k < |entries| ==> entries[k].id < nextId)
  }

  /** `tags.id` is a serial primary key and `tags.name` is unique. */
  ghost predicate TagKeys(tags: seq<Tag>, nextId: nat)
  {
    && DistinctKeys(tags, TagKey)
    && DistinctKeys(tags, TagName)
    && (forall k :: 0 <= k < |tags| ==> tags[k].id < nextId)
  }

  /** Both columns of entry_tags are foreign keys. */
  ghost predicate LinksReference(entries: seq<Entry>, tags: seq<Tag>, links: seq<EntryTag>)
  {
    forall k :: 0 <= k < |links| ==>
      links[k].entryId in EntryIds(entries) && links[k].tagId in TagIds(tags)
  }

  ghost predicate BodyMapKeys(maps: seq<BodyMap>, nextId: nat)
  {
    && DistinctKeys(maps, BodyMapKey)
    && (forall k :: 0 <= k < |maps| ==> maps[k].id < nextId)
  }

  /** Every constraint of the schema at once. */
  ghost predicate TablesValid(
    entries: seq<Entry>, tags: seq<Tag>, links: seq<EntryTag>, maps: seq<BodyMap>,
    nextEntryId: nat, nextTagId: nat, nextMapId: nat)
  {
    && EntryKeys(entries, nextEntryId)
    && TagKeys(tags, nextTagId)
    && LinksReference(entries, tags, links)
    && BodyMapKeys(maps, nextMapId)
  }

  /** The row an insert of an entry produces from its defaults: the next
      serial id and `date = updated_at = now`. */
  function NewEntry(id: nat, title: string, content: string, imageUrl: Option<string>, now: Timestamp): Entry
  {
    Entry(id, title, content, now, imageUrl, now)
  }

  function EntryDate(e: Entry): int
  {
    e.date
  }

  function BodyMapDate(m: BodyMap): int
  {
    m.date
  }
}
