/** The entry, tag and body-map routes of the server, over in-memory
    tables. Each route that writes runs as one transaction: either every
    write of the route happens or none does. */
module EntryStore {
  import opened Base
  import opened Schema
  import Ordering

  /** Why a transaction is rolled back. */
  datatype DbError =
    | NotNullViolation   // a NOT NULL column was given no value
    | UniqueViolation    // two tag rows with one name
    | EntryNotFound      // the update matched no row

  /** The request carries a non-empty tag list (`tagNames?.length` is truthy). */
  predicate NamesGiven(tagNames: Option<seq<string>>)
  {
    tagNames.Some? && |tagNames.value| > 0
  }

  predicate HasDuplicates(s: seq<string>)
  {
    exists i, j :: 0 <= i < j < |s| && s[i] == s[j]
  }

  function NameSet(names: seq<string>): set<string>
  {
    set n | n in names
  }

  // ---------------------------------------------------------------------
  // Tag resolution: reuse the rows that exist, insert the missing names.
  // ---------------------------------------------------------------------

  /** `findMany({ where: name in tagNames })`: existing rows, in table order. */
  function ExistingTags(tags: seq<Tag>, names: seq<string>): seq<Tag>
  {
    Filter(tags, NameIn(names))
  }

  /** The filter of `findMany({ where: name in tagNames })`. */
  function NameIn(names: seq<string>): Tag -> bool
  {
    (t: Tag) => t.name in names
  }

  /** `tagNames.filter(name => !existingTagNames.has(name))`; a name given
      twice stays twice. */
  function MissingNames(tags: seq<Tag>, names: seq<string>): seq<string>
  {
    Filter(names, (n: string) => n !in TagNames(tags))
  }

  /** The rows a multi-row insert of `names` returns, with serial ids. */
  function NewTagRows(names: seq<string>, firstId: nat): seq<Tag>
  {
    seq(|names|, k requires 0 <= k < |names| => Tag(firstId + k, names[k]))
  }

  datatype Resolution = Resolution(tags: seq<Tag>, nextTagId: nat, linked: seq<Tag>)

  /** Resolves the names of a request to tag rows. The rows to link are the
      existing ones followed by the inserted ones (`existingTags.push(...newTags)`).
      A missing name given twice makes the insert violate the unique
      name constraint. */
  function ResolveTags(tags: seq<Tag>, nextTagId: nat, names: seq<string>): Result<Resolution, DbError>
  {
    var missing := MissingNames(tags, names);
    if HasDuplicates(missing) then Failure(UniqueViolation)
    else
      var rows := NewTagRows(missing, nextTagId);
      Success(Resolution(tags + rows, nextTagId + |missing|, ExistingTags(tags, names) + rows))
  }

  lemma NewTagRowsFacts(tags: seq<Tag>, names: seq<string>, nextTagId: nat)
    requires TagKeys(tags, nextTagId)
    requires !HasDuplicates(MissingNames(tags, names))
    ensures var rows := NewTagRows(MissingNames(tags, names), nextTagId);
      && (forall k :: 0 <= k < |rows| ==> rows[k].name !in TagNames(tags) && rows[k].name in names)
      && (forall k :: 0 <= k < |rows| ==> rows[k].id >= nextTagId)
      && (forall i, j :: 0 <= i < j < |rows| ==> rows[i].id != rows[j].id && rows[i].name != rows[j].name)
  {
    var missing := MissingNames(tags, names);
    var rows := NewTagRows(missing, nextTagId);
    forall k | 0 <= k < |rows| ensures rows[k].name !in TagNames(tags) && rows[k].name in names {
      assert rows[k].name == missing[k];
    }
    forall i, j | 0 <= i < j < |rows| ensures rows[i].name != rows[j].name {
      assert rows[i].name == missing[i] && rows[j].name == missing[j];
    }
  }

  /** The tag table after resolution obeys the schema, keeps its old rows
      and adds rows only for names it did not have. */
  lemma ResolvedTagTable(tags: seq<Tag>, nextTagId: nat, names: seq<string>)
    requires TagKeys(tags, nextTagId)
    requires ResolveTags(tags, nextTagId, names).Success?
    ensures var res := ResolveTags(tags, nextTagId, names).value;
      && |res.tags| >= |tags| && res.tags[..|tags|] == tags
      && res.nextTagId >= nextTagId
      && TagKeys(res.tags, res.nextTagId)
      && (forall k :: |tags| <= k < |res.tags| ==> res.tags[k].name !in TagNames(tags))
  {
    var missing := MissingNames(tags, names);
    var rows := NewTagRows(missing, nextTagId);
    var all := tags + rows;
    ResolvedTagKeys(tags, nextTagId, names);
    NewTagRowsFacts(tags, names, nextTagId);
    forall k | |tags| <= k < |all| ensures all[k].name !in TagNames(tags) {
      assert all[k] == rows[k - |tags|];
    }
    assert all[..|tags|] == tags;
  }

  lemma ResolvedTagKeys(tags: seq<Tag>, nextTagId: nat, names: seq<string>)
    requires TagKeys(tags, nextTagId)
    requires !HasDuplicates(MissingNames(tags, names))
    ensures TagKeys(tags + NewTagRows(MissingNames(tags, names), nextTagId), nextTagId + |MissingNames(tags, names)|)
  {
    var missing := MissingNames(tags, names);
    var all := tags + NewTagRows(missing, nextTagId);
    ResolvedTagsDistinct(tags, nextTagId, names);
    assert forall k :: 0 <= k < |all| ==> all[k].id < nextTagId + |missing|;
  }

  lemma ResolvedTagsDistinct(tags: seq<Tag>, nextTagId: nat, names: seq<string>)
    requires TagKeys(tags, nextTagId)
    requires !HasDuplicates(MissingNames(tags, names))
    ensures var all := tags + NewTagRows(MissingNames(tags, names), nextTagId);
      forall i, j :: 0 <= i < j < |all| ==> all[i].name != all[j].name && all[i].id != all[j].id
  {
    var missing := MissingNames(tags, names);
    var rows := NewTagRows(missing, nextTagId);
    var all := tags + rows;
    NewTagRowsFacts(tags, names, nextTagId);
    forall i, j | 0 <= i < j < |all| ensures all[i].name != all[j].name && all[i].id != all[j].id {
      if j >= |tags| && i < |tags| {
        assert all[i] in tags;
        assert all[i].name in TagNames(tags);
        assert all[j] == rows[j - |tags|];
      } else if i >= |tags| {
        assert all[i] == rows[i - |tags|] && all[j] == rows[j - |tags|];
      }
    }
  }

  /** After resolution every requested name has a row, and no other name
      was added. */
  lemma ResolvedNames(tags: seq<Tag>, nextTagId: nat, names: seq<string>)
    requires TagKeys(tags, nextTagId)
    requires ResolveTags(tags, nextTagId, names).Success?
    ensures TagNames(ResolveTags(tags, nextTagId, names).value.tags) == TagNames(tags) + NameSet(names)
  {
    var missing := MissingNames(tags, names);
    var rows := NewTagRows(missing, nextTagId);
    var all := tags + rows;
    NewTagRowsFacts(tags, names, nextTagId);
    forall n | n in TagNames(all) ensures n in TagNames(tags) + NameSet(names) {
      var t :| t in all && t.name == n;
      if t !in tags {
        var k :| 0 <= k < |rows| && rows[k] == t;
      }
    }
    forall n | n in NameSet(names) && n !in TagNames(tags) ensures n in TagNames(all) {
      var m :| 0 <= m < |names| && names[m] == n;
      assert names[m] in missing;
      var k :| 0 <= k < |missing| && missing[k] == n;
      assert rows[k] in all;
    }
    forall n | n in TagNames(tags) ensures n in TagNames(all) {
      var t :| t in tags && t.name == n;
      assert t in all;
    }
  }

  /** The tags to link carry exactly the requested names. */
  lemma LinkedTagNames(tags: seq<Tag>, nextTagId: nat, names: seq<string>)
    requires TagKeys(tags, nextTagId)
    requires ResolveTags(tags, nextTagId, names).Success?
    ensures TagNames(ResolveTags(tags, nextTagId, names).value.linked) == NameSet(names)
  {
    RequestedNamesLinked(tags, nextTagId, names);
    LinkedNamesRequested(tags, nextTagId, names);
  }

  lemma RequestedNamesLinked(tags: seq<Tag>, nextTagId: nat, names: seq<string>)
    requires ResolveTags(tags, nextTagId, names).Success?
    ensures NameSet(names) <= TagNames(ResolveTags(tags, nextTagId, names).value.linked)
  {
    var missing := MissingNames(tags, names);
    var rows := NewTagRows(missing, nextTagId);
    var existing := ExistingTags(tags, names);
    var linked := existing + rows;
    forall n | n in NameSet(names) ensures n in TagNames(linked) {
      if n in TagNames(tags) {
        var t :| t in tags && t.name == n;
        var k :| 0 <= k < |tags| && tags[k] == t;
        assert tags[k] in existing;
        assert t in linked;
      } else {
        var m :| 0 <= m < |names| && names[m] == n;
        assert names[m] in missing;
        var k :| 0 <= k < |missing| && missing[k] == n;
        assert rows[k] in linked;
      }
    }
  }

  lemma LinkedNamesRequested(tags: seq<Tag>, nextTagId: nat, names: seq<string>)
    requires TagKeys(tags, nextTagId)
    requires ResolveTags(tags, nextTagId, names).Success?
    ensures TagNames(ResolveTags(tags, nextTagId, names).value.linked) <= NameSet(names)
  {
    var missing := MissingNames(tags, names);
    var rows := NewTagRows(missing, nextTagId);
    var existing := ExistingTags(tags, names);
    var linked := existing + rows;
    NewTagRowsFacts(tags, names, nextTagId);
    forall n | n in TagNames(linked) ensures n in NameSet(names) {
      var t :| t in linked && t.name == n;
      var k :| 0 <= k < |linked| && linked[k] == t;
      if k < |existing| {
        assert existing[k].name in names;
      } else {
        assert rows[k - |existing|].name in names;
      }
    }
  }

  /** The rows to link are rows of the new table, each at most once. */
  lemma ResolvedLinks(tags: seq<Tag>, nextTagId: nat, names: seq<string>)
    requires TagKeys(tags, nextTagId)
    requires ResolveTags(tags, nextTagId, names).Success?
    ensures var res := ResolveTags(tags, nextTagId, names).value;
      && (forall k :: 0 <= k < |res.linked| ==> res.linked[k] in res.tags)
      && DistinctKeys(res.linked, TagKey)
  {
    ResolvedLinksInTable(tags, nextTagId, names);
    ResolvedLinksDistinct(tags, nextTagId, names);
  }

  lemma ResolvedLinksInTable(tags: seq<Tag>, nextTagId: nat, names: seq<string>)
    requires ResolveTags(tags, nextTagId, names).Success?
    ensures var res := ResolveTags(tags, nextTagId, names).value;
      forall k :: 0 <= k < |res.linked| ==> res.linked[k] in res.tags
  {
    var missing := MissingNames(tags, names);
    var rows := NewTagRows(missing, nextTagId);
    var all := tags + rows;
    var existing := ExistingTags(tags, names);
    var linked := existing + rows;
    forall k | 0 <= k < |linked| ensures linked[k] in all {
      if k < |existing| {
        assert existing[k] in tags;
      } else {
        assert linked[k] == rows[k - |existing|];
      }
    }
  }

  lemma ResolvedLinksDistinct(tags: seq<Tag>, nextTagId: nat, names: seq<string>)
    requires TagKeys(tags, nextTagId)
    requires ResolveTags(tags, nextTagId, names).Success?
    ensures DistinctKeys(ResolveTags(tags, nextTagId, names).value.linked, TagKey)
  {
    var missing := MissingNames(tags, names);
    var rows := NewTagRows(missing, nextTagId);
    var existing := ExistingTags(tags, names);
    var linked := existing + rows;
    NewTagRowsFacts(tags, names, nextTagId);
    FilterKeepsDistinctKeys(tags, NameIn(names), TagKey);
    assert DistinctKeys(existing, TagKey);
    assert forall k :: 0 <= k < |existing| ==> existing[k].id < nextTagId by {
      forall k | 0 <= k < |existing| ensures existing[k].id < nextTagId {
        assert existing[k] in tags;
      }
    }
    forall i, j | 0 <= i < j < |linked| ensures linked[i].id != linked[j].id {
      if i < |existing| && j >= |existing| {
        assert linked[j] == rows[j - |existing|];
      } else if i >= |existing| {
        assert linked[i] == rows[i - |existing|] && linked[j] == rows[j - |existing|];
      }
    }
  }

  /** Resolution fails, with a unique-constraint violation, exactly when a
      name that has no row is requested twice. */
  lemma ResolveTagsFails(tags: seq<Tag>, nextTagId: nat, names: seq<string>)
    ensures ResolveTags(tags, nextTagId, names).Failure? <==> HasDuplicates(MissingNames(tags, names))
    ensures ResolveTags(tags, nextTagId, names).Failure? ==> ResolveTags(tags, nextTagId, names).error == UniqueViolation
  {
  }

  // ---------------------------------------------------------------------
  // Link rows.
  // ---------------------------------------------------------------------

  /** `existingTags.map(tag => ({ entryId, tagId: tag.id }))`. */
  function Links(entryId: nat, linked: seq<Tag>): seq<EntryTag>
  {
    seq(|linked|, k requires 0 <= k < |linked| => EntryTag(entryId, linked[k].id))
  }

  /** `entry_id = id`. */
  function OfEntry(entryId: int): EntryTag -> bool
  {
    (l: EntryTag) => l.entryId == entryId
  }

  function NotOfEntry(entryId: int): EntryTag -> bool
  {
    (l: EntryTag) => l.entryId != entryId
  }

  /** The link rows of one entry, in table order. */
  function LinksOf(links: seq<EntryTag>, entryId: nat): seq<EntryTag>
  {
    Filter(links, OfEntry(entryId))
  }

  /** `DELETE FROM entry_tags WHERE entry_id = id`. */
  function Unlink(links: seq<EntryTag>, entryId: int): seq<EntryTag>
  {
    Filter(links, NotOfEntry(entryId))
  }

  /** The tag ids an entry is linked to. */
  function LinkedTagIds(links: seq<EntryTag>, entryId: nat): set<nat>
  {
    set l | l in links && l.entryId == entryId :: l.tagId
  }

  /** The names of the tags an entry is linked to. */
  function TagNamesOfEntry(tags: seq<Tag>, links: seq<EntryTag>, entryId: nat): set<string>
  {
    set t | t in tags && t.id in LinkedTagIds(links, entryId) :: t.name
  }

  lemma AppendedLinkIds(links: seq<EntryTag>, entryId: nat, linked: seq<Tag>)
    requires forall k :: 0 <= k < |links| ==> links[k].entryId != entryId
    ensures LinkedTagIds(links + Links(entryId, linked), entryId) == TagIds(linked)
  {
    var all := links + Links(entryId, linked);
    forall id | id in LinkedTagIds(all, entryId) ensures id in TagIds(linked) {
      var l :| l in all && l.entryId == entryId && l.tagId == id;
      var m :| 0 <= m < |all| && all[m] == l;
      assert m >= |links|;
      assert linked[m - |links|] in linked;
    }
    forall id | id in TagIds(linked) ensures id in LinkedTagIds(all, entryId) {
      var t :| t in linked && t.id == id;
      var k :| 0 <= k < |linked| && linked[k] == t;
      assert all[|links| + k] in all;
    }
  }

  /** Links appended for an entry that had none name exactly the linked tags. */
  lemma LinkedNames(tags: seq<Tag>, nextTagId: nat, links: seq<EntryTag>, entryId: nat, linked: seq<Tag>)
    requires TagKeys(tags, nextTagId)
    requires forall k :: 0 <= k < |links| ==> links[k].entryId != entryId
    requires forall k :: 0 <= k < |linked| ==> linked[k] in tags
    ensures TagNamesOfEntry(tags, links + Links(entryId, linked), entryId) == TagNames(linked)
  {
    var all := links + Links(entryId, linked);
    AppendedLinkIds(links, entryId, linked);
    var ids := LinkedTagIds(all, entryId);
    forall n | n in TagNamesOfEntry(tags, all, entryId) ensures n in TagNames(linked) {
      var t :| t in tags && t.id in ids && t.name == n;
      var u :| u in linked && u.id == t.id;
      var k :| 0 <= k < |linked| && linked[k] == u;
      var i :| 0 <= i < |tags| && tags[i] == t;
      var j :| 0 <= j < |tags| && tags[j] == u;
      assert i == j;
    }
    forall n | n in TagNames(linked) ensures n in TagNamesOfEntry(tags, all, entryId) {
      var t :| t in linked && t.name == n;
      var k :| 0 <= k < |linked| && linked[k] == t;
      assert t in tags && t.id in ids;
    }
  }

  lemma {:induction false} UnlinkOther(links: seq<EntryTag>, entryId: nat, other: nat)
    requires other != entryId
    ensures LinksOf(Unlink(links, entryId), other) == LinksOf(links, other)
  {
    if |links| > 0 {
      UnlinkOther(links[1..], entryId, other);
      assert links == [links[0]] + links[1..];
      FilterAppend([links[0]], links[1..], NotOfEntry(entryId));
      FilterAppend(Unlink([links[0]], entryId), Unlink(links[1..], entryId), OfEntry(other));
      FilterAppend([links[0]], links[1..], OfEntry(other));
    }
  }

  lemma {:induction false} UnlinkSelf(links: seq<EntryTag>, entryId: nat)
    ensures LinksOf(Unlink(links, entryId), entryId) == []
  {
    if |links| > 0 {
      UnlinkSelf(links[1..], entryId);
      assert links == [links[0]] + links[1..];
      FilterAppend([links[0]], links[1..], NotOfEntry(entryId));
      FilterAppend(Unlink([links[0]], entryId), Unlink(links[1..], entryId), OfEntry(entryId));
    }
  }

  lemma AppendedLinksOf(links: seq<EntryTag>, entryId: nat, linked: seq<Tag>, other: nat)
    ensures LinksOf(Links(entryId, linked), other) == if other == entryId then Links(entryId, linked) else []
  {
    var added := Links(entryId, linked);
    if other == entryId {
      FilterAll(added, OfEntry(entryId));
    } else {
      FilterNone(added, OfEntry(other));
    }
  }

  /** Replacing an entry's links leaves the links of every other entry as
      they were, row for row, and gives the entry exactly the new links. */
  lemma RelinkSpec(links: seq<EntryTag>, entryId: nat, linked: seq<Tag>, other: nat)
    ensures LinksOf(Unlink(links, entryId) + Links(entryId, linked), entryId) == Links(entryId, linked)
    ensures other != entryId ==>
      LinksOf(Unlink(links, entryId) + Links(entryId, linked), other) == LinksOf(links, other)
  {
    var added := Links(entryId, linked);
    FilterAppend(Unlink(links, entryId), added, OfEntry(entryId));
    UnlinkSelf(links, entryId);
    AppendedLinksOf(links, entryId, linked, entryId);
    if other != entryId {
      FilterAppend(Unlink(links, entryId), added, OfEntry(other));
      UnlinkOther(links, entryId, other);
      AppendedLinksOf(links, entryId, linked, other);
    }
  }

  // ---------------------------------------------------------------------
  // Search.
  // ---------------------------------------------------------------------

  /** The text between the `%` of `%${q}%`: a missing `q` is rendered by the
      template literal as the word "undefined". */
  function LikePattern(q: Option<string>): string
  {
    match q
    case Some(s) => s
    case None => "undefined"
  }

  /** The ids in `SELECT entry_id FROM entry_tags JOIN tags ON tags.id = tag_id WHERE tags.name = name`. */
  function EntryIdsTagged(tags: seq<Tag>, links: seq<EntryTag>, name: string): set<nat>
  {
    set l, t | l in links && t in tags && t.id == l.tagId && t.name == name :: l.entryId
  }

  predicate SearchMatch(e: Entry, tags: seq<Tag>, links: seq<EntryTag>, q: Option<string>, tag: Option<string>)
  {
    && Contains(e.content, LikePattern(q))
    && (Truthy(tag) ==> e.id in EntryIdsTagged(tags, links, tag.value))
  }

  function Matches(tags: seq<Tag>, links: seq<EntryTag>, q: Option<string>, tag: Option<string>): Entry -> bool
  {
    (e: Entry) => SearchMatch(e, tags, links, q, tag)
  }

  /** `GET /api/search?q&tag`: the matching entries, newest first. */
  function SearchResults(entries: seq<Entry>, tags: seq<Tag>, links: seq<EntryTag>, q: Option<string>, tag: Option<string>): (r: seq<Entry>)
    ensures Ordering.SortedDesc(r, EntryDate)
    ensures forall e :: multiset(r)[e] == if SearchMatch(e, tags, links, q, tag) then multiset(entries)[e] else 0
  {
    var hits := Filter(entries, Matches(tags, links, q, tag));
    FilterMultiplicity(entries, Matches(tags, links, q, tag));
    Ordering.SortDesc(hits, EntryDate)
  }

  lemma {:induction false} FilterMultiplicity(s: seq<Entry>, p: Entry -> bool)
    ensures forall e :: multiset(Filter(s, p))[e] == if p(e) then multiset(s)[e] else 0
  {
    if |s| > 0 {
      FilterMultiplicity(s[1..], p);
      assert s == [s[0]] + s[1..];
    }
  }

  /** With no `q` the content filter still applies, to the word "undefined":
      an entry whose content lacks that word is never found. */
  lemma SearchWithoutQuery()
    ensures SearchResults([Entry(1, "Walk", "hello", 0, None, 0)], [], [], None, None) == []
  {
    var e := Entry(1, "Walk", "hello", 0, None, 0);
    assert !Contains(e.content, LikePattern(None));
    var r := SearchResults([e], [], [], None, None);
    assert multiset(r)[e] == 0;
    forall x ensures multiset(r)[x] == 0 {
    }
    assert multiset(r) == multiset{};
  }

  /** The evident intent of the route: no `q`, no content filter. */
  function IntendedPattern(q: Option<string>): string
  {
    q.GetOr("")
  }

  predicate IntendedMatch(e: Entry, tags: seq<Tag>, links: seq<EntryTag>, q: Option<string>, tag: Option<string>)
  {
    && Contains(e.content, IntendedPattern(q))
    && (Truthy(tag) ==> e.id in EntryIdsTagged(tags, links, tag.value))
  }

  function IntendedMatches(tags: seq<Tag>, links: seq<EntryTag>, q: Option<string>, tag: Option<string>): Entry -> bool
  {
    (e: Entry) => IntendedMatch(e, tags, links, q, tag)
  }

  function IntendedSearchResults(entries: seq<Entry>, tags: seq<Tag>, links: seq<EntryTag>, q: Option<string>, tag: Option<string>): (r: seq<Entry>)
    ensures Ordering.SortedDesc(r, EntryDate)
    ensures forall e :: multiset(r)[e] == if IntendedMatch(e, tags, links, q, tag) then multiset(entries)[e] else 0
  {
    FilterMultiplicity(entries, IntendedMatches(tags, links, q, tag));
    Ordering.SortDesc(Filter(entries, IntendedMatches(tags, links, q, tag)), EntryDate)
  }

  /** Without `q` and `tag` the intended search lists every entry. */
  lemma IntendedSearchWithoutQuery(entries: seq<Entry>, tags: seq<Tag>, links: seq<EntryTag>)
    ensures multiset(IntendedSearchResults(entries, tags, links, None, None)) == multiset(entries)
  {
    var r := IntendedSearchResults(entries, tags, links, None, None);
    forall e ensures multiset(r)[e] == multiset(entries)[e] {
      assert OccursAt("", e.content, 0);
    }
  }

  // ---------------------------------------------------------------------
  // What the read routes return: an entry with its links and their tags
  // (`with: { entryTags: { with: { tag: true } } }`).
  // ---------------------------------------------------------------------

  /** The row of `tags` with the given id, if any. */
  function TagById(tags: seq<Tag>, id: nat): (r: Option<Tag>)
    ensures r.Some? ==> r.value in tags && r.value.id == id
    ensures r.None? <==> id !in TagIds(tags)
  {
    match FirstIndex(tags, (t: Tag) => t.id == id)
    case None => None
    case Some(i) => Some(tags[i])
  }

  datatype LinkView = LinkView(entryId: nat, tagId: nat, tag: Option<Tag>)
  datatype EntryView = EntryView(entry: Entry, entryTags: seq<LinkView>)

  function ViewOf(tags: seq<Tag>, links: seq<EntryTag>, e: Entry): EntryView
  {
    var own := LinksOf(links, e.id);
    EntryView(e, seq(|own|, k requires 0 <= k < |own| => LinkView(own[k].entryId, own[k].tagId, TagById(tags, own[k].tagId))))
  }

  function Views(tags: seq<Tag>, links: seq<EntryTag>, es: seq<Entry>): seq<EntryView>
  {
    seq(|es|, k requires 0 <= k < |es| => ViewOf(tags, links, es[k]))
  }

  function ViewEntries(vs: seq<EntryView>): seq<Entry>
  {
    seq(|vs|, k requires 0 <= k < |vs| => vs[k].entry)
  }

  /** Viewing rows keeps them, in order, each with its own links. */
  lemma ViewsKeepEntries(tags: seq<Tag>, links: seq<EntryTag>, es: seq<Entry>)
    ensures ViewEntries(Views(tags, links, es)) == es
    ensures forall k :: 0 <= k < |es| ==> Views(tags, links, es)[k] == ViewOf(tags, links, Views(tags, links, es)[k].entry)
  {
    var vs := Views(tags, links, es);
    assert ViewEntries(vs) == es;
  }

  /** The names the client reads off a view (`entryTags.map(et => et.tag.name)`). */
  function ViewTagNames(v: EntryView): set<string>
  {
    set lv | lv in v.entryTags && lv.tag.Some? :: lv.tag.value.name
  }

  /** In a consistent database every link of a view finds its tag, and the
      names a view shows are exactly the names the entry is linked to. */
  lemma ViewShowsLinkedNames(tags: seq<Tag>, links: seq<EntryTag>, entries: seq<Entry>, nextTagId: nat, e: Entry)
    requires TagKeys(tags, nextTagId)
    requires LinksReference(entries, tags, links)
    ensures forall lv :: lv in ViewOf(tags, links, e).entryTags ==> lv.tag.Some? && lv.entryId == e.id
    ensures ViewTagNames(ViewOf(tags, links, e)) == TagNamesOfEntry(tags, links, e.id)
  {
    ViewLinksResolve(tags, links, entries, e);
    ViewNamesLinked(tags, links, e);
    LinkedNamesViewed(tags, links, nextTagId, e);
  }

  lemma ViewLinksResolve(tags: seq<Tag>, links: seq<EntryTag>, entries: seq<Entry>, e: Entry)
    requires LinksReference(entries, tags, links)
    ensures forall lv :: lv in ViewOf(tags, links, e).entryTags ==> lv.tag.Some? && lv.entryId == e.id
  {
    var v := ViewOf(tags, links, e);
    var own := LinksOf(links, e.id);
    forall lv | lv in v.entryTags ensures lv.tag.Some? && lv.entryId == e.id {
      var k :| 0 <= k < |v.entryTags| && v.entryTags[k] == lv;
      assert own[k] in links;
      var m :| 0 <= m < |links| && links[m] == own[k];
    }
  }

  lemma ViewNamesLinked(tags: seq<Tag>, links: seq<EntryTag>, e: Entry)
    ensures ViewTagNames(ViewOf(tags, links, e)) <= TagNamesOfEntry(tags, links, e.id)
  {
    var v := ViewOf(tags, links, e);
    var own := LinksOf(links, e.id);
    forall n | n in ViewTagNames(v) ensures n in TagNamesOfEntry(tags, links, e.id) {
      var lv :| lv in v.entryTags && lv.tag.Some? && lv.tag.value.name == n;
      var k :| 0 <= k < |v.entryTags| && v.entryTags[k] == lv;
      assert own[k] in links && own[k].entryId == e.id;
      assert lv.tag.value.id in LinkedTagIds(links, e.id);
    }
  }

  lemma LinkedNamesViewed(tags: seq<Tag>, links: seq<EntryTag>, nextTagId: nat, e: Entry)
    requires TagKeys(tags, nextTagId)
    ensures TagNamesOfEntry(tags, links, e.id) <= ViewTagNames(ViewOf(tags, links, e))
  {
    var v := ViewOf(tags, links, e);
    var own := LinksOf(links, e.id);
    forall n | n in TagNamesOfEntry(tags, links, e.id) ensures n in ViewTagNames(v) {
      var t :| t in tags && t.id in LinkedTagIds(links, e.id) && t.name == n;
      var l :| l in links && l.entryId == e.id && l.tagId == t.id;
      assert l in own;
      var k :| 0 <= k < |own| && own[k] == l;
      var found := TagById(tags, l.tagId);
      SameIdSameTag(tags, nextTagId, found.value, t);
      assert v.entryTags[k].tag == found;
    }
  }

  /** Tag ids are keys: two rows with one id are one row. */
  lemma SameIdSameTag(tags: seq<Tag>, nextTagId: nat, t: Tag, u: Tag)
    requires TagKeys(tags, nextTagId)
    requires t in tags && u in tags && t.id == u.id
    ensures t == u
  {
    var i :| 0 <= i < |tags| && tags[i] == t;
    var j :| 0 <= j < |tags| && tags[j] == u;
    assert i == j;
  }

  // ---------------------------------------------------------------------
  // Row updates.
  // ---------------------------------------------------------------------

  function IndexOfEntry(entries: seq<Entry>, id: int): Option<nat>
  {
    FirstIndex(entries, (e: Entry) => e.id == id)
  }

  /** `.set({ title, content, imageUrl, updatedAt: new Date() })`: a field the
      request leaves out is not written. */
  function ApplyEntryUpdate(e: Entry, title: Option<string>, content: Option<string>, imageUrl: Option<string>, now: Timestamp): (r: Entry)
    ensures r.id == e.id && r.date == e.date && r.updatedAt == now
    ensures r.title == (if title.Some? then title.value else e.title)
    ensures r.content == (if content.Some? then content.value else e.content)
    ensures r.imageUrl == (if imageUrl.Some? then imageUrl else e.imageUrl)
  {
    Entry(e.id, title.GetOr(e.title), content.GetOr(e.content), e.date,
          if imageUrl.Some? then imageUrl else e.imageUrl, now)
  }

  /** The later of two updates wins on every field it gives; the fields it
      leaves out keep the earlier update's values. */
  lemma EntryUpdatesCompose(e: Entry, t1: Option<string>, c1: Option<string>, i1: Option<string>, n1: Timestamp,
                            t2: Option<string>, c2: Option<string>, i2: Option<string>, n2: Timestamp)
    ensures ApplyEntryUpdate(ApplyEntryUpdate(e, t1, c1, i1, n1), t2, c2, i2, n2)
      == ApplyEntryUpdate(e, if t2.Some? then t2 else t1, if c2.Some? then c2 else c1, if i2.Some? then i2 else i1, n2)
  {
  }

  /** Repeating an update at the same time changes nothing more. */
  lemma EntryUpdateIdempotent(e: Entry, title: Option<string>, content: Option<string>, imageUrl: Option<string>, now: Timestamp)
    ensures var once := ApplyEntryUpdate(e, title, content, imageUrl, now);
      ApplyEntryUpdate(once, title, content, imageUrl, now) == once
  {
    EntryUpdatesCompose(e, title, content, imageUrl, now, title, content, imageUrl, now);
  }

  /** An update that gives no field only touches `updatedAt`. */
  lemma EmptyEntryUpdate(e: Entry, now: Timestamp)
    ensures ApplyEntryUpdate(e, None, None, None, now) == e.(updatedAt := now)
  {
  }

  function IndexOfBodyMap(maps: seq<BodyMap>, id: int): Option<nat>
  {
    FirstIndex(maps, (m: BodyMap) => m.id == id)
  }

  /** The body-map row an insert produces: omitted columns are NULL and both
      timestamps default to the insertion time. */
  function NewBodyMap(id: nat, sensations: Option<string>, emotionalState: Option<string>, notes: Option<string>, relatedMemoryId: Option<int>, now: Timestamp): BodyMap
  {
    BodyMap(id, sensations, emotionalState, notes, relatedMemoryId, now, now)
  }

  function ApplyBodyMapUpdate(m: BodyMap, sensations: Option<string>, emotionalState: Option<string>, notes: Option<string>, relatedMemoryId: Option<int>, now: Timestamp): (r: BodyMap)
    ensures r.id == m.id && r.date == m.date && r.updatedAt == now
    ensures r.sensations == (if sensations.Some? then sensations else m.sensations)
    ensures r.emotionalState == (if emotionalState.Some? then emotionalState else m.emotionalState)
    ensures r.notes == (if notes.Some? then notes else m.notes)
    ensures r.relatedMemoryId == (if relatedMemoryId.Some? then relatedMemoryId else m.relatedMemoryId)
  {
    BodyMap(m.id,
            if sensations.Some? then sensations else m.sensations,
            if emotionalState.Some? then emotionalState else m.emotionalState,
            if notes.Some? then notes else m.notes,
            if relatedMemoryId.Some? then relatedMemoryId else m.relatedMemoryId,
            m.date, now)
  }

  /** The later of two body-map updates wins on every field it gives. */
  lemma BodyMapUpdatesCompose(m: BodyMap, s1: Option<string>, e1: Option<string>, o1: Option<string>, r1: Option<int>, n1: Timestamp,
                              s2: Option<string>, e2: Option<string>, o2: Option<string>, r2: Option<int>, n2: Timestamp)
    ensures ApplyBodyMapUpdate(ApplyBodyMapUpdate(m, s1, e1, o1, r1, n1), s2, e2, o2, r2, n2)
      == ApplyBodyMapUpdate(m, if s2.Some? then s2 else s1, if e2.Some? then e2 else e1,
                            if o2.Some? then o2 else o1, if r2.Some? then r2 else r1, n2)
  {
  }

  /** Repeating a body-map update at the same time changes nothing more. */
  lemma BodyMapUpdateIdempotent(m: BodyMap, sensations: Option<string>, emotionalState: Option<string>, notes: Option<string>, relatedMemoryId: Option<int>, now: Timestamp)
    ensures var once := ApplyBodyMapUpdate(m, sensations, emotionalState, notes, relatedMemoryId, now);
      ApplyBodyMapUpdate(once, sensations, emotionalState, notes, relatedMemoryId, now) == once
  {
    BodyMapUpdatesCompose(m, sensations, emotionalState, notes, relatedMemoryId, now, sensations, emotionalState, notes, relatedMemoryId, now);
  }

  /** A body-map update that gives no field only touches `updatedAt`. */
  lemma EmptyBodyMapUpdate(m: BodyMap, now: Timestamp)
    ensures ApplyBodyMapUpdate(m, None, None, None, None, now) == m.(updatedAt := now)
  {
  }

  // ---------------------------------------------------------------------
  // Replacing the links of one entry.
  // ---------------------------------------------------------------------

  datatype Relinked = Relinked(tags: seq<Tag>, nextTagId: nat, links: seq<EntryTag>)

  /** The tag work of the update route: delete the entry's links, then, if
      tags are given, resolve them and link the entry to each. */
  function RelinkEntry(tags: seq<Tag>, nextTagId: nat, links: seq<EntryTag>, entryId: nat, tagNames: Option<seq<string>>): Result<Relinked, DbError>
  {
    var rest := Unlink(links, entryId);
    if !NamesGiven(tagNames) then Success(Relinked(tags, nextTagId, rest))
    else
      match ResolveTags(tags, nextTagId, tagNames.value)
      case Failure(err) => Failure(err)
      case Success(res) => Success(Relinked(res.tags, res.nextTagId, rest + Links(entryId, res.linked)))
  }

  /** Relinking fails only on a duplicated new tag name. */
  lemma RelinkEntryFails(tags: seq<Tag>, nextTagId: nat, links: seq<EntryTag>, entryId: nat, tagNames: Option<seq<string>>)
    ensures RelinkEntry(tags, nextTagId, links, entryId, tagNames).Failure? <==>
      NamesGiven(tagNames) && HasDuplicates(MissingNames(tags, tagNames.value))
    ensures RelinkEntry(tags, nextTagId, links, entryId, tagNames).Failure? ==>
      RelinkEntry(tags, nextTagId, links, entryId, tagNames).error == UniqueViolation
  {
    if NamesGiven(tagNames) {
      ResolveTagsFails(tags, nextTagId, tagNames.value);
    }
  }

  /** Relinking keeps the tag and link constraints and only adds tag rows. */
  lemma RelinkEntryValid(entries: seq<Entry>, tags: seq<Tag>, nextTagId: nat, links: seq<EntryTag>, entryId: nat, tagNames: Option<seq<string>>)
    requires TagKeys(tags, nextTagId)
    requires LinksReference(entries, tags, links)
    requires entryId in EntryIds(entries)
    requires RelinkEntry(tags, nextTagId, links, entryId, tagNames).Success?
    ensures var rl := RelinkEntry(tags, nextTagId, links, entryId, tagNames).value;
      && TagKeys(rl.tags, rl.nextTagId)
      && LinksReference(entries, rl.tags, rl.links)
      && |rl.tags| >= |tags| && rl.tags[..|tags|] == tags
  {
    var rest := Unlink(links, entryId);
    UnlinkReference(entries, tags, links, entryId);
    if NamesGiven(tagNames) {
      var names := tagNames.value;
      var res := ResolveTags(tags, nextTagId, names).value;
      ResolvedTagTable(tags, nextTagId, names);
      ResolvedLinks(tags, nextTagId, names);
      PrefixTagIds(tags, res.tags);
      LinksReferenceGrow(entries, entries, tags, res.tags, rest);
      LinksAppendedReference(entries, res.tags, rest, entryId, res.linked);
    }
  }

  /** After relinking the entry shows exactly the requested names. */
  lemma RelinkEntryNames(entries: seq<Entry>, tags: seq<Tag>, nextTagId: nat, links: seq<EntryTag>, entryId: nat, tagNames: Option<seq<string>>)
    requires TagKeys(tags, nextTagId)
    requires RelinkEntry(tags, nextTagId, links, entryId, tagNames).Success?
    ensures var rl := RelinkEntry(tags, nextTagId, links, entryId, tagNames).value;
      TagNamesOfEntry(rl.tags, rl.links, entryId) == NameSet(tagNames.GetOr([]))
  {
    var rest := Unlink(links, entryId);
    assert forall k :: 0 <= k < |rest| ==> rest[k].entryId != entryId;
    if NamesGiven(tagNames) {
      var names := tagNames.value;
      var res := ResolveTags(tags, nextTagId, names).value;
      ResolvedTagTable(tags, nextTagId, names);
      ResolvedLinks(tags, nextTagId, names);
      LinkedTagNames(tags, nextTagId, names);
      LinkedNames(res.tags, res.nextTagId, rest, entryId, res.linked);
    } else {
      assert rest + Links(entryId, []) == rest;
      LinkedNames(tags, nextTagId, rest, entryId, []);
    }
  }

  /** Relinking one entry leaves every other entry's links as they were. */
  lemma RelinkEntryOthers(tags: seq<Tag>, nextTagId: nat, links: seq<EntryTag>, entryId: nat, tagNames: Option<seq<string>>, other: nat)
    requires other != entryId
    requires RelinkEntry(tags, nextTagId, links, entryId, tagNames).Success?
    ensures LinksOf(RelinkEntry(tags, nextTagId, links, entryId, tagNames).value.links, other) == LinksOf(links, other)
  {
    if NamesGiven(tagNames) {
      var res := ResolveTags(tags, nextTagId, tagNames.value).value;
      RelinkSpec(links, entryId, res.linked, other);
    } else {
      UnlinkOther(links, entryId, other);
    }
  }

  // ---------------------------------------------------------------------
  // Schema constraints across writes.
  // ---------------------------------------------------------------------

  /** Links stay valid when the tables they point into only gain keys. */
  lemma LinksReferenceGrow(entries: seq<Entry>, entries': seq<Entry>, tags: seq<Tag>, tags': seq<Tag>, links: seq<EntryTag>)
    requires LinksReference(entries, tags, links)
    requires EntryIds(entries) <= EntryIds(entries')
    requires TagIds(tags) <= TagIds(tags')
    ensures LinksReference(entries', tags', links)
  {
  }

  /** A prefix's keys are keys of the whole table. */
  lemma PrefixTagIds(tags: seq<Tag>, tags': seq<Tag>)
    requires |tags| <= |tags'| && tags'[..|tags|] == tags
    ensures TagIds(tags) <= TagIds(tags')
  {
    forall id | id in TagIds(tags) ensures id in TagIds(tags') {
      var t :| t in tags && t.id == id;
      var k :| 0 <= k < |tags| && tags[k] == t;
      assert tags'[k] == t;
    }
  }

  lemma LinksAppendedReference(entries: seq<Entry>, tags: seq<Tag>, links: seq<EntryTag>, entryId: nat, linked: seq<Tag>)
    requires LinksReference(entries, tags, links)
    requires entryId in EntryIds(entries)
    requires forall k :: 0 <= k < |linked| ==> linked[k] in tags
    ensures LinksReference(entries, tags, links + Links(entryId, linked))
  {
    var all := links + Links(entryId, linked);
    forall k | 0 <= k < |all| ensures all[k].entryId in EntryIds(entries) && all[k].tagId in TagIds(tags) {
      if k >= |links| {
        assert linked[k - |links|] in tags;
      }
    }
  }

  /** An entry that is not yet in the table has no links. */
  lemma NoLinksForNewEntry(entries: seq<Entry>, tags: seq<Tag>, links: seq<EntryTag>, nextId: nat)
    requires EntryKeys(entries, nextId)
    requires LinksReference(entries, tags, links)
    ensures forall k :: 0 <= k < |links| ==> links[k].entryId != nextId
  {
    forall k | 0 <= k < |links| ensures links[k].entryId != nextId {
      var e :| e in entries && e.id == links[k].entryId;
      var m :| 0 <= m < |entries| && entries[m] == e;
    }
  }

  lemma AppendEntryKeys(entries: seq<Entry>, e: Entry, nextId: nat)
    requires EntryKeys(entries, nextId)
    requires e.id == nextId
    ensures EntryKeys(entries + [e], nextId + 1)
    ensures EntryIds(entries) <= EntryIds(entries + [e]) && e.id in EntryIds(entries + [e])
  {
    var all := entries + [e];
    assert e == all[|entries|];
    forall x | x in EntryIds(entries) ensures x in EntryIds(all) {
      var d :| d in entries && d.id == x;
      assert d in all;
    }
  }

  lemma ReplaceEntryKeys(entries: seq<Entry>, i: nat, e: Entry, nextId: nat)
    requires i < |entries| && e.id == entries[i].id
    requires EntryKeys(entries, nextId)
    ensures EntryKeys(entries[i := e], nextId)
    ensures EntryIds(entries[i := e]) == EntryIds(entries)
  {
    var all := entries[i := e];
    forall x | x in EntryIds(entries) ensures x in EntryIds(all) {
      var d :| d in entries && d.id == x;
      var k :| 0 <= k < |entries| && entries[k] == d;
      assert all[k].id == x;
    }
    forall x | x in EntryIds(all) ensures x in EntryIds(entries) {
      var d :| d in all && d.id == x;
      var k :| 0 <= k < |all| && all[k] == d;
      assert entries[k].id == x;
    }
  }

  lemma UnlinkReference(entries: seq<Entry>, tags: seq<Tag>, links: seq<EntryTag>, id: int)
    requires LinksReference(entries, tags, links)
    ensures LinksReference(entries, tags, Unlink(links, id))
  {
    var rest := Unlink(links, id);
    forall k | 0 <= k < |rest| ensures rest[k].entryId in EntryIds(entries) && rest[k].tagId in TagIds(tags) {
      var m :| 0 <= m < |links| && links[m] == rest[k];
    }
  }

  /** The rows a `DELETE ... WHERE id = id` keeps. */
  function EntryKept(id: int): Entry -> bool
  {
    (e: Entry) => e.id != id
  }

  function BodyMapKept(id: int): BodyMap -> bool
  {
    (m: BodyMap) => m.id != id
  }

  /** The tables after `DELETE` of one entry and its links still obey the schema. */
  lemma DeleteEntryValid(entries: seq<Entry>, tags: seq<Tag>, links: seq<EntryTag>, maps: seq<BodyMap>, ne: nat, nt: nat, nm: nat, id: int)
    requires TablesValid(entries, tags, links, maps, ne, nt, nm)
    ensures TablesValid(Filter(entries, EntryKept(id)), tags, Unlink(links, id), maps, ne, nt, nm)
  {
    var kept := Filter(entries, EntryKept(id));
    var rest := Unlink(links, id);
    FilterKeepsDistinctKeys(entries, EntryKept(id), EntryKey);
    forall k | 0 <= k < |rest| ensures rest[k].entryId in EntryIds(kept) && rest[k].tagId in TagIds(tags) {
      var m :| 0 <= m < |links| && links[m] == rest[k];
      var e :| e in entries && e.id == rest[k].entryId;
      var j :| 0 <= j < |entries| && entries[j] == e;
      assert e in kept;
    }
  }

  lemma DeleteBodyMapValid(maps: seq<BodyMap>, nm: nat, id: int)
    requires BodyMapKeys(maps, nm)
    ensures BodyMapKeys(Filter(maps, BodyMapKept(id)), nm)
  {
    FilterKeepsDistinctKeys(maps, BodyMapKept(id), BodyMapKey);
  }

  lemma AppendBodyMapKeys(maps: seq<BodyMap>, m: BodyMap, nm: nat)
    requires BodyMapKeys(maps, nm) && m.id == nm
    ensures BodyMapKeys(maps + [m], nm + 1)
  {
    assert m == (maps + [m])[|maps|];
  }

  lemma ReplaceBodyMapKeys(maps: seq<BodyMap>, i: nat, m: BodyMap, nm: nat)
    requires i < |maps| && m.id == maps[i].id
    requires BodyMapKeys(maps, nm)
    ensures BodyMapKeys(maps[i := m], nm)
  {
  }

  /** The whole database after a successful entry update obeys the schema,
      the entry shows the requested names and no other entry's links move. */
  lemma UpdatedTablesValid(entries: seq<Entry>, tags: seq<Tag>, links: seq<EntryTag>, maps: seq<BodyMap>,
                           ne: nat, nt: nat, nm: nat, i: nat, e: Entry, tagNames: Option<seq<string>>)
    requires TablesValid(entries, tags, links, maps, ne, nt, nm)
    requires i < |entries| && e.id == entries[i].id
    requires RelinkEntry(tags, nt, links, e.id, tagNames).Success?
    ensures var rl := RelinkEntry(tags, nt, links, e.id, tagNames).value;
      && TablesValid(entries[i := e], rl.tags, rl.links, maps, ne, rl.nextTagId, nm)
      && TagNamesOfEntry(rl.tags, rl.links, e.id) == NameSet(tagNames.GetOr([]))
      && forall other: nat :: other != e.id ==> LinksOf(rl.links, other) == LinksOf(links, other)
  {
    var rl := RelinkEntry(tags, nt, links, e.id, tagNames).value;
    ReplaceEntryKeys(entries, i, e, ne);
    assert entries[i] in entries;
    RelinkEntryValid(entries, tags, nt, links, e.id, tagNames);
    RelinkEntryNames(entries, tags, nt, links, e.id, tagNames);
    forall other: nat | other != e.id
      ensures LinksOf(rl.links, other) == LinksOf(links, other)
    {
      RelinkEntryOthers(tags, nt, links, e.id, tagNames, other);
    }
    LinksReferenceGrow(entries, entries[i := e], rl.tags, rl.tags, rl.links);
  }

  // ---------------------------------------------------------------------
  // The store.
  // ---------------------------------------------------------------------

  /** The database the routes work on: four tables and the three serial
      sequences behind their ids. */
  class Store {
    var entries: seq<Entry>
    var tags: seq<Tag>
    var entryTags: seq<EntryTag>
    var bodyMaps: seq<BodyMap>
    var nextEntryId: nat
    var nextTagId: nat
    var nextBodyMapId: nat

    ghost predicate Valid()
      reads this
    {
      TablesValid(entries, tags, entryTags, bodyMaps, nextEntryId, nextTagId, nextBodyMapId)
    }

    /** An empty database; serials start at 1. */
    constructor ()
      ensures Valid()
      ensures entries == [] && tags == [] && entryTags == [] && bodyMaps == []
      ensures nextEntryId == 1 && nextTagId == 1 && nextBodyMapId == 1
    {
      entries, tags, entryTags, bodyMaps := [], [], [], [];
      nextEntryId, nextTagId, nextBodyMapId := 1, 1, 1;
    }

    /** `GET /api/entries`: every entry with its tags, newest first. */
    method ListEntries() returns (r: seq<EntryView>)
      requires Valid()
      ensures Ordering.SortedDesc(ViewEntries(r), EntryDate)
      ensures multiset(ViewEntries(r)) == multiset(entries)
      ensures forall k :: 0 <= k < |r| ==> r[k] == ViewOf(tags, entryTags, r[k].entry)
    {
      var sorted := Ordering.SortDesc(entries, EntryDate);
      r := Views(tags, entryTags, sorted);
      ViewsKeepEntries(tags, entryTags, sorted);
    }

    /** `GET /api/entries/:id`; `None` is the 404 "Entry not found". */
    method GetEntry(id: int) returns (r: Option<EntryView>)
      requires Valid()
      ensures r.None? <==> forall k :: 0 <= k < |entries| ==> entries[k].id != id
      ensures r.Some? ==> r.value.entry in entries && r.value.entry.id == id
      ensures r.Some? ==> r.value == ViewOf(tags, entryTags, r.value.entry)
    {
      var i := IndexOfEntry(entries, id);
      if i.None? {
        r := None;
      } else {
        r := Some(ViewOf(tags, entryTags, entries[i.value]));
      }
    }

    /** `GET /api/search?q&tag`. */
    method Search(q: Option<string>, tag: Option<string>) returns (r: seq<EntryView>)
      requires Valid()
      ensures ViewEntries(r) == SearchResults(entries, tags, entryTags, q, tag)
      ensures forall k :: 0 <= k < |r| ==> r[k] == ViewOf(tags, entryTags, r[k].entry)
    {
      var hits := SearchResults(entries, tags, entryTags, q, tag);
      r := Views(tags, entryTags, hits);
      ViewsKeepEntries(tags, entryTags, hits);
    }

    /** `POST /api/entries`. The insert of the entry draws the next id from
        its sequence even when the transaction later rolls back. */
    method CreateEntry(title: Option<string>, content: Option<string>, imageUrl: Option<string>,
                       tagNames: Option<seq<string>>, now: Timestamp)
      returns (r: Result<Entry, DbError>)
      requires Valid()
      modifies this
      ensures Valid()
      ensures nextEntryId == old(nextEntryId) + 1
      ensures bodyMaps == old(bodyMaps) && nextBodyMapId == old(nextBodyMapId)
      ensures r.Failure? <==>
        || title.None? || content.None?
        || (NamesGiven(tagNames) && ResolveTags(old(tags), old(nextTagId), tagNames.value).Failure?)
      ensures r.Failure? ==>
        r.error == (if title.None? || content.None? then NotNullViolation else UniqueViolation)
      ensures r.Failure? ==>
        entries == old(entries) && tags == old(tags) && entryTags == old(entryTags) && nextTagId == old(nextTagId)
      ensures r.Success? ==>
        && title.Some? && content.Some?
        && r.value == NewEntry(old(nextEntryId), title.value, content.value, imageUrl, now)
        && entries == old(entries) + [r.value]
      ensures r.Success? && !NamesGiven(tagNames) ==>
        tags == old(tags) && nextTagId == old(nextTagId) && entryTags == old(entryTags)
      ensures r.Success? && NamesGiven(tagNames) ==>
        && ResolveTags(old(tags), old(nextTagId), tagNames.value).Success?
        && var res := ResolveTags(old(tags), old(nextTagId), tagNames.value).value;
           tags == res.tags && nextTagId == res.nextTagId &&
           entryTags == old(entryTags) + Links(r.value.id, res.linked)
      ensures r.Success? ==> TagNamesOfEntry(tags, entryTags, r.value.id) == NameSet(tagNames.GetOr([]))
    {
      var id := nextEntryId;
      nextEntryId := nextEntryId + 1;
      if title.None? || content.None? {
        r := Failure(NotNullViolation);
        return;
      }
      var e := NewEntry(id, title.value, content.value, imageUrl, now);
      NoLinksForNewEntry(entries, tags, entryTags, id);
      AppendEntryKeys(entries, e, id);
      if !NamesGiven(tagNames) {
        LinksReferenceGrow(entries, entries + [e], tags, tags, entryTags);
        entries := entries + [e];
        assert LinkedTagIds(entryTags, id) == {};
        r := Success(e);
        return;
      }
      var names := tagNames.value;
      var resolved := ResolveTags(tags, nextTagId, names);
      if resolved.Failure? {
        r := Failure(resolved.error);
        return;
      }
      var res := resolved.value;
      ResolvedTagTable(tags, nextTagId, names);
      ResolvedLinks(tags, nextTagId, names);
      LinkedTagNames(tags, nextTagId, names);
      PrefixTagIds(tags, res.tags);
      LinksReferenceGrow(entries, entries + [e], tags, res.tags, entryTags);
      LinksAppendedReference(entries + [e], res.tags, entryTags, id, res.linked);
      LinkedNames(res.tags, res.nextTagId, entryTags, id, res.linked);
      entries := entries + [e];
      tags, nextTagId := res.tags, res.nextTagId;
      entryTags := entryTags + Links(id, res.linked);
      r := Success(e);
    }

    /** `PUT /api/entries/:id`: writes the given fields, then replaces the
        entry's links by links to the requested tags (none when no tags
        are given). */
    method UpdateEntry(id: int, title: Option<string>, content: Option<string>, imageUrl: Option<string>,
                       tagNames: Option<seq<string>>, now: Timestamp)
      returns (r: Result<Entry, DbError>)
      requires Valid()
      modifies this
      ensures Valid()
      ensures nextEntryId == old(nextEntryId)
      ensures bodyMaps == old(bodyMaps) && nextBodyMapId == old(nextBodyMapId)
      ensures r.Failure? <==>
        || IndexOfEntry(old(entries), id).None?
        || (NamesGiven(tagNames) && ResolveTags(old(tags), old(nextTagId), tagNames.value).Failure?)
      ensures r.Failure? ==> (r.error == EntryNotFound <==> IndexOfEntry(old(entries), id).None?)
      ensures r.Failure? ==> r.error == EntryNotFound || r.error == UniqueViolation
      ensures r.Failure? ==>
        entries == old(entries) && tags == old(tags) && entryTags == old(entryTags) && nextTagId == old(nextTagId)
      ensures r.Success? ==>
        && IndexOfEntry(old(entries), id).Some?
        && var i := IndexOfEntry(old(entries), id).value;
           r.value == ApplyEntryUpdate(old(entries)[i], title, content, imageUrl, now) &&
           entries == old(entries)[i := r.value]
      ensures r.Success? ==>
        && RelinkEntry(old(tags), old(nextTagId), old(entryTags), r.value.id, tagNames).Success?
        && var rl := RelinkEntry(old(tags), old(nextTagId), old(entryTags), r.value.id, tagNames).value;
           tags == rl.tags && nextTagId == rl.nextTagId && entryTags == rl.links
      ensures r.Success? ==> TagNamesOfEntry(tags, entryTags, r.value.id) == NameSet(tagNames.GetOr([]))
      ensures r.Success? ==> forall other: nat :: other != id ==> LinksOf(entryTags, other) == LinksOf(old(entryTags), other)
    {
      var found := IndexOfEntry(entries, id);
      if found.None? {
        r := Failure(EntryNotFound);
        return;
      }
      var i := found.value;
      var e := ApplyEntryUpdate(entries[i], title, content, imageUrl, now);
      var relinked := RelinkEntry(tags, nextTagId, entryTags, e.id, tagNames);
      RelinkEntryFails(tags, nextTagId, entryTags, e.id, tagNames);
      if relinked.Failure? {
        r := Failure(relinked.error);
        return;
      }
      UpdatedTablesValid(entries, tags, entryTags, bodyMaps, nextEntryId, nextTagId, nextBodyMapId, i, e, tagNames);
      entries := entries[i := e];
      tags, nextTagId, entryTags := relinked.value.tags, relinked.value.nextTagId, relinked.value.links;
      r := Success(e);
    }

    /** `DELETE /api/entries/:id`: the entry's links, then the entry. Tags
        are never deleted. Answers 204 whether or not the entry existed. */
    method DeleteEntry(id: int) returns (status: nat)
      requires Valid()
      modifies this
      ensures Valid()
      ensures status == 204
      ensures entryTags == Unlink(old(entryTags), id)
      ensures entries == Filter(old(entries), EntryKept(id))
      ensures tags == old(tags) && bodyMaps == old(bodyMaps)
      ensures nextEntryId == old(nextEntryId) && nextTagId == old(nextTagId) && nextBodyMapId == old(nextBodyMapId)
    {
      DeleteEntryValid(entries, tags, entryTags, bodyMaps, nextEntryId, nextTagId, nextBodyMapId, id);
      entryTags := Unlink(entryTags, id);
      entries := Filter(entries, EntryKept(id));
      status := 204;
    }

    /** `GET /api/body-maps`, newest first. */
    method ListBodyMaps() returns (r: seq<BodyMap>)
      requires Valid()
      ensures Ordering.SortedDesc(r, BodyMapDate)
      ensures multiset(r) == multiset(bodyMaps)
    {
      r := Ordering.SortDesc(bodyMaps, BodyMapDate);
    }

    /** `GET /api/body-maps/:id`; `None` is the 404 "Body map not found". */
    method GetBodyMap(id: int) returns (r: Option<BodyMap>)
      requires Valid()
      ensures r.None? <==> forall k :: 0 <= k < |bodyMaps| ==> bodyMaps[k].id != id
      ensures r.Some? ==> r.value in bodyMaps && r.value.id == id
    {
      var i := IndexOfBodyMap(bodyMaps, id);
      if i.None? {
        r := None;
      } else {
        r := Some(bodyMaps[i.value]);
      }
    }

    /** `POST /api/body-maps`: a single insert, outside any transaction. */
    method CreateBodyMap(sensations: Option<string>, emotionalState: Option<string>, notes: Option<string>,
                         relatedMemoryId: Option<int>, now: Timestamp)
      returns (m: BodyMap)
      requires Valid()
      modifies this
      ensures Valid()
      ensures m == NewBodyMap(old(nextBodyMapId), sensations, emotionalState, notes, relatedMemoryId, now)
      ensures bodyMaps == old(bodyMaps) + [m] && nextBodyMapId == old(nextBodyMapId) + 1
      ensures entries == old(entries) && tags == old(tags) && entryTags == old(entryTags)
      ensures nextEntryId == old(nextEntryId) && nextTagId == old(nextTagId)
    {
      m := NewBodyMap(nextBodyMapId, sensations, emotionalState, notes, relatedMemoryId, now);
      AppendBodyMapKeys(bodyMaps, m, nextBodyMapId);
      bodyMaps := bodyMaps + [m];
      nextBodyMapId := nextBodyMapId + 1;
    }

    /** `PUT /api/body-maps/:id`; `None` is the 404 and changes nothing. */
    method UpdateBodyMap(id: int, sensations: Option<string>, emotionalState: Option<string>, notes: Option<string>,
                         relatedMemoryId: Option<int>, now: Timestamp)
      returns (r: Option<BodyMap>)
      requires Valid()
      modifies this
      ensures Valid()
      ensures r.None? <==> IndexOfBodyMap(old(bodyMaps), id).None?
      ensures r.None? ==> bodyMaps == old(bodyMaps)
      ensures r.Some? ==>
        && IndexOfBodyMap(old(bodyMaps), id).Some?
        && var i := IndexOfBodyMap(old(bodyMaps), id).value;
           r.value == ApplyBodyMapUpdate(old(bodyMaps)[i], sensations, emotionalState, notes, relatedMemoryId, now) &&
           bodyMaps == old(bodyMaps)[i := r.value]
      ensures entries == old(entries) && tags == old(tags) && entryTags == old(entryTags)
      ensures nextEntryId == old(nextEntryId) && nextTagId == old(nextTagId) && nextBodyMapId == old(nextBodyMapId)
    {
      var found := IndexOfBodyMap(bodyMaps, id);
      if found.None? {
        r := None;
        return;
      }
      var i := found.value;
      var m := ApplyBodyMapUpdate(bodyMaps[i], sensations, emotionalState, notes, relatedMemoryId, now);
      ReplaceBodyMapKeys(bodyMaps, i, m, nextBodyMapId);
      bodyMaps := bodyMaps[i := m];
      r := Some(m);
    }

    /** `DELETE /api/body-maps/:id`: 204 whether or not the row existed. */
    method DeleteBodyMap(id: int) returns (status: nat)
      requires Valid()
      modifies this
      ensures Valid()
      ensures status == 204
      ensures bodyMaps == Filter(old(bodyMaps), BodyMapKept(id))
      ensures entries == old(entries) && tags == old(tags) && entryTags == old(entryTags)
      ensures nextEntryId == old(nextEntryId) && nextTagId == old(nextTagId) && nextBodyMapId == old(nextBodyMapId)
    {
      DeleteBodyMapValid(bodyMaps, nextBodyMapId, id);
      bodyMaps := Filter(bodyMaps, BodyMapKept(id));
      status := 204;
    }
  }
}
