/** The entry shape the client receives from `GET /api/entries`: an entry
    with its links, each link carrying its tag. Dates arrive as strings. */
module ClientTypes {
  import opened Base

  datatype TagRef = TagRef(id: int, name: string)

  datatype LinkRef = LinkRef(tag: TagRef)

  datatype ClientEntry = ClientEntry(
    id: int,
    title: string,
    content: string,
    date: string,
    imageUrl: Option<string>,
    updatedAt: string,
    entryTags: seq<LinkRef>)

  /** `entry.entryTags.map(et => et.tag.name)`. */
  function TagNamesOf(entry: ClientEntry): (r: seq<string>)
    ensures |r| == |entry.entryTags|
    ensures forall k :: 0 <= k < |r| ==> r[k] == entry.entryTags[k].tag.name
  {
    seq(|entry.entryTags|, k requires 0 <= k < |entry.entryTags| => entry.entryTags[k].tag.name)
  }
}
