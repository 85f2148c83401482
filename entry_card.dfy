/** One entry on the journal page: shown read-only until the edit button
    is pressed, then a form over copies of its fields whose tag field is
    the comma-separated line of its tag names. */
module EntryCard {
  import opened Base
  import opened TagText
  import opened ClientTypes

  /** The JSON body of `PUT /api/entries/:id`; an undefined `imageUrl` is
      left out of the JSON, written `None`. */
  datatype UpdateRequest = UpdateRequest(
    entryId: int,
    title: string,
    content: string,
    imageUrl: Option<string>,
    tags: seq<string>)

  /** The tag field's first value: the names in link order, joined by ", ". */
  function InitialTags(entry: ClientEntry): string
  {
    TagLine(TagNamesOf(entry))
  }

  /** The update request built from the form. Its tags are the non-empty
      comma-separated pieces of the tag field, trimmed; none is empty,
      holds a comma or has white space at either end. */
  function UpdateRequestOf(entryId: int, title: string, content: string, imageUrl: Option<string>, tags: string): (r: UpdateRequest)
    ensures r.entryId == entryId && r.title == title && r.content == content && r.imageUrl == imageUrl
    ensures r.tags == ParseTags(tags)
    ensures forall k :: 0 <= k < |r.tags| ==> r.tags[k] != "" && ',' !in r.tags[k] && Trimmed(r.tags[k])
  {
    ParsedTags(tags);
    UpdateRequest(entryId, title, content, imageUrl, ParseTags(tags))
  }

  /** Saving without touching the tag field sends the entry's own tag
      names back, in order, as long as every name is non-empty, comma-free
      and trimmed. */
  lemma UntouchedTagsResent(entry: ClientEntry)
    requires forall k :: 0 <= k < |entry.entryTags| ==>
      var n := entry.entryTags[k].tag.name; n != "" && ',' !in n && Trimmed(n)
    ensures ParseTags(InitialTags(entry)) == TagNamesOf(entry)
  {
    ParseTagLine(TagNamesOf(entry));
  }

  class Card {
    /** The entry the card was rendered for. */
    const entry: ClientEntry
    var isEditing: bool
    var title: string
    var content: string
    var tags: string
    var imageUrl: Option<string>
    /** `updateEntry.isPending`. */
    var updatePending: bool

    constructor (entry: ClientEntry)
      ensures this.entry == entry
      ensures !isEditing && !updatePending
      ensures title == entry.title && content == entry.content && imageUrl == entry.imageUrl
      ensures tags == InitialTags(entry)
    {
      this.entry := entry;
      isEditing := false;
      title := entry.title;
      content := entry.content;
      tags := InitialTags(entry);
      imageUrl := entry.imageUrl;
      updatePending := false;
    }

    /** The edit button of the read-only card. The fields keep whatever
        they held, including edits abandoned by an earlier cancel. */
    method StartEdit()
      requires !isEditing
      modifies this
      ensures isEditing
      ensures title == old(title) && content == old(content) && tags == old(tags) && imageUrl == old(imageUrl)
      ensures updatePending == old(updatePending)
    {
      isEditing := true;
    }

    method SetTitle(v: string)
      requires isEditing
      modifies this
      ensures title == v && isEditing
      ensures content == old(content) && tags == old(tags) && imageUrl == old(imageUrl)
      ensures updatePending == old(updatePending)
    {
      title := v;
    }

    method SetContent(v: string)
      requires isEditing
      modifies this
      ensures content == v && isEditing
      ensures title == old(title) && tags == old(tags) && imageUrl == old(imageUrl)
      ensures updatePending == old(updatePending)
    {
      content := v;
    }

    method SetTags(v: string)
      requires isEditing
      modifies this
      ensures tags == v && isEditing
      ensures title == old(title) && content == old(content) && imageUrl == old(imageUrl)
      ensures updatePending == old(updatePending)
    {
      tags := v;
    }

    method SetImageUrl(v: string)
      requires isEditing
      modifies this
      ensures imageUrl == Some(v) && isEditing
      ensures title == old(title) && content == old(content) && tags == old(tags)
      ensures updatePending == old(updatePending)
    {
      imageUrl := Some(v);
    }

    /** The check button: enabled only while no update is pending; it sends
        the form's current fields with the parsed tag list. */
    method SubmitUpdate() returns (req: UpdateRequest)
      requires isEditing && !updatePending
      modifies this
      ensures updatePending && isEditing
      ensures title == old(title) && content == old(content) && tags == old(tags) && imageUrl == old(imageUrl)
      ensures req == UpdateRequestOf(entry.id, title, content, imageUrl, tags)
    {
      updatePending := true;
      req := UpdateRequestOf(entry.id, title, content, imageUrl, tags);
    }

    /** A 2xx reply leaves edit mode; the fields stay as sent. */
    method UpdateSucceeded()
      requires updatePending
      modifies this
      ensures !isEditing && !updatePending
      ensures title == old(title) && content == old(content) && tags == old(tags) && imageUrl == old(imageUrl)
    {
      isEditing := false;
      updatePending := false;
    }

    /** Any other reply only ends the pending state (and shows a toast). */
    method UpdateFailed()
      requires updatePending
      modifies this
      ensures !updatePending && isEditing == old(isEditing)
      ensures title == old(title) && content == old(content) && tags == old(tags) && imageUrl == old(imageUrl)
    {
      updatePending := false;
    }

    /** The cancel button leaves edit mode and sends nothing; the edited
        fields are not restored. */
    method Cancel()
      requires isEditing
      modifies this
      ensures !isEditing
      ensures title == old(title) && content == old(content) && tags == old(tags) && imageUrl == old(imageUrl)
      ensures updatePending == old(updatePending)
    {
      isEditing := false;
    }

    /** The delete button: `confirmed` is the answer to the confirmation
        dialog. A `DELETE /api/entries/:id` for this entry goes out exactly
        when the user confirmed; the card itself does not change. */
    method DeleteClicked(confirmed: bool) returns (sent: Option<int>)
      requires !isEditing
      ensures sent.Some? <==> confirmed
      ensures sent.Some? ==> sent.value == entry.id
    {
      if confirmed {
        sent := Some(entry.id);
      } else {
        sent := None;
      }
    }
  }
}
