/** The new-entry form: four text fields, a save button and the reset
    after a successful save. */
module EntryEditor {
  import opened TagText

  /** The JSON body of `POST /api/entries`. The image field is always sent,
      as a string. */
  datatype CreateRequest = CreateRequest(title: string, content: string, imageUrl: string, tags: seq<string>)

  /** The save button's enable condition, the negation of
      `!title || !content || createEntry.isPending`. */
  function SaveEnabled(title: string, content: string, pending: bool): (r: bool)
    ensures r <==> title != "" && content != "" && !pending
  {
    !(title == "" || content == "" || pending)
  }

  /** The create request built from the form; its tags are the parsed tag
      field, with no empty, comma-holding or untrimmed name. */
  function CreateRequestOf(title: string, content: string, imageUrl: string, tags: string): (r: CreateRequest)
    ensures r.title == title && r.content == content && r.imageUrl == imageUrl
    ensures r.tags == ParseTags(tags)
    ensures forall k :: 0 <= k < |r.tags| ==> r.tags[k] != "" && ',' !in r.tags[k] && Trimmed(r.tags[k])
  {
    ParsedTags(tags);
    CreateRequest(title, content, imageUrl, ParseTags(tags))
  }

  /** An untouched tag field sends an empty tag list. */
  lemma EmptyTagFieldSendsNoTags(title: string, content: string, imageUrl: string)
    ensures CreateRequestOf(title, content, imageUrl, "").tags == []
  {
    ParseEmpty();
  }

  class Editor {
    var title: string
    var content: string
    var tags: string
    var imageUrl: string
    /** `createEntry.isPending`. */
    var pending: bool

    constructor ()
      ensures title == "" && content == "" && tags == "" && imageUrl == ""
      ensures !pending
      ensures !SaveEnabled(title, content, pending)
    {
      title := "";
      content := "";
      tags := "";
      imageUrl := "";
      pending := false;
    }

    method SetTitle(v: string)
      modifies this
      ensures title == v
      ensures content == old(content) && tags == old(tags) && imageUrl == old(imageUrl) && pending == old(pending)
    {
      title := v;
    }

    method SetContent(v: string)
      modifies this
      ensures content == v
      ensures title == old(title) && tags == old(tags) && imageUrl == old(imageUrl) && pending == old(pending)
    {
      content := v;
    }

    method SetTags(v: string)
      modifies this
      ensures tags == v
      ensures title == old(title) && content == old(content) && imageUrl == old(imageUrl) && pending == old(pending)
    {
      tags := v;
    }

    method SetImageUrl(v: string)
      modifies this
      ensures imageUrl == v
      ensures title == old(title) && content == old(content) && tags == old(tags) && pending == old(pending)
    {
      imageUrl := v;
    }

    /** The save button, pressable only when enabled. While the request is
        out the button stays disabled. */
    method Save() returns (req: CreateRequest)
      requires SaveEnabled(title, content, pending)
      modifies this
      ensures pending && !SaveEnabled(title, content, pending)
      ensures title == old(title) && content == old(content) && tags == old(tags) && imageUrl == old(imageUrl)
      ensures req == CreateRequestOf(title, content, imageUrl, tags)
    {
      pending := true;
      req := CreateRequestOf(title, content, imageUrl, tags);
    }

    /** A 2xx reply empties all four fields, which disables the button. */
    method SaveSucceeded()
      requires pending
      modifies this
      ensures title == "" && content == "" && tags == "" && imageUrl == ""
      ensures !pending && !SaveEnabled(title, content, pending)
    {
      title := "";
      content := "";
      tags := "";
      imageUrl := "";
      pending := false;
    }

    /** Any other reply leaves the fields as they are, so the user can
        retry. */
    method SaveFailed()
      requires pending
      modifies this
      ensures title == old(title) && content == old(content) && tags == old(tags) && imageUrl == old(imageUrl)
      ensures !pending
      ensures SaveEnabled(title, content, pending) <==> title != "" && content != ""
    {
      pending := false;
    }
  }
}
