/** The journal page's search: the query-key string built from the search
    field and the tag picked in the tag panel. */
module Home {
  import opened Base
  import Timeline

  /** `searchQuery` starts as "", `selectedTag` as undefined. */
  datatype HomeState = HomeState(searchQuery: string, selectedTag: Option<string>)

  datatype HomeEvent = TypeSearch(value: string) | TagSelected(name: string)

  function InitialHome(): HomeState
  {
    HomeState("", None)
  }

  /** The two setters: the search field and the tag panel's `onTagSelect`. */
  function HomeStep(st: HomeState, ev: HomeEvent): HomeState
  {
    match ev
    case TypeSearch(v) => st.(searchQuery := v)
    case TagSelected(name) => st.(selectedTag := Some(name))
  }

  /** The key as written: `?q=` and the raw query when the query is
      non-empty, then `&tag=` and the tag when one is selected. */
  function SearchKey(searchQuery: string, selectedTag: Option<string>): string
  {
    "/api/search"
      + (if searchQuery != "" then "?q=" + searchQuery else "")
      + (if Truthy(selectedTag) then "&tag=" + selectedTag.value else "")
  }

  function KeyOf(st: HomeState): string
  {
    SearchKey(st.searchQuery, st.selectedTag)
  }

  lemma EmptySearchKey()
    ensures KeyOf(InitialHome()) == "/api/search"
    ensures forall t :: SearchKey("", Some(t)) == "/api/search" <==> t == ""
  {
  }

  /** A query alone is appended unencoded after `?q=`. */
  lemma QueryOnlyKey(q: string)
    requires q != ""
    ensures SearchKey(q, None) == "/api/search?q=" + q
  {
  }

  /** A query and a tag: the tag parameter follows the query part. */
  lemma QueryAndTagKey(q: string, t: string)
    requires q != "" && t != ""
    ensures SearchKey(q, Some(t)) == "/api/search?q=" + q + "&tag=" + t
  {
  }

  /** As written, a tag without a query gives a key with no `?`: the path
      itself becomes `/api/search&tag=…`. */
  lemma TagOnlyKeyLacksQuestionMark(t: string)
    requires t != ""
    ensures SearchKey("", Some(t)) == "/api/search&tag=" + t
    ensures '?' !in t ==> '?' !in SearchKey("", Some(t))
  {
  }

  /** The evident intent: the first parameter opens with `?`, a later one
      with `&`. */
  function SearchKeyIntended(searchQuery: string, selectedTag: Option<string>): (key: string)
    ensures searchQuery == "" && !Truthy(selectedTag) ==> key == "/api/search"
    ensures searchQuery != "" && !Truthy(selectedTag) ==> key == "/api/search?q=" + searchQuery
    ensures searchQuery != "" && Truthy(selectedTag) ==>
      key == "/api/search?q=" + searchQuery + "&tag=" + selectedTag.value
    ensures searchQuery == "" && Truthy(selectedTag) ==> key == "/api/search?tag=" + selectedTag.value
  {
    var query := if searchQuery != "" then ["q=" + searchQuery] else [];
    var tag := if Truthy(selectedTag) then ["tag=" + selectedTag.value] else [];
    var params := query + tag;
    if |params| == 0 then "/api/search"
    else if |params| == 1 then "/api/search?" + params[0]
    else "/api/search?" + params[0] + "&" + params[1]
  }

  /** The intended key agrees with the written one whenever the written
      one has a query part or no tag. */
  lemma IntendedAgrees(q: string, tag: Option<string>)
    requires q != "" || !Truthy(tag)
    ensures SearchKeyIntended(q, tag) == SearchKey(q, tag)
  {
  }

  /** Only `onTagSelect` sets the tag, and nothing clears it. */
  lemma TagOnlySetBySelection(st: HomeState, ev: HomeEvent)
    ensures HomeStep(st, ev).selectedTag != st.selectedTag ==> ev.TagSelected?
    ensures st.selectedTag.Some? ==> HomeStep(st, ev).selectedTag.Some?
  {
  }

  /** Clicking badge `k` of the tag panel selects that badge's name, which
      then closes the key, after the query part. */
  lemma BadgeSelectsTag(st: HomeState, keys: seq<string>, k: nat)
    requires k < |keys| && keys[k] != ""
    ensures HomeStep(st, TagSelected(Timeline.BadgeClicked(keys, k))).selectedTag == Some(keys[k])
    ensures var key := KeyOf(HomeStep(st, TagSelected(Timeline.BadgeClicked(keys, k))));
      var suffix := "&tag=" + keys[k];
      |suffix| <= |key| && key[|key| - |suffix|..] == suffix
  {
    var st' := HomeStep(st, TagSelected(keys[k]));
    var head := "/api/search" + (if st.searchQuery != "" then "?q=" + st.searchQuery else "");
    assert KeyOf(st') == head + ("&tag=" + keys[k]);
  }
}
