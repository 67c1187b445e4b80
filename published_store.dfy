/** The published-items store (src/features/published/stores/publishedStore.ts): the
    articles, the filter and sort settings, the derived display list and its grouping by
    blog id, and the modal and editing state. The title comparison (`localeCompare`) is a
    parameter: `titleBefore(a, b)` holds when title `a` sorts before title `b`. */
module PublishedStore {
  import opened Common
  import opened Sorting
  import opened FavoriteSearches

  /** `'recent' | 'title'`. */
  datatype SortBy = Recent | Title

  datatype DetailModal = DetailModal(open: bool, selectedItem: Option<FavoriteSearch>)
  datatype MarkdownModal = MarkdownModal(open: bool, content: string)
  /** The item whose memo or blog id is being edited, and the text typed so far. */
  datatype Editing = Editing(memo: Option<string>, tempMemo: string, blogId: Option<string>, tempBlogId: string)
  datatype Loading = Loading(list: bool, delete: bool, save: bool)

  /** An item passes the filter: it has a reference when only items with one are shown, and
      a blog id when only items with one are shown. */
  predicate Passes(item: FavoriteSearch, onlyWithRef: bool, onlyWithBlogId: bool) {
    (!onlyWithRef || Truthy(item.refMsg)) && (!onlyWithBlogId || Truthy(item.blogId))
  }

  /** `articles.filter(...)`: the passing items, in order. */
  function Filtered(articles: seq<FavoriteSearch>, onlyWithRef: bool, onlyWithBlogId: bool): (r: seq<FavoriteSearch>)
    ensures forall x :: x in r <==> x in articles && Passes(x, onlyWithRef, onlyWithBlogId)
    ensures |r| <= |articles|
    decreases |articles|
  {
    if articles == [] then []
    else
      assert articles == AllButLast(articles) + [Last(articles)];
      var x := Last(articles);
      Filtered(AllButLast(articles), onlyWithRef, onlyWithBlogId) + (if Passes(x, onlyWithRef, onlyWithBlogId) then [x] else [])
  }

  /** The order the display list is sorted by. */
  function Order(sortBy: SortBy, titleBefore: (string, string) -> bool): (FavoriteSearch, FavoriteSearch) -> bool {
    if sortBy == Title then (a: FavoriteSearch, b: FavoriteSearch) => titleBefore(a.title, b.title) else Newer
  }

  /** A strict order on titles orders items strictly by title. */
  lemma ByTitleIsStrict(titleBefore: (string, string) -> bool)
    requires StrictOrder(titleBefore)
    ensures StrictOrder(Order(Title, titleBefore))
  {
    var before := Order(Title, titleBefore);
    forall a ensures !before(a, a) {
      assert !titleBefore(a.title, a.title);
    }
    forall a, b, c | before(a, b) && before(b, c) ensures before(a, c) {
      assert titleBefore(a.title, b.title) && titleBefore(b.title, c.title);
    }
  }

  /** `displayList`: the filtered copy, sorted by title or newest first. */
  function DisplayList(articles: seq<FavoriteSearch>, sortBy: SortBy, onlyWithRef: bool, onlyWithBlogId: bool,
                       titleBefore: (string, string) -> bool): seq<FavoriteSearch>
  {
    Sort(Filtered(articles, onlyWithRef, onlyWithBlogId), Order(sortBy, titleBefore))
  }

  /** Newest first is a strict order. */
  lemma NewerIsStrict()
    ensures StrictOrder(Newer)
  {
  }

  /** No item is older than one after it. */
  predicate NewestFirst(r: seq<FavoriteSearch>) {
    forall i, j :: 0 <= i < j < |r| ==> r[j].createdAt <= r[i].createdAt
  }

  /** No title sorts before one ahead of it. */
  predicate TitleOrdered(r: seq<FavoriteSearch>, titleBefore: (string, string) -> bool) {
    forall i, j :: 0 <= i < j < |r| ==> !titleBefore(r[j].title, r[i].title)
  }

  /** The display list holds exactly the passing articles, each as often as in the filtered
      copy; newest first it never puts an older item before a newer one, and by title it is
      sorted whenever the title comparison is a strict order. */
  lemma DisplayListShape(articles: seq<FavoriteSearch>, sortBy: SortBy, onlyWithRef: bool, onlyWithBlogId: bool,
                         titleBefore: (string, string) -> bool)
    ensures var r := DisplayList(articles, sortBy, onlyWithRef, onlyWithBlogId, titleBefore);
            && (forall x :: x in r <==> x in articles && Passes(x, onlyWithRef, onlyWithBlogId))
            && multiset(r) == multiset(Filtered(articles, onlyWithRef, onlyWithBlogId))
            && (sortBy == Recent ==> NewestFirst(r))
            && (sortBy == Title && StrictOrder(titleBefore) ==> TitleOrdered(r, titleBefore))
  {
    var filtered := Filtered(articles, onlyWithRef, onlyWithBlogId);
    SortMembers(filtered, Order(sortBy, titleBefore));
    OrderedBy(filtered, sortBy, titleBefore);
  }

  /** Sorted newest first, no item is older than one after it; sorted by a strict title
      order, no title sorts before one ahead of it. */
  lemma OrderedBy(items: seq<FavoriteSearch>, sortBy: SortBy, titleBefore: (string, string) -> bool)
    ensures var r := Sort(items, Order(sortBy, titleBefore));
            && (sortBy == Recent ==> NewestFirst(r))
            && (sortBy == Title && StrictOrder(titleBefore) ==> TitleOrdered(r, titleBefore))
  {
    if sortBy == Recent {
      NewestFirstSorted(items);
    } else if StrictOrder(titleBefore) {
      TitleOrderedSorted(items, titleBefore);
    }
  }

  lemma NewestFirstSorted(items: seq<FavoriteSearch>)
    ensures NewestFirst(Sort(items, Newer))
  {
    NewerIsStrict();
    SortSorted(items, Newer);
  }

  lemma TitleOrderedSorted(items: seq<FavoriteSearch>, titleBefore: (string, string) -> bool)
    requires StrictOrder(titleBefore)
    ensures TitleOrdered(Sort(items, Order(Title, titleBefore)), titleBefore)
  {
    ByTitleIsStrict(titleBefore);
    SortSorted(items, Order(Title, titleBefore));
  }

  /** The items of `list` whose blog id is `blogId`, in order. */
  function Group(list: seq<FavoriteSearch>, blogId: string): (r: seq<FavoriteSearch>)
    ensures forall x :: x in r <==> x in list && x.blogId == Some(blogId)
    decreases |list|
  {
    if list == [] then []
    else
      assert list == AllButLast(list) + [Last(list)];
      var x := Last(list);
      Group(AllButLast(list), blogId) + (if x.blogId == Some(blogId) then [x] else [])
  }

  /** Grouping keeps list order: the group of a concatenation is the group of the first part
      followed by the group of the second. */
  lemma {:induction false} GroupAppend(a: seq<FavoriteSearch>, b: seq<FavoriteSearch>, blogId: string)
    ensures Group(a + b, blogId) == Group(a, blogId) + Group(b, blogId)
    decreases |b|
  {
    if b == [] {
      assert a + b == a;
    } else {
      var init, x := AllButLast(b), Last(b);
      var tail := if x.blogId == Some(blogId) then [x] else [];
      assert AllButLast(a + b) == a + init && Last(a + b) == x;
      assert Group(a + b, blogId) == Group(a + init, blogId) + tail;
      GroupAppend(a, init, blogId);
      assert Group(b, blogId) == Group(init, blogId) + tail;
    }
  }

  /** An item placed in front of the list comes first in its group. */
  lemma GroupCons(x: FavoriteSearch, list: seq<FavoriteSearch>, blogId: string)
    ensures Group([x] + list, blogId) == (if x.blogId == Some(blogId) then [x] else []) + Group(list, blogId)
  {
    assert AllButLast([x]) == [] && Last([x]) == x;
    assert Group([x], blogId) == Group([], blogId) + (if x.blogId == Some(blogId) then [x] else []);
    GroupAppend([x], list, blogId);
  }

  /** `groups` holds one group per non-empty blog id of `list`, and that id's items. */
  ghost predicate GroupsOf(groups: map<string, seq<FavoriteSearch>>, list: seq<FavoriteSearch>) {
    forall b :: (b in groups <==> b != "" && Group(list, b) != []) && (b in groups ==> groups[b] == Group(list, b))
  }

  /** Pushing the next item onto its own group (created empty when missing) keeps the
      groups those of the longer prefix. */
  lemma GroupsStep(list: seq<FavoriteSearch>, k: nat, before: map<string, seq<FavoriteSearch>>, after: map<string, seq<FavoriteSearch>>)
    requires k < |list| && GroupsOf(before, list[..k])
    requires after == if Truthy(list[k].blogId)
                      then var b := list[k].blogId.value; before[b := (if b in before then before[b] else []) + [list[k]]]
                      else before
    ensures GroupsOf(after, list[..k + 1])
  {
    assert AllButLast(list[..k + 1]) == list[..k];
    assert Last(list[..k + 1]) == list[k];
  }

  /** `getBlogIdGroups`: one group per non-empty blog id of the list, holding that id's
      items in list order. */
  method BlogIdGroups(list: seq<FavoriteSearch>) returns (groups: map<string, seq<FavoriteSearch>>)
    ensures forall b :: b in groups <==> b != "" && Group(list, b) != []
    ensures forall b :: b in groups ==> groups[b] == Group(list, b)
  {
    groups := map[];
    var k := 0;
    while k < |list|
      invariant 0 <= k <= |list|
      invariant GroupsOf(groups, list[..k])
    {
      var item := list[k];
      ghost var before := groups;
      if Truthy(item.blogId) {
        var b := item.blogId.value;
        var group := if b in groups then groups[b] else [];
        groups := groups[b := group + [item]];
      }
      GroupsStep(list, k, before, groups);
      k := k + 1;
    }
    assert list[..k] == list;
  }

  /** Every item with a blog id is in its own group and in no other; an item without one is
      in no group. */
  lemma GroupsPartition(list: seq<FavoriteSearch>, item: FavoriteSearch, b: string)
    requires item in list
    ensures Truthy(item.blogId) ==> item in Group(list, item.blogId.value)
    ensures item in Group(list, b) ==> item.blogId == Some(b)
  {
  }

  const NotEditing: Editing := Editing(None, "", None, "")

  class PublishedStore {
    var articles: seq<FavoriteSearch>
    var sortBy: SortBy
    var isOnlyWithRef: bool
    var isOnlyWithBlogId: bool
    var detailModal: DetailModal
    var markdownModal: MarkdownModal
    var editing: Editing
    var loading: Loading

    constructor ()
      ensures articles == [] && sortBy == Recent && !isOnlyWithRef && !isOnlyWithBlogId
      ensures detailModal == DetailModal(false, None) && markdownModal == MarkdownModal(false, "")
      ensures editing == NotEditing && loading == Loading(false, false, false)
    {
      articles := [];
      sortBy := Recent;
      isOnlyWithRef, isOnlyWithBlogId := false, false;
      detailModal := DetailModal(false, None);
      markdownModal := MarkdownModal(false, "");
      editing := NotEditing;
      loading := Loading(false, false, false);
    }

    /** The display list of the current state; reading it changes nothing. */
    function Display(titleBefore: (string, string) -> bool): seq<FavoriteSearch>
      reads this
    {
      DisplayList(articles, sortBy, isOnlyWithRef, isOnlyWithBlogId, titleBefore)
    }

    /** `getBlogIdGroups`: the display list grouped by blog id; nothing changes. */
    method DisplayGroups(titleBefore: (string, string) -> bool) returns (groups: map<string, seq<FavoriteSearch>>)
      ensures forall b :: b in groups <==> b != "" && Group(Display(titleBefore), b) != []
      ensures forall b :: b in groups ==> groups[b] == Group(Display(titleBefore), b)
    {
      groups := BlogIdGroups(Display(titleBefore));
    }

    /** `loadArticles`: the stored items replace the list (`None` when reading them throws,
        which leaves the list as it was), and the list is no longer loading either way. */
    method LoadArticles(stored: Option<seq<FavoriteSearch>>)
      modifies this`articles, this`loading
      ensures articles == (if stored.Some? then stored.value else old(articles))
      ensures loading == old(loading).(list := false)
    {
      loading := loading.(list := true);
      if stored.Some? {
        articles := stored.value;
      }
      loading := loading.(list := false);
    }

    method OpenDetailModal(item: FavoriteSearch)
      modifies this`detailModal
      ensures detailModal == DetailModal(true, Some(item))
    {
      detailModal := DetailModal(true, Some(item));
    }

    /** `closeDetailModal`: the modal closes, nothing is selected, and both edits are
        abandoned. */
    method CloseDetailModal()
      modifies this`detailModal, this`editing
      ensures detailModal == DetailModal(false, None)
      ensures editing == NotEditing
    {
      detailModal := DetailModal(false, None);
      CancelEditMemo();
      CancelEditBlogId();
    }

    method OpenMarkdownModal(content: string)
      modifies this`markdownModal
      ensures markdownModal == MarkdownModal(true, content)
    {
      markdownModal := MarkdownModal(true, content);
    }

    method CloseMarkdownModal()
      modifies this`markdownModal
      ensures markdownModal == MarkdownModal(false, "")
    {
      markdownModal := MarkdownModal(false, "");
    }

    method StartEditMemo(itemId: string, memo: string)
      modifies this`editing
      ensures editing == old(editing).(memo := Some(itemId), tempMemo := memo)
    {
      editing := editing.(memo := Some(itemId), tempMemo := memo);
    }

    method CancelEditMemo()
      modifies this`editing
      ensures editing == old(editing).(memo := None, tempMemo := "")
    {
      editing := editing.(memo := None, tempMemo := "");
    }

    method StartEditBlogId(itemId: string, blogId: string)
      modifies this`editing
      ensures editing == old(editing).(blogId := Some(itemId), tempBlogId := blogId)
    {
      editing := editing.(blogId := Some(itemId), tempBlogId := blogId);
    }

    method CancelEditBlogId()
      modifies this`editing
      ensures editing == old(editing).(blogId := None, tempBlogId := "")
    {
      editing := editing.(blogId := None, tempBlogId := "");
    }
  }
}
