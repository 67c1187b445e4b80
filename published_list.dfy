/** The published-list view logic (src/features/published/hooks/usePublishedList.ts): where
    an item stands in its blog-id group, reusing an item as a chat template, and deleting
    one. */
module PublishedList {
  import opened Common
  import opened Sorting
  import opened FavoriteSearches
  import opened PublishedStore
  import ChatStore

  /** `BlogIdGroupInfo`: the group's size, the item's 1-based place newest first (0 when its
      id is not in the group), and whether it is the newest. */
  datatype GroupInfo = GroupInfo(total: nat, position: nat, isLatest: bool)

  /** `getItemGroupInfo`: nothing for an item without a blog id or alone in its group;
      otherwise its place in the group sorted newest first, found by id. */
  function GetItemGroupInfo(item: FavoriteSearch, groups: map<string, seq<FavoriteSearch>>): (r: Option<GroupInfo>)
    ensures r.Some? <==> Truthy(item.blogId) && item.blogId.value in groups && |groups[item.blogId.value]| > 1
    ensures r.Some? ==> r.value.total == |groups[item.blogId.value]| && r.value.position <= r.value.total
    ensures r.Some? ==> (r.value.isLatest <==> r.value.position == 1)
  {
    if !Truthy(item.blogId) then None
    else if item.blogId.value !in groups || |groups[item.blogId.value]| <= 1 then None
    else
      var group := groups[item.blogId.value];
      var sortedGroup := Sort(group, Newer);
      var index: int := match IndexOfItem(sortedGroup, item.id) case None => -1 case Some(k) => k;
      Some(GroupInfo(|group|, index + 1, index == 0))
  }

  /** The position is the first place, newest first, holding the item's id, or 0 when no
      member of the group has that id; the item marked latest carries the newest time of
      its group. */
  lemma GroupInfoPosition(item: FavoriteSearch, groups: map<string, seq<FavoriteSearch>>)
    requires GetItemGroupInfo(item, groups).Some?
    ensures var info := GetItemGroupInfo(item, groups).value;
            var group := groups[item.blogId.value];
            var sortedGroup := Sort(group, Newer);
            && |sortedGroup| == |group|
            && (info.position == 0 <==> forall g :: g in group ==> g.id != item.id)
            && (info.position > 0 ==> sortedGroup[info.position - 1].id == item.id
                                      && forall j :: 0 <= j < info.position - 1 ==> sortedGroup[j].id != item.id)
            && (info.isLatest ==> forall g :: g in group ==> g.createdAt <= sortedGroup[0].createdAt)
  {
    var group := groups[item.blogId.value];
    SortMembers(group, Newer);
    FoundById(Sort(group, Newer), group, item.id);
    NewestSortedFirst(group);
  }

  /** The search by id in a reordering of `group` finds the first place holding the id, and
      nothing exactly when no member has it. */
  lemma FoundById(sorted: seq<FavoriteSearch>, group: seq<FavoriteSearch>, id: string)
    requires forall x :: x in sorted <==> x in group
    ensures IndexOfItem(sorted, id).None? <==> forall g :: g in group ==> g.id != id
    ensures IndexOfItem(sorted, id).Some? ==>
              var i := IndexOfItem(sorted, id).value;
              i < |sorted| && sorted[i].id == id && forall j :: 0 <= j < i ==> sorted[j].id != id
  {
    var r := IndexOfItem(sorted, id);
    if r.None? {
      forall g | g in group ensures g.id != id {
        var j :| 0 <= j < |sorted| && sorted[j] == g;
        assert ItemId(sorted[j]) != id;
      }
    } else {
      assert ItemId(sorted[r.value]) == id;
    }
  }

  /** Sorted newest first, a non-empty group starts with an item no member is newer than. */
  lemma NewestSortedFirst(group: seq<FavoriteSearch>)
    requires group != []
    ensures forall g :: g in group ==> g.createdAt <= Sort(group, Newer)[0].createdAt
  {
    var sortedGroup := Sort(group, Newer);
    SortMembers(group, Newer);
    NewerIsStrict();
    SortSorted(group, Newer);
    forall g | g in group
      ensures g.createdAt <= sortedGroup[0].createdAt
    {
      var j :| 0 <= j < |sortedGroup| && sortedGroup[j] == g;
      if j > 0 {
        assert !Newer(sortedGroup[j], sortedGroup[0]);
      }
    }
  }

  /** Two items of the same group are numbered apart: distinct ids present in the group
      get distinct positions. */
  lemma PositionsDistinct(a: FavoriteSearch, b: FavoriteSearch, groups: map<string, seq<FavoriteSearch>>)
    requires GetItemGroupInfo(a, groups).Some? && GetItemGroupInfo(b, groups).Some?
    requires a.blogId == b.blogId && a.id != b.id
    requires GetItemGroupInfo(a, groups).value.position > 0
    ensures GetItemGroupInfo(a, groups).value.position != GetItemGroupInfo(b, groups).value.position
  {
    GroupInfoPosition(a, groups);
    GroupInfoPosition(b, groups);
  }

  /** `handleUseTemplate`: the chat keyword becomes the item's keyword; a non-empty reference
      is copied and its input shown, otherwise both stay as they were. The move to the chat
      page is not modelled. */
  method HandleUseTemplate(chat: ChatStore.ChatStore, item: FavoriteSearch)
    modifies chat`keyword, chat`refMsg, chat`showRefInput
    ensures chat.keyword == item.keyword
    ensures Truthy(item.refMsg) ==> chat.refMsg == item.refMsg.value && chat.showRefInput
    ensures !Truthy(item.refMsg) ==> chat.refMsg == old(chat.refMsg) && chat.showRefInput == old(chat.showRefInput)
  {
    chat.keyword := item.keyword;
    if Truthy(item.refMsg) {
      chat.refMsg := item.refMsg.value;
      chat.showRefInput := true;
    }
  }

  /** `handleDelete`: only once the user confirms is the list reloaded, from `stored`, the
      storage as the reload reads it. */
  method HandleDelete(store: PublishedStore, confirmed: bool, stored: Option<seq<FavoriteSearch>>)
    modifies store`articles, store`loading
    ensures !confirmed ==> store.articles == old(store.articles) && store.loading == old(store.loading)
    ensures confirmed ==> store.articles == (if stored.Some? then stored.value else old(store.articles))
    ensures confirmed ==> store.loading == old(store.loading).(list := false)
  {
    if confirmed {
      store.LoadArticles(stored);
    }
  }
}
