/** The saved-search / published-item record (src/entities/published/model/types.ts). Optional
    properties are `Option`s; dates are milliseconds since the epoch. */
module FavoriteSearches {
  import opened Common

  datatype FavoriteSearch = FavoriteSearch(
    id: string,
    keyword: string,
    refMsg: Option<string>,
    title: string,
    createdAt: int,
    isPublished: Option<bool>,
    resultSample: Option<string>,
    memo: Option<string>,
    blogId: Option<string>,
    isActive: Option<bool>,
    isVisible: Option<bool>,
    exposureRank: Option<int>,
    userMessageId: Option<string>,
    botMessageId: Option<string>,
    botContent: Option<string>,
    service: Option<string>,
    originalTimestamp: Option<int>)

  /** `list.findIndex(f => f.id === id)`. */
  function IndexOfItem(list: seq<FavoriteSearch>, id: string): Option<nat> {
    FindIndex(list, ItemId, id)
  }

  function ItemId(x: FavoriteSearch): string {
    x.id
  }

  /** `(a, b) => new Date(b.createdAt).getTime() - new Date(a.createdAt).getTime()`: newer
      first. */
  predicate Newer(a: FavoriteSearch, b: FavoriteSearch) {
    a.createdAt > b.createdAt
  }
}
