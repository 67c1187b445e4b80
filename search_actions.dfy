/** The search actions (src/entities/search/hooks/useSearchActions.ts): starting a search,
    moving between result pages, and the data shown. The query cache is not modelled: what a
    fetch returns is given to the model. */
module SearchActions {
  import opened Common
  import opened SearchStore

  /** `newPage` is accepted: at least 1 and not beyond the last page. */
  predicate AcceptsPage(newPage: int, pages: PageCount) {
    newPage >= 1 && (pages.NotFinite? || newPage <= pages.n)
  }

  /** An accepted page lies between the first and the last page, and every page in between is
      accepted; with no result or no hits no page is. */
  lemma AcceptedPages(newPage: int, pages: PageCount)
    ensures AcceptsPage(newPage, pages) && pages.Finite? ==> 1 <= newPage <= pages.n
    ensures pages.Finite? && 1 <= newPage <= pages.n ==> AcceptsPage(newPage, pages)
    ensures pages == Finite(0) ==> !AcceptsPage(newPage, pages)
  {
  }

  /** `data ?? lastSearchResult`: the freshly fetched data, else the stored result. */
  function SearchData(data: Option<SearchResponse>, last: Option<SearchResponse>): (r: Option<SearchResponse>)
    ensures data.Some? ==> r == data
    ensures data.None? ==> r == last
  {
    if data.Some? then data else last
  }

  /** The watcher on the fetched data: only data that arrived is stored. */
  method OnData(store: SearchStore, newData: Option<SearchResponse>)
    modifies store`lastSearchResult
    ensures store.lastSearchResult == (if newData.Some? then newData else old(store.lastSearchResult))
  {
    if newData.Some? {
      store.SetSearchResult(newData);
    }
  }

  /** Once the watcher has stored the fetched data, what is shown is that data, or with nothing
      fetched what was stored before. */
  lemma ShownAfterStore(data: Option<SearchResponse>, last: Option<SearchResponse>)
    ensures var stored := if data.Some? then data else last;
            SearchData(data, stored) == SearchData(data, last)
  {
  }

  /** `executeSearch`: with no request nothing changes and `started` is false; otherwise the
      page goes back to 1 and the request the refetch sends is `sent`. */
  method ExecuteSearch(store: SearchStore) returns (started: bool, sent: Option<SearchRequest>)
    modifies store`page
    ensures started <==> old(store.SearchRequest()).Some?
    ensures !started ==> store.page == old(store.page) && sent == None
    ensures started ==> store.page == 1 && sent == store.SearchRequest()
    ensures started ==> sent == Some(old(store.SearchRequest()).value.(page := 1))
  {
    if store.SearchRequest().None? {
      return false, None;
    }
    store.ResetPage();
    started, sent := true, store.SearchRequest();
  }

  /** `changePage`: an accepted page becomes the current one; any other is ignored. */
  method ChangePage(store: SearchStore, newPage: int)
    modifies store`page
    ensures AcceptsPage(newPage, store.TotalPages()) ==> store.page == newPage
    ensures !AcceptsPage(newPage, store.TotalPages()) ==> store.page == old(store.page)
  {
    if newPage < 1 || (store.TotalPages().Finite? && newPage > store.TotalPages().n) {
      return;
    }
    store.UpdatePage(newPage);
  }
}
