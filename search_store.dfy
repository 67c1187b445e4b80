/** The search store (src/entities/search/stores/searchStore.ts): the query, category, page
    and page size the user has chosen, the last result received, the request they make and
    the number of result pages. */
module SearchStore {
  import opened Common

  /** The fields of a search hit the core passes along; the rest of a document is not
      modelled. */
  datatype SearchDocument = SearchDocument(id: string, keyword: string, content: string)

  /** A page of results: `total` hits overall, this page holding `documents`, starting at
      `skip`, with page size `limit`. */
  datatype SearchResponse = SearchResponse(documents: seq<SearchDocument>, total: nat, skip: nat, limit: nat)

  /** A search within a category (`category` absent searches all of them). */
  datatype SearchRequest = SearchRequest(query: string, category: Option<string>, page: int, limit: int)

  /** The page count as a JavaScript number: a whole count, or not finite when the page size
      is 0 (`total / 0` is `Infinity` or `NaN`, and no page number is greater than either). */
  datatype PageCount = Finite(n: nat) | NotFinite

  const DefaultLimit: int := 20

  /** The request for a query, category, page and page size: none for a blank query;
      otherwise the query trimmed, an empty category dropped, page and size as given. */
  function Request(query: string, category: string, page: int, limit: int): (r: Option<SearchRequest>)
    ensures r.Some? ==> IsTrimmed(r.value.query) && r.value.query != []
    ensures r.Some? ==> r.value.page == page && r.value.limit == limit
    ensures r.Some? ==> (r.value.category.None? <==> category == [])
    ensures r.Some? && category != [] ==> r.value.category == Some(category)
  {
    if Trim(query) == [] then None
    else Some(SearchRequest(Trim(query), if category == [] then None else Some(category), page, limit))
  }

  /** There is a request exactly when the query is not all white space, and its query is
      the typed one with only the white space around it removed. */
  lemma RequestPresent(query: string, category: string, page: int, limit: int)
    ensures Request(query, category, page, limit).None? <==> IsBlank(query)
    ensures Request(query, category, page, limit).Some? ==>
              TrimmedAt(query, Request(query, category, page, limit).value.query, TrimOffset(query))
  {
    TrimEmpty(query);
    TrimRemovesSpace(query);
  }

  /** `Math.ceil(total / limit)` for a positive page size. */
  function CeilDiv(total: nat, limit: nat): (r: nat)
    requires limit > 0
    ensures (r - 1) * limit < total <= r * limit || (total == 0 && r == 0)
  {
    (total + limit - 1) / limit
  }

  /** `totalPages`: 0 with no result, otherwise enough pages of `limit` hits for all `total`
      hits (not finite for a zero page size). */
  function Pages(result: Option<SearchResponse>): (r: PageCount)
    ensures result.None? ==> r == Finite(0)
    ensures r.NotFinite? <==> result.Some? && result.value.limit == 0
    ensures r.Finite? && result.Some? ==>
              (r.n == 0 <==> result.value.total == 0) &&
              r.n * result.value.limit >= result.value.total &&
              (r.n > 0 ==> (r.n - 1) * result.value.limit < result.value.total)
  {
    if result.None? then Finite(0)
    else if result.value.limit == 0 then NotFinite
    else Finite(CeilDiv(result.value.total, result.value.limit))
  }

  class SearchStore {
    var query: string
    var category: string
    var page: int
    var limit: int
    var lastSearchResult: Option<SearchResponse>

    constructor ()
      ensures query == [] && category == [] && page == 1 && limit == DefaultLimit && lastSearchResult == None
    {
      query, category := [], [];
      page, limit := 1, DefaultLimit;
      lastSearchResult := None;
    }

    /** `searchRequest`. */
    function SearchRequest(): Option<SearchRequest>
      reads this
    {
      Request(query, category, page, limit)
    }

    /** `totalPages`. */
    function TotalPages(): PageCount
      reads this
    {
      Pages(lastSearchResult)
    }

    method UpdateQuery(value: string)
      modifies this`query
      ensures query == value
    {
      query := value;
    }

    method UpdateCategory(value: string)
      modifies this`category
      ensures category == value
    {
      category := value;
    }

    method UpdatePage(value: int)
      modifies this`page
      ensures page == value
    {
      page := value;
    }

    method SetSearchResult(result: Option<SearchResponse>)
      modifies this`lastSearchResult
      ensures lastSearchResult == result
    {
      lastSearchResult := result;
    }

    method ResetPage()
      modifies this`page
      ensures page == 1
    {
      page := 1;
    }

    /** `clearSearch`: query, category, page and result back to their start values; the page
      size is kept. Afterwards there is no request and no page. */
    method ClearSearch()
      modifies this`query, this`category, this`page, this`lastSearchResult
      ensures query == [] && category == [] && page == 1 && lastSearchResult == None
      ensures SearchRequest() == None && TotalPages() == Finite(0)
    {
      query := [];
      category := [];
      page := 1;
      lastSearchResult := None;
    }
  }
}
