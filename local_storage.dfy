/** The lists kept in `localStorage` (src/utils/_localStorage.ts): frequent keywords, saved and
    published searches, and the search history.

    Each storage key is a field holding the stored list, or `None` when the key is missing or
    its text does not parse: reading such a key gives the empty list. Every operation reads its
    list, changes it and writes it back, or writes nothing. */
module LocalStorage {
  import opened Common
  import opened Sorting
  import opened FavoriteSearches

  /** `getStoredValue(key, default)`: the parsed stored text, or the default when nothing is
      stored, the empty string is stored, or parsing fails. */
  function GetStoredValue<T>(stored: Option<string>, parse: string -> Option<T>, default: T): (r: T)
    ensures !Truthy(stored) ==> r == default
    ensures Truthy(stored) && parse(stored.value).None? ==> r == default
    ensures Truthy(stored) && parse(stored.value).Some? ==> r == parse(stored.value).value
  {
    if !Truthy(stored) then default
    else match parse(stored.value)
      case None => default
      case Some(v) => v
  }

  /** The service used when none was chosen. */
  const DefaultService: string := "gpt-5-v2"

  /** `getSelectedService`. */
  function GetSelectedService(stored: Option<string>, parse: string -> Option<string>): (r: string)
    ensures !Truthy(stored) ==> r == DefaultService
  {
    GetStoredValue(stored, parse, DefaultService)
  }

  /** A stored list as it is read back. */
  function Load<T>(slot: Option<seq<T>>): seq<T> {
    if slot.Some? then slot.value else []
  }

  /** `list.unshift(x); list.slice(0, cap)`: `x` first, then as many of the old entries, in
      order, as fit. */
  function Prepend<T>(list: seq<T>, x: T, cap: nat): (r: seq<T>)
    requires cap >= 1
    ensures |r| == if |list| + 1 <= cap then |list| + 1 else cap
    ensures r[0] == x && r[1..] == list[..|r| - 1]
  {
    Take([x] + list, cap)
  }

  // ----- Frequent keywords -----

  datatype FrequentKeyword = FrequentKeyword(keyword: string, count: nat, lastUsed: int)

  const FrequentCap: nat := 10

  /** `(a, b) => b.count - a.count`: higher counts first. */
  predicate MoreUsed(a: FrequentKeyword, b: FrequentKeyword) {
    a.count > b.count
  }

  /** `keywords.find(k => k.keyword === keyword)`, by position. */
  function FindKeyword(list: seq<FrequentKeyword>, keyword: string): Option<nat> {
    FindIndex(list, KeywordOf, keyword)
  }

  function KeywordOf(x: FrequentKeyword): string {
    x.keyword
  }

  /** The list before sorting: the first entry for the keyword counts one more use, or a new
      entry with one use is pushed. */
  function Bumped(list: seq<FrequentKeyword>, keyword: string, now: int): (r: seq<FrequentKeyword>)
    ensures FindKeyword(list, keyword).Some? ==>
              var i := FindKeyword(list, keyword).value;
              |r| == |list| && r[i] == FrequentKeyword(keyword, list[i].count + 1, now) &&
              forall j :: 0 <= j < |list| && j != i ==> r[j] == list[j]
    ensures FindKeyword(list, keyword).None? ==> r == list + [FrequentKeyword(keyword, 1, now)]
  {
    match FindKeyword(list, keyword)
    case Some(i) => list[i := list[i].(count := list[i].count + 1, lastUsed := now)]
    case None => list + [FrequentKeyword(keyword, 1, now)]
  }

  /** `addKeywordToFrequent` on the list as read. */
  function AddKeyword(list: seq<FrequentKeyword>, keyword: string, now: int): seq<FrequentKeyword> {
    Take(Sort(Bumped(list, keyword, now), MoreUsed), FrequentCap)
  }

  /** Every entry has been used at least once. */
  predicate AllUsed(list: seq<FrequentKeyword>) {
    forall k :: 0 <= k < |list| ==> list[k].count >= 1
  }

  /** What every written frequent-keyword list satisfies: at most ten entries, by decreasing
      use count, each used at least once. */
  ghost predicate FrequentValid(list: seq<FrequentKeyword>) {
    |list| <= FrequentCap && Sorted(list, MoreUsed) && AllUsed(list)
  }

  /** Adding a keyword keeps the stored list valid, whatever was read. */
  lemma AddKeywordValid(list: seq<FrequentKeyword>, keyword: string, now: int)
    requires AllUsed(list)
    ensures FrequentValid(AddKeyword(list, keyword, now))
  {
    var b := Bumped(list, keyword, now);
    BumpedUsed(list, keyword, now);
    var s := Sort(b, MoreUsed);
    SortSorted(b, MoreUsed);
    SortedUsed(b);
    TakeValid(s);
  }

  lemma BumpedUsed(list: seq<FrequentKeyword>, keyword: string, now: int)
    requires AllUsed(list)
    ensures AllUsed(Bumped(list, keyword, now))
  {
    var b := Bumped(list, keyword, now);
    match FindKeyword(list, keyword)
    case None =>
      assert b == list + [FrequentKeyword(keyword, 1, now)];
    case Some(i) =>
      forall k | 0 <= k < |b| ensures b[k].count >= 1 {
        if k != i {
          assert b[k] == list[k];
        }
      }
  }

  lemma SortedUsed(b: seq<FrequentKeyword>)
    requires AllUsed(b)
    ensures AllUsed(Sort(b, MoreUsed))
  {
    var s := Sort(b, MoreUsed);
    SortMembers(b, MoreUsed);
    forall k | 0 <= k < |s| ensures s[k].count >= 1 {
      assert s[k] in b;
    }
  }

  lemma TakeValid(s: seq<FrequentKeyword>)
    requires AllUsed(s) && Sorted(s, MoreUsed)
    ensures FrequentValid(Take(s, FrequentCap))
  {
  }

  /** When the keyword is known, or the list has room, no entry is lost: the result holds
      exactly the entries of the bumped list. */
  lemma AddKeywordKeepsAll(list: seq<FrequentKeyword>, keyword: string, now: int)
    requires |list| <= FrequentCap
    requires FindKeyword(list, keyword).Some? || |list| < FrequentCap
    ensures multiset(AddKeyword(list, keyword, now)) == multiset(Bumped(list, keyword, now))
  {
  }

  /** Once ten keywords are stored, a new keyword is never recorded: it enters with one use,
      the stable sort keeps it behind every entry (each has at least one use) and the cut to
      ten drops it. The stored list stays as it was. */
  lemma NewKeywordDropped(list: seq<FrequentKeyword>, keyword: string, now: int)
    requires FrequentValid(list) && |list| == FrequentCap
    requires FindKeyword(list, keyword).None?
    ensures AddKeyword(list, keyword, now) == list
  {
    var x := FrequentKeyword(keyword, 1, now);
    SortOfSorted(list, MoreUsed);
    assert list + [x] != [];
    assert AllButLast(list + [x]) == list && Last(list + [x]) == x;
    InsertLast(list, x, MoreUsed);
    assert (list + [x])[..FrequentCap] == list;
  }

  // ----- Saved and published searches -----

  const FavoritesCap: nat := 20

  /** The entry `addFavoriteSearch` creates. */
  function NewFavorite(keyword: string, refMsg: Option<string>, title: Option<string>,
                       isPublished: Option<bool>, now: nat): (f: FavoriteSearch)
    ensures f.id == NatToString(now) && f.keyword == keyword && f.refMsg == refMsg
    ensures f.title == (if Truthy(title) then title.value else keyword)
    ensures f.isPublished == Some(isPublished == Some(true))
    ensures f.memo == None && f.isVisible == None && f.exposureRank == None
  {
    FavoriteSearch(NatToString(now), keyword, refMsg, OrElse(title, keyword), now,
                   Some(isPublished == Some(true)), None, None, None, None, None, None,
                   None, None, None, None, None)
  }

  /** The entry `addPublishedSearch` creates: always published, with the chat data given. */
  function NewPublished(keyword: string, refMsg: Option<string>, title: Option<string>,
                        resultSample: Option<string>, userMessageId: Option<string>,
                        botMessageId: Option<string>, botContent: Option<string>,
                        service: Option<string>, originalTimestamp: Option<int>,
                        memo: Option<string>, now: nat): (f: FavoriteSearch)
    ensures f.id == NatToString(now) && f.keyword == keyword && f.refMsg == refMsg
    ensures f.title == (if Truthy(title) then title.value else keyword)
    ensures f.isPublished == Some(true) && f.memo == memo && f.resultSample == resultSample
    ensures f.userMessageId == userMessageId && f.botMessageId == botMessageId
    ensures f.botContent == botContent && f.service == service && f.originalTimestamp == originalTimestamp
  {
    FavoriteSearch(NatToString(now), keyword, refMsg, OrElse(title, keyword), now,
                   Some(true), resultSample, memo, None, None, None, None,
                   userMessageId, botMessageId, botContent, service, originalTimestamp)
  }

  /** `updatePublishedMemo` on the list as read: `None` when the id is unknown (nothing is
      written). */
  function UpdateMemo(list: seq<FavoriteSearch>, id: string, memo: string): (r: Option<seq<FavoriteSearch>>)
    ensures r.None? <==> forall j :: 0 <= j < |list| ==> list[j].id != id
    ensures r.Some? ==>
              var i := IndexOfItem(list, id).value;
              |r.value| == |list| && r.value[i] == list[i].(memo := Some(memo)) &&
              forall j :: 0 <= j < |list| && j != i ==> r.value[j] == list[j]
  {
    match IndexOfItem(list, id)
    case None => None
    case Some(i) => Some(list[i := list[i].(memo := Some(memo))])
  }

  /** `updatePublishedExposure` on the list as read: the visibility of the first entry with
      the id is set, and its rank only when one is given; `None` when the id is unknown. */
  function UpdateExposure(list: seq<FavoriteSearch>, id: string, isVisible: bool, exposureRank: Option<int>)
    : (r: Option<seq<FavoriteSearch>>)
    ensures r.None? <==> forall j :: 0 <= j < |list| ==> list[j].id != id
    ensures r.Some? ==>
              var i := IndexOfItem(list, id).value;
              && |r.value| == |list|
              && r.value[i] == list[i].(isVisible := Some(isVisible),
                                        exposureRank := if exposureRank.Some? then exposureRank else list[i].exposureRank)
              && forall j :: 0 <= j < |list| && j != i ==> r.value[j] == list[j]
  {
    match IndexOfItem(list, id)
    case None => None
    case Some(i) =>
      var f := list[i].(isVisible := Some(isVisible));
      Some(list[i := if exposureRank.Some? then f.(exposureRank := exposureRank) else f])
  }

  /** `favorites.filter(f => f.id !== id)`. */
  function RemoveItem(list: seq<FavoriteSearch>, id: string): (r: seq<FavoriteSearch>)
    ensures |r| <= |list|
    ensures forall f :: f in r <==> f in list && f.id != id
    decreases |list|
  {
    if list == [] then []
    else if list[0].id == id then RemoveItem(list[1..], id)
    else [list[0]] + RemoveItem(list[1..], id)
  }

  /** Removing keeps the other entries in their order: removing from a concatenation is
      removing from each part. */
  lemma {:induction false} RemoveItemAppend(a: seq<FavoriteSearch>, b: seq<FavoriteSearch>, id: string)
    ensures RemoveItem(a + b, id) == RemoveItem(a, id) + RemoveItem(b, id)
    decreases |a|
  {
    if a == [] {
      assert a + b == b;
    } else {
      assert (a + b)[0] == a[0] && (a + b)[1..] == a[1..] + b;
      RemoveItemAppend(a[1..], b, id);
    }
  }

  // ----- Search history -----

  datatype SearchHistory = SearchHistory(id: string, keyword: string, ref: Option<string>, service: string, timestamp: int)

  const HistoryCap: nat := 15

  /** The duplicate test of `addSearchHistory`: an entry with the same keyword and reference,
      and a stored service equal to the argument as given (a missing argument equals none). */
  predicate IsDuplicate(list: seq<SearchHistory>, keyword: string, ref: Option<string>, service: Option<string>) {
    exists k :: 0 <= k < |list| && list[k].keyword == keyword && list[k].ref == ref && service == Some(list[k].service)
  }

  /** `addSearchHistory` on the list as read: `None` for a duplicate (nothing is written);
      otherwise the new entry first and at most fifteen entries, the service defaulting to
      `gpt-5-v2`. */
  function AddHistory(list: seq<SearchHistory>, keyword: string, ref: Option<string>, service: Option<string>, now: nat)
    : (r: Option<seq<SearchHistory>>)
    ensures r.None? <==> IsDuplicate(list, keyword, ref, service)
    ensures r.Some? ==> 1 <= |r.value| <= HistoryCap && |r.value| <= |list| + 1 && r.value[0].keyword == keyword && r.value[0].ref == ref
    ensures r.Some? ==> |r.value| == if |list| + 1 <= HistoryCap then |list| + 1 else HistoryCap
    ensures r.Some? ==> r.value[0].service == (if Truthy(service) then service.value else DefaultService)
    ensures r.Some? ==> r.value[0].id == NatToString(now) && r.value[0].timestamp == now
    ensures r.Some? ==> r.value[1..] == list[..|r.value| - 1]
  {
    if IsDuplicate(list, keyword, ref, service) then None
    else Some(Prepend(list, SearchHistory(NatToString(now), keyword, ref, OrElse(service, DefaultService), now), HistoryCap))
  }

  /** Without a service argument the duplicate test never matches, so the same search is
      recorded again on every call (while the stored entry says `gpt-5-v2`). */
  lemma HistoryWithoutServiceRepeats(list: seq<SearchHistory>, keyword: string, ref: Option<string>, now: nat)
    ensures AddHistory(list, keyword, ref, None, now).Some?
    ensures var once := AddHistory(list, keyword, ref, None, now).value;
            AddHistory(once, keyword, ref, None, now + 1).Some?
  {
  }

  /** With a service given, a search just recorded is a duplicate of itself. */
  lemma HistoryWithServiceOnce(list: seq<SearchHistory>, keyword: string, ref: Option<string>, service: string, now: nat)
    requires service != ""
    requires AddHistory(list, keyword, ref, Some(service), now).Some?
    ensures var once := AddHistory(list, keyword, ref, Some(service), now).value;
            AddHistory(once, keyword, ref, Some(service), now + 1).None?
  {
    var once := AddHistory(list, keyword, ref, Some(service), now).value;
    assert once[0].keyword == keyword && once[0].ref == ref && once[0].service == service;
  }

  /** The browser's `localStorage`, one field per key used here. */
  class LocalStorage {
    var frequentKeywords: Option<seq<FrequentKeyword>>
    var favoriteSearches: Option<seq<FavoriteSearch>>
    var searchHistory: Option<seq<SearchHistory>>

    constructor ()
      ensures frequentKeywords == None && favoriteSearches == None && searchHistory == None
    {
      frequentKeywords, favoriteSearches, searchHistory := None, None, None;
    }

    /** `addKeywordToFrequent`: count the use, sort by count (stable) and keep the first ten. */
    method AddKeywordToFrequent(keyword: string, now: int)
      modifies this
      ensures frequentKeywords == Some(AddKeyword(Load(old(frequentKeywords)), keyword, now))
      ensures favoriteSearches == old(favoriteSearches) && searchHistory == old(searchHistory)
    {
      var keywords := Load(frequentKeywords);
      match FindKeyword(keywords, keyword) {
        case Some(i) =>
          keywords := keywords[i := keywords[i].(count := keywords[i].count + 1, lastUsed := now)];
        case None =>
          keywords := keywords + [FrequentKeyword(keyword, 1, now)];
      }
      assert keywords == Bumped(Load(old(frequentKeywords)), keyword, now);
      keywords := Sort(keywords, MoreUsed);
      frequentKeywords := Some(Take(keywords, FrequentCap));
    }

    /** `addFavoriteSearch`: the new entry first, at most twenty kept. */
    method AddFavoriteSearch(keyword: string, refMsg: Option<string>, title: Option<string>, isPublished: Option<bool>, now: nat)
      modifies this
      ensures favoriteSearches == Some(Prepend(Load(old(favoriteSearches)), NewFavorite(keyword, refMsg, title, isPublished, now), FavoritesCap))
      ensures frequentKeywords == old(frequentKeywords) && searchHistory == old(searchHistory)
    {
      var favorites := Load(favoriteSearches);
      favorites := [NewFavorite(keyword, refMsg, title, isPublished, now)] + favorites;
      favoriteSearches := Some(Take(favorites, FavoritesCap));
    }

    /** `addPublishedSearch`: as `addFavoriteSearch`, for a published entry with chat data. */
    method AddPublishedSearch(keyword: string, refMsg: Option<string>, title: Option<string>,
                              resultSample: Option<string>, userMessageId: Option<string>,
                              botMessageId: Option<string>, botContent: Option<string>,
                              service: Option<string>, originalTimestamp: Option<int>,
                              memo: Option<string>, now: nat)
      modifies this
      ensures favoriteSearches == Some(Prepend(Load(old(favoriteSearches)),
                NewPublished(keyword, refMsg, title, resultSample, userMessageId, botMessageId, botContent,
                             service, originalTimestamp, memo, now), FavoritesCap))
      ensures frequentKeywords == old(frequentKeywords) && searchHistory == old(searchHistory)
    {
      var favorites := Load(favoriteSearches);
      var entry := NewPublished(keyword, refMsg, title, resultSample, userMessageId, botMessageId, botContent,
                                service, originalTimestamp, memo, now);
      favorites := [entry] + favorites;
      favoriteSearches := Some(Take(favorites, FavoritesCap));
    }

    /** `updatePublishedMemo`: written back only when the id is found. */
    method UpdatePublishedMemo(id: string, memo: string)
      modifies this
      ensures var u := UpdateMemo(Load(old(favoriteSearches)), id, memo);
              favoriteSearches == if u.Some? then u else old(favoriteSearches)
      ensures frequentKeywords == old(frequentKeywords) && searchHistory == old(searchHistory)
    {
      var favorites := Load(favoriteSearches);
      match IndexOfItem(favorites, id) {
        case None =>
        case Some(i) =>
          favorites := favorites[i := favorites[i].(memo := Some(memo))];
          favoriteSearches := Some(favorites);
      }
    }

    /** `updatePublishedExposure`: written back only when the id is found. */
    method UpdatePublishedExposure(id: string, isVisible: bool, exposureRank: Option<int>)
      modifies this
      ensures var u := UpdateExposure(Load(old(favoriteSearches)), id, isVisible, exposureRank);
              favoriteSearches == if u.Some? then u else old(favoriteSearches)
      ensures frequentKeywords == old(frequentKeywords) && searchHistory == old(searchHistory)
    {
      var favorites := Load(favoriteSearches);
      match IndexOfItem(favorites, id) {
        case None =>
        case Some(i) =>
          var target := favorites[i].(isVisible := Some(isVisible));
          if exposureRank.Some? {
            target := target.(exposureRank := exposureRank);
          }
          favorites := favorites[i := target];
          favoriteSearches := Some(favorites);
      }
    }

    /** `removeFavoriteSearch`: always written back, without the entries carrying the id. */
    method RemoveFavoriteSearch(id: string)
      modifies this
      ensures favoriteSearches == Some(RemoveItem(Load(old(favoriteSearches)), id))
      ensures frequentKeywords == old(frequentKeywords) && searchHistory == old(searchHistory)
    {
      favoriteSearches := Some(RemoveItem(Load(favoriteSearches), id));
    }

    /** `addSearchHistory`: a duplicate writes nothing. */
    method AddSearchHistory(keyword: string, ref: Option<string>, service: Option<string>, now: nat)
      modifies this
      ensures var u := AddHistory(Load(old(searchHistory)), keyword, ref, service, now);
              searchHistory == if u.Some? then u else old(searchHistory)
      ensures frequentKeywords == old(frequentKeywords) && favoriteSearches == old(favoriteSearches)
    {
      var history := Load(searchHistory);
      if IsDuplicate(history, keyword, ref, service) {
        return;
      }
      var entry := SearchHistory(NatToString(now), keyword, ref, OrElse(service, DefaultService), now);
      history := [entry] + history;
      searchHistory := Some(Take(history, HistoryCap));
    }
  }
}
