/**
 * The search state of the main screen (`AppContent` in App.tsx): the query box, the
 * result list, the loading flag, the error line and whether a search has run, with
 * the two handlers that change them, and the backend call the search makes.
 */
module SearchScreen {
  import opened Wrappers
  import opened Text
  import opened Artwork
  import opened Ranking

  /** What the backend's search endpoint answered, as far as `fetchSearchFromBff` can tell. */
  datatype BffReply =
    | Unreachable                       // `fetch` itself threw
    | HttpError(status: int)            // `res.ok` was false
    | BadJson                           // `res.json()` threw
    | Json(items: Option<seq<Item>>)    // the body; `items` is None when `json.items` is not an array

  /** The message every failed search request is reported with. */
  const SearchUnavailable := "无法连接到搜索服务，请确保 BFF 服务器已运行"

  /**
   * `fetchSearchFromBff(keyword)`. A blank keyword gives the empty list without
   * consulting the backend at all; otherwise every failure becomes the one
   * `SearchUnavailable` error and a body without an `items` array gives no items.
   */
  function FetchSearchFromBff(t: CharTables, keyword: string, reply: BffReply): (r: Result<seq<Item>, string>)
    ensures IsBlank(t, keyword) ==> r == Success([])
    ensures r.Failure? <==> !IsBlank(t, keyword) && !reply.Json?
    ensures r.Failure? ==> r.error == SearchUnavailable
    ensures !IsBlank(t, keyword) && reply.Json? ==> r == Success(reply.items.GetOr([]))
  {
    if Trim(t, keyword) == [] then Success([])
    else
      match reply
      case Json(items) => Success(items.GetOr([]))
      case _ => Failure(SearchUnavailable)
  }

  class SearchScreen {
    var query: string
    var results: seq<Item>
    var loading: bool
    var err: Option<string>
    var searchPerformed: bool

    /** The list on screen never holds more than the cap. */
    ghost predicate Valid()
      reads this
    {
      |results| <= ResultCap
    }

    /** The initial `useState` values. */
    constructor ()
      ensures Valid()
      ensures query == "" && results == [] && !loading && err == None && !searchPerformed
    {
      query := "";
      results := [];
      loading := false;
      err := None;
      searchPerformed := false;
    }

    /**
     * `handleQueryChange(v)`: the query always takes the new text; when that text is
     * blank the results, the error and the searched flag are reset, and otherwise
     * they are left as they were.
     */
    method HandleQueryChange(t: CharTables, v: string)
      requires Valid()
      modifies this
      ensures Valid()
      ensures query == v && loading == old(loading)
      ensures IsBlank(t, v) ==> results == [] && err == None && !searchPerformed
      ensures !IsBlank(t, v) ==>
        results == old(results) && err == old(err) && searchPerformed == old(searchPerformed)
    {
      query := v;
      var trimmed := Trim(t, v);
      if |trimmed| == 0 {
        results := [];
        err := None;
        searchPerformed := false;
      }
    }

    /**
     * `handleSearch()`, with the backend's reply and the fuzzy matcher
     * (`fuse.search`) as parameters. A blank query or a search already in flight
     * leaves everything as it was. Otherwise the search is marked as performed,
     * loading ends false, and either the error is shown (the old results stay) or
     * the error is cleared and the results are the ranking of the backend's items.
     */
    method HandleSearch(t: CharTables, reply: BffReply, fuzzySearch: (seq<Item>, string) -> seq<Item>)
      requires Valid()
      modifies this
      ensures Valid()
      ensures IsBlank(t, old(query)) || old(loading) ==> unchanged(this)
      ensures !IsBlank(t, old(query)) && !old(loading) ==>
        && query == old(query) && searchPerformed && !loading
        && var fetched := FetchSearchFromBff(t, query, reply);
        && (fetched.Failure? ==> err == Some(fetched.error) && results == old(results))
        && (fetched.Success? ==>
              var merged := fetched.value;
              err == None && results == Rank(t, merged, query, fuzzySearch(merged, query)))
    {
      if IsBlank(t, query) || loading {
        return;
      }
      searchPerformed := true;
      loading := true;
      err := None;
      var fetched := FetchSearchFromBff(t, query, reply);
      match fetched {
        case Failure(e) =>
          err := Some(e);
        case Success(merged) =>
          ShowRanked(t, merged, fuzzySearch(merged, query));
      }
      loading := false;
    }

    /**
     * The success branch of `handleSearch()`: the fuzzy hits, topped up with the
     * fallback matches when there are fewer than six, cut to the cap, become the
     * results.
     */
    method ShowRanked(t: CharTables, merged: seq<Item>, fuzzy: seq<Item>)
      modifies this`results
      ensures results == Rank(t, merged, query, fuzzy)
      ensures |results| <= ResultCap
    {
      var ranked := fuzzy;
      if |ranked| < MinFuzzyHits {
        ranked := ranked + FallbackMatches(t, merged, query, ranked);
      }
      results := ranked[..Min(ResultCap, |ranked|)];
      RankUnfold(t, merged, query, fuzzy);
    }
  }
}
