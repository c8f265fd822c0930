/**
 * The guide search page: the URL query parameters, the local query and
 * category kept in step with them, and the parameters the guide fetch uses.
 */
module SearchResults {
  import opened Optional
  import opened Strings

  const Categories := ["All", "Adventure", "Leisure", "Cultural", "Nature", "Urban"]

  /** `params.get(key)`: an absent key reads as `None`. */
  function Get(params: map<string, string>, key: string): Option<string> {
    if key in params then Some(params[key]) else None
  }

  /**
   * The URL parameters a search writes: `q` is the trimmed query when that
   * is not empty, `category` the category unless it is 'All'.
   */
  function QueryParams(query: string, category: string): (r: map<string, string>)
    ensures r.Keys <= {"q", "category"}
    ensures "q" in r <==> !IsBlank(query)
    ensures "q" in r ==> r["q"] == Trim(query)
    ensures "category" in r <==> category != "All"
    ensures "category" in r ==> r["category"] == category
  {
    var trimmed := Trim(query);
    assert |"q"| != |"category"|;
    var withQuery: map<string, string> := if |trimmed| != 0 then map["q" := trimmed] else map[];
    if category != "All" then withQuery["category" := category] else withQuery
  }

  /** The local query and category read back from the URL: '' and 'All' when absent or empty. */
  function LocalQuery(params: map<string, string>): string {
    OrElse(Get(params, "q"), "")
  }

  function LocalCategory(params: map<string, string>): string {
    OrElse(Get(params, "category"), "All")
  }

  /**
   * After a search, the state re-synced from the URL holds the trimmed query
   * and the same category.
   */
  lemma SearchThenSync(query: string, category: string)
    requires category != ""
    ensures LocalQuery(QueryParams(query, category)) == Trim(query)
    ensures LocalCategory(QueryParams(query, category)) == category
  {
  }

  /** The parameters of the guide request: `search` from `q`, `category` unless it is 'All'. */
  function FetchParamsOf(params: map<string, string>): (r: map<string, string>)
    ensures r.Keys <= {"search", "category"}
    ensures "search" in r <==> "q" in params && params["q"] != ""
    ensures "search" in r ==> r["search"] == params["q"]
    ensures "category" in r <==> "category" in params && params["category"] != "" && params["category"] != "All"
    ensures "category" in r ==> r["category"] == params["category"]
  {
    var q := Get(params, "q");
    var cat := Get(params, "category");
    var withSearch: map<string, string> := if q.Some? && q.value != "" then map["search" := q.value] else map[];
    if cat.Some? && cat.value != "" && cat.value != "All" then withSearch["category" := cat.value] else withSearch
  }

  /** What a search submits is what the guide request then asks for, under the server's names. */
  lemma SearchReachesFetch(query: string, category: string)
    requires category != ""
    ensures "search" in FetchParamsOf(QueryParams(query, category)) <==> !IsBlank(query)
    ensures !IsBlank(query) ==> FetchParamsOf(QueryParams(query, category))["search"] == Trim(query)
    ensures "category" in FetchParamsOf(QueryParams(query, category)) <==> category != "All"
  {
  }

  /** The page's state: the URL parameters and the search box and category chips. */
  class SearchPage {
    var searchParams: map<string, string>
    var searchQuery: string
    var category: string

    /** The local state starts from the URL. */
    constructor (params: map<string, string>)
      ensures searchParams == params
      ensures searchQuery == LocalQuery(params) && category == LocalCategory(params)
    {
      searchParams := params;
      searchQuery := OrElse(Get(params, "q"), "");
      category := OrElse(Get(params, "category"), "All");
    }

    /** The effect that copies the URL into the local state whenever the URL changes. */
    method Sync()
      modifies this`searchQuery, this`category
      ensures searchQuery == LocalQuery(searchParams) && category == LocalCategory(searchParams)
    {
      searchQuery := OrElse(Get(searchParams, "q"), "");
      category := OrElse(Get(searchParams, "category"), "All");
    }

    /** The parameters object the fetch effect fills in, one key at a time. */
    method FetchParams() returns (params: map<string, string>)
      ensures params == FetchParamsOf(searchParams)
    {
      params := map[];
      var q := Get(searchParams, "q");
      var cat := Get(searchParams, "category");
      if q.Some? && q.value != "" {
        params := params["search" := q.value];
      }
      if cat.Some? && cat.value != "" && cat.value != "All" {
        params := params["category" := cat.value];
      }
    }

    /** `handleSearch`. */
    method HandleSearch()
      modifies this`searchParams
      ensures searchParams == QueryParams(old(searchQuery), old(category))
    {
      var params: map<string, string> := map[];
      var trimmed := Trim(searchQuery);
      if |trimmed| != 0 {
        params := params["q" := trimmed];
      }
      if category != "All" {
        params := params["category" := category];
      }
      searchParams := params;
    }

    /** `handleCategoryChange`: the same rule with the new category, which also becomes the local one. */
    method HandleCategoryChange(newCategory: string)
      modifies this`category, this`searchParams
      ensures category == newCategory
      ensures searchParams == QueryParams(old(searchQuery), newCategory)
    {
      category := newCategory;
      var params: map<string, string> := map[];
      var trimmed := Trim(searchQuery);
      if |trimmed| != 0 {
        params := params["q" := trimmed];
      }
      if newCategory != "All" {
        params := params["category" := newCategory];
      }
      searchParams := params;
    }

    /** `handleClearSearch`: the query goes, the category stays. */
    method HandleClearSearch()
      modifies this`searchQuery, this`searchParams
      ensures searchQuery == ""
      ensures searchParams == QueryParams("", category)
      ensures "q" !in searchParams
    {
      searchQuery := "";
      var params: map<string, string> := map[];
      if category != "All" {
        params := params["category" := category];
      }
      searchParams := params;
    }

    /** The 'View all destinations' chip. */
    method ViewAll()
      modifies this`searchQuery, this`category, this`searchParams
      ensures searchQuery == "" && category == "All" && searchParams == map[]
      ensures searchParams == QueryParams("", "All")
    {
      searchQuery := "";
      category := "All";
      searchParams := map[];
    }
  }
}
