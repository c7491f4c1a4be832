/**
 * The country list page: an in-memory filter over all loaded countries
 * (region and name), an explicit remote search by name, the choice of what
 * list is displayed, and the page's query state.
 */
module Home {
  import opened Text
  import opened Countries
  import opened Sequences

  /** At most this many in-memory matches are displayed. */
  const DisplayCap: nat := 20

  const LoadAllError := "Failed to load countries data."
  const NoResultsError := "No countries found with your search and filter."
  const SearchError := "Country not found or API error."

  // ---------------------------------------------------------------------
  // The in-memory filter
  // ---------------------------------------------------------------------

  /** `matchesRegion`: an empty region filter lets every region through; otherwise the match is exact. */
  predicate MatchesRegion(c: Country, region: string): (matched: bool)
    ensures region == "" ==> matched
    ensures region != "" ==> (matched <==> c.region == region)
  {
    region == "" || c.region == region
  }

  /**
   * `matchesSearch`: an empty search term matches every name; otherwise the
   * lowered term must start at some position of the lowered name.
   */
  predicate MatchesSearch(c: Country, term: string): (matched: bool)
    ensures term == "" ==> matched
    ensures term != "" ==>
      (matched <==> exists i :: 0 <= i <= |c.commonName| && Lower(term) <= Lower(c.commonName)[i..])
  {
    IncludesIffSuffix(Lower(c.commonName), Lower(term));
    assert |Lower(c.commonName)| == |c.commonName|;
    if term == "" then true else Includes(Lower(c.commonName), Lower(term))
  }

  /** `matchesRegion && matchesSearch`: the test each loaded country must pass. */
  predicate Matches(c: Country, term: string, region: string): (matched: bool)
    ensures matched ==> region == "" || c.region == region
    ensures matched ==> term == "" || |term| <= |c.commonName|
    ensures region == "" && term == "" ==> matched
  {
    MatchesRegion(c, region) && MatchesSearch(c, term)
  }

  /** `allCountries.filter(...)`: the matching countries, in source order. */
  function FilteredCountries(all: seq<Country>, term: string, region: string): (r: seq<Country>)
    ensures |r| <= |all|
    ensures forall i :: 0 <= i < |r| ==> Matches(r[i], term, region)
  {
    if all == [] then []
    else (if Matches(all[0], term, region) then [all[0]] else []) + FilteredCountries(all[1..], term, region)
  }

  /** A country is listed exactly when it is loaded and passes both filters. */
  lemma {:induction false} FilteredMembership(all: seq<Country>, term: string, region: string)
    ensures forall c :: c in FilteredCountries(all, term, region) <==> c in all && Matches(c, term, region)
  {
    if all != [] {
      FilteredMembership(all[1..], term, region);
      assert all == [all[0]] + all[1..];
    }
  }

  /** With no search term and no region, the filter keeps every country. */
  lemma {:induction false} FilteredUnfiltered(all: seq<Country>)
    ensures FilteredCountries(all, "", "") == all
  {
    if all != [] {
      FilteredUnfiltered(all[1..]);
      assert all == [all[0]] + all[1..];
    }
  }

  /**
   * The search is case-insensitive in the term: lowering the term first
   * selects the same countries.
   */
  lemma {:induction false} FilteredCaseInsensitive(all: seq<Country>, term: string, region: string)
    ensures FilteredCountries(all, term, region) == FilteredCountries(all, Lower(term), region)
  {
    LowerIdempotent(term);
    if all != [] {
      FilteredCaseInsensitive(all[1..], term, region);
      assert Matches(all[0], term, region) == Matches(all[0], Lower(term), region);
    }
  }

  /** Filtering distributes over concatenation, so relative order is kept. */
  lemma {:induction false} FilteredAppend(a: seq<Country>, b: seq<Country>, term: string, region: string)
    ensures FilteredCountries(a + b, term, region) == FilteredCountries(a, term, region) + FilteredCountries(b, term, region)
  {
    if a == [] {
      assert a + b == b;
    } else {
      var head := if Matches(a[0], term, region) then [a[0]] else [];
      calc {
        FilteredCountries(a + b, term, region);
        { assert (a + b)[0] == a[0] && (a + b)[1..] == a[1..] + b; }
        head + FilteredCountries(a[1..] + b, term, region);
        { FilteredAppend(a[1..], b, term, region); }
        head + (FilteredCountries(a[1..], term, region) + FilteredCountries(b, term, region));
        (head + FilteredCountries(a[1..], term, region)) + FilteredCountries(b, term, region);
      }
    }
  }

  lemma {:induction false} FilteredIsSubsequence(all: seq<Country>, term: string, region: string)
    ensures IsSubsequence(FilteredCountries(all, term, region), all)
  {
    if all != [] {
      FilteredIsSubsequence(all[1..], term, region);
      var rest := FilteredCountries(all[1..], term, region);
      if Matches(all[0], term, region) {
        assert FilteredCountries(all, term, region)[1..] == rest;
      } else {
        assert FilteredCountries(all, term, region) == rest;
      }
    }
  }

  /** Filtering the filtered list again changes nothing. */
  lemma {:induction false} FilteredIdempotent(all: seq<Country>, term: string, region: string)
    ensures FilteredCountries(FilteredCountries(all, term, region), term, region) == FilteredCountries(all, term, region)
  {
    if all != [] {
      FilteredIdempotent(all[1..], term, region);
      var head := if Matches(all[0], term, region) then [all[0]] else [];
      FilteredAppend(head, FilteredCountries(all[1..], term, region), term, region);
      if head != [] {
        assert head[1..] == [];
      }
    }
  }

  // ---------------------------------------------------------------------
  // The explicit search's region post-filter
  // ---------------------------------------------------------------------

  /** `data.filter((c) => c.region === region)`. */
  function RegionOnly(data: seq<Country>, region: string): (r: seq<Country>)
    ensures |r| <= |data|
    ensures forall i :: 0 <= i < |r| ==> r[i].region == region && r[i] in data
  {
    if data == [] then []
    else (if data[0].region == region then [data[0]] else []) + RegionOnly(data[1..], region)
  }

  /**
   * The list a successful search stores as its results: response entries
   * only, each in the chosen region when one is set.
   */
  function SearchResults(data: seq<Country>, region: string): (r: seq<Country>)
    ensures |r| <= |data|
    ensures forall i :: 0 <= i < |r| ==> r[i] in data && MatchesRegion(r[i], region)
    ensures region == "" ==> r == data
  {
    if region != "" then RegionOnly(data, region) else data
  }

  /** The search's post-filter is the in-memory filter with an empty search term. */
  lemma {:induction false} SearchResultsAreRegionFilter(data: seq<Country>, region: string)
    ensures SearchResults(data, region) == FilteredCountries(data, "", region)
  {
    if region == "" {
      FilteredUnfiltered(data);
    } else {
      RegionOnlyIsFilter(data, region);
    }
  }

  lemma {:induction false} RegionOnlyIsFilter(data: seq<Country>, region: string)
    requires region != ""
    ensures RegionOnly(data, region) == FilteredCountries(data, "", region)
  {
    if data != [] {
      RegionOnlyIsFilter(data[1..], region);
    }
  }

  // ---------------------------------------------------------------------
  // What the page displays
  // ---------------------------------------------------------------------

  /** The card grid: the search results when there are any, else the first 20 matches. */
  function Displayed(results: seq<Country>, filtered: seq<Country>): (r: seq<Country>)
    ensures results != [] ==> r == results
    ensures results == [] ==> r <= filtered && |r| == Min(DisplayCap, |filtered|)
  {
    if |results| > 0 then results else filtered[..Min(DisplayCap, |filtered|)]
  }

  /**
   * The number in the "Showing N countries" heading, computed as the heading
   * does; it is the number of cards in the grid.
   */
  function ShowingCount(results: seq<Country>, filtered: seq<Country>): (n: nat)
    ensures n == |Displayed(results, filtered)|
    ensures n <= if results != [] then |results| else DisplayCap
  {
    if |results| > 0 then |results| else |filtered[..Min(DisplayCap, |filtered|)]|
  }

  /** One submitted search: the term and the region filter as they were when it was issued. */
  datatype SearchRequest = SearchRequest(term: string, region: string)

  /** The state of the list page. */
  class HomePage {
    var searchTerm: string
    var results: seq<Country>
    var loading: bool
    var error: Option<string>
    var allCountries: seq<Country>
    var regionFilter: string

    /** The in-memory matches for the current query: loaded countries that pass both filters. */
    function Filtered(): (r: seq<Country>)
      reads this
      ensures forall c :: c in r <==> c in allCountries && Matches(c, searchTerm, regionFilter)
    {
      FilteredMembership(allCountries, searchTerm, regionFilter);
      FilteredCountries(allCountries, searchTerm, regionFilter)
    }

    /**
     * The countries whose cards are rendered (when the list is visible):
     * every search result, or at most 20 loaded countries that match.
     */
    function Shown(): (r: seq<Country>)
      reads this
      ensures results != [] ==> r == results
      ensures results == [] ==> |r| <= DisplayCap && forall c :: c in r ==> c in allCountries && Matches(c, searchTerm, regionFilter)
    {
      Displayed(results, Filtered())
    }

    /** The heading and grid appear only when there is something to show, no spinner and no error. */
    predicate ListVisible(): (visible: bool)
      reads this
      ensures visible <==> Shown() != [] && !loading && error == None
    {
      (|results| > 0 || |Filtered()| > 0) && !loading && error == None
    }

    constructor ()
      ensures searchTerm == "" && regionFilter == "" && results == [] && allCountries == []
      ensures !loading && error == None
      ensures !ListVisible()
    {
      searchTerm, results, loading, error, allCountries, regionFilter := "", [], false, None, [], "";
    }

    /** The mount effect: the full list on success, an error message on any failure. */
    method LoadAllCountries(response: Response)
      modifies this
      ensures response.Ok? ==> allCountries == response.body && error == old(error)
      ensures !response.Ok? ==> allCountries == old(allCountries) && error == Some(LoadAllError)
      ensures searchTerm == old(searchTerm) && regionFilter == old(regionFilter)
      ensures results == old(results) && loading == old(loading)
      ensures !response.Ok? ==> !ListVisible()
    {
      match response
      case Ok(data) =>
        allCountries := data;
      case _ =>
        error := Some(LoadAllError);
    }

    /** Typing in the search box. */
    method SetSearchTerm(term: string)
      modifies this`searchTerm
      ensures searchTerm == term
    {
      searchTerm := term;
    }

    /** Choosing a region ("" is "All Regions"). */
    method SetRegionFilter(region: string)
      modifies this`regionFilter
      ensures regionFilter == region
    {
      regionFilter := region;
    }

    /**
     * The synchronous part of `handleSearch`, up to the `await`: nothing at
     * all for a blank term, otherwise loading starts, the error and the
     * results are cleared and a request is issued for the current term.
     */
    method BeginSearch() returns (request: Option<SearchRequest>)
      modifies this`loading, this`error, this`results
      ensures IsBlank(searchTerm) ==> request == None && unchanged(this)
      ensures !IsBlank(searchTerm) ==>
        && request == Some(SearchRequest(searchTerm, regionFilter))
        && loading && error == None && results == []
    {
      var trimmed := Trim(searchTerm);
      TrimEmptyIffBlank(searchTerm);
      if trimmed == "" {
        return None;
      }
      loading := true;
      error := None;
      results := [];
      request := Some(SearchRequest(searchTerm, regionFilter));
    }

    /**
     * The continuation of `handleSearch` once the request settles: results
     * are the response post-filtered by the region captured at the start,
     * an empty list sets the "no results" message, a failure the search
     * error; loading always ends.
     */
    method CompleteSearch(request: SearchRequest, response: Response)
      modifies this
      ensures response.Ok? ==>
        && results == SearchResults(response.body, request.region)
        && error == (if results == [] then Some(NoResultsError) else old(error))
      ensures !response.Ok? ==> results == old(results) && error == Some(SearchError)
      ensures !loading
      ensures searchTerm == old(searchTerm) && regionFilter == old(regionFilter)
      ensures allCountries == old(allCountries)
    {
      match response {
        case Ok(data) =>
          var filtered := SearchResults(data, request.region);
          results := filtered;
          if |filtered| == 0 {
            error := Some(NoResultsError);
          }
        case _ =>
          error := Some(SearchError);
      }
      loading := false;
    }

    /** `handleSearch` run to completion with the given response. */
    method HandleSearch(response: Response) returns (issued: bool)
      modifies this
      ensures issued <==> !IsBlank(old(searchTerm))
      ensures !issued ==> unchanged(this)
      ensures issued ==>
        && searchTerm == old(searchTerm) && regionFilter == old(regionFilter)
        && allCountries == old(allCountries) && !loading
      ensures issued && response.Ok? ==>
        && results == FilteredCountries(response.body, "", old(regionFilter))
        && (error.Some? <==> results == [])
        && (error.Some? ==> error.value == NoResultsError)
      ensures issued && !response.Ok? ==> results == [] && error == Some(SearchError)
      ensures issued && results != [] ==> ListVisible() && Shown() == results
    {
      var request := BeginSearch();
      issued := request.Some?;
      if issued {
        CompleteSearch(request.value, response);
        if response.Ok? {
          SearchResultsAreRegionFilter(response.body, request.value.region);
        }
      }
    }

    /** The "Clear Filters" button. */
    method ClearFilters()
      modifies this
      ensures searchTerm == "" && regionFilter == "" && results == [] && error == None
      ensures loading == old(loading) && allCountries == old(allCountries)
      ensures Shown() == allCountries[..Min(DisplayCap, |allCountries|)]
      ensures ListVisible() <==> !loading && allCountries != []
    {
      searchTerm := "";
      regionFilter := "";
      results := [];
      error := None;
      FilteredUnfiltered(allCountries);
    }
  }
}
