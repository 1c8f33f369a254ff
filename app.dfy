/** The browsing logic of the explorer shell (src/App.jsx): the theme flip,
    pagination of the full list, the search filter, the rule choosing what
    the result area shows, the code-to-name table, and the handlers that
    update the shell's state. Lower-casing is a given character mapping. */
module App {
  import opened CountryData
  import opened JsArrays

  // ---------------------------------------------------------------------
  // Theme
  // ---------------------------------------------------------------------

  /** The updater `toggleTheme` passes to `setTheme`. */
  function ToggledTheme(theme: string): (next: string)
    ensures next == "light" || next == "dark"
    ensures next == "dark" <==> theme == "light"
  {
    if theme == "light" then "dark" else "light"
  }

  /** Flipping twice from either theme comes back to it. */
  lemma ToggleTwice(theme: string)
    requires theme == "light" || theme == "dark"
    ensures ToggledTheme(ToggledTheme(theme)) == theme
  {
  }

  class ThemeProvider {
    var theme: string

    constructor ()
      ensures theme == "light"
    {
      theme := "light";
    }

    method ToggleTheme()
      modifies this
      ensures theme == ToggledTheme(old(theme))
    {
      theme := ToggledTheme(theme);
    }
  }

  // ---------------------------------------------------------------------
  // Pagination
  // ---------------------------------------------------------------------

  const CountriesPerPage: int := 4

  /** `Math.ceil(count / countriesPerPage)` */
  function TotalPages(count: nat): (pages: nat)
    ensures count <= CountriesPerPage * pages
    ensures pages > 0 ==> CountriesPerPage * (pages - 1) < count
  {
    (count + CountriesPerPage - 1) / CountriesPerPage
  }

  /** `countries.slice((page - 1) * 4, page * 4)` */
  function PageSlice(countries: seq<Country>, page: int): seq<Country>
  {
    Slice(countries, (page - 1) * CountriesPerPage, page * CountriesPerPage)
  }

  /** A page holds at most four countries: the ones at positions
      4 (page - 1) up to 4 page, clamped to the list. */
  lemma PageBounds(countries: seq<Country>, page: int)
    requires page >= 1
    ensures var lo, hi := Min((page - 1) * CountriesPerPage, |countries|), Min(page * CountriesPerPage, |countries|);
      lo <= hi && PageSlice(countries, page) == countries[lo..hi]
    ensures |PageSlice(countries, page)| <= CountriesPerPage
    ensures 1 <= page <= TotalPages(|countries|) ==> |PageSlice(countries, page)| >= 1
  {
    SliceNonNegative(countries, (page - 1) * CountriesPerPage, page * CountriesPerPage);
  }

  /** Pages 1 to k, one after the other. */
  function PagesUpTo(countries: seq<Country>, k: nat): seq<Country>
  {
    if k == 0 then [] else PagesUpTo(countries, k - 1) + PageSlice(countries, k)
  }

  lemma {:induction false} PagesUpToPrefix(countries: seq<Country>, k: nat)
    ensures PagesUpTo(countries, k) == countries[..Min(k * CountriesPerPage, |countries|)]
  {
    if k > 0 {
      PagesUpToPrefix(countries, k - 1);
      PageBounds(countries, k);
      var lo := Min((k - 1) * CountriesPerPage, |countries|);
      var hi := Min(k * CountriesPerPage, |countries|);
      assert countries[..lo] + countries[lo..hi] == countries[..hi];
    }
  }

  /** Reading pages 1 to totalPages in turn shows the whole list, in order. */
  lemma PagesCoverList(countries: seq<Country>)
    ensures PagesUpTo(countries, TotalPages(|countries|)) == countries
  {
    PagesUpToPrefix(countries, TotalPages(|countries|));
  }

  /** `goToNextPage`'s guarded increment. */
  function NextPage(page: int, totalPages: int): int
  {
    if page < totalPages then page + 1 else page
  }

  /** `goToPreviousPage`'s guarded decrement. */
  function PreviousPage(page: int): int
  {
    if page > 1 then page - 1 else page
  }

  /** Both buttons keep the page within [1, max(1, totalPages)] and move it
      by at most one. */
  lemma NavigationStaysInRange(page: int, totalPages: nat)
    requires 1 <= page <= Max(1, totalPages)
    ensures var next := NextPage(page, totalPages);
      1 <= next <= Max(1, totalPages) && (next == page || next == page + 1)
      && (next == page + 1 <==> page < totalPages)
    ensures var previous := PreviousPage(page);
      1 <= previous <= Max(1, totalPages) && (previous == page || previous == page - 1)
      && (previous == page - 1 <==> page > 1)
  {
  }

  /** The list component with its own `currentPage` state. */
  class Showlist {
    const countries: seq<Country>
    var currentPage: int

    constructor (countries: seq<Country>)
      ensures this.countries == countries && currentPage == 1 && Valid()
    {
      this.countries := countries;
      currentPage := 1;
    }

    predicate Valid()
      reads this
    {
      1 <= currentPage <= Max(1, TotalPages(|countries|))
    }

    /** The countries the current page lists. */
    function CountriesToShow(): (shown: seq<Country>)
      reads this
      requires Valid()
      ensures |shown| <= CountriesPerPage
      ensures shown == countries[Min((currentPage - 1) * CountriesPerPage, |countries|)..Min(currentPage * CountriesPerPage, |countries|)]
    {
      PageBounds(countries, currentPage);
      PageSlice(countries, currentPage)
    }

    method GoToNextPage()
      requires Valid()
      modifies this
      ensures Valid()
      ensures currentPage == NextPage(old(currentPage), TotalPages(|countries|))
    {
      if currentPage < TotalPages(|countries|) {
        currentPage := currentPage + 1;
      }
    }

    method GoToPreviousPage()
      requires Valid()
      modifies this
      ensures Valid()
      ensures currentPage == PreviousPage(old(currentPage))
    {
      if currentPage > 1 {
        currentPage := currentPage - 1;
      }
    }
  }

  // ---------------------------------------------------------------------
  // Search
  // ---------------------------------------------------------------------

  /** `s.toLowerCase()`, with the character mapping given. */
  function LowerCase(lower: char -> char, s: string): string
  {
    Map(lower, s)
  }

  /** The filter's callback:
      `country.name.common.toLowerCase().includes(query.toLowerCase())`. */
  function MatchesQuery(lower: char -> char, query: string): Country -> bool
  {
    (c: Country) => Includes(LowerCase(lower, c.commonName), LowerCase(lower, query))
  }

  /** The lower-cased query occurs somewhere in the lower-cased name. */
  ghost predicate NameContains(lower: char -> char, c: Country, query: string)
  {
    exists i :: OccursAt(LowerCase(lower, query), LowerCase(lower, c.commonName), i)
  }

  /** `countriesToShow`: the countries whose name matches the query. */
  function SearchResults(countries: seq<Country>, query: string, lower: char -> char): seq<Country>
  {
    Filter(MatchesQuery(lower, query), countries)
  }

  /** The search keeps the list's order and keeps exactly the countries whose
      lower-cased name contains the lower-cased query, every copy of them. */
  lemma SearchResultsSpec(countries: seq<Country>, query: string, lower: char -> char)
    ensures var r := SearchResults(countries, query, lower);
      IsSubsequence(r, countries)
      && (forall c :: c in r <==> c in countries && NameContains(lower, c, query))
      && (forall c :: multiset(r)[c] == if NameContains(lower, c, query) then multiset(countries)[c] else 0)
  {
    var keep := MatchesQuery(lower, query);
    FilterIsSubsequence(keep, countries);
    forall c ensures keep(c) <==> NameContains(lower, c, query) {
      IncludesIff(LowerCase(lower, c.commonName), LowerCase(lower, query));
    }
    forall c ensures c in Filter(keep, countries) <==> c in countries && NameContains(lower, c, query) {
      FilterMembership(keep, countries, c);
    }
    forall c ensures multiset(Filter(keep, countries))[c] == if NameContains(lower, c, query) then multiset(countries)[c] else 0 {
      FilterCount(keep, countries, c);
    }
  }

  /** An empty query matches every name, so nothing is filtered out. */
  lemma EmptyQueryKeepsAll(countries: seq<Country>, lower: char -> char)
    ensures SearchResults(countries, "", lower) == countries
  {
    FilterKeepsAll(MatchesQuery(lower, ""), countries);
  }

  // ---------------------------------------------------------------------
  // What the result area shows
  // ---------------------------------------------------------------------

  const TooManyMatches: int := 10

  datatype ResultView = SearchPrompt | TooManyNotice | MatchList(shown: seq<Country>)

  /** The `Countries` component's choice. */
  function ChooseView(query: string, matches: seq<Country>): (view: ResultView)
    ensures view == SearchPrompt <==> |query| == 0
    ensures view == TooManyNotice <==> |query| > 0 && |matches| >= TooManyMatches
    ensures view.MatchList? <==> |query| > 0 && |matches| < TooManyMatches
    ensures view.MatchList? ==> view.shown == matches
  {
    if |query| == 0 then SearchPrompt
    else if |matches| >= TooManyMatches then TooManyNotice
    else MatchList(matches)
  }

  /** A listed result is a short list of countries whose names contain the
      query, in list order. */
  lemma ListedAreMatches(countries: seq<Country>, query: string, lower: char -> char)
    ensures var view := ChooseView(query, SearchResults(countries, query, lower));
      view.MatchList? ==>
        |view.shown| < TooManyMatches && IsSubsequence(view.shown, countries)
        && forall c :: c in view.shown ==> c in countries && NameContains(lower, c, query)
  {
    SearchResultsSpec(countries, query, lower);
  }

  // ---------------------------------------------------------------------
  // Code-to-name table
  // ---------------------------------------------------------------------

  /** Position `i` holds the last country of the list carrying `code`. */
  predicate IsLastWithCode(countries: seq<Country>, i: int, code: string)
  {
    0 <= i < |countries| && countries[i].cca3 == code
    && forall j :: i < j < |countries| ==> countries[j].cca3 != code
  }

  /** `countryNames`: the `reduce` that writes `acc[cca3] = name.common` for
      each country in turn. Every code of the list is a key, no other, and
      each maps to the name of the last country carrying it. */
  method CountryNames(countries: seq<Country>) returns (names: map<string, string>)
    ensures names.Keys == Codes(countries)
    ensures forall code :: code in names ==>
      exists i :: IsLastWithCode(countries, i, code) && names[code] == countries[i].commonName
  {
    names := map[];
    ghost var last: map<string, int> := map[];
    var k := 0;
    while k < |countries|
      invariant 0 <= k <= |countries|
      invariant names.Keys == last.Keys == Codes(countries[..k])
      invariant forall code :: code in names ==>
        IsLastWithCode(countries[..k], last[code], code) && names[code] == countries[last[code]].commonName
    {
      var c := countries[k];
      assert countries[..k + 1] == countries[..k] + [c];
      names := names[c.cca3 := c.commonName];
      last := last[c.cca3 := k];
      k := k + 1;
    }
    assert countries[..k] == countries;
    forall code | code in names
      ensures exists i :: IsLastWithCode(countries, i, code) && names[code] == countries[i].commonName
    {
      assert IsLastWithCode(countries, last[code], code);
    }
  }

  // ---------------------------------------------------------------------
  // The shell's state
  // ---------------------------------------------------------------------

  /** AppContent's state fields and handlers; `lower` is the lower-casing. */
  class AppContent {
    const lower: char -> char
    var countries: seq<Country>
    var showList: bool
    var searchQuery: string
    var selectedCountry: Option<Country>

    constructor (lower: char -> char)
      ensures this.lower == lower && countries == [] && !showList
      ensures searchQuery == "" && selectedCountry == None
    {
      this.lower := lower;
      countries := [];
      showList := false;
      searchQuery := "";
      selectedCountry := None;
    }

    /** The fetch's success callback: `setCountries(initialCountries)`. */
    method ReceiveCountries(initialCountries: seq<Country>)
      modifies this
      ensures countries == initialCountries
      ensures showList == old(showList) && searchQuery == old(searchQuery)
      ensures selectedCountry == old(selectedCountry)
    {
      countries := initialCountries;
    }

    function CountriesToShow(): seq<Country>
      reads this
    {
      SearchResults(countries, searchQuery, lower)
    }

    /** What the result area shows while no country is selected. */
    function ResultArea(): ResultView
      reads this
    {
      ChooseView(searchQuery, CountriesToShow())
    }

    /** `handleSearch`: the typed text becomes the query and the selection is cleared. */
    method HandleSearch(value: string)
      modifies this
      ensures searchQuery == value && selectedCountry == None
      ensures showList == old(showList) && countries == old(countries)
    {
      searchQuery := value;
      selectedCountry := None;
    }

    /** `handleToggleList`: with a country selected, go back to the list
        view; otherwise show or hide the full list. */
    method HandleToggleList()
      modifies this
      ensures selectedCountry == None
      ensures showList == if old(selectedCountry).Some? then old(showList) else !old(showList)
      ensures searchQuery == old(searchQuery) && countries == old(countries)
    {
      if selectedCountry.Some? {
        selectedCountry := None;
      } else {
        showList := !showList;
      }
    }

    /** `setSelectedCountry` as the "Show details", "Display" and "Close"
        buttons call it. */
    method SetSelectedCountry(country: Option<Country>)
      modifies this
      ensures selectedCountry == country
      ensures showList == old(showList) && searchQuery == old(searchQuery) && countries == old(countries)
    {
      selectedCountry := country;
    }
  }
}
