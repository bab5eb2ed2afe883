/** The catalog page: the filter chain and sort over the fetched catalog,
    and the page state that drives it (search text, selected category,
    sidebar filters, sort choice and the "displayed" reveal counter). */
module Home {
  import opened Domain
  import opened Strings
  import opened Seqs

  /** How many more results "load more" reveals, and the count a reset returns to. */
  const PageSize: nat := 6

  datatype PriceRange = PriceRange(min: int, max: int)

  /** The sidebar's filters; rating thresholds are in tenths (`'4.0'` is 40). */
  datatype Filters = Filters(priceRange: PriceRange, selectedServices: seq<string>, selectedRatings: seq<int>)

  /** The sidebar's initial state. */
  const DefaultFilters: Filters := Filters(PriceRange(50, 500), ["Spa & Massage"], [40])

  datatype SortOrder = Recommended | PriceLowToHigh | PriceHighToLow | TopRated

  /** The sort selector's value; anything unrecognised keeps catalog order. */
  function SortOrderOf(sortBy: string): (o: SortOrder)
    ensures o == PriceLowToHigh <==> sortBy == "Price: Low to High"
    ensures o == PriceHighToLow <==> sortBy == "Price: High to Low"
    ensures o == TopRated <==> sortBy == "Top Rated"
  {
    if sortBy == "Price: Low to High" then PriceLowToHigh
    else if sortBy == "Price: High to Low" then PriceHighToLow
    else if sortBy == "Top Rated" then TopRated
    else Recommended
  }

  // ---------------------------------------------------------------- filters

  /** The lowercased query occurs in the lowercased name, description or category. */
  predicate SearchHit(s: Service, query: string) {
    var q := Lower(query);
    Includes(Lower(s.name), q) || Includes(Lower(s.description), q) || Includes(Lower(s.category), q)
  }

  /** `if (selectedCategory)`: a selected, non-empty category. */
  predicate CategoryActive(category: Option<string>) {
    category.Some? && category.value != ""
  }

  /** `selectedRatings.some(r => rating >= r)`, scanning left to right. */
  function AnyThresholdMet(rating: int, thresholds: seq<int>): (b: bool)
    ensures b <==> exists i :: 0 <= i < |thresholds| && rating >= thresholds[i]
  {
    if thresholds == [] then false
    else if rating >= thresholds[0] then true
    else
      var rest := AnyThresholdMet(rating, thresholds[1..]);
      assert forall i :: 1 <= i < |thresholds| ==> thresholds[i] == thresholds[1..][i - 1];
      rest
  }

  function SearchPred(query: string): Service -> bool {
    (s: Service) => SearchHit(s, query)
  }

  function CategoryPred(category: string): Service -> bool {
    (s: Service) => s.category == category
  }

  function TypePred(selected: seq<string>): Service -> bool {
    (s: Service) => s.serviceType in selected
  }

  function PricePred(range: PriceRange): Service -> bool {
    (s: Service) => range.min <= s.priceValue && s.priceValue <= range.max
  }

  function RatingPred(thresholds: seq<int>): Service -> bool {
    (s: Service) => AnyThresholdMet(s.rating, thresholds)
  }

  /** The filter chain, step by step as the page runs it: search, category,
      service type, price range, rating. A step whose control is empty is skipped,
      except the price range, which always applies. */
  function FilterServices(all: seq<Service>, query: string, category: Option<string>, f: Filters): (r: seq<Service>)
    ensures |r| <= |all|
    ensures forall i :: 0 <= i < |r| ==> PricePred(f.priceRange)(r[i])
  {
    var afterSearch := if query != "" then Keep(all, SearchPred(query)) else all;
    var afterCategory := if CategoryActive(category) then Keep(afterSearch, CategoryPred(category.value)) else afterSearch;
    var afterType := if |f.selectedServices| > 0 then Keep(afterCategory, TypePred(f.selectedServices)) else afterCategory;
    var afterPrice := Keep(afterType, PricePred(f.priceRange));
    if |f.selectedRatings| > 0 then
      var afterRating := Keep(afterPrice, RatingPred(f.selectedRatings));
      SubsequenceMembers(afterRating, afterPrice);
      afterRating
    else afterPrice
  }

  /** All active predicates at once: the reference definition of a match. */
  predicate Matches(s: Service, query: string, category: Option<string>, f: Filters)
    ensures Matches(s, query, category, f) <==>
              SearchGuard(query)(s) && CategoryGuard(category)(s) && TypeGuard(f.selectedServices)(s)
              && PricePred(f.priceRange)(s) && RatingGuard(f.selectedRatings)(s)
  {
    && (query == "" || SearchHit(s, query))
    && (!CategoryActive(category) || s.category == category.value)
    && (|f.selectedServices| == 0 || s.serviceType in f.selectedServices)
    && f.priceRange.min <= s.priceValue <= f.priceRange.max
    && (|f.selectedRatings| == 0 || exists i :: 0 <= i < |f.selectedRatings| && s.rating >= f.selectedRatings[i])
  }

  function MatchPred(query: string, category: Option<string>, f: Filters): Service -> bool {
    (s: Service) => Matches(s, query, category, f)
  }

  /** A skipped step is the filter by a guard that is false: it keeps everything. */
  lemma GuardedStep(s: seq<Service>, active: bool, p: Service -> bool, g: Service -> bool)
    requires forall x :: g(x) == (!active || p(x))
    ensures (if active then Keep(s, p) else s) == Keep(s, g)
  {
    if active {
      KeepSame(s, p, g);
    } else {
      KeepAll(s, g);
    }
  }

  /** The steps that may be skipped, as filters that keep everything when skipped. */
  function SearchGuard(query: string): Service -> bool {
    (s: Service) => query == "" || SearchHit(s, query)
  }

  function CategoryGuard(category: Option<string>): Service -> bool {
    (s: Service) => !CategoryActive(category) || s.category == category.value
  }

  function TypeGuard(selected: seq<string>): Service -> bool {
    (s: Service) => |selected| == 0 || s.serviceType in selected
  }

  function RatingGuard(thresholds: seq<int>): Service -> bool {
    (s: Service) => |thresholds| == 0 || AnyThresholdMet(s.rating, thresholds)
  }

  /** The page's chain, with every skipped step replaced by its guard. */
  lemma FilterIsGuardChain(all: seq<Service>, query: string, category: Option<string>, f: Filters)
    ensures FilterServices(all, query, category, f)
         == Keep(Keep(Keep(Keep(Keep(all, SearchGuard(query)), CategoryGuard(category)),
                           TypeGuard(f.selectedServices)), PricePred(f.priceRange)), RatingGuard(f.selectedRatings))
  {
    var s1 := if query != "" then Keep(all, SearchPred(query)) else all;
    GuardedStep(all, query != "", SearchPred(query), SearchGuard(query));
    var s2 := if CategoryActive(category) then Keep(s1, CategoryPred(category.value)) else s1;
    GuardedStep(s1, CategoryActive(category), CategoryPred(if category.Some? then category.value else ""), CategoryGuard(category));
    var s3 := if |f.selectedServices| > 0 then Keep(s2, TypePred(f.selectedServices)) else s2;
    GuardedStep(s2, |f.selectedServices| > 0, TypePred(f.selectedServices), TypeGuard(f.selectedServices));
    var s4 := Keep(s3, PricePred(f.priceRange));
    GuardedStep(s4, |f.selectedRatings| > 0, RatingPred(f.selectedRatings), RatingGuard(f.selectedRatings));
  }

  /** The chain of filters is exactly one filter by `Matches`: the result is the
      order-preserving sub-sequence of the catalog of listings passing every active
      predicate, none missing and none extra. */
  lemma FilterIsExact(all: seq<Service>, query: string, category: Option<string>, f: Filters)
    ensures FilterServices(all, query, category, f) == Keep(all, MatchPred(query, category, f))
  {
    FilterIsGuardChain(all, query, category, f);
    var g1 := SearchGuard(query);
    var g2 := CategoryGuard(category);
    var g3 := TypeGuard(f.selectedServices);
    var g4 := PricePred(f.priceRange);
    var g12: Service -> bool := (s: Service) => g1(s) && g2(s);
    var g123: Service -> bool := (s: Service) => g12(s) && g3(s);
    var g1234: Service -> bool := (s: Service) => g123(s) && g4(s);
    KeepKeep(all, g1, g2, g12);
    KeepKeep(all, g12, g3, g123);
    KeepKeep(all, g123, g4, g1234);
    KeepKeep(all, g1234, RatingGuard(f.selectedRatings), MatchPred(query, category, f));
  }

  /** Every result passes each active predicate on its own. */
  lemma FilterResultsMatch(all: seq<Service>, query: string, category: Option<string>, f: Filters, s: Service)
    requires s in FilterServices(all, query, category, f)
    ensures s in all
    ensures query != "" ==> SearchHit(s, query)
    ensures CategoryActive(category) ==> s.category == category.value
    ensures |f.selectedServices| > 0 ==> s.serviceType in f.selectedServices
    ensures f.priceRange.min <= s.priceValue <= f.priceRange.max
    ensures |f.selectedRatings| > 0 ==> exists i :: 0 <= i < |f.selectedRatings| && s.rating >= f.selectedRatings[i]
  {
    FilterIsExact(all, query, category, f);
    var r := FilterServices(all, query, category, f);
    assert multiset(r)[s] > 0;
    assert MatchPred(query, category, f)(s);
  }

  /** No listing passing every active predicate is left out, and none is duplicated or dropped. */
  lemma FilterKeepsEveryMatch(all: seq<Service>, query: string, category: Option<string>, f: Filters, s: Service)
    requires s in all && Matches(s, query, category, f)
    ensures multiset(FilterServices(all, query, category, f))[s] == multiset(all)[s]
    ensures s in FilterServices(all, query, category, f)
  {
    FilterIsExact(all, query, category, f);
    assert MatchPred(query, category, f)(s);
  }

  /** An empty query, no category, no selected types and no thresholds leave only the price filter. */
  lemma OnlyPriceFilterWhenControlsEmpty(all: seq<Service>, range: PriceRange, category: Option<string>)
    requires !CategoryActive(category)
    ensures FilterServices(all, "", category, Filters(range, [], [])) == Keep(all, PricePred(range))
  {
  }

  /** Filtering by the empty query would keep every listing, so skipping the
      search step when the query is empty changes no result. */
  lemma EmptySearchKeepsAll(all: seq<Service>)
    ensures Keep(all, SearchPred("")) == all
  {
    forall i | 0 <= i < |all| ensures SearchPred("")(all[i]) {
      IncludesEmpty(Lower(all[i].name));
      assert Lower("") == "";
    }
    KeepAll(all, SearchPred(""));
  }

  // ---------------------------------------------------------------- sort

  function PriceKey(s: Service): int { s.priceValue }
  function NegPriceKey(s: Service): int { -s.priceValue }
  function NegRatingKey(s: Service): int { -s.rating }

  /** The key each order sorts ascending by: `a.priceValue - b.priceValue`,
      `b.priceValue - a.priceValue` and `b.rating - a.rating` respectively. */
  function SortKey(order: SortOrder): Service -> int {
    match order
    case PriceHighToLow => NegPriceKey
    case TopRated => NegRatingKey
    case _ => PriceKey
  }

  /** The `switch (sortBy)` over the filtered copy. */
  function SortServices(s: seq<Service>, order: SortOrder): (r: seq<Service>)
    ensures multiset(r) == multiset(s)
    ensures order == Recommended ==> r == s
    ensures order == PriceLowToHigh ==> forall i, j :: 0 <= i < j < |r| ==> r[i].priceValue <= r[j].priceValue
    ensures order == PriceHighToLow ==> forall i, j :: 0 <= i < j < |r| ==> r[i].priceValue >= r[j].priceValue
    ensures order == TopRated ==> forall i, j :: 0 <= i < j < |r| ==> r[i].rating >= r[j].rating
  {
    if order == Recommended then s
    else
      var r := SortBy(s, SortKey(order));
      assert SortedBy(r, SortKey(order));
      r
  }

  function PriceIs(p: int): Service -> bool { (s: Service) => s.priceValue == p }
  function RatingIs(v: int): Service -> bool { (s: Service) => s.rating == v }

  /** The sorts are stable: listings with equal price (price orders) or equal
      rating (Top Rated) keep their filtered order. */
  lemma SortServicesIsStable(s: seq<Service>, order: SortOrder, v: int)
    ensures order in {PriceLowToHigh, PriceHighToLow} ==>
              Keep(SortServices(s, order), PriceIs(v)) == Keep(s, PriceIs(v))
    ensures order == TopRated ==>
              Keep(SortServices(s, order), RatingIs(v)) == Keep(s, RatingIs(v))
  {
    match order
    case Recommended =>
    case PriceLowToHigh =>
      SortKeepsClassOrder(s, PriceKey, v, PriceIs(v));
    case PriceHighToLow =>
      SortKeepsClassOrder(s, NegPriceKey, -v, PriceIs(v));
    case TopRated =>
      SortKeepsClassOrder(s, NegRatingKey, -v, RatingIs(v));
  }

  /** `filteredAndSortedServices`: exactly the matching listings, each as often
      as in the catalog, in the chosen order. */
  function FilteredAndSorted(all: seq<Service>, query: string, category: Option<string>, f: Filters, order: SortOrder): (r: seq<Service>)
    ensures forall x :: multiset(r)[x] == if Matches(x, query, category, f) then multiset(all)[x] else 0
    ensures order == Recommended ==> r == FilterServices(all, query, category, f)
    ensures order == PriceLowToHigh ==> forall i, j :: 0 <= i < j < |r| ==> r[i].priceValue <= r[j].priceValue
    ensures order == PriceHighToLow ==> forall i, j :: 0 <= i < j < |r| ==> r[i].priceValue >= r[j].priceValue
    ensures order == TopRated ==> forall i, j :: 0 <= i < j < |r| ==> r[i].rating >= r[j].rating
  {
    FilterIsExact(all, query, category, f);
    SortServices(FilterServices(all, query, category, f), order)
  }

  // ---------------------------------------------------------------- reveal counter

  /** `Math.min(prev + 6, n)`. */
  function LoadMore(displayed: nat, n: nat): (r: nat)
    ensures r <= n
    ensures r == n || r == displayed + PageSize
    ensures displayed < n ==> displayed < r
    ensures displayed >= n ==> r == n
    ensures displayed + PageSize < n ==> r == displayed + PageSize
  {
    if displayed + PageSize < n then displayed + PageSize else n
  }

  /** The counter after `k` presses of "load more". */
  function RevealAfter(displayed: nat, n: nat, k: nat): nat {
    if k == 0 then displayed else LoadMore(RevealAfter(displayed, n, k - 1), n)
  }

  /** From a count within the list, `k` presses show `min(displayed + 6k, n)`. */
  lemma {:induction false} RevealAfterPresses(displayed: nat, n: nat, k: nat)
    requires displayed <= n
    ensures RevealAfter(displayed, n, k) == if displayed + PageSize * k < n then displayed + PageSize * k else n
  {
    if k > 0 {
      RevealAfterPresses(displayed, n, k - 1);
    }
  }

  /** Enough presses reveal the whole list, after which there is nothing more. */
  lemma RevealReachesEnd(displayed: nat, n: nat)
    requires displayed <= n
    ensures RevealAfter(displayed, n, n) == n
  {
    RevealAfterPresses(displayed, n, n);
  }

  /** On ten results, a fresh page shows 6, one press 10, and a second press still 10. */
  lemma RevealOnTenResults()
    ensures LoadMore(PageSize, 10) == 10
    ensures LoadMore(LoadMore(PageSize, 10), 10) == 10
  {
  }

  /** The page state. */
  class HomePage {
    var allServices: seq<Service>
    var isLoading: bool
    var sortBy: string
    var displayed: nat
    var searchQuery: string
    var selectedCategory: Option<string>
    var filters: Filters

    constructor ()
      ensures allServices == [] && isLoading
      ensures sortBy == "Recommended" && displayed == PageSize
      ensures searchQuery == "" && selectedCategory == None && filters == DefaultFilters
    {
      allServices := [];
      isLoading := true;
      sortBy := "Recommended";
      displayed := PageSize;
      searchQuery := "";
      selectedCategory := None;
      filters := DefaultFilters;
    }

    /** The catalog fetch on mount: the list is kept only from a successful response. */
    method ReceiveCatalog(response: Option<seq<Service>>)
      modifies this
      ensures allServices == if response.Some? then response.value else old(allServices)
      ensures !isLoading
      ensures sortBy == old(sortBy) && displayed == old(displayed) && searchQuery == old(searchQuery)
      ensures selectedCategory == old(selectedCategory) && filters == old(filters)
    {
      if response.Some? {
        allServices := response.value;
      }
      isLoading := false;
    }

    /** The listings the page can show: every match of the current controls. */
    function Results(): (r: seq<Service>)
      reads this
      ensures forall x :: multiset(r)[x] == if Matches(x, searchQuery, selectedCategory, filters) then multiset(allServices)[x] else 0
    {
      FilteredAndSorted(allServices, searchQuery, selectedCategory, filters, SortOrderOf(sortBy))
    }

    /** `slice(0, displayed)`: the first `min(displayed, n)` results. */
    function Shown(): (r: seq<Service>)
      reads this
      ensures |r| == if displayed < |Results()| then displayed else |Results()|
      ensures r == Results()[..|r|]
    {
      var all := Results();
      if displayed < |all| then all[..displayed] else all
    }

    /** `hasMore`: some results are still hidden. */
    function HasMore(): (b: bool)
      reads this
      ensures b <==> |Shown()| < |Results()|
    {
      displayed < |Results()|
    }

    /** `handleSearch`: new query, counter back to a page. */
    method HandleSearch(query: string)
      modifies this
      ensures searchQuery == query && displayed == PageSize
      ensures allServices == old(allServices) && isLoading == old(isLoading) && sortBy == old(sortBy)
      ensures selectedCategory == old(selectedCategory) && filters == old(filters)
    {
      searchQuery := query;
      displayed := PageSize;
    }

    /** The search box's `onSearchChange`: the query changes, the counter does not. */
    method SearchChange(query: string)
      modifies this
      ensures searchQuery == query && displayed == old(displayed)
      ensures allServices == old(allServices) && isLoading == old(isLoading) && sortBy == old(sortBy)
      ensures selectedCategory == old(selectedCategory) && filters == old(filters)
    {
      searchQuery := query;
    }

    /** `handleCategoryClick`: clicking the selected category clears it, any
        other selects it; the counter goes back to a page either way. */
    method HandleCategoryClick(category: string)
      modifies this
      ensures selectedCategory == if old(selectedCategory) == Some(category) then None else Some(category)
      ensures displayed == PageSize
      ensures allServices == old(allServices) && isLoading == old(isLoading) && sortBy == old(sortBy)
      ensures searchQuery == old(searchQuery) && filters == old(filters)
    {
      selectedCategory := if selectedCategory == Some(category) then None else Some(category);
      displayed := PageSize;
    }

    /** `handleSortChange`: the order changes, the counter does not. */
    method HandleSortChange(value: string)
      modifies this
      ensures sortBy == value && displayed == old(displayed)
      ensures allServices == old(allServices) && isLoading == old(isLoading)
      ensures searchQuery == old(searchQuery) && selectedCategory == old(selectedCategory) && filters == old(filters)
    {
      sortBy := value;
    }

    /** The sidebar's `onFiltersChange`: the filters change, the counter does not. */
    method SetFilters(f: Filters)
      modifies this
      ensures filters == f && displayed == old(displayed)
      ensures allServices == old(allServices) && isLoading == old(isLoading) && sortBy == old(sortBy)
      ensures searchQuery == old(searchQuery) && selectedCategory == old(selectedCategory)
    {
      filters := f;
    }

    /** `handleLoadMore`: reveal another page, never past the end of the results. */
    method HandleLoadMore()
      modifies this
      ensures displayed == LoadMore(old(displayed), |old(Results())|)
      ensures allServices == old(allServices) && isLoading == old(isLoading) && sortBy == old(sortBy)
      ensures searchQuery == old(searchQuery) && selectedCategory == old(selectedCategory) && filters == old(filters)
    {
      displayed := LoadMore(displayed, |Results()|);
    }
  }
}
