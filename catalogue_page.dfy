/** The catalogue page's own filter and sort (src/pages/Catalogue.jsx,
    `filterAndSortMedicines`), applied to the list it fetched or to its built-in
    medicines. It differs from the service's query: the search skips the active
    ingredients, and a price bound that is not a number keeps nothing. */
module CataloguePage {
  import opened Common
  import opened Text
  import opened Seqs
  import opened Entities
  import MedicineService

  const PRICE_LOW := "price_low"
  const PRICE_HIGH := "price_high"
  const RATING := "rating"
  const POPULARITY := "popularity"
  const NAME := "name"

  /** The page's filter state; an empty string is an unset filter. */
  datatype CatalogueFilters = CatalogueFilters(
    search: string,
    category: string,
    minPrice: MedicineService.PriceBound,
    maxPrice: MedicineService.PriceBound,
    prescriptionRequired: string,
    sortBy: string)

  // ---- filters ----

  /** Name, brand, category or description contains the text, ignoring case. */
  predicate PageSearchHit(m: Medicine, search: string) {
    || IncludesIgnoringCase(m.name, search)
    || IncludesIgnoringCase(m.brand, search)
    || IncludesIgnoringCase(m.category, search)
    || IncludesIgnoringCase(m.description, search)
  }

  /** `med.price >= parseFloat(min_price)` when the bound is set: a bound that does
      not parse compares false with every price. */
  predicate AboveMin(bound: MedicineService.PriceBound, m: Medicine) {
    match bound
      case Absent => true
      case NotANumber => false
      case Amount(cents) => m.price >= cents
  }

  predicate BelowMax(bound: MedicineService.PriceBound, m: Medicine) {
    match bound
      case Absent => true
      case NotANumber => false
      case Amount(cents) => m.price <= cents
  }

  predicate CatalogueMatches(f: CatalogueFilters, m: Medicine) {
    && (f.search == "" || PageSearchHit(m, f.search))
    && (f.category == "" || m.category == f.category)
    && AboveMin(f.minPrice, m)
    && BelowMax(f.maxPrice, m)
    && (f.prescriptionRequired == "" || m.prescriptionRequired == (f.prescriptionRequired == "true"))
  }

  // ---- sort modes ----

  /** `filters.sort_by || sortBy` as evidently intended: the filter's mode, or the
      page's current mode when the filter's is empty. */
  function EffectiveSortMode(requested: string, current: string): (mode: string)
    ensures requested != "" ==> mode == requested
    ensures requested == "" ==> mode == current
  {
    if requested != "" then requested else current
  }

  /** The value of `const sortBy = filters.sort_by || sortBy` as written: the
      right-hand `sortBy` is the constant being declared, still uninitialised, so
      an empty `sort_by` throws a ReferenceError (None) instead of falling back. */
  function SortModeAsWritten(requested: string): (mode: Option<string>)
    ensures mode.Some? <==> requested != ""
    ensures mode.Some? ==> mode.value == requested
  {
    if requested != "" then Some(requested) else None
  }

  /** The fallback to the page's current mode is never reached as written: where
      it should apply, the expression throws. */
  lemma SortFallbackThrows(current: string)
    ensures SortModeAsWritten("") == None
    ensures EffectiveSortMode("", current) == current
    ensures forall requested :: requested != "" ==> SortModeAsWritten(requested) == Some(EffectiveSortMode(requested, current))
  {
  }

  /** `(b.rating || 0)`: a missing rating counts as zero. */
  function RatingOrZero(m: Medicine): (r: int)
    ensures m.rating.Some? ==> r == m.rating.value
    ensures m.rating.None? ==> r == 0
  {
    if m.rating.Some? then m.rating.value else 0
  }

  function ReviewsOrZero(m: Medicine): (r: int)
    ensures m.reviewCount.Some? ==> r == m.reviewCount.value
    ensures m.reviewCount.None? ==> r == 0
  {
    if m.reviewCount.Some? then m.reviewCount.value else 0
  }

  predicate CheaperOrSame(a: Medicine, b: Medicine) {
    a.price <= b.price
  }

  predicate DearerOrSame(a: Medicine, b: Medicine) {
    a.price >= b.price
  }

  predicate RatedAtLeast(a: Medicine, b: Medicine) {
    RatingOrZero(a) >= RatingOrZero(b)
  }

  predicate ReviewedAtLeast(a: Medicine, b: Medicine) {
    ReviewsOrZero(a) >= ReviewsOrZero(b)
  }

  /** The comparator of each sort mode as "a may stand before b"; 'name' and any
      unknown mode order by name. */
  function SortOrder(mode: string): (Medicine, Medicine) -> bool {
    if mode == PRICE_LOW then CheaperOrSame
    else if mode == PRICE_HIGH then DearerOrSame
    else if mode == RATING then RatedAtLeast
    else if mode == POPULARITY then ReviewedAtLeast
    else MedicineService.NameLe
  }

  lemma SortOrderIsTotalPreorder(mode: string)
    ensures TotalPreorder(SortOrder(mode))
  {
    if mode != PRICE_LOW && mode != PRICE_HIGH && mode != RATING && mode != POPULARITY {
      MedicineService.NameLeIsTotalPreorder();
    }
  }

  /** What `filterAndSortMedicines` returns. */
  function CatalogueView(ms: seq<Medicine>, f: CatalogueFilters, current: string): seq<Medicine> {
    SortBy(SortOrder(EffectiveSortMode(f.sortBy, current)), Filter(ms, (m: Medicine) => CatalogueMatches(f, m)))
  }

  // ---- properties ----

  /** The view holds exactly the matching medicines, each as often as in the list,
      ordered by the chosen mode. */
  lemma CatalogueViewIsSortedSelection(ms: seq<Medicine>, f: CatalogueFilters, current: string, m: Medicine)
    ensures m in CatalogueView(ms, f, current) <==> m in ms && CatalogueMatches(f, m)
    ensures multiset(CatalogueView(ms, f, current)) <= multiset(ms)
    ensures SortedBy(SortOrder(EffectiveSortMode(f.sortBy, current)), CatalogueView(ms, f, current))
  {
    var matching := (m: Medicine) => CatalogueMatches(f, m);
    var le := SortOrder(EffectiveSortMode(f.sortBy, current));
    SortByMembers(le, Filter(ms, matching), m);
    if m in ms && CatalogueMatches(f, m) {
      FilterKeeps(ms, matching, m);
    }
    FilterSubMultiset(ms, matching);
    SortOrderIsTotalPreorder(EffectiveSortMode(f.sortBy, current));
    SortBySorted(le, Filter(ms, matching));
  }

  /** Each mode's order, spelled out on neighbours and non-neighbours alike. */
  lemma SortModesOrder(ms: seq<Medicine>, f: CatalogueFilters, current: string)
    ensures var v := CatalogueView(ms, f, current);
      var mode := EffectiveSortMode(f.sortBy, current);
      forall i, j :: 0 <= i < j < |v| ==>
        && (mode == PRICE_LOW ==> v[i].price <= v[j].price)
        && (mode == PRICE_HIGH ==> v[i].price >= v[j].price)
        && (mode == RATING ==> RatingOrZero(v[i]) >= RatingOrZero(v[j]))
        && (mode == POPULARITY ==> ReviewsOrZero(v[i]) >= ReviewsOrZero(v[j]))
        && (mode !in {PRICE_LOW, PRICE_HIGH, RATING, POPULARITY} ==> LexLe(v[i].name, v[j].name))
  {
    var v := CatalogueView(ms, f, current);
    var mode := EffectiveSortMode(f.sortBy, current);
    var matching := (m: Medicine) => CatalogueMatches(f, m);
    SortOrderIsTotalPreorder(mode);
    SortBySorted(SortOrder(mode), Filter(ms, matching));
    assert SortedBy(SortOrder(mode), v);
  }

  /** With every filter unset the view is the whole list, reordered. */
  lemma NoFiltersKeepsAll(ms: seq<Medicine>, sortBy: string, current: string)
    ensures multiset(CatalogueView(ms, CatalogueFilters("", "", MedicineService.Absent, MedicineService.Absent, "", sortBy), current))
            == multiset(ms)
  {
    var f := CatalogueFilters("", "", MedicineService.Absent, MedicineService.Absent, "", sortBy);
    FilterAll(ms, (m: Medicine) => CatalogueMatches(f, m));
  }

  /** A price bound that does not parse leaves the page empty. */
  lemma UnparsedBoundKeepsNothing(ms: seq<Medicine>, f: CatalogueFilters, current: string)
    requires f.minPrice.NotANumber? || f.maxPrice.NotANumber?
    ensures CatalogueView(ms, f, current) == []
  {
    var matching := (m: Medicine) => CatalogueMatches(f, m);
    var kept := Filter(ms, matching);
    if kept != [] {
      assert kept[0] in kept;
    }
  }

  /** `filterAndSortMedicines(medicineList)` with the page's filters and current
      sort mode: a copy of the list is narrowed by each filter that is set, then
      sorted by the chosen mode. */
  method FilterAndSortMedicines(medicineList: seq<Medicine>, f: CatalogueFilters, current: string)
    returns (filtered: seq<Medicine>)
    ensures filtered == CatalogueView(medicineList, f, current)
  {
    filtered := medicineList;
    ghost var sofar: Medicine -> bool := (m: Medicine) => true;
    FilterAll(medicineList, sofar);

    var search := (m: Medicine) => PageSearchHit(m, f.search);
    if f.search != "" {
      filtered := Filter(filtered, search);
    }
    ghost var next: Medicine -> bool := (m: Medicine) => f.search == "" || PageSearchHit(m, f.search);
    FilterStep(medicineList, sofar, f.search != "", search, next);
    sofar := next;

    var inCategory := (m: Medicine) => m.category == f.category;
    if f.category != "" {
      filtered := Filter(filtered, inCategory);
    }
    next := (m: Medicine) => (f.search == "" || PageSearchHit(m, f.search))
                             && (f.category == "" || m.category == f.category);
    FilterStep(medicineList, sofar, f.category != "", inCategory, next);
    sofar := next;

    var aboveMin := (m: Medicine) => AboveMin(f.minPrice, m);
    if !f.minPrice.Absent? {
      filtered := Filter(filtered, aboveMin);
    }
    next := (m: Medicine) => (f.search == "" || PageSearchHit(m, f.search))
                             && (f.category == "" || m.category == f.category)
                             && AboveMin(f.minPrice, m);
    FilterStep(medicineList, sofar, !f.minPrice.Absent?, aboveMin, next);
    sofar := next;

    var belowMax := (m: Medicine) => BelowMax(f.maxPrice, m);
    if !f.maxPrice.Absent? {
      filtered := Filter(filtered, belowMax);
    }
    next := (m: Medicine) => (f.search == "" || PageSearchHit(m, f.search))
                             && (f.category == "" || m.category == f.category)
                             && AboveMin(f.minPrice, m) && BelowMax(f.maxPrice, m);
    FilterStep(medicineList, sofar, !f.maxPrice.Absent?, belowMax, next);
    sofar := next;

    var requiresPrescription := f.prescriptionRequired == "true";
    var prescription := (m: Medicine) => m.prescriptionRequired == requiresPrescription;
    if f.prescriptionRequired != "" {
      filtered := Filter(filtered, prescription);
    }
    next := (m: Medicine) => CatalogueMatches(f, m);
    FilterStep(medicineList, sofar, f.prescriptionRequired != "", prescription, next);

    var sortBy := EffectiveSortMode(f.sortBy, current);
    if sortBy == PRICE_LOW {
      filtered := SortBy(CheaperOrSame, filtered);
    } else if sortBy == PRICE_HIGH {
      filtered := SortBy(DearerOrSame, filtered);
    } else if sortBy == RATING {
      filtered := SortBy(RatedAtLeast, filtered);
    } else if sortBy == POPULARITY {
      filtered := SortBy(ReviewedAtLeast, filtered);
    } else {
      filtered := SortBy(MedicineService.NameLe, filtered);
    }
  }
}
