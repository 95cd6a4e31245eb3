/** The mock medicine service (src/services/mock/MockMedicineService.js): catalogue
    queries over the service's own copy of the medicine fixtures, and the one
    operation that changes that copy, `updateStock`. */
module MedicineService {
  import opened Common
  import opened Text
  import opened Seqs
  import opened Entities
  import opened Storage
  import opened MockData

  const MEDICINE_NOT_FOUND := "Medicine not found"
  const QUERY_TOO_SHORT := "Query too short"

  /** A `min_price`/`max_price` parameter: falsy (absent or empty), text that
      `parseFloat` rejects, or an amount, in cents. */
  datatype PriceBound = Absent | NotANumber | Amount(cents: int)

  /** The parameters of `getMedicines`, an empty string standing for an absent one. */
  datatype MedicineQuery = MedicineQuery(
    search: string,
    category: string,
    minPrice: PriceBound,
    maxPrice: PriceBound,
    prescriptionRequired: string,
    availabilityStatus: string,
    page: int,
    limit: int)

  /** The page and page size `getMedicines` uses when none are given. */
  const DEFAULT_PAGE := 1
  const DEFAULT_LIMIT := 12

  /** The query of a catalogue opened without parameters. */
  const DEFAULT_QUERY := MedicineQuery("", "", Absent, Absent, "", "", DEFAULT_PAGE, DEFAULT_LIMIT)

  // ---- getMedicines ----

  /** The search of `getMedicines`: name, brand, description, category or one of
      the active ingredients contains the text, ignoring case. */
  predicate SearchHit(m: Medicine, search: string) {
    || IncludesIgnoringCase(m.name, search)
    || IncludesIgnoringCase(m.brand, search)
    || IncludesIgnoringCase(m.description, search)
    || IncludesIgnoringCase(m.category, search)
    || exists k :: 0 <= k < |m.activeIngredients| && IncludesIgnoringCase(m.activeIngredients[k], search)
  }

  predicate SearchOk(q: MedicineQuery, m: Medicine) {
    q.search == "" || SearchHit(m, q.search)
  }

  predicate CategoryOk(q: MedicineQuery, m: Medicine) {
    q.category == "" || m.category == q.category
  }

  /** A bound that is absent or not a number filters nothing. */
  predicate MinPriceOk(q: MedicineQuery, m: Medicine) {
    !q.minPrice.Amount? || m.price >= q.minPrice.cents
  }

  predicate MaxPriceOk(q: MedicineQuery, m: Medicine) {
    !q.maxPrice.Amount? || m.price <= q.maxPrice.cents
  }

  /** Any non-empty text other than 'true' asks for medicines without prescription. */
  predicate PrescriptionOk(q: MedicineQuery, m: Medicine) {
    q.prescriptionRequired == "" || m.prescriptionRequired == (q.prescriptionRequired == "true")
  }

  predicate StatusOk(q: MedicineQuery, m: Medicine) {
    q.availabilityStatus == "" || m.availabilityStatus == q.availabilityStatus
  }

  /** A medicine passes the query when it passes every filter that is switched on. */
  predicate Matches(q: MedicineQuery, m: Medicine) {
    SearchOk(q, m) && CategoryOk(q, m) && MinPriceOk(q, m) && MaxPriceOk(q, m)
    && PrescriptionOk(q, m) && StatusOk(q, m)
  }

  /** The comparator `a.name.localeCompare(b.name)` as "a may stand before b". */
  predicate NameLe(a: Medicine, b: Medicine) {
    LexLe(a.name, b.name)
  }

  lemma NameLeIsTotalPreorder()
    ensures TotalPreorder(NameLe)
  {
    LexLeIsTotalPreorder();
  }

  /** Every medicine matching the query, by name, before pagination. */
  function Listing(ms: seq<Medicine>, q: MedicineQuery): seq<Medicine> {
    SortBy(NameLe, Filter(ms, (m: Medicine) => Matches(q, m)))
  }

  /** The listing holds exactly the matching medicines, each as often as in the
      catalogue, ordered by name. */
  lemma ListingIsSortedSelection(ms: seq<Medicine>, q: MedicineQuery, m: Medicine)
    ensures m in Listing(ms, q) <==> m in ms && Matches(q, m)
    ensures SortedBy(NameLe, Listing(ms, q))
    ensures multiset(Listing(ms, q)) <= multiset(ms)
  {
    var matching := (m: Medicine) => Matches(q, m);
    SortByMembers(NameLe, Filter(ms, matching), m);
    if m in ms && Matches(q, m) {
      FilterKeeps(ms, matching, m);
    }
    NameLeIsTotalPreorder();
    SortBySorted(NameLe, Filter(ms, matching));
    FilterSubMultiset(ms, matching);
  }

  /** With no filter switched on the listing is the whole catalogue, reordered by
      name; the default query's first page holds its first twelve medicines. */
  lemma UnfilteredListingIsCatalogue(ms: seq<Medicine>)
    ensures multiset(Listing(ms, DEFAULT_QUERY)) == multiset(ms)
    ensures SortedBy(NameLe, Listing(ms, DEFAULT_QUERY))
    ensures Paginate(Listing(ms, DEFAULT_QUERY), DEFAULT_PAGE, DEFAULT_LIMIT).data
              == Listing(ms, DEFAULT_QUERY)[..Min(DEFAULT_LIMIT, |ms|)]
  {
    var matching := (m: Medicine) => Matches(DEFAULT_QUERY, m);
    FilterAll(ms, matching);
    NameLeIsTotalPreorder();
    SortBySorted(NameLe, ms);
  }

  /** A search text found verbatim in a matching medicine's name finds it. */
  lemma ExactNameIsFound(q: MedicineQuery, m: Medicine)
    requires Includes(m.name, q.search)
    ensures SearchOk(q, m)
  {
    IncludesLower(m.name, q.search);
  }

  // ---- the remaining read-only operations ----

  /** `getMedicineById(id)`. */
  function MedicineById(ms: seq<Medicine>, id: string): (r: Response<Medicine>)
    ensures r.Ok? ==> r.data in ms && r.data.id == id
    ensures r.Err? <==> forall m :: m in ms ==> m.id != id
    ensures r.Err? ==> r.message == MEDICINE_NOT_FOUND
    ensures forall i :: 0 <= i < |ms| && ms[i].id == id && (forall j :: 0 <= j < i ==> ms[j].id != id) ==>
      r == Ok("", ms[i])
  {
    match FindMedicine(ms, id)
      case None => Err(MEDICINE_NOT_FOUND)
      case Some(m) => Ok("", m)
  }

  datatype SearchResult = SearchResult(medicines: seq<Medicine>, totalFound: Option<int>)

  /** The narrower search of `searchMedicines`: name, brand or description. */
  predicate QuickHit(m: Medicine, query: string) {
    IncludesIgnoringCase(m.name, query) || IncludesIgnoringCase(m.brand, query)
    || IncludesIgnoringCase(m.description, query)
  }

  /** A query is too short when it is empty or shorter than two characters once
      trimmed; the search itself uses the untrimmed text. */
  predicate TooShort(query: string) {
    query == "" || Utf16Length(Trim(query)) < 2
  }

  /** A query of one character beyond U+FFFF is two code units long, so it is
      searched for rather than refused as too short. */
  lemma AstralQueryIsSearched(c: char)
    requires c as int > 0xFFFF
    ensures !TooShort([c])
  {
    assert !IsWhitespace(c);
    assert WhitespaceFrom([c], 0) == 0;
    assert TrimStart([c]) == [c];
    assert WhitespaceUntil([c], 1) == 1;
    assert Trim([c]) == [c];
    AstralCharLength(c);
  }

  /** The medicines a search finds, in catalogue order. */
  function Hits(ms: seq<Medicine>, query: string): (hits: seq<Medicine>)
    ensures forall m :: m in hits ==> m in ms && QuickHit(m, query)
  {
    Filter(ms, (m: Medicine) => QuickHit(m, query))
  }

  /** The hits are all the matches: a medicine is a hit exactly when it is in the
      catalogue and matches, and it is found as many times as it is listed. */
  lemma HitsAreAllMatches(ms: seq<Medicine>, query: string, m: Medicine)
    ensures m in Hits(ms, query) <==> m in ms && QuickHit(m, query)
    ensures multiset(Hits(ms, query))[m] == if QuickHit(m, query) then multiset(ms)[m] else 0
  {
    FilterCount(ms, (m: Medicine) => QuickHit(m, query), m);
  }

  /** `searchMedicines(query, limit)`: always a success; a too-short query answers
      no medicines and no count, otherwise the first `limit` hits (in catalogue
      order) and the number of all hits. */
  function SearchMedicines(ms: seq<Medicine>, query: string, limit: int): (r: Response<SearchResult>)
    ensures r.Ok?
    ensures TooShort(query) ==> r == Ok(QUERY_TOO_SHORT, SearchResult([], None))
    ensures !TooShort(query) ==>
      r.data.totalFound == Some(|Hits(ms, query)|) && r.data.medicines == JsSlice(Hits(ms, query), 0, limit)
  {
    if TooShort(query) then Ok(QUERY_TOO_SHORT, SearchResult([], None))
    else
      var hits := Hits(ms, query);
      Ok("", SearchResult(JsSlice(hits, 0, limit), Some(|hits|)))
  }

  /** Every medicine returned by a search is a hit, at most `limit` of them are
      returned when `limit` is not negative, and they are the first hits. */
  lemma SearchReturnsFirstHits(ms: seq<Medicine>, query: string, limit: int)
    requires !TooShort(query)
    ensures var r := SearchMedicines(ms, query, limit).data.medicines;
      && (forall m :: m in r ==> m in ms && QuickHit(m, query))
      && (limit >= 0 ==> |r| <= limit)
      && (0 <= limit <= |Hits(ms, query)| ==> r == Hits(ms, query)[..limit])
      && (limit >= |Hits(ms, query)| ==> r == Hits(ms, query))
  {
    var hits := Hits(ms, query);
    if limit >= 0 {
      SliceContiguous(hits, 0, limit);
    }
    if limit >= |hits| {
      assert hits[..|hits|] == hits;
    }
  }

  /** `(a, b) => a.price - b.price` as "a may stand before b": cheapest first. */
  predicate CheaperOrSame(a: Medicine, b: Medicine) {
    a.price <= b.price
  }

  /** The available medicines, cheapest first. */
  function ByPrice(ms: seq<Medicine>): seq<Medicine> {
    SortBy(CheaperOrSame, Filter(ms, (m: Medicine) => m.availabilityStatus == AVAILABLE))
  }

  /** Every available medicine is in the price listing, as many times as it is
      listed in the catalogue, and nothing else is. */
  lemma ByPriceIsAllAvailable(ms: seq<Medicine>, m: Medicine)
    ensures m in ByPrice(ms) <==> m in ms && m.availabilityStatus == AVAILABLE
    ensures multiset(ByPrice(ms))[m] == if m.availabilityStatus == AVAILABLE then multiset(ms)[m] else 0
  {
    FilterCount(ms, (m: Medicine) => m.availabilityStatus == AVAILABLE, m);
  }

  /** `getFeaturedMedicines(limit)`. */
  function Featured(ms: seq<Medicine>, limit: int): seq<Medicine> {
    JsSlice(ByPrice(ms), 0, limit)
  }

  /** Featured medicines are available, cheapest first, and no available
      medicine left out is cheaper than one that is featured. */
  lemma FeaturedAreCheapest(ms: seq<Medicine>, limit: int)
    requires limit >= 0
    ensures var r := Featured(ms, limit);
      && (forall m :: m in r ==> m in ms && m.availabilityStatus == AVAILABLE)
      && SortedBy(CheaperOrSame, r)
      && |r| == Min(limit, |ByPrice(ms)|)
      && (forall i, j :: 0 <= i < |r| <= j < |ByPrice(ms)| ==> r[i].price <= ByPrice(ms)[j].price)
      && forall i, m :: 0 <= i < |r| && m in ms && m.availabilityStatus == AVAILABLE && m !in r ==>
           r[i].price <= m.price
  {
    var available := (m: Medicine) => m.availabilityStatus == AVAILABLE;
    var sorted := ByPrice(ms);
    assert TotalPreorder(CheaperOrSame);
    SortBySorted(CheaperOrSame, Filter(ms, available));
    SliceContiguous(sorted, 0, limit);
    var r := Featured(ms, limit);
    assert r == sorted[..Min(limit, |sorted|)];
    forall m | m in r
      ensures m in ms && m.availabilityStatus == AVAILABLE
    {
      SortByMembers(CheaperOrSame, Filter(ms, available), m);
    }
    forall i, m | 0 <= i < |r| && m in ms && m.availabilityStatus == AVAILABLE && m !in r
      ensures r[i].price <= m.price
    {
      ByPriceIsAllAvailable(ms, m);
      var j :| 0 <= j < |sorted| && sorted[j] == m;
      assert j >= |r|;
    }
  }

  datatype CategoryResult = CategoryResult(medicines: seq<Medicine>, category: string, totalInCategory: int)

  /** The available medicines of a category, in catalogue order. */
  function InCategory(ms: seq<Medicine>, category: string): (r: seq<Medicine>)
    ensures forall m :: m in r ==> m in ms && m.category == category && m.availabilityStatus == AVAILABLE
  {
    Filter(ms, (m: Medicine) => m.category == category && m.availabilityStatus == AVAILABLE)
  }

  /** The medicines of a category are all its available ones, each as many times
      as it is listed. */
  lemma InCategoryIsAllOfCategory(ms: seq<Medicine>, category: string, m: Medicine)
    ensures m in InCategory(ms, category) <==>
      m in ms && m.category == category && m.availabilityStatus == AVAILABLE
    ensures multiset(InCategory(ms, category))[m] ==
      if m.category == category && m.availabilityStatus == AVAILABLE then multiset(ms)[m] else 0
  {
    FilterCount(ms, (m: Medicine) => m.category == category && m.availabilityStatus == AVAILABLE, m);
  }

  /** `getMedicinesByCategory(category, limit)`: the available medicines of the
      category in catalogue order, the first `limit` of them, and their number. */
  function ByCategory(ms: seq<Medicine>, category: string, limit: int): (r: CategoryResult)
    ensures r.category == category
    ensures r.totalInCategory == |InCategory(ms, category)|
    ensures forall m :: m in r.medicines ==> m in ms && m.category == category && m.availabilityStatus == AVAILABLE
    ensures limit >= 0 ==> |r.medicines| == Min(limit, r.totalInCategory)
  {
    var inCategory := InCategory(ms, category);
    SliceContiguous(inCategory, 0, if limit >= 0 then limit else 0);
    CategoryResult(JsSlice(inCategory, 0, limit), category, |inCategory|)
  }

  datatype Availability = Availability(available: bool, stockQuantity: int, medicineName: string, requestedQuantity: int)

  /** `checkAvailability(medicineId, quantity)`. */
  function CheckAvailability(ms: seq<Medicine>, id: string, quantity: int): (r: Response<Availability>)
    ensures r.Err? <==> FindMedicine(ms, id).None?
    ensures r.Err? ==> r.message == MEDICINE_NOT_FOUND
    ensures r.Ok? ==>
      var m := FindMedicine(ms, id).value;
      && r.data.available == (m.availabilityStatus == AVAILABLE && m.stockQuantity >= quantity)
      && r.data.stockQuantity == m.stockQuantity && r.data.medicineName == m.name
      && r.data.requestedQuantity == quantity
  {
    match FindMedicine(ms, id)
      case None => Err(MEDICINE_NOT_FOUND)
      case Some(m) =>
        Ok("", Availability(m.availabilityStatus == AVAILABLE && m.stockQuantity >= quantity,
                            m.stockQuantity, m.name, quantity))
  }

  // ---- updateStock ----

  /** Stock and status agree: stock is never negative, and a medicine is out of
      stock exactly when none is left. */
  predicate StockConsistent(ms: seq<Medicine>) {
    forall i :: 0 <= i < |ms| ==>
      ms[i].stockQuantity >= 0 && (ms[i].availabilityStatus == OUT_OF_STOCK <==> ms[i].stockQuantity == 0)
  }

  /** The catalogue fixtures are stock-consistent. */
  lemma FixturesStockConsistent()
    ensures StockConsistent(MockData.MOCK_MEDICINES)
  {
    OutOfStockIffNoStock();
    PricesAndStocksWellFormed();
  }

  /** What `updateStock(medicineId, quantityChange)` answers and the list it leaves. */
  function StockUpdate(ms: seq<Medicine>, id: string, change: int, now: int): (r: (bool, seq<Medicine>))
    ensures !r.0 ==> r.1 == ms
    ensures |r.1| == |ms|
  {
    match FindIndex(ms, (m: Medicine) => m.id == id)
      case None => (false, ms)
      case Some(i) =>
        var newQuantity := ms[i].stockQuantity + change;
        if newQuantity < 0 then (false, ms)
        else (true, ms[i := ms[i].(stockQuantity := newQuantity,
                                   availabilityStatus := if newQuantity > 0 then AVAILABLE else OUT_OF_STOCK,
                                   updatedAt := now)])
  }

  /** updateStock succeeds exactly for a known medicine whose stock stays
      non-negative; it then changes that medicine's stock by the amount, and
      keeps the list stock-consistent. */
  lemma StockUpdateIff(ms: seq<Medicine>, id: string, change: int, now: int)
    ensures var r := StockUpdate(ms, id, change, now);
      var i := FindIndex(ms, (m: Medicine) => m.id == id);
      && (r.0 <==> i.Some? && ms[i.value].stockQuantity + change >= 0)
      && (r.0 ==> r.1[i.value].stockQuantity == ms[i.value].stockQuantity + change
                  && r.1[i.value].id == id
                  && r.1[i.value].updatedAt == now
                  && (r.1[i.value].availabilityStatus == OUT_OF_STOCK <==> r.1[i.value].stockQuantity == 0)
                  && (r.1[i.value].availabilityStatus == AVAILABLE <==> r.1[i.value].stockQuantity > 0)
                  && forall j :: 0 <= j < |ms| && j != i.value ==> r.1[j] == ms[j])
  {
  }

  lemma StockUpdatePreservesConsistency(ms: seq<Medicine>, id: string, change: int, now: int)
    requires StockConsistent(ms)
    ensures StockConsistent(StockUpdate(ms, id, change, now).1)
  {
  }

  // ---- the service ----

  class MockMedicineService {
    var medicines: seq<Medicine>

    constructor ()
      ensures medicines == MockData.MOCK_MEDICINES
    {
      medicines := MockData.MOCK_MEDICINES;
    }

    /** `getMedicines(params)`: each filter that is switched on narrows the list in
        turn; then the list is sorted by name and one page of it is cut. */
    method GetMedicines(q: MedicineQuery) returns (r: Paginated<Medicine>)
      requires q.limit >= 1
      ensures r == Paginate(Listing(medicines, q), q.page, q.limit)
    {
      var filtered := medicines;
      ghost var sofar: Medicine -> bool := (m: Medicine) => true;
      FilterAll(medicines, sofar);

      var search := (m: Medicine) => SearchHit(m, q.search);
      if q.search != "" {
        filtered := Filter(filtered, search);
      }
      ghost var next: Medicine -> bool := (m: Medicine) => SearchOk(q, m);
      FilterStep(medicines, sofar, q.search != "", search, next);
      sofar := next;

      var inCategory := (m: Medicine) => m.category == q.category;
      if q.category != "" {
        filtered := Filter(filtered, inCategory);
      }
      next := (m: Medicine) => SearchOk(q, m) && CategoryOk(q, m);
      FilterStep(medicines, sofar, q.category != "", inCategory, next);
      sofar := next;

      var aboveMin := (m: Medicine) => q.minPrice.Amount? && m.price >= q.minPrice.cents;
      if q.minPrice.Amount? {
        filtered := Filter(filtered, aboveMin);
      }
      next := (m: Medicine) => SearchOk(q, m) && CategoryOk(q, m) && MinPriceOk(q, m);
      FilterStep(medicines, sofar, q.minPrice.Amount?, aboveMin, next);
      sofar := next;

      var belowMax := (m: Medicine) => q.maxPrice.Amount? && m.price <= q.maxPrice.cents;
      if q.maxPrice.Amount? {
        filtered := Filter(filtered, belowMax);
      }
      next := (m: Medicine) => SearchOk(q, m) && CategoryOk(q, m) && MinPriceOk(q, m) && MaxPriceOk(q, m);
      FilterStep(medicines, sofar, q.maxPrice.Amount?, belowMax, next);
      sofar := next;

      var requiresPrescription := q.prescriptionRequired == "true";
      var prescription := (m: Medicine) => m.prescriptionRequired == requiresPrescription;
      if q.prescriptionRequired != "" {
        filtered := Filter(filtered, prescription);
      }
      next := (m: Medicine) => SearchOk(q, m) && CategoryOk(q, m) && MinPriceOk(q, m) && MaxPriceOk(q, m)
                               && PrescriptionOk(q, m);
      FilterStep(medicines, sofar, q.prescriptionRequired != "", prescription, next);
      sofar := next;

      var withStatus := (m: Medicine) => m.availabilityStatus == q.availabilityStatus;
      if q.availabilityStatus != "" {
        filtered := Filter(filtered, withStatus);
      }
      next := (m: Medicine) => Matches(q, m);
      FilterStep(medicines, sofar, q.availabilityStatus != "", withStatus, next);

      filtered := SortBy(NameLe, filtered);
      r := Paginate(filtered, q.page, q.limit);
    }

    /** `updateStock(medicineId, quantityChange)`. */
    method UpdateStock(id: string, change: int, now: int) returns (ok: bool)
      modifies this
      ensures ok == StockUpdate(old(medicines), id, change, now).0
      ensures medicines == StockUpdate(old(medicines), id, change, now).1
    {
      var index := FindIndex(medicines, (m: Medicine) => m.id == id);
      if index.None? {
        return false;
      }
      var i := index.value;
      var medicine := medicines[i];
      var newQuantity := medicine.stockQuantity + change;
      if newQuantity < 0 {
        return false;
      }
      medicines := medicines[i := medicine.(stockQuantity := newQuantity,
                                            availabilityStatus := if newQuantity > 0 then AVAILABLE else OUT_OF_STOCK,
                                            updatedAt := now)];
      ok := true;
    }
  }
}
