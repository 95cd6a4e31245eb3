/** The mock pharmacy service (src/services/mock/MockPharmacyService.js): the
    filtered, rating-ordered pharmacy list, lookups by id, the radius search over
    given distances, the de-duplicated service list and the opening-hours report. */
module PharmacyService {
  import opened Common
  import opened Text
  import opened Seqs
  import opened Entities
  import MockData

  const PHARMACY_NOT_FOUND := "Pharmacy not found"
  const CLOSED := "Closed"

  /** `getNearbyPharmacies`' default radius, 10 km, in hundredths of a kilometre. */
  const DEFAULT_RADIUS := 1000

  /** The hours of the day at which a pharmacy with declared hours counts as open. */
  const OPENING_HOUR := 8
  const CLOSING_HOUR := 20

  /** The parameters of `getPharmacies`, an empty string standing for an absent one. */
  datatype PharmacyQuery = PharmacyQuery(city: string, state: string, service: string, partnerOnly: string)

  datatype PharmacyList = PharmacyList(pharmacies: seq<Pharmacy>, total: nat)

  // ---- getPharmacies ----

  predicate CityOk(q: PharmacyQuery, p: Pharmacy) {
    q.city == "" || IncludesIgnoringCase(p.address.city, q.city)
  }

  predicate StateOk(q: PharmacyQuery, p: Pharmacy) {
    q.state == "" || ToLower(p.address.state) == ToLower(q.state)
  }

  /** Some offered service contains the text, ignoring case. */
  predicate OffersService(p: Pharmacy, service: string) {
    exists k :: 0 <= k < |p.services| && IncludesIgnoringCase(p.services[k], service)
  }

  predicate ServiceOk(q: PharmacyQuery, p: Pharmacy) {
    q.service == "" || OffersService(p, q.service)
  }

  /** Only the exact text 'true' restricts the list to partners. */
  predicate PartnerOk(q: PharmacyQuery, p: Pharmacy) {
    q.partnerOnly != "true" || p.isPartner
  }

  predicate PharmacyMatches(q: PharmacyQuery, p: Pharmacy) {
    CityOk(q, p) && StateOk(q, p) && ServiceOk(q, p) && PartnerOk(q, p)
  }

  /** The comparator `b.rating - a.rating` as "a may stand before b". */
  predicate RatedAtLeast(a: Pharmacy, b: Pharmacy) {
    a.rating >= b.rating
  }

  lemma RatedAtLeastIsTotalPreorder()
    ensures TotalPreorder(RatedAtLeast)
  {
  }

  /** Every matching pharmacy, best rated first. */
  function PharmacyListing(ps: seq<Pharmacy>, q: PharmacyQuery): seq<Pharmacy> {
    SortBy(RatedAtLeast, Filter(ps, (p: Pharmacy) => PharmacyMatches(q, p)))
  }

  /** The listing holds exactly the matching pharmacies, each as often as in the
      list, best rated first. */
  lemma PharmacyListingIsSortedSelection(ps: seq<Pharmacy>, q: PharmacyQuery, p: Pharmacy)
    ensures p in PharmacyListing(ps, q) <==> p in ps && PharmacyMatches(q, p)
    ensures SortedBy(RatedAtLeast, PharmacyListing(ps, q))
    ensures multiset(PharmacyListing(ps, q)) <= multiset(ps)
  {
    var matching := (p: Pharmacy) => PharmacyMatches(q, p);
    SortByMembers(RatedAtLeast, Filter(ps, matching), p);
    if p in ps && PharmacyMatches(q, p) {
      FilterKeeps(ps, matching, p);
    }
    RatedAtLeastIsTotalPreorder();
    SortBySorted(RatedAtLeast, Filter(ps, matching));
    FilterSubMultiset(ps, matching);
  }

  /** A query without parameters lists every pharmacy. */
  lemma EmptyQueryListsAll(ps: seq<Pharmacy>)
    ensures multiset(PharmacyListing(ps, PharmacyQuery("", "", "", ""))) == multiset(ps)
  {
    FilterAll(ps, (p: Pharmacy) => PharmacyMatches(PharmacyQuery("", "", "", ""), p));
  }

  // ---- getPharmacyById and getPharmacyHours ----

  /** `pharmacies.find(p => p.id === id)`, answered as `getPharmacyById` does. */
  function PharmacyById(ps: seq<Pharmacy>, id: string): (r: Response<Pharmacy>)
    ensures r.Ok? ==> r.data in ps && r.data.id == id
    ensures r.Err? <==> forall p :: p in ps ==> p.id != id
    ensures r.Err? ==> r.message == PHARMACY_NOT_FOUND
    ensures forall i :: 0 <= i < |ps| && ps[i].id == id && (forall j :: 0 <= j < i ==> ps[j].id != id) ==>
      r == Ok("", ps[i])
  {
    match FindIndex(ps, (p: Pharmacy) => p.id == id)
      case None => Err(PHARMACY_NOT_FOUND)
      case Some(i) => Ok("", ps[i])
  }

  /** `pharmacy.hours[day] || 'Closed'`. */
  function DayHours(p: Pharmacy, day: string): (h: string)
    ensures h != ""
    ensures day in p.hours && p.hours[day] != "" ==> h == p.hours[day]
    ensures day !in p.hours ==> h == CLOSED
  {
    if day in p.hours && p.hours[day] != "" then p.hours[day] else CLOSED
  }

  /** `isPharmacyCurrentlyOpen` on the weekday name and hour of the date: open from
      8 to 20 on any day with declared hours, whatever those hours say. */
  predicate IsOpenAt(p: Pharmacy, day: string, hour: int) {
    day in p.hours && p.hours[day] != "" && p.hours[day] != CLOSED
    && OPENING_HOUR <= hour < CLOSING_HOUR
  }

  /** A pharmacy is open only within 8 to 20 on a day whose reported hours are not
      'Closed'; and on such a day it is open at every hour of that window, the
      declared hours playing no part. */
  lemma OpenOnlyInWindow(p: Pharmacy, day: string, hour: int)
    ensures IsOpenAt(p, day, hour) ==> DayHours(p, day) != CLOSED && 8 <= hour < 20
    ensures DayHours(p, day) != CLOSED && 8 <= hour < 20 ==> IsOpenAt(p, day, hour)
  {
  }

  datatype HoursReport = HoursReport(
    pharmacyId: string,
    pharmacyName: string,
    day: string,
    hours: string,
    isOpen: bool,
    allHours: map<string, string>)

  /** `getPharmacyHours(id, date)` for the weekday name and hour of the date. */
  function PharmacyHours(ps: seq<Pharmacy>, id: string, day: string, hour: int): (r: Response<HoursReport>)
    ensures r.Err? <==> PharmacyById(ps, id).Err?
    ensures r.Err? ==> r.message == PHARMACY_NOT_FOUND
  {
    match PharmacyById(ps, id)
      case Err(message) => Err(message)
      case Ok(_, p) => Ok("", HoursReport(id, p.name, day, DayHours(p, day), IsOpenAt(p, day, hour), p.hours))
  }

  /** The hours report describes the pharmacy with that id, and never reports it
      open on a day it reports 'Closed'. */
  lemma HoursReportConsistent(ps: seq<Pharmacy>, id: string, day: string, hour: int)
    ensures var r := PharmacyHours(ps, id, day, hour);
      r.Ok? ==>
        && (exists p :: p in ps && p.id == id && p.name == r.data.pharmacyName && p.hours == r.data.allHours)
        && r.data.pharmacyId == id && r.data.day == day
        && (r.data.isOpen ==> r.data.hours != CLOSED && OPENING_HOUR <= hour < CLOSING_HOUR)
        && (day !in r.data.allHours ==> r.data.hours == CLOSED && !r.data.isOpen)
  {
    var r := PharmacyHours(ps, id, day, hour);
    if r.Ok? {
      var p := PharmacyById(ps, id).data;
      assert p in ps && p.id == id && p.name == r.data.pharmacyName && p.hours == r.data.allHours;
    }
  }

  // ---- getNearbyPharmacies ----

  /** A pharmacy with its distance from the user, in hundredths of a kilometre. */
  datatype Located = Located(pharmacy: Pharmacy, distance: int)

  datatype NearbyResult = NearbyResult(pharmacies: seq<Located>, searchRadius: int, totalFound: nat)

  /** The comparator `a.distance - b.distance` as "a may stand before b". */
  predicate CloserOrSame(a: Located, b: Located) {
    a.distance <= b.distance
  }

  lemma CloserOrSameIsTotalPreorder()
    ensures TotalPreorder(CloserOrSame)
  {
  }

  /** `pharmacies.map(p => ({...p, distance}))`. */
  function Locate(ps: seq<Pharmacy>, distance: Pharmacy -> int): (r: seq<Located>)
    ensures |r| == |ps|
    ensures forall i :: 0 <= i < |ps| ==> r[i] == Located(ps[i], distance(ps[i]))
  {
    seq(|ps|, i requires 0 <= i < |ps| => Located(ps[i], distance(ps[i])))
  }

  predicate WithinRadius(l: Located, radius: int) {
    l.distance <= radius
  }

  /** The pharmacies within the radius, closest first. */
  function Nearby(ps: seq<Pharmacy>, distance: Pharmacy -> int, radius: int): seq<Located> {
    SortBy(CloserOrSame, Filter(Locate(ps, distance), (l: Located) => WithinRadius(l, radius)))
  }

  /** The radius search keeps exactly the pharmacies at most `radius` away, each
      with its own distance, closest first. */
  lemma NearbyWithinRadiusClosestFirst(ps: seq<Pharmacy>, distance: Pharmacy -> int, radius: int, l: Located)
    ensures l in Nearby(ps, distance, radius) <==>
      l.pharmacy in ps && l.distance == distance(l.pharmacy) && l.distance <= radius
    ensures SortedBy(CloserOrSame, Nearby(ps, distance, radius))
    ensures |Nearby(ps, distance, radius)| <= |ps|
  {
    var located := Locate(ps, distance);
    var within := (l: Located) => WithinRadius(l, radius);
    SortByMembers(CloserOrSame, Filter(located, within), l);
    if l.pharmacy in ps && l.distance == distance(l.pharmacy) && l.distance <= radius {
      var i :| 0 <= i < |ps| && ps[i] == l.pharmacy;
      assert located[i] == l;
      FilterKeeps(located, within, l);
    }
    if l in located {
      var i :| 0 <= i < |located| && located[i] == l;
      assert l.pharmacy == ps[i];
    }
    CloserOrSameIsTotalPreorder();
    SortBySorted(CloserOrSame, Filter(located, within));
  }

  // ---- getPharmacyServices ----

  /** The accumulator after `xs.forEach(s => { if (!acc.includes(s)) acc.push(s) })`. */
  function PushAbsent(acc: seq<string>, xs: seq<string>): (r: seq<string>)
    ensures forall s :: s in r <==> s in acc || s in xs
    ensures |r| >= |acc| && r[..|acc|] == acc
    ensures Distinct(acc) ==> Distinct(r)
    decreases |xs|
  {
    if xs == [] then acc
    else
      var before := PushAbsent(acc, xs[..|xs| - 1]);
      var s := xs[|xs| - 1];
      assert forall t :: t in xs <==> t in xs[..|xs| - 1] || t == s by {
        assert xs == xs[..|xs| - 1] + [s];
      }
      if s in before then before else before + [s]
  }

  /** Every string occurs at most once. */
  ghost predicate Distinct(xs: seq<string>) {
    forall s :: multiset(xs)[s] <= 1
  }

  /** The `reduce` of getPharmacyServices: every service in order of first
      appearance. */
  function AllServices(ps: seq<Pharmacy>): (r: seq<string>)
    ensures Distinct(r)
    decreases |ps|
  {
    if ps == [] then [] else PushAbsent(AllServices(ps[..|ps| - 1]), ps[|ps| - 1].services)
  }

  /** A service is listed exactly when some pharmacy offers it. */
  lemma {:induction false} AllServicesMembers(ps: seq<Pharmacy>, s: string)
    ensures s in AllServices(ps) <==> exists i :: 0 <= i < |ps| && s in ps[i].services
    decreases |ps|
  {
    if ps != [] {
      var init := ps[..|ps| - 1];
      AllServicesMembers(init, s);
      if s in AllServices(init) {
        var i :| 0 <= i < |init| && s in init[i].services;
        assert ps[i] == init[i];
      }
      if i :| 0 <= i < |ps| && s in ps[i].services {
        if i < |ps| - 1 {
          assert init[i] == ps[i];
        }
      }
    }
  }

  /** The service list names each offered service exactly once, in ordinal order. */
  lemma ServicesListedOnceSorted(ps: seq<Pharmacy>, s: string)
    ensures s in SortBy(LexLe, AllServices(ps)) <==> exists i :: 0 <= i < |ps| && s in ps[i].services
    ensures Distinct(SortBy(LexLe, AllServices(ps)))
    ensures SortedBy(LexLe, SortBy(LexLe, AllServices(ps)))
  {
    AllServicesMembers(ps, s);
    SortByMembers(LexLe, AllServices(ps), s);
    LexLeIsTotalPreorder();
    SortBySorted(LexLe, AllServices(ps));
  }

  // ---- the service ----

  class MockPharmacyService {
    /** The constructor's copy of the pharmacy fixtures; no operation changes it. */
    const pharmacies: seq<Pharmacy>

    constructor ()
      ensures pharmacies == MockData.MOCK_PHARMACIES
    {
      pharmacies := MockData.MOCK_PHARMACIES;
    }

    /** `getPharmacies(params)`: each filter that is switched on narrows the list
        in turn; then the list is sorted by rating, highest first. */
    method GetPharmacies(q: PharmacyQuery) returns (r: PharmacyList)
      ensures r.pharmacies == PharmacyListing(pharmacies, q)
      ensures r.total == |r.pharmacies|
    {
      var filtered := pharmacies;
      ghost var sofar: Pharmacy -> bool := (p: Pharmacy) => true;
      FilterAll(pharmacies, sofar);

      var inCity := (p: Pharmacy) => IncludesIgnoringCase(p.address.city, q.city);
      if q.city != "" {
        filtered := Filter(filtered, inCity);
      }
      ghost var next: Pharmacy -> bool := (p: Pharmacy) => CityOk(q, p);
      FilterStep(pharmacies, sofar, q.city != "", inCity, next);
      sofar := next;

      var inState := (p: Pharmacy) => ToLower(p.address.state) == ToLower(q.state);
      if q.state != "" {
        filtered := Filter(filtered, inState);
      }
      next := (p: Pharmacy) => CityOk(q, p) && StateOk(q, p);
      FilterStep(pharmacies, sofar, q.state != "", inState, next);
      sofar := next;

      var offering := (p: Pharmacy) => OffersService(p, q.service);
      if q.service != "" {
        filtered := Filter(filtered, offering);
      }
      next := (p: Pharmacy) => CityOk(q, p) && StateOk(q, p) && ServiceOk(q, p);
      FilterStep(pharmacies, sofar, q.service != "", offering, next);
      sofar := next;

      var partner := (p: Pharmacy) => p.isPartner;
      if q.partnerOnly == "true" {
        filtered := Filter(filtered, partner);
      }
      next := (p: Pharmacy) => PharmacyMatches(q, p);
      FilterStep(pharmacies, sofar, q.partnerOnly == "true", partner, next);

      filtered := SortBy(RatedAtLeast, filtered);
      r := PharmacyList(filtered, |filtered|);
    }

    /** `getPharmacyById(id)`. */
    method GetPharmacyById(id: string) returns (r: Response<Pharmacy>)
      ensures r.Ok? ==> r.data in pharmacies && r.data.id == id
      ensures r.Err? <==> forall p :: p in pharmacies ==> p.id != id
      ensures r.Err? ==> r.message == PHARMACY_NOT_FOUND
      ensures forall i ::
        (&& 0 <= i < |pharmacies| && pharmacies[i].id == id
         && forall j :: 0 <= j < i ==> pharmacies[j].id != id)
        ==> r == Ok("", pharmacies[i])
    {
      r := PharmacyById(pharmacies, id);
    }

    /** `getNearbyPharmacies(latitude, longitude, radius)`, with the (rounded)
        distance of each pharmacy from the user given as `distance`. */
    method GetNearbyPharmacies(distance: Pharmacy -> int, radius: int) returns (r: NearbyResult)
      ensures r.pharmacies == Nearby(pharmacies, distance, radius)
      ensures r.searchRadius == radius && r.totalFound == |r.pharmacies|
    {
      var withDistance := Locate(pharmacies, distance);
      var nearby := Filter(withDistance, (l: Located) => WithinRadius(l, radius));
      nearby := SortBy(CloserOrSame, nearby);
      r := NearbyResult(nearby, radius, |nearby|);
    }

    /** `getPharmacyServices()`: collects each service not yet seen, pharmacy by
        pharmacy, then sorts the collection. */
    method GetPharmacyServices() returns (services: seq<string>)
      ensures services == SortBy(LexLe, AllServices(pharmacies))
    {
      var all: seq<string> := [];
      var i := 0;
      while i < |pharmacies|
        invariant 0 <= i <= |pharmacies|
        invariant all == AllServices(pharmacies[..i])
      {
        var offered := pharmacies[i].services;
        ghost var start := all;
        var j := 0;
        while j < |offered|
          invariant 0 <= j <= |offered|
          invariant all == PushAbsent(start, offered[..j])
        {
          if offered[j] !in all {
            all := all + [offered[j]];
          }
          assert offered[..j + 1][..j] == offered[..j];
          j := j + 1;
        }
        assert offered[..j] == offered;
        assert pharmacies[..i + 1][..i] == pharmacies[..i];
        i := i + 1;
      }
      assert pharmacies[..i] == pharmacies;
      services := SortBy(LexLe, all);
    }

    /** `getPharmacyHours(id, date)` for the weekday name and hour of the date. */
    method GetPharmacyHours(id: string, day: string, hour: int) returns (r: Response<HoursReport>)
      ensures r == PharmacyHours(pharmacies, id, day, hour)
    {
      var found := PharmacyById(pharmacies, id);
      if found.Err? {
        return Err(PHARMACY_NOT_FOUND);
      }
      var p := found.data;
      var hours := if day in p.hours && p.hours[day] != "" then p.hours[day] else CLOSED;
      r := Ok("", HoursReport(id, p.name, day, hours, IsOpenAt(p, day, hour), p.hours));
    }
  }
}
