/** The pharmacy-finder page's own filter (src/pages/Pharmacies.jsx,
    `filteredPharmacies`) over the pharmacy cards it shows, whose address, opening
    state and hours are plain display values. */
module PharmaciesPage {
  import opened Text
  import opened Seqs

  const ALL := "all"
  const OPEN := "open"
  const ALWAYS_OPEN := "24h"
  const DELIVERY := "delivery"
  const ROUND_THE_CLOCK := "24/7"
  const DELIVERY_SERVICE := "Delivery"

  datatype PharmacyCard = PharmacyCard(
    name: string,
    address: string,
    isOpen: bool,
    hours: string,
    services: seq<string>)

  /** The query occurs in the name or the address, ignoring case. */
  predicate CardSearchHit(p: PharmacyCard, query: string) {
    IncludesIgnoringCase(p.name, query) || IncludesIgnoringCase(p.address, query)
  }

  /** The filter button's extra condition; 'all' and unknown values add none. */
  predicate FilterHolds(p: PharmacyCard, selectedFilter: string) {
    if selectedFilter == OPEN then p.isOpen
    else if selectedFilter == ALWAYS_OPEN then p.hours == ROUND_THE_CLOCK
    else if selectedFilter == DELIVERY then DELIVERY_SERVICE in p.services
    else true
  }

  predicate CardShown(p: PharmacyCard, query: string, selectedFilter: string) {
    CardSearchHit(p, query) && FilterHolds(p, selectedFilter)
  }

  /** `filteredPharmacies`. */
  function FilteredPharmacies(cards: seq<PharmacyCard>, query: string, selectedFilter: string)
    : (r: seq<PharmacyCard>)
    ensures forall p :: p in r ==> p in cards && CardSearchHit(p, query)
  {
    Filter(cards, (p: PharmacyCard) => CardShown(p, query, selectedFilter))
  }

  /** The page shows exactly the cards passing search and filter, in their
      original order; each filter value adds its own condition. */
  lemma FilteredPharmaciesSelection(cards: seq<PharmacyCard>, query: string, selectedFilter: string, p: PharmacyCard)
    ensures p in FilteredPharmacies(cards, query, selectedFilter) <==>
      && p in cards && CardSearchHit(p, query)
      && (selectedFilter == OPEN ==> p.isOpen)
      && (selectedFilter == ALWAYS_OPEN ==> p.hours == ROUND_THE_CLOCK)
      && (selectedFilter == DELIVERY ==> DELIVERY_SERVICE in p.services)
    ensures IsSubsequence(FilteredPharmacies(cards, query, selectedFilter), cards)
  {
    var shown := (p: PharmacyCard) => CardShown(p, query, selectedFilter);
    if p in cards && CardShown(p, query, selectedFilter) {
      FilterKeeps(cards, shown, p);
    }
    FilterIsSubsequence(cards, shown);
  }

  /** An empty search with 'all' shows every pharmacy. */
  lemma EmptySearchShowsAll(cards: seq<PharmacyCard>)
    ensures FilteredPharmacies(cards, "", ALL) == cards
  {
    forall p | p in cards
      ensures CardShown(p, "", ALL)
    {
      IncludesEmpty(ToLower(p.name));
    }
    FilterAll(cards, (p: PharmacyCard) => CardShown(p, "", ALL));
  }
}
