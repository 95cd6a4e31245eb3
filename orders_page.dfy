/** The order-history page's own logic (src/pages/Orders.jsx): the search and
    status filter over the orders it shows, and the reorder lookup. The page keeps
    its own order records, with an order number, the pharmacy's name and the names
    of the ordered medicines. */
module OrdersPage {
  import opened Common
  import opened Text
  import opened Seqs

  const ALL := "all"
  const CART_ROUTE := "/cart"

  datatype PageOrder = PageOrder(
    id: string,
    orderNumber: string,
    status: string,
    pharmacyName: string,
    medicineNames: seq<string>)

  /** The query occurs in the order number, the pharmacy's name or some medicine's
      name, ignoring case. */
  predicate OrderSearchHit(o: PageOrder, query: string) {
    || IncludesIgnoringCase(o.orderNumber, query)
    || IncludesIgnoringCase(o.pharmacyName, query)
    || exists k :: 0 <= k < |o.medicineNames| && IncludesIgnoringCase(o.medicineNames[k], query)
  }

  predicate OrderShown(o: PageOrder, query: string, statusFilter: string) {
    OrderSearchHit(o, query) && (statusFilter == ALL || o.status == statusFilter)
  }

  /** `filteredOrders`. */
  function FilteredOrders(orders: seq<PageOrder>, query: string, statusFilter: string): (r: seq<PageOrder>)
    ensures forall o :: o in r ==> o in orders && OrderShown(o, query, statusFilter)
  {
    Filter(orders, (o: PageOrder) => OrderShown(o, query, statusFilter))
  }

  /** The page shows exactly the orders passing search and status, in their
      original order. */
  lemma FilteredOrdersSelection(orders: seq<PageOrder>, query: string, statusFilter: string, o: PageOrder)
    ensures o in FilteredOrders(orders, query, statusFilter) <==> o in orders && OrderShown(o, query, statusFilter)
    ensures IsSubsequence(FilteredOrders(orders, query, statusFilter), orders)
  {
    var shown := (o: PageOrder) => OrderShown(o, query, statusFilter);
    if o in orders && OrderShown(o, query, statusFilter) {
      FilterKeeps(orders, shown, o);
    }
    FilterIsSubsequence(orders, shown);
  }

  /** An empty search with the status filter on 'all' shows every order. */
  lemma EmptySearchShowsAll(orders: seq<PageOrder>)
    ensures FilteredOrders(orders, "", ALL) == orders
  {
    forall o | o in orders
      ensures OrderShown(o, "", ALL)
    {
      IncludesEmpty(ToLower(o.orderNumber));
    }
    FilterAll(orders, (o: PageOrder) => OrderShown(o, "", ALL));
  }

  /** Where `handleReorder(orderId)` leads: nowhere for an id matching no order,
      else to the cart. */
  function ReorderTarget(orders: seq<PageOrder>, orderId: string): (route: Option<string>)
    ensures route.None? <==> forall o :: o in orders ==> o.id != orderId
    ensures route.Some? ==> route.value == CART_ROUTE
  {
    match FindIndex(orders, (o: PageOrder) => o.id == orderId)
      case None => None
      case Some(_) => Some(CART_ROUTE)
  }
}
