/** The orders page (src/pages/orders.jsx): the status badge, the search filter and the status counts. */
module OrdersPage {
  import opened Strings
  import opened Lists
  import opened Records
  import opened ResponseShape

  /** The page's order list; its error toast reuses the products wording. */
  method OpenPage() returns (page: CollectionPage<Order>)
    ensures fresh(page)
    ensures page.items == [] && !page.isLoading
    ensures page.errorText == "Failed to load Products" && !page.requireSuccess
  {
    page := new CollectionPage(false, "Failed to load Products", false);
  }

  datatype Badge = Badge(className: string, text: string)

  /** `getStatusBadge(status)`. */
  function StatusBadge(status: string): (b: Badge)
    ensures status == "delivered" ==> b == Badge("status-chip status-delivered", "Delivered")
    ensures status == "pending" ==> b == Badge("status-chip status-pending", "Processing")
    ensures status == "shipped" ==> b == Badge("status-chip status-active", "Shipped")
    ensures status !in {"delivered", "pending", "shipped"} ==> b == Badge("status-chip status-pending", status)
  {
    match status
    case "delivered" => Badge("status-chip status-delivered", "Delivered")
    case "pending" => Badge("status-chip status-pending", "Processing")
    case "shipped" => Badge("status-chip status-active", "Shipped")
    case _ => Badge("status-chip status-pending", status)
  }

  /** Distinct statuses other than the three known ones keep distinct labels. */
  lemma UnknownStatusLabelsAreFaithful(s1: string, s2: string)
    requires s1 !in {"delivered", "pending", "shipped"} && s2 !in {"delivered", "pending", "shipped"}
    ensures StatusBadge(s1) == StatusBadge(s2) <==> s1 == s2
  {
  }

  /** The search test of `filteredOrders`. */
  predicate MatchesSearch(o: Order, search: string) {
    ContainsFolded(o.customerName, search) || ContainsFolded(o.id, search)
  }

  /** `filteredOrders`: only matching orders from the list. */
  function FilteredOrders(orders: seq<Order>, search: string): (r: seq<Order>)
    ensures |r| <= |orders|
    ensures forall o :: o in r ==> o in orders && MatchesSearch(o, search)
  {
    Filter(orders, o => MatchesSearch(o, search))
  }

  lemma FilteredOrdersSpec(orders: seq<Order>, search: string)
    ensures forall o :: o in FilteredOrders(orders, search) <==> o in orders && MatchesSearch(o, search)
    ensures IsSubsequence(FilteredOrders(orders, search), orders)
    ensures search == "" ==> FilteredOrders(orders, search) == orders
  {
    FilterSpec(orders, o => MatchesSearch(o, search));
    if search == "" {
      forall o | o in orders ensures MatchesSearch(o, search) {
        ContainsFoldedEmpty(o.customerName);
      }
      FilterAllTrue(orders, o => MatchesSearch(o, search));
    }
  }

  /** The tests of the "Pending", "Shipped" and "Delivered" cards, which count over all orders. */
  predicate IsPending(o: Order) { o.status == "pending" }
  predicate IsShipped(o: Order) { o.status == "shipped" }
  predicate IsDelivered(o: Order) { o.status == "delivered" }
  predicate IsPendingOrShipped(o: Order) { IsPending(o) || IsShipped(o) }
  predicate IsTracked(o: Order) { IsPendingOrShipped(o) || IsDelivered(o) }

  /** The three status cards never count an order twice, so together they stay within "Total Orders". */
  lemma StatusCountsBounded(orders: seq<Order>)
    ensures |Filter(orders, IsPending)| + |Filter(orders, IsShipped)| + |Filter(orders, IsDelivered)|
            == |Filter(orders, IsTracked)|
    ensures |Filter(orders, IsPending)| + |Filter(orders, IsShipped)| + |Filter(orders, IsDelivered)| <= |orders|
  {
    FilterDisjointCount(orders, IsPending, IsShipped, IsPendingOrShipped);
    FilterDisjointCount(orders, IsPendingOrShipped, IsDelivered, IsTracked);
  }
}
