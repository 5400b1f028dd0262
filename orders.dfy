/**
 * The Orders page: the order-history filter, the empty-state texts, the
 * download rule and the status badge and icon lookups.
 */
module Orders {
  import opened Seqs
  import opened Text

  datatype OrderStatus = Active | InProgress | Delivered | Completed | Cancelled {
    /** The string the status filter compares with. */
    function Name(): string {
      match this
      case Active => "active"
      case InProgress => "in-progress"
      case Delivered => "delivered"
      case Completed => "completed"
      case Cancelled => "cancelled"
    }
  }

  /** One order; `price` is in cents. */
  datatype Order = Order(
    id: string,
    orderNumber: string,
    date: string,
    gigTitle: string,
    sellerName: string,
    status: OrderStatus,
    price: int,
    deliveryDate: string,
    packageName: string,
    description: string)

  /** The page's filter controls; `"all"` in a select means no constraint. */
  datatype OrderCriteria = OrderCriteria(searchQuery: string, statusFilter: string, dateRange: string)

  const DefaultCriteria := OrderCriteria("", "all", "all")

  /** The lowercased query occurs in the lowercased order number, gig title or seller name. */
  predicate MatchesSearch(o: Order, query: string) {
    var q := Lower(query);
    Contains(Lower(o.orderNumber), q) || Contains(Lower(o.gigTitle), q) || Contains(Lower(o.sellerName), q)
  }

  predicate MatchesStatus(o: Order, statusFilter: string) {
    statusFilter == "all" || o.status.Name() == statusFilter
  }

  /** The predicate `filteredOrders` applies; the date range takes no part. */
  predicate Matches(o: Order, c: OrderCriteria) {
    MatchesSearch(o, c.searchQuery) && MatchesStatus(o, c.statusFilter)
  }

  /**
   * `filteredOrders`: the orders the criteria keep, in their original order;
   * with no search and status "all", every order.
   */
  function FilteredOrders(os: seq<Order>, c: OrderCriteria): (r: seq<Order>)
    ensures forall o :: o in r <==> o in os && Matches(o, c)
    ensures IsSubseq(r, os)
    ensures forall o :: multiset(r)[o] == if Matches(o, c) then multiset(os)[o] else 0
    ensures c.searchQuery == "" && c.statusFilter == "all" ==> r == os
  {
    var p := (o: Order) => Matches(o, c);
    FilterIsSubseq(os, p);
    FilterCounts(os, p);
    if c.searchQuery == "" && c.statusFilter == "all" then
      AllMatchWithoutCriteria(os, c);
      FilterAll(os, p);
      Filter(os, p)
    else Filter(os, p)
  }

  lemma AllMatchWithoutCriteria(os: seq<Order>, c: OrderCriteria)
    requires c.searchQuery == "" && c.statusFilter == "all"
    ensures forall o :: o in os ==> Matches(o, c)
  {
    forall o | o in os ensures Matches(o, c) {
      assert Lower(c.searchQuery) == "";
      ContainsEmpty(Lower(o.orderNumber));
    }
  }

  /** The date-range selection has no effect on the list. */
  lemma DateRangeIgnored(os: seq<Order>, c: OrderCriteria, dateRange: string)
    ensures FilteredOrders(os, c.(dateRange := dateRange)) == FilteredOrders(os, c)
  {
    var c' := c.(dateRange := dateRange);
    FilterExt(os, (o: Order) => Matches(o, c'), (o: Order) => Matches(o, c));
  }

  /** `searchQuery || statusFilter !== "all"`: some criterion is active. */
  predicate CriteriaActive(c: OrderCriteria) {
    c.searchQuery != "" || c.statusFilter != "all"
  }

  /** What the page shows when the filtered list is empty. */
  datatype EmptyState = EmptyState(title: string, hint: string, browseLink: bool)

  /**
   * The empty-state block: the "no match" heading and the adjust-criteria
   * hint when some criterion is active; otherwise the "no orders yet"
   * heading, the ready-to-find hint and the Browse link.
   */
  function EmptyStateFor(c: OrderCriteria): (e: EmptyState)
    ensures e.title == "No orders found for your criteria" <==> CriteriaActive(c)
    ensures e.title == "You haven't placed any orders yet" <==> !CriteriaActive(c)
    ensures e.hint == "Try adjusting your search or filter criteria" <==> CriteriaActive(c)
    ensures e.hint == "Ready to find your next service?" <==> !CriteriaActive(c)
    ensures e.browseLink <==> e.title == "You haven't placed any orders yet"
  {
    EmptyState(
      if CriteriaActive(c) then "No orders found for your criteria" else "You haven't placed any orders yet",
      if CriteriaActive(c) then "Try adjusting your search or filter criteria" else "Ready to find your next service?",
      c.searchQuery == "" && c.statusFilter == "all")
  }

  /**
   * The "no orders yet" state never hides orders: with no criterion active,
   * an empty filtered list means there are no orders at all, and every order
   * that exists is listed.
   */
  lemma EmptyStateTruthful(os: seq<Order>, c: OrderCriteria)
    requires FilteredOrders(os, c) == []
    ensures !CriteriaActive(c) ==> os == []
    ensures os != [] ==> EmptyStateFor(c).title == "No orders found for your criteria" && !EmptyStateFor(c).browseLink
  {
  }

  /** The download action is offered exactly for completed and delivered orders. */
  function CanDownload(s: OrderStatus): (b: bool)
    ensures b <==> s.Name() == "completed" || s.Name() == "delivered"
  {
    s == Completed || s == Delivered
  }

  datatype Badge = Badge(caption: string, className: string)

  /** `getStatusBadge`: the caption and colour of each status. */
  function StatusBadge(s: OrderStatus): (b: Badge)
    ensures b.className == "bg-green-100 text-green-700" <==> CanDownload(s)
  {
    match s
    case Active => Badge("Active", "bg-blue-100 text-blue-700")
    case InProgress => Badge("In Progress", "bg-yellow-100 text-yellow-700")
    case Delivered => Badge("Delivered", "bg-green-100 text-green-700")
    case Completed => Badge("Completed", "bg-green-100 text-green-700")
    case Cancelled => Badge("Cancelled", "bg-red-100 text-red-700")
  }

  /** Different statuses carry different captions, so the caption identifies the status. */
  lemma StatusLabelsDistinct(s: OrderStatus, t: OrderStatus)
    ensures StatusBadge(s).caption == StatusBadge(t).caption <==> s == t
  {
  }

  datatype IconKind = CheckCircle | Clock | Package

  datatype Icon = Icon(kind: IconKind, className: string)

  /** `getStatusIcon`; a cancelled order falls to the `default` case. */
  function StatusIcon(s: OrderStatus): (i: Icon)
    ensures i.kind == CheckCircle <==> CanDownload(s)
    ensures i.kind == Clock <==> s == InProgress
  {
    match s
    case Completed => Icon(CheckCircle, "h-4 w-4 text-green-600")
    case Delivered => Icon(CheckCircle, "h-4 w-4 text-green-600")
    case InProgress => Icon(Clock, "h-4 w-4 text-yellow-600")
    case Active => Icon(Package, "h-4 w-4 text-blue-600")
    case Cancelled => Icon(Package, "h-4 w-4 text-text-secondary")
  }

  /** Status names are distinct, so the status filter selects by status. */
  lemma NameInjective(s: OrderStatus, t: OrderStatus)
    ensures s.Name() == t.Name() <==> s == t
  {
  }

  /** Without a search, filtering on a status keeps exactly the orders in that status. */
  lemma StatusOnlyFilter(os: seq<Order>, st: OrderStatus, dateRange: string)
    ensures FilteredOrders(os, OrderCriteria("", st.Name(), dateRange)) == Filter(os, (o: Order) => o.status == st)
  {
    var c := OrderCriteria("", st.Name(), dateRange);
    AllMatchWithoutCriteria(os, c.(statusFilter := "all"));
    forall o | o in os ensures Matches(o, c) == (o.status == st) {
      NameInjective(o.status, st);
    }
    FilterExt(os, (o: Order) => Matches(o, c), (o: Order) => o.status == st);
  }
}
