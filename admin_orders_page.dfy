/**
 * The admin order list: both lists are fetched together, the orders are
 * counted by status and cut into pages of ten on the client side, and the
 * page buttons show a window of at most five page numbers.
 */
module AdminOrdersPage {
  import opened Js
  import opened Domain
  import AdminOrderDetailPage

  const PAGE_SIZE := 10
  const LOAD_FAILED := "Impossible de charger les commandes."

  /** `totalOrders === 0 ? 0 : Math.ceil(totalOrders / pageSize)`. */
  function TotalPages(n: nat): (tp: nat)
    ensures tp == 0 <==> n == 0
    ensures n > 0 ==> (tp - 1) * PAGE_SIZE < n <= tp * PAGE_SIZE
  {
    if n == 0 then 0 else (n + PAGE_SIZE - 1) / PAGE_SIZE
  }

  /** `safeCurrentPage`: the requested page clamped into the existing pages. */
  function SafeCurrentPage(currentPage: int, totalPages: nat): (p: nat)
    ensures totalPages == 0 ==> p == 0
    ensures totalPages > 0 ==> p < totalPages
    ensures 0 <= currentPage < totalPages ==> p == currentPage
    ensures totalPages > 0 && currentPage < 0 ==> p == 0
    ensures totalPages > 0 && currentPage >= totalPages ==> p == totalPages - 1
  {
    if totalPages == 0 then 0
    else if currentPage < 0 then 0
    else if currentPage > totalPages - 1 then totalPages - 1
    else currentPage
  }

  /** The orders of page `p`: `orders.slice(p * pageSize, p * pageSize + pageSize)`. */
  function PageAt(orders: seq<Order>, p: nat): seq<Order>
  {
    Slice(orders, p * PAGE_SIZE, p * PAGE_SIZE + PAGE_SIZE)
  }

  /** `paginatedOrders`: at most ten orders, a segment of `orders` starting at
      the first order of the clamped page, and never empty when there are
      orders. */
  function PaginatedOrders(orders: seq<Order>, currentPage: int): (page: seq<Order>)
    ensures |page| <= PAGE_SIZE
    ensures var start := SafeCurrentPage(currentPage, TotalPages(|orders|)) * PAGE_SIZE;
      start <= |orders|
      && page == orders[start..if start + PAGE_SIZE <= |orders| then start + PAGE_SIZE else |orders|]
    ensures orders != [] ==> page != []
  {
    PageAt(orders, SafeCurrentPage(currentPage, TotalPages(|orders|)))
  }

  /** The pages from `p` to the last one, joined in order. */
  function PagesFrom(orders: seq<Order>, p: nat): seq<Order>
    decreases TotalPages(|orders|) - p
  {
    if p < TotalPages(|orders|) then PageAt(orders, p) + PagesFrom(orders, p + 1) else []
  }

  lemma {:induction false} PagesFromIsSuffix(orders: seq<Order>, p: nat)
    requires p <= TotalPages(|orders|)
    ensures PagesFrom(orders, p) == orders[if p * PAGE_SIZE < |orders| then p * PAGE_SIZE else |orders|..]
    decreases TotalPages(|orders|) - p
  {
    if p < TotalPages(|orders|) {
      PagesFromIsSuffix(orders, p + 1);
      var start := p * PAGE_SIZE;
      var end := if start + PAGE_SIZE <= |orders| then start + PAGE_SIZE else |orders|;
      assert PageAt(orders, p) == orders[start..end];
      assert orders[start..] == orders[start..end] + orders[end..];
    }
  }

  /** Joining every page in order gives back exactly the order list, and each
      of those pages is what the table shows when it is the current page. */
  lemma PagesCoverOrders(orders: seq<Order>)
    ensures PagesFrom(orders, 0) == orders
    ensures forall p: nat :: p < TotalPages(|orders|) ==> PaginatedOrders(orders, p) == PageAt(orders, p)
  {
    PagesFromIsSuffix(orders, 0);
  }

  /** The page index shown on the i-th numbered button. */
  function WindowIndex(safePage: int, totalPages: int, i: int): int
  {
    if totalPages <= 5 then i
    else if safePage < 2 then i
    else if safePage > totalPages - 3 then totalPages - 5 + i
    else safePage - 2 + i
  }

  /** `Array.from({ length: Math.min(totalPages, 5) }, ...)`: consecutive
      page indices, all existing pages, and the current page among them. */
  function PageWindow(safePage: int, totalPages: nat): (w: seq<int>)
    ensures |w| == if totalPages < 5 then totalPages else 5
    ensures forall i :: 0 < i < |w| ==> w[i] == w[i - 1] + 1
    ensures 0 <= safePage < totalPages ==> safePage in w
    ensures 0 <= safePage < totalPages ==> forall i :: 0 <= i < |w| ==> 0 <= w[i] < totalPages
  {
    var w := seq(if totalPages < 5 then totalPages else 5, i => WindowIndex(safePage, totalPages, i));
    if 0 <= safePage < totalPages then
      assert w[safePage - WindowIndex(safePage, totalPages, 0)] == safePage;
      w
    else w
  }

  /** An order's status is one of `statuses`. */
  predicate HasStatusIn(o: Order, statuses: set<string>)
  {
    o.status.Some? && o.status.value in statuses
  }

  /** `orders.filter(...).length` for a filter on the status. */
  function CountStatus(orders: seq<Order>, statuses: set<string>): (n: nat)
    ensures n <= |orders|
    ensures n == 0 <==> forall i :: 0 <= i < |orders| ==> !HasStatusIn(orders[i], statuses)
    decreases |orders|
  {
    if orders == [] then 0
    else (if HasStatusIn(orders[0], statuses) then 1 else 0) + CountStatus(orders[1..], statuses)
  }

  /** Counting is additive: the count over two lists is the sum of their
      counts. */
  lemma {:induction false} CountStatusAppend(a: seq<Order>, b: seq<Order>, statuses: set<string>)
    ensures CountStatus(a + b, statuses) == CountStatus(a, statuses) + CountStatus(b, statuses)
    decreases |a|
  {
    if a == [] {
      assert a + b == b;
    } else {
      assert (a + b)[0] == a[0] && (a + b)[1..] == a[1..] + b;
      CountStatusAppend(a[1..], b, statuses);
    }
  }

  /** The positions of the orders whose status is one of `statuses`. */
  function StatusIndices(orders: seq<Order>, statuses: set<string>): set<nat>
  {
    set i: nat | i < |orders| && HasStatusIn(orders[i], statuses)
  }

  /** Adding an order at the end adds its position when its status matches. */
  lemma StatusIndicesSnoc(init: seq<Order>, last: Order, statuses: set<string>)
    ensures StatusIndices(init + [last], statuses)
         == StatusIndices(init, statuses) + (if HasStatusIn(last, statuses) then {|init|} else {})
  {
    var orders := init + [last];
    forall i | i in StatusIndices(orders, statuses)
      ensures i in StatusIndices(init, statuses) + (if HasStatusIn(last, statuses) then {|init|} else {})
    {
      if i < |init| {
        assert init[i] == orders[i];
      }
    }
    forall i | i in StatusIndices(init, statuses) ensures i in StatusIndices(orders, statuses) {
      assert init[i] == orders[i];
    }
  }

  /** The count is the number of positions holding an order with a matching
      status. */
  lemma {:induction false} CountIsMatchingPositions(orders: seq<Order>, statuses: set<string>)
    ensures CountStatus(orders, statuses) == |StatusIndices(orders, statuses)|
    decreases |orders|
  {
    if orders != [] {
      var n := |orders| - 1;
      var init, last := orders[..n], orders[n];
      assert orders == init + [last];
      CountIsMatchingPositions(init, statuses);
      CountStatusAppend(init, [last], statuses);
      assert [last][1..] == [];
      StatusIndicesSnoc(init, last, statuses);
      assert n !in StatusIndices(init, statuses);
    }
  }

  /** The "En attente" card: the number of orders whose status is PENDING. */
  function PendingOrders(orders: seq<Order>): (n: nat)
    ensures n == |StatusIndices(orders, {"PENDING"})|
  {
    CountIsMatchingPositions(orders, {"PENDING"});
    CountStatus(orders, {"PENDING"})
  }

  /** The "Payées" card: the number of orders whose status is CONFIRMED or PAID. */
  function PaidOrders(orders: seq<Order>): (n: nat)
    ensures n == |StatusIndices(orders, {"CONFIRMED", "PAID"})|
  {
    CountIsMatchingPositions(orders, {"CONFIRMED", "PAID"});
    CountStatus(orders, {"CONFIRMED", "PAID"})
  }

  lemma {:induction false} DisjointCountsBounded(orders: seq<Order>, a: set<string>, b: set<string>)
    requires a !! b
    ensures CountStatus(orders, a) + CountStatus(orders, b) <= |orders|
    decreases |orders|
  {
    if orders != [] {
      DisjointCountsBounded(orders[1..], a, b);
    }
  }

  /** No order is counted both as pending and as paid. */
  lemma PendingAndPaidWithinTotal(orders: seq<Order>)
    ensures PendingOrders(orders) + PaidOrders(orders) <= |orders|
  {
    DisjointCountsBounded(orders, {"PENDING"}, {"CONFIRMED", "PAID"});
  }

  /** `getClientLabel`: the name of the first client with the order's client
      id when that name is non-empty, else `Client #<clientId>`. */
  function ClientLabel(order: Order, clients: seq<Client>): (text: string)
    ensures forall k | FirstClientWithId(clients, order.clientId, k) ::
      text == if Truthy(clients[k].name) then clients[k].name.value else "Client #" + IntText(order.clientId)
    ensures (forall j :: 0 <= j < |clients| ==> clients[j].id != order.clientId) ==>
      text == "Client #" + IntText(order.clientId)
    ensures text != ""
  {
    match FindClient(clients, order.clientId)
    case Some(k) => Or(clients[k].name, "Client #" + IntText(order.clientId))
    case None => "Client #" + IntText(order.clientId)
  }

  /** The list and the detail page label an order's client the same way. */
  lemma ClientLabelMatchesDetailHeading(order: Order, clients: seq<Client>)
    ensures ClientLabel(order, clients)
      == AdminOrderDetailPage.ClientHeading(order, AdminOrderDetailPage.ClientNameFor(order, clients))
  {
  }

  class OrdersPage {
    var orders: seq<Order>
    var clients: seq<Client>
    var isLoading: bool
    var error: Option<string>
    var currentPage: int

    /** The requested page always names an existing page (or 0 when there
        are none), so the clamp in `safeCurrentPage` never changes it. */
    predicate Valid()
      reads this
    {
      0 <= currentPage && (currentPage == 0 || currentPage < TotalPages(|orders|))
    }

    function SafePage(): nat
      reads this
    {
      SafeCurrentPage(currentPage, TotalPages(|orders|))
    }

    lemma ClampIsIdentity()
      requires Valid()
      ensures SafePage() == currentPage
    {
    }

    constructor ()
      ensures Valid()
      ensures orders == [] && clients == [] && !isLoading && error == None && currentPage == 0
    {
      orders, clients, isLoading, error, currentPage := [], [], false, None, 0;
    }

    /** `handlePrev`. */
    method HandlePrev()
      requires Valid()
      modifies this
      ensures Valid()
      ensures currentPage == if old(currentPage) > 0 then old(currentPage) - 1 else 0
      ensures orders == old(orders) && clients == old(clients)
      ensures isLoading == old(isLoading) && error == old(error)
    {
      currentPage := if currentPage - 1 > 0 then currentPage - 1 else 0;
    }

    /** `handleNext`. */
    method HandleNext()
      requires Valid()
      modifies this
      ensures Valid()
      ensures TotalPages(|orders|) == 0 ==> currentPage == 0
      ensures TotalPages(|orders|) > 0 ==>
        currentPage == if old(currentPage) + 1 < TotalPages(|orders|) then old(currentPage) + 1 else TotalPages(|orders|) - 1
      ensures orders == old(orders) && clients == old(clients)
      ensures isLoading == old(isLoading) && error == old(error)
    {
      var totalPages := TotalPages(|orders|);
      if totalPages == 0 {
        currentPage := 0;
      } else {
        currentPage := if currentPage + 1 < totalPages - 1 then currentPage + 1 else totalPages - 1;
      }
    }

    /** `handlePageClick(pageIndex)` from the i-th numbered button. */
    method ClickPageButton(i: nat)
      requires Valid()
      requires i < |PageWindow(SafePage(), TotalPages(|orders|))|
      modifies this
      ensures orders == old(orders) && clients == old(clients)
      ensures Valid()
      ensures currentPage == PageWindow(old(SafePage()), TotalPages(|orders|))[i]
      ensures isLoading == old(isLoading) && error == old(error)
    {
      currentPage := PageWindow(SafePage(), TotalPages(|orders|))[i];
    }

    /** The loading effect, given the outcomes of the two joined requests
        (either body may be null). */
    method Load(ordersResponse: Outcome<Option<seq<Order>>>, clientsResponse: Outcome<Option<seq<Client>>>)
      requires Valid()
      modifies this
      ensures Valid()
      ensures !isLoading
      ensures ordersResponse.Ok? && clientsResponse.Ok? ==>
        error == None && currentPage == 0
        && orders == (if ordersResponse.value.Some? then ordersResponse.value.value else [])
        && clients == (if clientsResponse.value.Some? then clientsResponse.value.value else [])
      ensures ordersResponse.Err? || clientsResponse.Err? ==>
        error == Some(LOAD_FAILED) && currentPage == old(currentPage)
        && orders == old(orders) && clients == old(clients)
    {
      isLoading := true;
      error := None;
      if ordersResponse.Err? || clientsResponse.Err? {
        error := Some(LOAD_FAILED);
      } else {
        orders := if ordersResponse.value.Some? then ordersResponse.value.value else [];
        clients := if clientsResponse.value.Some? then clientsResponse.value.value else [];
        currentPage := 0;
      }
      isLoading := false;
    }
  }
}
