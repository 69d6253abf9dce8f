/**
 * A client's own order detail page: the order handed over by the order
 * list through navigation state is shown as it is; otherwise the client's
 * orders are fetched and the one whose id matches the route is picked.
 */
module MeOrderDetailPage {
  import opened Js
  import opened Domain

  const NOT_FOUND := "Commande introuvable."
  const LOAD_FAILED := "Impossible de charger cette commande."

  /** `String(o.id) === String(id)`. */
  predicate Matches(o: Order, routeId: string)
  {
    IntText(o.id) == routeId
  }

  /** `all.find((o) => String(o.id) === String(id))`, as the index of the
      first order whose id reads as the route id. */
  function FindOrder(orders: seq<Order>, routeId: string): (r: Option<nat>)
    ensures r.Some? ==> r.value < |orders| && Matches(orders[r.value], routeId)
    ensures r.Some? ==> forall j :: 0 <= j < r.value ==> !Matches(orders[j], routeId)
    ensures r.None? <==> forall j :: 0 <= j < |orders| ==> !Matches(orders[j], routeId)
  {
    Find(orders, (o: Order) => Matches(o, routeId))
  }

  /** `(order?.discountAmount || 0) > 0`. */
  function HasDiscount(discount: Option<real>): (b: bool)
    ensures b <==> discount.Some? && discount.value > 0.0
  {
    (if discount.Some? then discount.value else 0.0) > 0.0
  }

  /** `order?.items || []`. */
  function LinesOf(order: Option<Order>): (lines: seq<OrderLine>)
    ensures order.Some? && order.value.items.Some? ==> lines == order.value.items.value
    ensures order.None? || order.value.items.None? ==> lines == []
  {
    if order.Some? && order.value.items.Some? then order.value.items.value else []
  }

  /** `item.productName || \`Produit #${item.productId}\``. */
  function LineLabel(line: OrderLine): (text: string)
    ensures Truthy(line.productName) ==> text == line.productName.value
    ensures !Truthy(line.productName) ==> text == "Produit #" + IntText(line.productId)
    ensures text != ""
  {
    Or(line.productName, "Produit #" + IntText(line.productId))
  }

  class MeOrderDetail {
    /** The route's `:id`, absent or empty when the route has none. */
    const routeId: Option<string>
    /** `location.state?.order`. */
    const initialOrder: Option<Order>
    var order: Option<Order>
    var isLoading: bool
    var error: Option<string>

    constructor (routeId: Option<string>, initialOrder: Option<Order>)
      ensures this.routeId == routeId && this.initialOrder == initialOrder
      ensures order == initialOrder && isLoading == initialOrder.None? && error == None
    {
      this.routeId := routeId;
      this.initialOrder := initialOrder;
      order := initialOrder;
      isLoading := initialOrder.None?;
      error := None;
    }

    /** The page's effect, given the outcome of fetching the client's orders
        (the list may be null); `fetched` says whether the request is made. */
    method RunEffect(response: Outcome<Option<seq<Order>>>) returns (fetched: bool)
      modifies this
      ensures fetched <==> initialOrder.None? && Truthy(routeId)
      ensures !fetched ==> order == old(order) && isLoading == old(isLoading) && error == old(error)
      ensures fetched ==> !isLoading
      ensures fetched && response.Ok? ==>
        var all := if response.value.Some? then response.value.value else [];
        match FindOrder(all, routeId.value)
        case Some(k) => order == Some(all[k]) && error == None
        case None => order == old(order) && error == Some(NOT_FOUND)
      ensures fetched && response.Err? ==>
        order == old(order) && error == Some(Or(response.error.backendMessage, LOAD_FAILED))
    {
      if initialOrder.Some? || !Truthy(routeId) {
        return false;
      }
      fetched := true;
      isLoading := true;
      error := None;
      match response {
        case Ok(body) =>
          var all := if body.Some? then body.value else [];
          match FindOrder(all, routeId.value) {
            case None => error := Some(NOT_FOUND);
            case Some(k) => order := Some(all[k]);
          }
        case Err(e) =>
          error := Some(Or(e.backendMessage, LOAD_FAILED));
      }
      isLoading := false;
    }
  }

  /** Without an order in navigation state and without a route id (absent
      or empty), nothing is fetched and the page stays in its loading state
      with no order, whatever the request would have answered. */
  method NoIdKeepsLoading(routeId: Option<string>, response: Outcome<Option<seq<Order>>>)
    returns (fetched: bool, isLoading: bool, order: Option<Order>)
    requires routeId == None || routeId == Some("")
    ensures !fetched && isLoading && order == None
  {
    var page := new MeOrderDetail(routeId, None);
    fetched := page.RunEffect(response);
    isLoading, order := page.isLoading, page.order;
  }
}
