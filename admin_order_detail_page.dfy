/**
 * The admin order detail page: the order and the client list are fetched
 * together, the client's name is looked up by id, and the status, discount
 * and lines are rendered with fallbacks.
 */
module AdminOrderDetailPage {
  import opened Js
  import opened Domain
  import MeOrderDetailPage

  const LOAD_FAILED := "Impossible de charger la commande."

  /** The colour of a status badge (emerald, amber, red, slate). */
  datatype StatusStyle = Confirmed | Waiting | Refused | Neutral

  /** `getStatusClasses`. */
  function StatusStyleOf(status: Option<string>): (style: StatusStyle)
    ensures style == Confirmed <==> status == Some("CONFIRMED")
    ensures style == Waiting <==> status == Some("PENDING")
    ensures style == Refused <==> status == Some("CANCELED") || status == Some("REJECTED")
    ensures style == Neutral <==> status !in {Some("CONFIRMED"), Some("PENDING"), Some("CANCELED"), Some("REJECTED")}
  {
    match status
    case Some("CONFIRMED") => Confirmed
    case Some("PENDING") => Waiting
    case Some("CANCELED") => Refused
    case Some("REJECTED") => Refused
    case _ => Neutral
  }

  /** `client ? client.name : null` for the first client with the order's
      client id. */
  function ClientNameFor(order: Order, clients: seq<Client>): (name: Option<string>)
    ensures (forall j :: 0 <= j < |clients| ==> clients[j].id != order.clientId) ==> name == None
    ensures forall k :: FirstClientWithId(clients, order.clientId, k) ==> name == clients[k].name
  {
    match FindClient(clients, order.clientId)
    case None => None
    case Some(k) => clients[k].name
  }

  /** The client line of the header. */
  function ClientHeading(order: Order, clientName: Option<string>): (text: string)
    ensures Truthy(clientName) ==> text == clientName.value
    ensures !Truthy(clientName) ==> text == "Client #" + IntText(order.clientId)
  {
    Or(clientName, "Client #" + IntText(order.clientId))
  }

  /** How the discount row reads. */
  datatype DiscountShown = MinusAmount(amount: real) | ZeroAmount

  /** A truthy discount (present and not 0) is shown after a minus sign. */
  function DiscountDisplay(discount: Option<real>): (shown: DiscountShown)
    ensures shown.MinusAmount? <==> discount.Some? && discount.value != 0.0
    ensures shown.MinusAmount? ==> shown.amount == discount.value
  {
    if discount.Some? && discount.value != 0.0 then MinusAmount(discount.value) else ZeroAmount
  }

  /** The two detail pages agree on which discounts get a minus sign, except
      for a negative amount, which only this page prefixes. */
  lemma DiscountRulesDiffer(discount: Option<real>)
    ensures discount.Some? && discount.value < 0.0 ==>
      DiscountDisplay(discount).MinusAmount? && !MeOrderDetailPage.HasDiscount(discount)
    ensures (discount.None? || discount.value >= 0.0) ==>
      (DiscountDisplay(discount).MinusAmount? <==> MeOrderDetailPage.HasDiscount(discount))
  {
  }

  /** `clientsData || []` when it can be searched with `find`: null gives
      the empty list, an array itself, and another object nothing, since it
      has no `find`. */
  function SearchableClients(body: JsonBody<Client>): (clients: Option<seq<Client>>)
    ensures body.NullBody? ==> clients == Some([])
    ensures body.ArrayBody? ==> clients == Some(body.elements)
    ensures body.ObjectBody? ==> clients == None
  {
    match body
    case NullBody => Some([])
    case ArrayBody(xs) => Some(xs)
    case ObjectBody => None
  }

  class AdminOrderDetail {
    const routeId: Option<string>
    var order: Option<Order>
    var clientName: Option<string>
    var isLoading: bool
    var error: Option<string>

    constructor (routeId: Option<string>)
      ensures this.routeId == routeId
      ensures order == None && clientName == None && !isLoading && error == None
    {
      this.routeId := routeId;
      order, clientName, isLoading, error := None, None, false, None;
    }

    /** The page's effect, given the outcomes of the two joined requests
        (the order body may be null; the client body may be null, an array
        or another object). The order is stored first. Searching a client
        body that is neither null nor an array throws, and so does a search
        of a non-empty list for the client of a null order (its `clientId`
        is read); both end in the error message. */
    method RunEffect(orderResponse: Outcome<Option<Order>>, clientsResponse: Outcome<JsonBody<Client>>)
      returns (fetched: bool)
      modifies this
      ensures fetched <==> Truthy(routeId)
      ensures !fetched ==>
        order == old(order) && clientName == old(clientName) && isLoading == old(isLoading) && error == old(error)
      ensures fetched ==> !isLoading
      ensures fetched && (orderResponse.Err? || clientsResponse.Err?) ==>
        error == Some(LOAD_FAILED) && order == old(order) && clientName == old(clientName)
      ensures fetched && orderResponse.Ok? && clientsResponse.Ok? ==> order == orderResponse.value
      ensures fetched && orderResponse.Ok? && clientsResponse.Ok? && clientsResponse.value.ObjectBody? ==>
        error == Some(LOAD_FAILED) && clientName == old(clientName)
      ensures fetched && orderResponse.Ok? && clientsResponse.Ok? && orderResponse.value.None?
              && SearchableClients(clientsResponse.value).Some? ==>
        if SearchableClients(clientsResponse.value).value == [] then error == None && clientName == None
        else error == Some(LOAD_FAILED) && clientName == old(clientName)
      ensures fetched && orderResponse.Ok? && clientsResponse.Ok? && orderResponse.value.Some?
              && SearchableClients(clientsResponse.value).Some? ==>
        error == None
        && clientName == ClientNameFor(orderResponse.value.value, SearchableClients(clientsResponse.value).value)
    {
      if !Truthy(routeId) {
        return false;
      }
      fetched := true;
      isLoading := true;
      error := None;
      if orderResponse.Err? || clientsResponse.Err? {
        error := Some(LOAD_FAILED);
      } else {
        order := orderResponse.value;
        var clients := SearchableClients(clientsResponse.value);
        if clients.None? {
          error := Some(LOAD_FAILED);
        } else if order.Some? {
          clientName := ClientNameFor(order.value, clients.value);
        } else if clients.value == [] {
          clientName := None;
        } else {
          error := Some(LOAD_FAILED);
        }
      }
      isLoading := false;
    }
  }
}
