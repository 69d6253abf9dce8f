/**
 * The admin orders store: the order list, the order being viewed, and one
 * loading status shared by the list request and the detail request.
 */
module OrdersSlice {
  import opened Js
  import opened Domain

  const LIST_LOAD_FAILED := "Impossible de charger la liste des commandes."
  const DETAIL_LOAD_FAILED := "Impossible de charger le détail de la commande."
  const LIST_REJECTED_FALLBACK := "Erreur lors du chargement des commandes."
  const DETAIL_REJECTED_FALLBACK := "Erreur lors du chargement du détail commande."

  /** The list thunk: a body that is not an array becomes the empty list; a
      failure is rejected with the backend's message or a fixed default. */
  function FetchAdminOrders(response: Outcome<ListBody<Order>>): (r: Settled<seq<Order>>)
    ensures r.Fulfilled? <==> response.Ok?
    ensures r.Fulfilled? ==> r.payload == ArrayOrEmpty(response.value)
    ensures r.Rejected? ==> Truthy(r.reason)
    ensures r.Rejected? ==>
      r.reason.value == if Truthy(response.error.backendMessage) then response.error.backendMessage.value else LIST_LOAD_FAILED
  {
    match response
    case Ok(body) => Fulfilled(ArrayOrEmpty(body))
    case Err(e) => Rejected(Some(Or(e.backendMessage, LIST_LOAD_FAILED)))
  }

  /** The detail thunk: the body is passed on as it is. */
  function FetchOrderById(response: Outcome<Option<Order>>): (r: Settled<Option<Order>>)
    ensures r.Fulfilled? <==> response.Ok?
    ensures r.Fulfilled? ==> r.payload == response.value
    ensures r.Rejected? ==> Truthy(r.reason)
    ensures r.Rejected? ==>
      r.reason.value == if Truthy(response.error.backendMessage) then response.error.backendMessage.value else DETAIL_LOAD_FAILED
  {
    match response
    case Ok(body) => Fulfilled(body)
    case Err(e) => Rejected(Some(Or(e.backendMessage, DETAIL_LOAD_FAILED)))
  }

  class OrdersStore {
    var items: seq<Order>
    var currentOrder: Option<Order>
    var status: Status
    var error: Option<string>

    /** No error is held while idle or loading, and a failure always holds a
        message. (A succeeded status may still hold the error of the other
        request, since the two requests share one status.) */
    predicate Valid()
      reads this
    {
      ((status == Idle || status == Loading) ==> error == None)
      && (status == Failed ==> Truthy(error))
    }

    constructor ()
      ensures Valid()
      ensures items == [] && currentOrder == None && status == Idle && error == None
    {
      items, currentOrder, status, error := [], None, Idle, None;
    }

    method ClearOrders()
      requires Valid()
      modifies this
      ensures Valid()
      ensures items == [] && status == Idle && error == None
      ensures currentOrder == old(currentOrder)
    {
      items := [];
      status := Idle;
      error := None;
    }

    method ClearCurrentOrder()
      requires Valid()
      modifies this
      ensures Valid()
      ensures currentOrder == None
      ensures items == old(items) && status == old(status) && error == old(error)
    {
      currentOrder := None;
    }

    /** `fetchAdminOrders.pending` and `fetchOrderById.pending` share this case. */
    method Pending()
      requires Valid()
      modifies this
      ensures Valid()
      ensures status == Loading && error == None
      ensures items == old(items) && currentOrder == old(currentOrder)
    {
      status := Loading;
      error := None;
    }

    method ListFulfilled(payload: seq<Order>)
      requires Valid()
      modifies this
      ensures Valid()
      ensures status == Succeeded && items == payload
      ensures currentOrder == old(currentOrder) && error == old(error)
    {
      status := Succeeded;
      items := payload;
    }

    method ListRejected(reason: Option<string>)
      requires Valid()
      modifies this
      ensures Valid()
      ensures status == Failed && error == Some(Or(reason, LIST_REJECTED_FALLBACK))
      ensures items == old(items) && currentOrder == old(currentOrder)
    {
      status := Failed;
      error := Some(Or(reason, LIST_REJECTED_FALLBACK));
    }

    method DetailFulfilled(payload: Option<Order>)
      requires Valid()
      modifies this
      ensures Valid()
      ensures status == Succeeded && currentOrder == payload
      ensures items == old(items) && error == old(error)
    {
      status := Succeeded;
      currentOrder := payload;
    }

    method DetailRejected(reason: Option<string>)
      requires Valid()
      modifies this
      ensures Valid()
      ensures status == Failed && error == Some(Or(reason, DETAIL_REJECTED_FALLBACK))
      ensures items == old(items) && currentOrder == old(currentOrder)
    {
      status := Failed;
      error := Some(Or(reason, DETAIL_REJECTED_FALLBACK));
    }

    /** Runs the list request to completion: pending, then the settlement of
        the thunk for the given response. */
    method LoadList(response: Outcome<ListBody<Order>>)
      requires Valid()
      modifies this
      ensures Valid()
      ensures currentOrder == old(currentOrder)
      ensures response.Ok? ==> status == Succeeded && items == ArrayOrEmpty(response.value) && error == None
      ensures response.Err? ==>
        status == Failed && items == old(items)
        && error == Some(Or(response.error.backendMessage, LIST_LOAD_FAILED))
    {
      Pending();
      match FetchAdminOrders(response)
      case Fulfilled(list) => ListFulfilled(list);
      case Rejected(reason) => ListRejected(reason);
    }
  }
}
