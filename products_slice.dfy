/** The admin products store: the product list and its loading status. */
module ProductsSlice {
  import opened Js
  import opened Domain

  const LOAD_FAILED := "Impossible de charger la liste des produits admin."
  const REJECTED_FALLBACK := "Erreur lors du chargement des produits."

  /** The list thunk: a body that is not an array becomes the empty list; a
      failure is rejected with the backend's message or a fixed default. */
  function FetchAdminProducts(response: Outcome<ListBody<Product>>): (r: Settled<seq<Product>>)
    ensures r.Fulfilled? <==> response.Ok?
    ensures r.Fulfilled? ==> r.payload == ArrayOrEmpty(response.value)
    ensures r.Rejected? ==> Truthy(r.reason)
    ensures r.Rejected? ==>
      r.reason.value == if Truthy(response.error.backendMessage) then response.error.backendMessage.value else LOAD_FAILED
  {
    match response
    case Ok(body) => Fulfilled(ArrayOrEmpty(body))
    case Err(e) => Rejected(Some(Or(e.backendMessage, LOAD_FAILED)))
  }

  class ProductsStore {
    var items: seq<Product>
    var status: Status
    var error: Option<string>

    /** No error is held while idle or loading; a failure holds a message. */
    predicate Valid()
      reads this
    {
      ((status == Idle || status == Loading) ==> error == None)
      && (status == Failed ==> Truthy(error))
    }

    predicate IsInitial()
      reads this
    {
      items == [] && status == Idle && error == None
    }

    constructor ()
      ensures Valid() && IsInitial()
    {
      items, status, error := [], Idle, None;
    }

    method ClearProducts()
      requires Valid()
      modifies this
      ensures Valid() && IsInitial()
    {
      items := [];
      status := Idle;
      error := None;
    }

    method Pending()
      requires Valid()
      modifies this
      ensures Valid()
      ensures status == Loading && error == None && items == old(items)
    {
      status := Loading;
      error := None;
    }

    /** The fulfilled case does not touch `error`. */
    method Fulfilled(payload: seq<Product>)
      requires Valid()
      modifies this
      ensures Valid()
      ensures status == Succeeded && items == payload && error == old(error)
    {
      status := Succeeded;
      items := payload;
    }

    method Rejected(reason: Option<string>)
      requires Valid()
      modifies this
      ensures Valid()
      ensures status == Failed && error == Some(Or(reason, REJECTED_FALLBACK)) && items == old(items)
    {
      status := Failed;
      error := Some(Or(reason, REJECTED_FALLBACK));
    }

    /** Runs the request to completion: pending, then the thunk's settlement. */
    method Load(response: Outcome<ListBody<Product>>)
      requires Valid()
      modifies this
      ensures Valid()
      ensures response.Ok? ==> status == Succeeded && items == ArrayOrEmpty(response.value) && error == None
      ensures response.Err? ==>
        status == Failed && items == old(items)
        && error == Some(Or(response.error.backendMessage, LOAD_FAILED))
    {
      Pending();
      match FetchAdminProducts(response)
      case Fulfilled(list) => Fulfilled(list);
      case Rejected(reason) => Rejected(reason);
    }
  }
}
