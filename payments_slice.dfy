/** The payments store: the last payment recorded and its request status. */
module PaymentsSlice {
  import opened Js
  import opened Domain

  const CREATE_FAILED := "Impossible d'enregistrer le paiement."
  const REJECTED_FALLBACK := "Erreur lors de l'enregistrement du paiement."

  /** The create thunk: the created payment, or the backend's message or a
      fixed default. */
  function CreatePayment(response: Outcome<Option<Payment>>): (r: Settled<Option<Payment>>)
    ensures r.Fulfilled? <==> response.Ok?
    ensures r.Fulfilled? ==> r.payload == response.value
    ensures r.Rejected? ==> Truthy(r.reason)
    ensures r.Rejected? ==>
      r.reason.value == if Truthy(response.error.backendMessage) then response.error.backendMessage.value else CREATE_FAILED
  {
    match response
    case Ok(body) => Fulfilled(body)
    case Err(e) => Rejected(Some(Or(e.backendMessage, CREATE_FAILED)))
  }

  class PaymentsStore {
    var lastPayment: Option<Payment>
    var status: Status
    var error: Option<string>

    /** No error is held while idle or loading; a failure holds a message. */
    predicate Valid()
      reads this
    {
      ((status == Idle || status == Loading) ==> error == None)
      && (status == Failed ==> Truthy(error))
    }

    predicate IsInitial()
      reads this
    {
      lastPayment == None && status == Idle && error == None
    }

    constructor ()
      ensures Valid() && IsInitial()
    {
      lastPayment, status, error := None, Idle, None;
    }

    method ClearLastPayment()
      requires Valid()
      modifies this
      ensures Valid() && IsInitial()
    {
      lastPayment := None;
      status := Idle;
      error := None;
    }

    method Pending()
      requires Valid()
      modifies this
      ensures Valid()
      ensures status == Loading && error == None && lastPayment == old(lastPayment)
    {
      status := Loading;
      error := None;
    }

    method Fulfilled(payload: Option<Payment>)
      requires Valid()
      modifies this
      ensures Valid()
      ensures status == Succeeded && lastPayment == payload && error == old(error)
    {
      status := Succeeded;
      lastPayment := payload;
    }

    method Rejected(reason: Option<string>)
      requires Valid()
      modifies this
      ensures Valid()
      ensures status == Failed && error == Some(Or(reason, REJECTED_FALLBACK))
      ensures lastPayment == old(lastPayment)
    {
      status := Failed;
      error := Some(Or(reason, REJECTED_FALLBACK));
    }

    /** Runs the request to completion: pending, then the thunk's settlement. */
    method Create(response: Outcome<Option<Payment>>)
      requires Valid()
      modifies this
      ensures Valid()
      ensures response.Ok? ==> status == Succeeded && lastPayment == response.value && error == None
      ensures response.Err? ==>
        status == Failed && lastPayment == old(lastPayment)
        && error == Some(Or(response.error.backendMessage, CREATE_FAILED))
    {
      Pending();
      match CreatePayment(response)
      case Fulfilled(p) => Fulfilled(p);
      case Rejected(reason) => Rejected(reason);
    }
  }
}
