/**
 * The backend's records as the views read them. Only the fields some
 * decision of the front end looks at are kept; amounts that are only
 * formatted for display are left out, except the discount amount, whose
 * sign decides how it is shown.
 */
module Domain {
  import opened Js

  datatype OrderLine = OrderLine(productId: int, productName: Option<string>, quantity: int)

  datatype Order = Order(
    id: int,
    clientId: int,
    status: Option<string>,
    items: Option<seq<OrderLine>>,
    discountAmount: Option<real>,
    promoCode: Option<string>)

  datatype Client = Client(
    id: int,
    name: Option<string>,
    email: Option<string>,
    phone: Option<string>,
    address: Option<string>,
    tier: Option<string>,
    totalOrders: Option<int>)

  /** A product; its unit price is kept as the text `String(unitPrice)`
      gives, since the views only display it or copy it into a form. */
  datatype Product = Product(
    id: int,
    name: Option<string>,
    description: Option<string>,
    unitPrice: Option<string>,
    stockQuantity: Option<int>)

  datatype Payment = Payment(id: int, orderId: int)

  /** `k` is the position of the first client whose id is `id`. */
  predicate FirstClientWithId(clients: seq<Client>, id: int, k: int)
  {
    0 <= k < |clients| && clients[k].id == id && forall j :: 0 <= j < k ==> clients[j].id != id
  }

  /** `clients.find((c) => c.id === id)`, as the index of the first client
      with that id. */
  function FindClient(clients: seq<Client>, id: int): (r: Option<nat>)
    ensures r.Some? ==> r.value < |clients| && clients[r.value].id == id
    ensures r.Some? ==> forall j :: 0 <= j < r.value ==> clients[j].id != id
    ensures r.None? <==> forall j :: 0 <= j < |clients| ==> clients[j].id != id
    ensures forall k :: FirstClientWithId(clients, id, k) <==> r == Some(k)
  {
    Find(clients, (c: Client) => c.id == id)
  }
}
