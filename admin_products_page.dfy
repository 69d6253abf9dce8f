/**
 * The admin product catalogue: the whole list is loaded once and cut into
 * pages of twelve on the client side; a modal creates or edits a product,
 * and the list is reloaded after a successful write.
 */
module AdminProductsPage {
  import opened Js
  import opened Domain

  const PAGE_SIZE := 12
  const LOAD_FAILED := "Impossible de charger la liste des produits admin."

  /** `Math.max(1, Math.ceil(products.length / pageSize) || 1)`: one page even
      for an empty list, otherwise just enough pages for every product. */
  function TotalPages(n: nat): (tp: nat)
    ensures tp >= 1
    ensures n == 0 ==> tp == 1
    ensures n > 0 ==> (tp - 1) * PAGE_SIZE < n <= tp * PAGE_SIZE
  {
    if n == 0 then 1 else (n + PAGE_SIZE - 1) / PAGE_SIZE
  }

  /** `Math.min(page, totalPages - 1)`. */
  function CurrentPage(page: nat, n: nat): (p: nat)
    ensures p < TotalPages(n)
    ensures page < TotalPages(n) ==> p == page
    ensures page >= TotalPages(n) ==> p == TotalPages(n) - 1
  {
    if page < TotalPages(n) - 1 then page else TotalPages(n) - 1
  }

  /** `paginatedProducts`: at most twelve products, the segment starting at
      the first product of the clamped page; never empty when there are
      products. */
  function ShownProducts(products: seq<Product>, page: nat): (shown: seq<Product>)
    ensures |shown| <= PAGE_SIZE
    ensures var start := CurrentPage(page, |products|) * PAGE_SIZE;
      start <= |products|
      && shown == products[start..if start + PAGE_SIZE <= |products| then start + PAGE_SIZE else |products|]
    ensures products != [] ==> shown != []
  {
    var start := CurrentPage(page, |products|) * PAGE_SIZE;
    Slice(products, start, start + PAGE_SIZE)
  }

  /** The list filters; only the name is kept. */
  datatype Filters = Filters(name: string)

  datatype ModalMode = Create | Edit

  /** The backend call a submission makes. */
  datatype WriteCall<V> = CreateCall(values: V) | UpdateCall(id: int, values: V)

  class ProductsPage {
    var products: seq<Product>
    var isLoading: bool
    var error: Option<string>
    var page: nat
    var filters: Filters
    var isModalOpen: bool
    var modalMode: ModalMode
    var selectedProduct: Option<Product>
    var isSubmitting: bool

    /** Between handlers: no submission is under way, and the modal is in
        create mode exactly when no product is selected. */
    predicate Valid()
      reads this
    {
      !isSubmitting && (modalMode == Create <==> selectedProduct.None?)
    }

    /** What the product list shows. */
    function Shown(): seq<Product>
      reads this
    {
      ShownProducts(products, page)
    }

    constructor ()
      ensures Valid()
      ensures products == [] && !isLoading && error == None && page == 0 && filters == Filters("")
      ensures !isModalOpen && modalMode == Create && selectedProduct == None && !isSubmitting
    {
      products, isLoading, error, page, filters := [], false, None, 0, Filters("");
      isModalOpen, modalMode, selectedProduct, isSubmitting := false, Create, None, false;
    }

    /** The loading effect; a body that is not an array gives no products. */
    method Load(response: Outcome<ListBody<Product>>)
      requires Valid()
      modifies this
      ensures Valid() && !isLoading
      ensures response.Ok? ==> products == ArrayOrEmpty(response.value) && error == None
      ensures response.Err? ==> products == old(products) && error == Some(LOAD_FAILED)
      ensures page == old(page) && filters == old(filters)
      ensures isModalOpen == old(isModalOpen) && modalMode == old(modalMode) && selectedProduct == old(selectedProduct)
    {
      isLoading := true;
      error := None;
      match response {
        case Ok(body) => products := ArrayOrEmpty(body);
        case Err(_) => error := Some(LOAD_FAILED);
      }
      isLoading := false;
    }

    /** `onPageChange={setPage}`. */
    method SetPage(p: nat)
      requires Valid()
      modifies this
      ensures Valid() && page == p
      ensures products == old(products) && filters == old(filters) && error == old(error) && isLoading == old(isLoading)
      ensures isModalOpen == old(isModalOpen) && modalMode == old(modalMode) && selectedProduct == old(selectedProduct)
    {
      page := p;
    }

    /** `handleFiltersChange`: back to the first page; the filters are only
        stored, so the list shows the first page of the same products. */
    method HandleFiltersChange(next: Filters)
      requires Valid()
      modifies this
      ensures Valid() && page == 0 && filters == next
      ensures products == old(products) && error == old(error) && isLoading == old(isLoading)
      ensures isModalOpen == old(isModalOpen) && modalMode == old(modalMode) && selectedProduct == old(selectedProduct)
      ensures Shown() == ShownProducts(old(products), 0)
    {
      page := 0;
      filters := next;
    }

    /** `handleOpenCreate`. */
    method HandleOpenCreate()
      requires Valid()
      modifies this
      ensures Valid()
      ensures isModalOpen && modalMode == Create && selectedProduct == None
      ensures products == old(products) && page == old(page) && filters == old(filters)
      ensures error == old(error) && isLoading == old(isLoading)
    {
      modalMode := Create;
      selectedProduct := None;
      isModalOpen := true;
    }

    /** `handleOpenEdit(product)`, from a click on a product of the list. */
    method HandleOpenEdit(product: Product)
      requires Valid()
      modifies this
      ensures Valid()
      ensures isModalOpen && modalMode == Edit && selectedProduct == Some(product)
      ensures products == old(products) && page == old(page) && filters == old(filters)
      ensures error == old(error) && isLoading == old(isLoading)
    {
      modalMode := Edit;
      selectedProduct := Some(product);
      isModalOpen := true;
    }

    /** The modal's `onClose`. */
    method CloseModal()
      requires Valid()
      modifies this
      ensures Valid() && !isModalOpen
      ensures modalMode == old(modalMode) && selectedProduct == old(selectedProduct)
      ensures products == old(products) && page == old(page) && filters == old(filters)
      ensures error == old(error) && isLoading == old(isLoading)
    {
      isModalOpen := false;
    }

    /** `handleSubmitProduct(values)`, given the outcome of the write and of
        the reload that follows it. `call` is the write made, `refreshed`
        whether the list was reloaded, and `thrown` whether the handler
        ends by throwing (the modal then shows the error). */
    method HandleSubmitProduct<V>(values: V, writeOutcome: Outcome<()>, refreshOutcome: Outcome<ListBody<Product>>)
      returns (call: WriteCall<V>, refreshed: bool, thrown: bool)
      requires Valid()
      modifies this
      ensures Valid()
      ensures call.UpdateCall? <==> old(modalMode) == Edit && old(selectedProduct).Some?
      ensures call.UpdateCall? <==> old(modalMode) == Edit
      ensures call.UpdateCall? ==> call == UpdateCall(old(selectedProduct).value.id, values)
      ensures call.CreateCall? ==> call == CreateCall(values)
      ensures refreshed <==> writeOutcome.Ok?
      ensures thrown <==> writeOutcome.Err? || refreshOutcome.Err?
      ensures !thrown ==> products == ArrayOrEmpty(refreshOutcome.value)
      ensures thrown ==> products == old(products)
      ensures page == old(page) && filters == old(filters) && error == old(error) && isLoading == old(isLoading)
      ensures isModalOpen == old(isModalOpen) && modalMode == old(modalMode) && selectedProduct == old(selectedProduct)
    {
      isSubmitting := true;
      if modalMode == Edit && selectedProduct.Some? {
        call := UpdateCall(selectedProduct.value.id, values);
      } else {
        call := CreateCall(values);
      }
      refreshed, thrown := false, false;
      if writeOutcome.Err? {
        thrown := true;
      } else {
        refreshed := true;
        match refreshOutcome {
          case Ok(body) => products := ArrayOrEmpty(body);
          case Err(_) => thrown := true;
        }
      }
      isSubmitting := false;
    }
  }

  /** Thanks to the page's invariant, a submission updates exactly when the
      modal was opened from a product. */
  method SubmitAfterOpenEdit(product: Product, writeOutcome: Outcome<()>, refreshOutcome: Outcome<ListBody<Product>>)
    returns (call: WriteCall<string>)
    ensures call == UpdateCall(product.id, "values")
  {
    var page := new ProductsPage();
    page.HandleOpenEdit(product);
    var refreshed, thrown;
    call, refreshed, thrown := page.HandleSubmitProduct("values", writeOutcome, refreshOutcome);
  }
}
