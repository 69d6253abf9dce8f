/**
 * The product create/edit dialog: four text fields, prefilled from the
 * product in edit mode, validated field by field, and sent as a payload of
 * trimmed texts and numbers read with `Number(...)`.
 */
module ProductFormModal {
  import opened Js
  import opened JsNumber
  import opened Domain

  const NAME_REQUIRED := "Le nom du produit est obligatoire."
  const DESCRIPTION_REQUIRED := "La description est obligatoire."
  const PRICE_REQUIRED := "Le prix unitaire est obligatoire."
  const PRICE_NOT_POSITIVE := "Le prix unitaire doit être supérieur à 0."
  const STOCK_REQUIRED := "La quantité en stock est obligatoire."
  const STOCK_NEGATIVE := "La quantité en stock ne peut pas être négative."
  const SAVE_FAILED := "Une erreur s'est produite lors de l'enregistrement du produit."

  datatype Mode = Create | Edit

  /** The dialog's title. */
  function Title(mode: Mode): (t: string)
    ensures t == (if mode == Edit then "Modifier le produit" else "Nouveau produit")
  {
    match mode
    case Edit => "Modifier le produit"
    case Create => "Nouveau produit"
  }

  /** `price > 0` on a number that is not NaN. */
  predicate Positive(n: Number)
  {
    match n
    case Finite(x) => x > 0.0
    case PosInf => true
    case NegInf => false
    case NaN => false
  }

  /** `!(stock < 0)` on a number that is not NaN. */
  predicate NotNegative(n: Number)
  {
    match n
    case Finite(x) => x >= 0.0
    case PosInf => true
    case NegInf => false
    case NaN => false
  }

  /** The message under the price field. */
  function PriceError(unitPrice: string): (e: Option<string>)
    ensures unitPrice == "" ==> e == Some(PRICE_REQUIRED)
    ensures unitPrice != "" ==> (e.None? <==> Positive(ParseNumber(unitPrice)))
    ensures unitPrice != "" && e.Some? ==> e.value == PRICE_NOT_POSITIVE
  {
    if unitPrice == "" then Some(PRICE_REQUIRED)
    else if !Positive(ParseNumber(unitPrice)) then Some(PRICE_NOT_POSITIVE)
    else None
  }

  /** The message under the stock field. */
  function StockError(stockQuantity: string): (e: Option<string>)
    ensures stockQuantity == "" ==> e == Some(STOCK_REQUIRED)
    ensures stockQuantity != "" ==> (e.None? <==> NotNegative(ParseNumber(stockQuantity)))
    ensures stockQuantity != "" && e.Some? ==> e.value == STOCK_NEGATIVE
  {
    if stockQuantity == "" then Some(STOCK_REQUIRED)
    else if !NotNegative(ParseNumber(stockQuantity)) then Some(STOCK_NEGATIVE)
    else None
  }

  /** A price of 0 is refused with the "greater than 0" message, while a
      stock of 0 is accepted. */
  lemma ZeroPriceRefusedZeroStockAccepted()
    ensures PriceError("0") == Some(PRICE_NOT_POSITIVE)
    ensures StockError("0") == None
  {
    DigitsAreDecimal("0");
  }

  /** A stock field holding only white space is accepted, as 0, because
      `Number` reads blank text as 0; a blank name is refused. */
  lemma BlankStockAccepted(stockQuantity: string)
    requires stockQuantity != "" && AllSpace(stockQuantity)
    ensures StockError(stockQuantity) == None
    ensures ParseNumber(stockQuantity) == Finite(0.0)
  {
    BlankIsZero(stockQuantity);
  }

  datatype Fields = Fields(name: string, description: string, unitPrice: string, stockQuantity: string)

  datatype Errors = Errors(
    name: Option<string>,
    description: Option<string>,
    unitPrice: Option<string>,
    stockQuantity: Option<string>)

  const NO_ERRORS := Errors(None, None, None, None)

  /** The messages `validate` records. */
  function ErrorsFor(f: Fields): Errors
  {
    Errors(
      if Trim(f.name) == "" then Some(NAME_REQUIRED) else None,
      if Trim(f.description) == "" then Some(DESCRIPTION_REQUIRED) else None,
      PriceError(f.unitPrice),
      StockError(f.stockQuantity))
  }

  /** When the dialog may be sent: a name and a description that are not
      blank, a positive price and a stock that is not negative. */
  predicate FieldsAccepted(f: Fields)
  {
    !AllSpace(f.name) && !AllSpace(f.description)
    && f.unitPrice != "" && Positive(ParseNumber(f.unitPrice))
    && f.stockQuantity != "" && NotNegative(ParseNumber(f.stockQuantity))
  }

  lemma NoErrorsIffAccepted(f: Fields)
    ensures ErrorsFor(f) == NO_ERRORS <==> FieldsAccepted(f)
  {
    TrimEmptyIffAllSpace(f.name);
    TrimEmptyIffAllSpace(f.description);
  }

  datatype ProductPayload = ProductPayload(name: string, description: string, unitPrice: Number, stockQuantity: Number)

  /** The payload: trimmed texts and the numbers read from the fields. */
  function PayloadOf(f: Fields): (p: ProductPayload)
    ensures p.name == Trim(f.name) && p.description == Trim(f.description)
    ensures p.unitPrice == ParseNumber(f.unitPrice) && p.stockQuantity == ParseNumber(f.stockQuantity)
  {
    ProductPayload(Trim(f.name), Trim(f.description), ParseNumber(f.unitPrice), ParseNumber(f.stockQuantity))
  }

  /** The fields the open effect fills in. */
  function PrefillFor(mode: Mode, initialProduct: Option<Product>): (f: Fields)
    ensures mode == Edit && initialProduct.Some? ==>
      var p := initialProduct.value;
      f.name == Or(p.name, "") && f.description == Or(p.description, "")
      && (p.unitPrice.Some? ==> f.unitPrice == p.unitPrice.value)
      && (p.unitPrice.None? ==> f.unitPrice == "")
      && (p.stockQuantity.Some? ==> f.stockQuantity == IntText(p.stockQuantity.value))
      && (p.stockQuantity.None? ==> f.stockQuantity == "")
    ensures !(mode == Edit && initialProduct.Some?) ==> f == Fields("", "", "", "")
  {
    if mode == Edit && initialProduct.Some? then
      var p := initialProduct.value;
      Fields(
        Or(p.name, ""),
        Or(p.description, ""),
        if p.unitPrice.Some? then p.unitPrice.value else "",
        if p.stockQuantity.Some? then IntText(p.stockQuantity.value) else "")
    else Fields("", "", "", "")
  }

  /** Opening a product in edit mode and saving it unchanged sends back the
      stock it had, and a stock that is not negative passes validation. */
  lemma PrefilledStockRoundTrip(p: Product)
    requires p.stockQuantity.Some?
    ensures ParseNumber(PrefillFor(Edit, Some(p)).stockQuantity) == Finite(p.stockQuantity.value as real)
    ensures p.stockQuantity.value >= 0 ==> StockError(PrefillFor(Edit, Some(p)).stockQuantity) == None
  {
    NumberOfIntText(p.stockQuantity.value);
  }

  class ProductForm {
    var name: string
    var description: string
    var unitPrice: string
    var stockQuantity: string
    var errors: Errors
    var globalError: Option<string>
    var isSubmitting: bool

    function FieldsNow(): Fields
      reads this
    {
      Fields(name, description, unitPrice, stockQuantity)
    }

    constructor ()
      ensures FieldsNow() == Fields("", "", "", "")
      ensures errors == NO_ERRORS && globalError == None && !isSubmitting
    {
      name, description, unitPrice, stockQuantity := "", "", "", "";
      errors, globalError, isSubmitting := NO_ERRORS, None, false;
    }

    /** The open effect: nothing happens while closed; on opening, the fields
        are prefilled (edit mode with a product) or cleared, and the messages
        and the submitting flag are reset. */
    method OnOpen(isOpen: bool, mode: Mode, initialProduct: Option<Product>)
      modifies this
      ensures !isOpen ==>
        FieldsNow() == old(FieldsNow()) && errors == old(errors)
        && globalError == old(globalError) && isSubmitting == old(isSubmitting)
      ensures isOpen ==> FieldsNow() == PrefillFor(mode, initialProduct)
      ensures isOpen ==> errors == NO_ERRORS && globalError == None && !isSubmitting
    {
      if !isOpen {
        return;
      }
      var f := PrefillFor(mode, initialProduct);
      name, description, unitPrice, stockQuantity := f.name, f.description, f.unitPrice, f.stockQuantity;
      errors := NO_ERRORS;
      globalError := None;
      isSubmitting := false;
    }

    /** A keystroke in one of the fields. */
    method SetFields(f: Fields)
      modifies this
      ensures FieldsNow() == f
      ensures errors == old(errors) && globalError == old(globalError) && isSubmitting == old(isSubmitting)
    {
      name, description, unitPrice, stockQuantity := f.name, f.description, f.unitPrice, f.stockQuantity;
    }

    /** `validate`: one message per broken rule, built field by field. */
    method Validate() returns (ok: bool)
      modifies this
      ensures errors == ErrorsFor(FieldsNow())
      ensures ok <==> FieldsAccepted(FieldsNow())
      ensures FieldsNow() == old(FieldsNow())
      ensures globalError == old(globalError) && isSubmitting == old(isSubmitting)
    {
      var f := FieldsNow();
      var next := NO_ERRORS;
      if Trim(f.name) == "" {
        next := next.(name := Some(NAME_REQUIRED));
      }
      if Trim(f.description) == "" {
        next := next.(description := Some(DESCRIPTION_REQUIRED));
      }
      if f.unitPrice == "" {
        next := next.(unitPrice := Some(PRICE_REQUIRED));
      } else if !Positive(ParseNumber(f.unitPrice)) {
        next := next.(unitPrice := Some(PRICE_NOT_POSITIVE));
      }
      if f.stockQuantity == "" {
        next := next.(stockQuantity := Some(STOCK_REQUIRED));
      } else if !NotNegative(ParseNumber(f.stockQuantity)) {
        next := next.(stockQuantity := Some(STOCK_NEGATIVE));
      }
      NoErrorsIffAccepted(f);
      errors := next;
      ok := next == NO_ERRORS;
    }

    /** `handleSubmit`, given the outcome of the parent's submit handler.
        `sent` is the payload handed to it (absent when validation fails)
        and `closed` whether the dialog asks to be closed. */
    method Submit(outcome: Outcome<()>) returns (sent: Option<ProductPayload>, closed: bool)
      modifies this
      ensures sent.Some? <==> FieldsAccepted(old(FieldsNow()))
      ensures sent.Some? ==> sent.value == PayloadOf(old(FieldsNow()))
      ensures closed <==> sent.Some? && outcome.Ok?
      ensures sent.None? || outcome.Ok? ==> globalError == None
      ensures sent.Some? && outcome.Err? ==> globalError == Some(ErrorText(outcome.error, SAVE_FAILED))
      ensures errors == ErrorsFor(old(FieldsNow()))
      ensures FieldsNow() == old(FieldsNow())
      ensures sent.None? ==> isSubmitting == old(isSubmitting)
      ensures sent.Some? ==> !isSubmitting
    {
      globalError := None;
      var ok := Validate();
      if !ok {
        return None, false;
      }
      sent := Some(PayloadOf(FieldsNow()));
      isSubmitting := true;
      match outcome {
        case Ok(_) => closed := true;
        case Err(e) =>
          closed := false;
          globalError := Some(ErrorText(e, SAVE_FAILED));
      }
      isSubmitting := false;
    }
  }
}
