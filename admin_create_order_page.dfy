/**
 * The admin form that creates a multi-line order: a client, a list of
 * (product, quantity) lines edited in place, and an optional promo code of
 * the form PROMO-XXXX. The form is validated field by field before the
 * order is sent, and the outcome is reported in one message.
 */
module AdminCreateOrderPage {
  import opened Js
  import opened JsNumber
  import opened Domain

  const PROMO_PREFIX: string := "PROMO-"
  const LOAD_FAILED := "Impossible de charger les clients ou produits pour créer une commande."
  const CLIENT_REQUIRED := "Le client est obligatoire."
  const LINES_REQUIRED := "La commande doit contenir au moins une ligne."
  const PRODUCT_REQUIRED := "Produit obligatoire."
  const QUANTITY_TOO_SMALL := "Quantité minimale : 1."
  const PROMO_FORMAT := "Le code promo doit respecter le format PROMO-XXXX."
  const STOCK_REJECTED := "Commande créée mais rejetée pour stock insuffisant sur au moins un produit."
  const CREATED := "Commande créée avec succès."
  const CREATE_FAILED := "Une erreur s'est produite lors de la création de la commande."

  // ---------------------------------------------------------------------
  // The promo code

  /** One position of the pattern `^PROMO-[A-Z0-9]{4}$`. */
  datatype CharClass = Exactly(c: char) | UpperOrDigit

  predicate ClassHas(k: CharClass, c: char)
  {
    match k
    case Exactly(d) => c == d
    case UpperOrDigit => 'A' <= c <= 'Z' || '0' <= c <= '9'
  }

  /** The classes matching a fixed text, one character each. */
  function Literal(s: string): (p: seq<CharClass>)
    ensures |p| == |s| && forall i :: 0 <= i < |s| ==> p[i] == Exactly(s[i])
    decreases |s|
  {
    if s == [] then [] else [Exactly(s[0])] + Literal(s[1..])
  }

  /** `k{n}`: the class `k`, `n` times. */
  function Repeat(k: CharClass, n: nat): (p: seq<CharClass>)
    ensures |p| == n && forall i :: 0 <= i < n ==> p[i] == k
  {
    if n == 0 then [] else [k] + Repeat(k, n - 1)
  }

  /** `^PROMO-[A-Z0-9]{4}$`. */
  const PROMO_PATTERN: seq<CharClass> := Literal(PROMO_PREFIX) + Repeat(UpperOrDigit, 4)

  /** Anchored matching of a pattern made of single-character classes. */
  function MatchClasses(t: string, pattern: seq<CharClass>): bool
    decreases |pattern|
  {
    if pattern == [] then t == []
    else t != [] && ClassHas(pattern[0], t[0]) && MatchClasses(t[1..], pattern[1..])
  }

  /** What the pattern accepts: `PROMO-` and four capital letters or digits. */
  predicate PromoShape(t: string)
  {
    |t| == 10 && t[..6] == PROMO_PREFIX
    && forall i :: 6 <= i < 10 ==> 'A' <= t[i] <= 'Z' || '0' <= t[i] <= '9'
  }

  lemma {:induction false} MatchClassesPositionwise(t: string, pattern: seq<CharClass>)
    ensures MatchClasses(t, pattern)
      <==> |t| == |pattern| && forall i :: 0 <= i < |t| ==> ClassHas(pattern[i], t[i])
    decreases |pattern|
  {
    if pattern != [] && t != [] {
      MatchClassesPositionwise(t[1..], pattern[1..]);
      if |t| == |pattern| && forall i :: 0 <= i < |t| ==> ClassHas(pattern[i], t[i]) {
        forall i | 0 <= i < |t| - 1 ensures ClassHas(pattern[1..][i], t[1..][i]) {
          assert ClassHas(pattern[i + 1], t[i + 1]);
        }
      }
      if MatchClasses(t, pattern) {
        forall i | 0 <= i < |t| ensures ClassHas(pattern[i], t[i]) {
          if i > 0 {
            assert ClassHas(pattern[1..][i - 1], t[1..][i - 1]);
          }
        }
      }
    }
  }

  /** A text starts with `p` exactly when it agrees with `p` position by
      position. */
  lemma StartsWithPositionwise(t: string, p: string)
    requires |t| >= |p|
    ensures t[..|p|] == p <==> forall i :: 0 <= i < |p| ==> t[i] == p[i]
  {
    if forall i :: 0 <= i < |p| ==> t[i] == p[i] {
      assert t[..|p|] == p;
    }
  }

  /** The regular expression accepts exactly the PROMO-XXXX shape. */
  lemma PatternIsPromoShape(t: string)
    ensures MatchClasses(t, PROMO_PATTERN) <==> PromoShape(t)
  {
    MatchClassesPositionwise(t, PROMO_PATTERN);
    if |t| == 10 {
      StartsWithPositionwise(t, PROMO_PREFIX);
      forall i | 0 <= i < 10
        ensures ClassHas(PROMO_PATTERN[i], t[i])
          <==> if i < 6 then t[i] == PROMO_PREFIX[i] else 'A' <= t[i] <= 'Z' || '0' <= t[i] <= '9'
      {
        if i < 6 {
          assert PROMO_PATTERN[i] == Exactly(PROMO_PREFIX[i]);
        } else {
          assert PROMO_PATTERN[i] == UpperOrDigit;
        }
      }
    }
  }

  /** The empty code, or a code whose trimmed text has the PROMO-XXXX shape. */
  predicate PromoAccepted(code: string)
  {
    code == "" || PromoShape(Trim(code))
  }

  /** `isValidPromo`, matching the trimmed code against the pattern. */
  function IsValidPromo(code: string): (b: bool)
    ensures b <==> PromoAccepted(code)
  {
    PatternIsPromoShape(Trim(code));
    code == "" || MatchClasses(Trim(code), PROMO_PATTERN)
  }

  /** A code made only of white space is not valid: it is not empty, and it
      trims to the empty text, which the pattern does not accept. */
  lemma BlankPromoIsInvalid(code: string)
    requires code != "" && AllSpace(code)
    ensures !IsValidPromo(code)
  {
    TrimEmptyIffAllSpace(code);
  }

  // ---------------------------------------------------------------------
  // Order lines

  /** A line's quantity: the number 1 of a new line, or the text typed in. */
  datatype Quantity = InitialOne | Typed(text: string)

  /** A line: the selected product's id as text ('' for none) and a quantity. */
  datatype Line = Line(productId: string, quantity: Quantity)

  const NEW_LINE := Line("", InitialOne)

  datatype LineField = ProductIdField | QuantityField

  /** `Number(item.quantity)`. */
  function QuantityNumber(q: Quantity): Number
  {
    match q
    case InitialOne => Finite(1.0)
    case Typed(text) => ParseNumber(text)
  }

  /** `!(!qty || qty < 1)`: the quantity is a number, not 0, and not below 1. */
  predicate QuantityAccepted(n: Number)
  {
    match n
    case Finite(x) => x >= 1.0
    case PosInf => true
    case NegInf => false
    case NaN => false
  }

  /** `value.replace(/[^0-9]/g, '')`. */
  function DigitsOnly(s: string): (r: string)
    ensures AllDigits(r) && |r| <= |s|
    ensures AllDigits(s) <==> r == s
    ensures |s| == 1 && IsDigit(s[0]) ==> r == s
    ensures |s| == 1 && !IsDigit(s[0]) ==> r == []
    decreases |s|
  {
    if s == [] then []
    else if IsDigit(s[0]) then [s[0]] + DigitsOnly(s[1..])
    else DigitsOnly(s[1..])
  }

  /** The filter works character by character: the digits of two texts are
      the digits of the first followed by those of the second. With the
      one-character cases above, this says the result is exactly the digits
      of the input, each kept once and in order. */
  lemma {:induction false} DigitsOnlyAppend(s: string, t: string)
    ensures DigitsOnly(s + t) == DigitsOnly(s) + DigitsOnly(t)
    decreases |s|
  {
    if s != [] {
      assert (s + t)[0] == s[0];
      assert (s + t)[1..] == s[1..] + t;
      DigitsOnlyAppend(s[1..], t);
    } else {
      assert s + t == t;
    }
  }

  /** Typing one more character appends it exactly when it is a digit. */
  lemma DigitsOnlyTyping(s: string, c: char)
    ensures DigitsOnly(s + [c]) == DigitsOnly(s) + (if IsDigit(c) then [c] else [])
  {
    DigitsOnlyAppend(s, [c]);
  }

  /** For digit text, which is all the quantity field can hold, the quantity
      is accepted exactly when its value is at least 1. */
  lemma TypedQuantityAccepted(text: string)
    requires AllDigits(text)
    ensures QuantityAccepted(QuantityNumber(Typed(text))) <==> text != "" && DigitsValue(text) >= 1
  {
    if text == "" {
      BlankIsZero(text);
    } else {
      DigitsAreDecimal(text);
    }
  }

  /** What the quantity inputs can hold: the initial 1, or digit text. */
  predicate LinesWellFormed(items: seq<Line>)
  {
    forall j :: 0 <= j < |items| && items[j].quantity.Typed? ==> AllDigits(items[j].quantity.text)
  }

  /** The per-line messages. */
  datatype LineErrors = LineErrors(productId: Option<string>, quantity: Option<string>)

  function LineErrorsOf(line: Line): (e: LineErrors)
    ensures e.productId.Some? <==> line.productId == ""
    ensures e.quantity.Some? <==> !QuantityAccepted(QuantityNumber(line.quantity))
    ensures e.productId.Some? ==> e.productId.value == PRODUCT_REQUIRED
    ensures e.quantity.Some? ==> e.quantity.value == QUANTITY_TOO_SMALL
  {
    LineErrors(
      if line.productId == "" then Some(PRODUCT_REQUIRED) else None,
      if QuantityAccepted(QuantityNumber(line.quantity)) then None else Some(QUANTITY_TOO_SMALL))
  }

  predicate LineValid(line: Line)
  {
    line.productId != "" && QuantityAccepted(QuantityNumber(line.quantity))
  }

  /** The messages of the whole form. */
  datatype FormErrors = FormErrors(
    clientId: Option<string>,
    items: Option<string>,
    itemErrors: Option<seq<LineErrors>>,
    promoCode: Option<string>)

  const NO_ERRORS := FormErrors(None, None, None, None)

  /** When the form may be sent: a client, at least one line, every line
      with a product and a quantity of at least 1, and an empty or valid
      promo code. */
  predicate OrderFormValid(clientId: string, items: seq<Line>, promoCode: string)
  {
    clientId != "" && items != []
    && (forall j :: 0 <= j < |items| ==> LineValid(items[j]))
    && PromoAccepted(promoCode)
  }

  /** A promo code of only white space keeps the form from being sent. */
  lemma BlankPromoBlocksOrder(clientId: string, items: seq<Line>, promoCode: string)
    requires promoCode != "" && AllSpace(promoCode)
    ensures !OrderFormValid(clientId, items, promoCode)
  {
    BlankPromoIsInvalid(promoCode);
  }

  /** One entry of messages per line. */
  function LinesErrors(items: seq<Line>): (es: seq<LineErrors>)
    ensures |es| == |items| && forall j :: 0 <= j < |items| ==> es[j] == LineErrorsOf(items[j])
  {
    seq(|items|, j requires 0 <= j < |items| => LineErrorsOf(items[j]))
  }

  /** A line's entry holds a message. */
  predicate HasMessage(e: LineErrors)
  {
    e.productId.Some? || e.quantity.Some?
  }

  /** A line is wrong exactly when its entry holds a message, so some line
      is wrong exactly when some entry holds one. */
  lemma WrongLineIffMessage(items: seq<Line>, lineErrors: seq<LineErrors>)
    requires |lineErrors| == |items|
    requires forall j :: 0 <= j < |items| ==> lineErrors[j] == LineErrorsOf(items[j])
    ensures (exists j :: 0 <= j < |items| && HasMessage(lineErrors[j]))
      <==> (exists j :: 0 <= j < |items| && !LineValid(items[j]))
  {
    forall j | 0 <= j < |items|
      ensures HasMessage(lineErrors[j]) <==> !LineValid(items[j])
    {
      var e := LineErrorsOf(items[j]);
    }
  }

  /** The messages `validate` records for a form. */
  function ErrorsFor(clientId: string, items: seq<Line>, promoCode: string): FormErrors
  {
    FormErrors(
      if clientId == "" then Some(CLIENT_REQUIRED) else None,
      if items == [] then Some(LINES_REQUIRED) else None,
      if exists j :: 0 <= j < |items| && !LineValid(items[j])
      then Some(LinesErrors(items))
      else None,
      if promoCode != "" && !IsValidPromo(promoCode) then Some(PROMO_FORMAT) else None)
  }

  /** The messages put together from the per-line scan are those of
      `ErrorsFor`, and there are none exactly when the form may be sent. */
  lemma AssembledErrors(clientId: string, items: seq<Line>, promoCode: string, lineErrors: seq<LineErrors>, someLineWrong: bool)
    requires |lineErrors| == |items|
    requires forall j :: 0 <= j < |items| ==> lineErrors[j] == LineErrorsOf(items[j])
    requires someLineWrong <==> exists j :: 0 <= j < |lineErrors| && HasMessage(lineErrors[j])
    ensures var e := FormErrors(
        if clientId == "" then Some(CLIENT_REQUIRED) else None,
        if items == [] then Some(LINES_REQUIRED) else None,
        if someLineWrong then Some(lineErrors) else None,
        if promoCode != "" && !IsValidPromo(promoCode) then Some(PROMO_FORMAT) else None);
      e == ErrorsFor(clientId, items, promoCode)
      && (e == NO_ERRORS <==> OrderFormValid(clientId, items, promoCode))
  {
    WrongLineIffMessage(items, lineErrors);
    assert lineErrors == LinesErrors(items);
    ErrorsForRules(clientId, items, promoCode);
  }

  /** Each message is there exactly when its rule is broken, one entry per
      line when some line is wrong, and no message at all exactly when the
      form may be sent. */
  lemma ErrorsForRules(clientId: string, items: seq<Line>, promoCode: string)
    ensures var e := ErrorsFor(clientId, items, promoCode);
      (e.clientId.Some? <==> clientId == "")
      && (e.items.Some? <==> items == [])
      && (e.itemErrors.Some? <==> exists j :: 0 <= j < |items| && !LineValid(items[j]))
      && (e.itemErrors.Some? ==>
            |e.itemErrors.value| == |items|
            && forall j :: 0 <= j < |items| ==> e.itemErrors.value[j] == LineErrorsOf(items[j]))
      && (e.promoCode.Some? <==> !PromoAccepted(promoCode))
      && (e == NO_ERRORS <==> OrderFormValid(clientId, items, promoCode))
  {
  }

  // ---------------------------------------------------------------------
  // The payload

  datatype PayloadLine = PayloadLine(productId: Number, quantity: Number)
  datatype Payload = Payload(clientId: Number, promoCode: Option<string>, items: seq<PayloadLine>)

  /** `{ productId: Number(item.productId), quantity: Number(item.quantity) }`. */
  function PayloadLineOf(line: Line): PayloadLine
  {
    PayloadLine(ParseNumber(line.productId), QuantityNumber(line.quantity))
  }

  /** `promoCode.trim() || null`. */
  function PromoOrNull(promoCode: string): (p: Option<string>)
    ensures p.None? <==> Trim(promoCode) == ""
    ensures p.Some? ==> p.value == Trim(promoCode)
  {
    var t := Trim(promoCode);
    if t == "" then None else Some(t)
  }

  /** The request body: numbers read from the fields, one line per form line
      in the same order, and the trimmed promo code or null. */
  function BuildPayload(clientId: string, items: seq<Line>, promoCode: string): (p: Payload)
    ensures p.clientId == ParseNumber(clientId)
    ensures p.promoCode == PromoOrNull(promoCode)
    ensures |p.items| == |items|
    ensures forall j :: 0 <= j < |items| ==> p.items[j] == PayloadLineOf(items[j])
  {
    Payload(ParseNumber(clientId), PromoOrNull(promoCode), seq(|items|, j requires 0 <= j < |items| => PayloadLineOf(items[j])))
  }

  /** The message once the order is created: the backend may reject it for
      lack of stock. */
  function CreatedMessage(order: Order): (m: string)
    ensures m == STOCK_REJECTED <==> order.status == Some("REJECTED")
    ensures m == CREATED <==> order.status != Some("REJECTED")
  {
    if order.status == Some("REJECTED") then STOCK_REJECTED else CREATED
  }

  // ---------------------------------------------------------------------
  // The page

  class CreateOrderForm {
    var clients: seq<Client>
    var products: seq<Product>
    var isLoading: bool
    var error: Option<string>
    var clientId: string
    var promoCode: string
    var items: seq<Line>
    var formErrors: FormErrors
    var globalMessage: Option<string>
    var isSubmitting: bool

    /** Every typed quantity is digit text, and no submission is under way. */
    predicate Valid()
      reads this
    {
      !isSubmitting
      && LinesWellFormed(items)
    }

    constructor ()
      ensures Valid()
      ensures clients == [] && products == [] && !isLoading && error == None
      ensures clientId == "" && promoCode == "" && items == [NEW_LINE]
      ensures formErrors == NO_ERRORS && globalMessage == None && !isSubmitting
    {
      clients, products, isLoading, error := [], [], false, None;
      clientId, promoCode, items := "", "", [NEW_LINE];
      formErrors, globalMessage, isSubmitting := NO_ERRORS, None, false;
    }

    /** The loading effect, given the outcomes of the two joined requests. */
    method Load(clientsResponse: Outcome<ListBody<Client>>, productsResponse: Outcome<ListBody<Product>>)
      requires Valid()
      modifies this
      ensures Valid() && !isLoading
      ensures clientsResponse.Ok? && productsResponse.Ok? ==>
        error == None && clients == ArrayOrEmpty(clientsResponse.value) && products == ArrayOrEmpty(productsResponse.value)
      ensures clientsResponse.Err? || productsResponse.Err? ==>
        error == Some(LOAD_FAILED) && clients == old(clients) && products == old(products)
      ensures clientId == old(clientId) && promoCode == old(promoCode) && items == old(items)
      ensures formErrors == old(formErrors) && globalMessage == old(globalMessage)
    {
      isLoading := true;
      error := None;
      if clientsResponse.Err? || productsResponse.Err? {
        error := Some(LOAD_FAILED);
      } else {
        clients := ArrayOrEmpty(clientsResponse.value);
        products := ArrayOrEmpty(productsResponse.value);
      }
      isLoading := false;
    }

    /** The client select. */
    method SetClientId(value: string)
      requires Valid()
      modifies this
      ensures Valid() && clientId == value
      ensures promoCode == old(promoCode) && items == old(items) && formErrors == old(formErrors)
      ensures globalMessage == old(globalMessage) && clients == old(clients) && products == old(products)
      ensures isLoading == old(isLoading) && error == old(error)
    {
      clientId := value;
    }

    /** The promo input stores what is typed, upper-cased. */
    method SetPromoCode(value: string)
      requires Valid()
      modifies this
      ensures Valid() && promoCode == Upper(value)
      ensures clientId == old(clientId) && items == old(items) && formErrors == old(formErrors)
      ensures globalMessage == old(globalMessage) && clients == old(clients) && products == old(products)
      ensures isLoading == old(isLoading) && error == old(error)
    {
      promoCode := Upper(value);
    }

    /** `handleAddItem`: a new empty line at the end. */
    method AddItem()
      requires Valid()
      modifies this
      ensures Valid()
      ensures items == old(items) + [NEW_LINE]
      ensures clientId == old(clientId) && promoCode == old(promoCode) && formErrors == old(formErrors)
      ensures globalMessage == old(globalMessage) && clients == old(clients) && products == old(products)
      ensures isLoading == old(isLoading) && error == old(error)
    {
      items := items + [NEW_LINE];
    }

    /** `handleRemoveItem(index)`: exactly the line at `index` goes, the
        others keep their order; an index past the end changes nothing. */
    method RemoveItem(index: int)
      requires Valid()
      modifies this
      ensures Valid()
      ensures 0 <= index < |old(items)| ==>
        |items| == |old(items)| - 1
        && (forall j :: 0 <= j < index ==> items[j] == old(items)[j])
        && (forall j :: index <= j < |items| ==> items[j] == old(items)[j + 1])
      ensures !(0 <= index < |old(items)|) ==> items == old(items)
      ensures clientId == old(clientId) && promoCode == old(promoCode) && formErrors == old(formErrors)
      ensures globalMessage == old(globalMessage) && clients == old(clients) && products == old(products)
      ensures isLoading == old(isLoading) && error == old(error)
    {
      if 0 <= index < |items| {
        items := items[..index] + items[index + 1..];
      }
    }

    /** `handleItemChange(index, field, value)`: only line `index` changes; a
        quantity keeps only the digits of what is typed. */
    method ItemChange(index: int, field: LineField, value: string)
      requires Valid()
      modifies this
      ensures Valid()
      ensures |items| == |old(items)|
      ensures forall j :: 0 <= j < |items| && j != index ==> items[j] == old(items)[j]
      ensures 0 <= index < |items| && field == ProductIdField ==>
        items[index] == old(items)[index].(productId := value)
      ensures 0 <= index < |items| && field == QuantityField ==>
        items[index] == old(items)[index].(quantity := Typed(DigitsOnly(value)))
      ensures clientId == old(clientId) && promoCode == old(promoCode) && formErrors == old(formErrors)
      ensures globalMessage == old(globalMessage) && clients == old(clients) && products == old(products)
      ensures isLoading == old(isLoading) && error == old(error)
    {
      if 0 <= index < |items| {
        var line := items[index];
        var changed := match field
          case ProductIdField => line.(productId := value)
          case QuantityField => line.(quantity := Typed(DigitsOnly(value)));
        items := items[index := changed];
      }
    }

    /** `validate`: fills in the messages field by field and says whether
        the form may be sent. */
    method Validate() returns (ok: bool)
      requires Valid()
      modifies this
      ensures Valid()
      ensures formErrors == ErrorsFor(clientId, items, promoCode)
      ensures ok <==> OrderFormValid(clientId, items, promoCode)
      ensures clientId == old(clientId) && promoCode == old(promoCode) && items == old(items)
      ensures globalMessage == old(globalMessage) && clients == old(clients) && products == old(products)
      ensures isLoading == old(isLoading) && error == old(error)
    {
      var clientError := if clientId == "" then Some(CLIENT_REQUIRED) else None;
      var itemsError := if items == [] then Some(LINES_REQUIRED) else None;
      var lineErrors := ArrayMap(items, LineErrorsOf);
      var someLineWrong := ArraySome(lineErrors, HasMessage);
      var itemErrors := if someLineWrong then Some(lineErrors) else None;
      var promoError := if promoCode != "" && !IsValidPromo(promoCode) then Some(PROMO_FORMAT) else None;
      var errors := FormErrors(clientError, itemsError, itemErrors, promoError);
      AssembledErrors(clientId, items, promoCode, lineErrors, someLineWrong);
      formErrors := errors;
      ok := errors == NO_ERRORS;
    }

    /** `handleSubmit`, given the outcome of the create request. `sent` is
        the request body, absent when validation stops the submission. */
    method Submit(createOutcome: Outcome<Order>) returns (sent: Option<Payload>)
      requires Valid()
      modifies this
      ensures Valid()
      ensures formErrors == ErrorsFor(clientId, items, promoCode)
      ensures sent.Some? <==> OrderFormValid(clientId, items, promoCode)
      ensures sent.Some? ==> sent.value == BuildPayload(clientId, items, promoCode)
      ensures sent.None? ==> globalMessage == None
      ensures sent.Some? && createOutcome.Ok? ==> globalMessage == Some(CreatedMessage(createOutcome.value))
      ensures sent.Some? && createOutcome.Err? ==> globalMessage == Some(ErrorText(createOutcome.error, CREATE_FAILED))
      ensures clientId == old(clientId) && promoCode == old(promoCode) && items == old(items)
      ensures clients == old(clients) && products == old(products)
      ensures isLoading == old(isLoading) && error == old(error)
    {
      globalMessage := None;
      var ok := Validate();
      if !ok {
        return None;
      }
      sent := Some(BuildPayload(clientId, items, promoCode));
      isSubmitting := true;
      var message := match createOutcome
        case Ok(order) => CreatedMessage(order)
        case Err(e) => ErrorText(e, CREATE_FAILED);
      globalMessage, isSubmitting := Some(message), false;
    }
  }
}
