/** The checkout page controller: the form state the shopper edits (every
    field passes through its input mask), the order built on submit, and
    what the page does with the endpoint's answer. The catalog, the
    product-line table and the pricing rule are fixed when the page is
    created; the request to the endpoint is a function parameter from the
    body sent to what came back. */
module CheckoutPage {
  import opened Common
  import opened JsString
  import opened InputMasks
  import opened Pricing
  import Helcim
  import CheckoutRoute

  /** The names of the form's inputs, all present from the start. */
  const FormKeys: set<string> := {
    "fullName", "email", "phone", "address", "city", "state", "zip", "country",
    "cardNumber", "cardExpiry", "cardCVV", "cardHolderName" }

  const InitialForm: map<string, string> := map[
    "fullName" := "", "email" := "", "phone" := "", "address" := "", "city" := "",
    "state" := "", "zip" := "", "country" := "US",
    "cardNumber" := "", "cardExpiry" := "", "cardCVV" := "", "cardHolderName" := ""]

  const PaymentFailedFallback := "Payment failed. Please check your card details and try again."
  const TryAgain := "An error occurred. Please try again."
  const SuccessPath := "/checkout/success?orderId="

  /** What came back from the endpoint: a parsed JSON body, or an exception
      from the fetch or from parsing the reply. */
  datatype ApiOutcome = Threw | Answered(result: CheckoutRoute.ResponseBody)

  /** Each card field is a value its own mask leaves unchanged (the other
      fields have no mask). The masks are idempotent, so these are exactly
      the values the masks can produce from something typed. */
  predicate Masked(form: map<string, string>) {
    && "cardNumber" in form && CardMask(form["cardNumber"]) == form["cardNumber"]
    && "cardExpiry" in form && ExpiryMask(form["cardExpiry"]) == form["cardExpiry"]
    && "cardCVV" in form && CvvMask(form["cardCVV"]) == form["cardCVV"]
  }

  /** The form starts with every input present and the card fields empty,
      which every mask leaves empty. */
  lemma InitialFormMasked(form: map<string, string>)
    requires form == InitialForm
    ensures FormKeys <= form.Keys && Masked(form)
  {
    MasksKeepEmpty();
    assert CardMask([]) == [] && ExpiryMask([]) == [] && CvvMask([]) == [];
    assert InitialForm["cardNumber"] == [] && InitialForm["cardExpiry"] == [] && InitialForm["cardCVV"] == [];
  }

  /** Storing an edited input through its mask keeps every card field an
      image of its own mask. */
  lemma MaskedAfterChange(form: map<string, string>, name: string, value: string)
    requires FormKeys <= form.Keys && Masked(form)
    ensures FormKeys <= form[name := Mask(name, value)].Keys
    ensures Masked(form[name := Mask(name, value)])
  {
    var m := Mask(name, value);
    if name == "cardNumber" {
      assert m == CardMask(value);
      CardMaskIdempotent(value);
      UpdateKeepsOther(form, name, m, "cardExpiry");
      UpdateKeepsOther(form, name, m, "cardCVV");
    } else if name == "cardExpiry" {
      assert m == ExpiryMask(value);
      ExpiryMaskIdempotent(value);
      UpdateKeepsOther(form, name, m, "cardNumber");
      UpdateKeepsOther(form, name, m, "cardCVV");
    } else if name == "cardCVV" {
      assert m == CvvMask(value);
      CvvMaskIdempotent(value);
      UpdateKeepsOther(form, name, m, "cardNumber");
      UpdateKeepsOther(form, name, m, "cardExpiry");
    } else {
      UpdateKeepsOther(form, name, m, "cardNumber");
      UpdateKeepsOther(form, name, m, "cardExpiry");
      UpdateKeepsOther(form, name, m, "cardCVV");
    }
  }

  /** Setting one input leaves every other input as it was. */
  lemma UpdateKeepsOther(form: map<string, string>, name: string, value: string, key: string)
    requires key in form && key != name
    ensures key in form[name := value] && form[name := value][key] == form[key]
  {
  }

  /** `Math.round`: the nearest integer, halves rounded up. */
  function RoundHalfUp(x: real): (r: int)
    ensures r as real - 0.5 <= x < r as real + 0.5
  {
    (x + 0.5).Floor
  }

  /** The success page the shopper is sent to; an absent transaction id
      prints as "undefined" in the template literal. */
  function SuccessUrl(transactionId: Option<string>): (r: string)
    ensures |r| >= |SuccessPath| && r[..|SuccessPath|] == SuccessPath
    ensures transactionId.Some? ==> r[|SuccessPath|..] == transactionId.value
    ensures transactionId.None? ==> r[|SuccessPath|..] == "undefined"
  {
    SuccessPath + (if transactionId.Some? then transactionId.value else "undefined")
  }

  /** The line items of the cart for the selected product line: the cart
      entries with a catalog record, each priced from the selected line's
      wholesale price. */
  function CartLineItems(cart: seq<CartItem>, line: ProductLine, monuments: seq<Monument>,
                         lines: seq<LineRecord>, msrp: (real, real) -> real): (r: seq<LineItem>)
    ensures |r| <= |cart|
    ensures forall k :: 0 <= k < |r| ==> PricedFrom(r[k], monuments, WholesalePrice(lines, line), msrp)
    ensures forall it :: it in SourceItems(r) <==> it in cart && HasEntry(monuments, it.id)
  {
    LineItemsKeepCatalogued(cart, monuments, WholesalePrice(lines, line), msrp);
    LineItems(cart, monuments, WholesalePrice(lines, line), msrp)
  }

  /** The order number `handleSubmit` sends: "ORDER-" and the clock reading
      in milliseconds, in decimal. */
  function InvoiceNumber(now: nat): (r: string)
    ensures |r| > 6 && r[..6] == "ORDER-" && AllDigits(r[6..]) && DecimalValue(r[6..]) == now
    ensures r[6] == '0' ==> now == 0 && r == "ORDER-0"
  {
    var r := "ORDER-" + DecimalString(now);
    assert r[6..] == DecimalString(now);
    r
  }

  /** Two different clock readings never give the same order number. */
  lemma InvoiceNumberIdentifiesClock(now1: nat, now2: nat)
    ensures InvoiceNumber(now1) == InvoiceNumber(now2) <==> now1 == now2
  {
    if InvoiceNumber(now1) == InvoiceNumber(now2) {
      assert InvoiceNumber(now1)[6..] == InvoiceNumber(now2)[6..];
    }
  }

  /** The body `handleSubmit` posts, `now` being the clock reading: the
      amount in cents from the total, the card fields cleaned, the billing
      block copied from the form, and the cart's line items. */
  function BuildRequest(form: map<string, string>, cart: seq<CartItem>, line: ProductLine,
                        monuments: seq<Monument>, lines: seq<LineRecord>, msrp: (real, real) -> real,
                        now: nat): (b: CheckoutRoute.CheckoutBody)
    requires FormKeys <= form.Keys
    ensures b.amount.Some? && b.cardData.Some? && b.billing.Some?
    ensures b.currency == Some("USD") && b.customerCode == Some(form["email"])
    ensures var total := OrderTotals(CartLineItems(cart, line, monuments, lines, msrp)).total;
      total * 100.0 - 0.5 < b.amount.value as real <= total * 100.0 + 0.5
    ensures b.invoiceNumber == Some(InvoiceNumber(now))
    ensures b.comments == Some(DecimalString(|cart|) + " item(s) - " + LineId(line) + " line")
    ensures var card := b.cardData.value;
      && card.cardNumber == RemoveSpaces(form["cardNumber"])
      && card.cardExpiry == KeepDigits(form["cardExpiry"])
      && card.cardCVV == form["cardCVV"]
      && card.cardHolderName == (if form["cardHolderName"] != "" then form["cardHolderName"] else form["fullName"])
      && card.cardHolderAddress == Some(form["address"])
      && card.cardHolderPostalCode == Some(form["zip"])
    ensures b.billing == Some(CheckoutRoute.Billing(
              form["fullName"], form["email"], form["phone"], form["address"],
              form["city"], form["state"], form["zip"], form["country"]))
    ensures b.items == Some(CartLineItems(cart, line, monuments, lines, msrp))
    ensures b.productLine == Some(LineId(line))
  {
    var lineItems := CartLineItems(cart, line, monuments, lines, msrp);
    var total := OrderTotals(lineItems).total;
    var card := Helcim.CardData(
      CleanCardNumber(form["cardNumber"]),
      CleanExpiry(form["cardExpiry"]),
      form["cardCVV"],
      OrElse(Some(form["cardHolderName"]), form["fullName"]),
      Some(form["address"]),
      Some(form["zip"]));
    var billing := CheckoutRoute.Billing(
      form["fullName"], form["email"], form["phone"], form["address"],
      form["city"], form["state"], form["zip"], form["country"]);
    CheckoutRoute.CheckoutBody(
      Some(RoundHalfUp(total * 100.0)),
      Some("USD"),
      Some(form["email"]),
      Some(InvoiceNumber(now)),
      Some(DecimalString(|cart|) + " item(s) - " + LineId(line) + " line"),
      Some(card),
      Some(billing),
      Some(lineItems),
      Some(LineId(line)))
  }

  /** What the shopper sees of the card fields goes out unchanged apart from
      the cleaning: the number keeps every non-whitespace character, the
      expiry only its digits, and an empty holder name falls back to the
      full name. */
  lemma SubmittedCardFields(form: map<string, string>, cart: seq<CartItem>, line: ProductLine,
                            monuments: seq<Monument>, lines: seq<LineRecord>,
                            msrp: (real, real) -> real, now: nat)
    requires FormKeys <= form.Keys
    ensures var card := BuildRequest(form, cart, line, monuments, lines, msrp, now).cardData.value;
      && NoSpace(card.cardNumber) && AllDigits(card.cardExpiry)
      && RemoveSpaces(card.cardNumber) == RemoveSpaces(form["cardNumber"])
      && (card.cardHolderName == "" <==> form["cardHolderName"] == "" && form["fullName"] == "")
  {
    var card := BuildRequest(form, cart, line, monuments, lines, msrp, now).cardData.value;
    assert RemoveSpaces(card.cardNumber) == card.cardNumber;
  }

  class Checkout {
    const monuments: seq<Monument>
    const lines: seq<LineRecord>
    const msrp: (real, real) -> real

    /** The cart's items, shared with the cart context. */
    var cart: seq<CartItem>
    var formData: map<string, string>
    var productLine: ProductLine
    var loading: bool
    var error: string
    /** Where the router was last told to go. */
    var navigation: Option<string>

    /** Every input of the form has a value. */
    ghost predicate Valid()
      reads this`formData
    {
      FormKeys <= formData.Keys
    }

    /** The card fields hold what their masks produce. The initial form has
        it, but the constructor does not ensure it: a caller establishes it
        by calling `InitialFormMasked(formData)` right after construction.
        `HandleChange` keeps it, and the other methods leave the form
        untouched. */
    ghost predicate FieldsMasked()
      reads this`formData
    {
      Masked(formData)
    }

    /** The page as first rendered: the initial form, the standard line,
        nothing pending. Calling `InitialFormMasked(formData)` afterwards
        gives `FieldsMasked()`, which `HandleChange` requires. */
    constructor (cart: seq<CartItem>, monuments: seq<Monument>, lines: seq<LineRecord>,
                 msrp: (real, real) -> real)
      ensures Valid()
      ensures this.cart == cart && this.monuments == monuments && this.lines == lines && this.msrp == msrp
      ensures formData == InitialForm && productLine == Standard
      ensures !loading && error == "" && navigation == None
    {
      this.cart := cart;
      this.monuments := monuments;
      this.lines := lines;
      this.msrp := msrp;
      formData := InitialForm;
      productLine := Standard;
      loading := false;
      error := "";
      navigation := None;
    }

    /** The order as it stands: line items and totals. */
    function Totals(): (t: Pricing.Totals)
      reads this
      ensures t == OrderTotals(CartLineItems(cart, productLine, monuments, lines, msrp))
      ensures t.shipping == 0.0 && t.total == t.subtotal * (1.0 + TaxRate)
    {
      OrderTotals(CartLineItems(cart, productLine, monuments, lines, msrp))
    }

    /** The product-line radio buttons. */
    method SetProductLine(line: ProductLine)
      requires Valid()
      modifies this
      ensures Valid()
      ensures productLine == line
      ensures unchanged(this`formData, this`cart, this`loading, this`error, this`navigation)
    {
      productLine := line;
    }

    /** `handleChange`: store the edited input through its mask; every other
        field keeps its value. */
    method HandleChange(name: string, value: string)
      requires Valid() && FieldsMasked()
      modifies this
      ensures Valid() && FieldsMasked()
      ensures formData == old(formData)[name := Mask(name, value)]
      ensures unchanged(this`cart, this`productLine, this`loading, this`error, this`navigation)
    {
      formData := formData[name := Mask(name, value)];
      MaskedAfterChange(old(formData), name, value);
    }

    /** `handleSubmit`: post the order once, then clear the cart and go to the
        success page, or show the endpoint's error (or the fallback), or the
        generic message when the request itself failed. Loading is off again
        in every case. */
    method HandleSubmit(api: CheckoutRoute.CheckoutBody -> ApiOutcome, now: nat)
      returns (sent: CheckoutRoute.CheckoutBody)
      requires Valid()
      modifies this
      ensures Valid()
      ensures sent == BuildRequest(old(formData), old(cart), old(productLine), monuments, lines, msrp, now)
      ensures !loading
      ensures unchanged(this`formData, this`productLine)
      ensures api(sent).Threw? ==>
                error == TryAgain && unchanged(this`cart, this`navigation)
      ensures api(sent).Answered? && api(sent).result.success ==>
                && cart == [] && error == ""
                && navigation == Some(SuccessUrl(api(sent).result.transactionId))
      ensures api(sent).Answered? && !api(sent).result.success ==>
                && error == OrElse(api(sent).result.error, PaymentFailedFallback)
                && unchanged(this`cart, this`navigation)
    {
      sent := BuildRequest(formData, cart, productLine, monuments, lines, msrp, now);
      loading := true;
      error := "";
      var outcome := api(sent);
      if outcome.Threw? {
        error := TryAgain;
      } else if outcome.result.success {
        cart := [];
        navigation := Some(SuccessUrl(outcome.result.transactionId));
      } else {
        error := OrElse(outcome.result.error, PaymentFailedFallback);
      }
      loading := false;
    }
  }

  // ---------------------------------------------------------------------
  // What the submitted order carries

  /** The card fields sent on submit decode back to what the form shows:
      re-masking the sent number and expiry gives the displayed ones, the
      expiry is at most four digits and the CVV at most four digits. */
  lemma SubmittedCardFieldsRoundTrip(form: map<string, string>, cart: seq<CartItem>, line: ProductLine,
                                     monuments: seq<Monument>, lines: seq<LineRecord>,
                                     msrp: (real, real) -> real, now: nat)
    requires FormKeys <= form.Keys && Masked(form)
    ensures var card := BuildRequest(form, cart, line, monuments, lines, msrp, now).cardData.value;
      && CardMask(card.cardNumber) == form["cardNumber"]
      && ExpiryMask(card.cardExpiry) == form["cardExpiry"]
      && |card.cardExpiry| <= 4
      && AllDigits(card.cardCVV) && |card.cardCVV| <= 4
  {
    CardMaskOfCleaned(form["cardNumber"]);
    ExpiryMaskOfCleaned(form["cardExpiry"]);
    ExpiryCleanRecoversDigits(form["cardExpiry"]);
  }

  /** The endpoint accepts the page's order exactly when its total rounds to
      a non-zero number of cents: card data and billing are always there. */
  lemma SubmittedOrderValidates(form: map<string, string>, cart: seq<CartItem>, line: ProductLine,
                                monuments: seq<Monument>, lines: seq<LineRecord>,
                                msrp: (real, real) -> real, now: nat)
    requires FormKeys <= form.Keys
    ensures var b := BuildRequest(form, cart, line, monuments, lines, msrp, now);
      var total := OrderTotals(CartLineItems(cart, line, monuments, lines, msrp)).total;
      CheckoutRoute.HasRequiredFields(b) <==> !(-0.005 <= total < 0.005)
  {
  }

  /** Through the endpoint and the gateway adapter, the processor is charged
      the page's total to within half a cent, in US dollars. */
  lemma ChargedWithinHalfCent(form: map<string, string>, cart: seq<CartItem>, line: ProductLine,
                              monuments: seq<Monument>, lines: seq<LineRecord>,
                              msrp: (real, real) -> real, now: nat,
                              env: Helcim.Env, parseInt: string -> int,
                              network: Helcim.WireRequest -> Helcim.FetchOutcome)
    requires FormKeys <= form.Keys && Helcim.Configured(env)
    requires CheckoutRoute.HasRequiredFields(BuildRequest(form, cart, line, monuments, lines, msrp, now))
    ensures var b := BuildRequest(form, cart, line, monuments, lines, msrp, now);
      var sent := Helcim.ProcessHelcimPayment(env, CheckoutRoute.PaymentRequestOf(b), parseInt, network).sent;
      var total := OrderTotals(CartLineItems(cart, line, monuments, lines, msrp)).total;
      && sent.Some?
      && total - 0.005 < sent.value.amount <= total + 0.005
      && sent.value.currency == "USD"
  {
    var b := BuildRequest(form, cart, line, monuments, lines, msrp, now);
    var sent := Helcim.ProcessHelcimPayment(env, CheckoutRoute.PaymentRequestOf(b), parseInt, network).sent;
    assert sent.value.amount * 100.0 == b.amount.value as real;
  }

  /** Against the real endpoint the page never shows its own fallback text:
      every failure the endpoint reports carries a non-empty error. */
  lemma RouteErrorsShownVerbatim(request: CheckoutRoute.RequestBody,
                                    gateway: Helcim.PaymentRequest -> Helcim.PaymentResult, timestamp: string)
    ensures var result := CheckoutRoute.Post(request, gateway, timestamp).response.body;
      !result.success ==> OrElse(result.error, PaymentFailedFallback) == result.error.value
  {
  }
}
