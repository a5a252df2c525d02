/** The checkout endpoint: checks that the amount, the card data and the
    billing block are present, hands the payment to the gateway (a function
    parameter), and answers with a status code and a JSON envelope. The body
    arrives already parsed into its fields; a body that cannot be parsed or
    destructured is `Malformed`. */
module CheckoutRoute {
  import opened Common
  import Helcim
  import Pricing

  datatype Billing = Billing(
    fullName: string, email: string, phone: string, address: string,
    city: string, state: string, zip: string, country: string)

  /** The fields the handler destructures; an absent field is `None`.
      `amount` is in cents. */
  datatype CheckoutBody = CheckoutBody(
    amount: Option<int>,
    currency: Option<string>,
    customerCode: Option<string>,
    invoiceNumber: Option<string>,
    comments: Option<string>,
    cardData: Option<Helcim.CardData>,
    billing: Option<Billing>,
    items: Option<seq<Pricing.LineItem>>,
    productLine: Option<string>)

  datatype RequestBody = Malformed | Parsed(body: CheckoutBody)

  /** The order echoed back on success. */
  datatype Order = Order(
    transactionId: Option<string>,
    amount: int,
    currency: Option<string>,
    billing: Billing,
    items: Option<seq<Pricing.LineItem>>,
    productLine: Option<string>,
    timestamp: string)

  datatype ResponseBody = ResponseBody(
    success: bool,
    transactionId: Option<string>,
    message: Option<string>,
    error: Option<string>,
    order: Option<Order>)

  datatype Response = Response(status: int, body: ResponseBody)

  /** The response, and the payment request handed to the gateway, if any. */
  datatype Handled = Handled(response: Response, forwarded: Option<Helcim.PaymentRequest>)

  const MissingFields := "Missing required fields"
  const UnexpectedError := "An unexpected error occurred"
  const ProcessedSuccessfully := "Payment processed successfully"

  /** `amount && cardData && billing`: an amount of 0 is missing too. */
  function HasRequiredFields(body: CheckoutBody): (r: bool)
    ensures r <==> body.amount !in {None, Some(0)} && body.cardData != None && body.billing != None
  {
    body.amount.Some? && body.amount.value != 0 && body.cardData.Some? && body.billing.Some?
  }

  function Failure(status: int, error: string): Response {
    Response(status, ResponseBody(false, None, None, Some(error), None))
  }

  /** The payment request built from a valid body: the currency defaults to
      USD; the line items and the product line are not part of it. */
  function PaymentRequestOf(body: CheckoutBody): (p: Helcim.PaymentRequest)
    requires HasRequiredFields(body)
    ensures p.amount == body.amount.value && p.cardData == body.cardData.value
    ensures p.currency == OrElse(body.currency, "USD") && p.currency != ""
    ensures p.customerCode == body.customerCode && p.invoiceNumber == body.invoiceNumber
    ensures p.comments == body.comments
  {
    Helcim.PaymentRequest(body.amount.value, OrElse(body.currency, "USD"), body.customerCode,
                          body.invoiceNumber, body.comments, body.cardData.value)
  }

  /** `POST`. `timestamp` stands for the clock reading put in the order. */
  function Post(request: RequestBody, gateway: Helcim.PaymentRequest -> Helcim.PaymentResult,
                timestamp: string): (h: Handled)
    ensures h.response.status in {200, 400, 500}
    ensures h.response.status == 200 <==> h.response.body.success
    ensures !h.response.body.success ==>
              && h.response.body.error.Some? && h.response.body.error.value != ""
              && h.response.body.order.None?
    ensures request.Malformed? ==>
              h == Handled(Failure(500, UnexpectedError), None)
    ensures request.Parsed? && !HasRequiredFields(request.body) ==>
              h == Handled(Failure(400, MissingFields), None)
    ensures h.forwarded.Some? <==> request.Parsed? && HasRequiredFields(request.body)
    ensures h.forwarded.Some? ==>
              && h.forwarded.value == PaymentRequestOf(request.body)
              && var result := gateway(h.forwarded.value);
                 && (h.response.body.success <==> result.success)
                 && (!result.success ==> h.response == Failure(400, OrElse(result.error, Helcim.ProcessingFailed)))
    ensures h.response.body.success ==>
              && h.response.body.error.None?
              && h.response.body.order.Some?
              && var order := h.response.body.order.value;
                 && h.response.body.transactionId == order.transactionId
                 && order.transactionId == gateway(h.forwarded.value).transactionId
                 && Some(order.amount) == request.body.amount
                 && order.currency == request.body.currency
                 && Some(order.billing) == request.body.billing
                 && order.items == request.body.items
                 && order.productLine == request.body.productLine
                 && order.timestamp == timestamp
                 && h.response.body.message == Some(ProcessedSuccessfully)
  {
    match request
    case Malformed => Handled(Failure(500, UnexpectedError), None)
    case Parsed(body) =>
      if !HasRequiredFields(body) then Handled(Failure(400, MissingFields), None)
      else
        var payment := PaymentRequestOf(body);
        var result := gateway(payment);
        if !result.success then
          Handled(Failure(400, OrElse(result.error, Helcim.ProcessingFailed)), Some(payment))
        else
          var order := Order(result.transactionId, body.amount.value, body.currency, body.billing.value,
                             body.items, body.productLine, timestamp);
          Handled(Response(200, ResponseBody(true, result.transactionId, Some(ProcessedSuccessfully),
                                             None, Some(order))), Some(payment))
  }

  // ---------------------------------------------------------------------
  // The endpoint wired to the gateway adapter

  /** End to end, a checkout succeeds exactly when the body is complete, the
      credentials are configured and the processor answers with a success
      status; then the transaction id is the processor's. */
  lemma CheckoutSucceedsIff(request: RequestBody, env: Helcim.Env, parseInt: string -> int,
                            network: Helcim.WireRequest -> Helcim.FetchOutcome, timestamp: string)
    ensures var h := Post(request, Helcim.Gateway(env, parseInt, network), timestamp);
      && (h.response.status == 200 <==>
            && request.Parsed? && HasRequiredFields(request.body) && Helcim.Configured(env)
            && var wire := Helcim.Wire(env.apiKey.value, env.terminalId.value, PaymentRequestOf(request.body), parseInt);
               network(wire).Responded? && network(wire).ok)
      && (h.response.status == 200 ==>
            var wire := Helcim.Wire(env.apiKey.value, env.terminalId.value, PaymentRequestOf(request.body), parseInt);
            h.response.body.transactionId == network(wire).data.transactionId)
  {
    var gateway := Helcim.Gateway(env, parseInt, network);
    if request.Parsed? && HasRequiredFields(request.body) {
      var payment := PaymentRequestOf(request.body);
      assert gateway(payment) == Helcim.ProcessHelcimPayment(env, payment, parseInt, network).result;
    }
  }

  /** A declined card: the processor's message reaches the shopper with
      status 400, or the generic failure text when it sent none. */
  lemma DeclineReachesShopper(body: CheckoutBody, env: Helcim.Env, parseInt: string -> int,
                              network: Helcim.WireRequest -> Helcim.FetchOutcome, timestamp: string)
    requires HasRequiredFields(body) && Helcim.Configured(env)
    requires var wire := Helcim.Wire(env.apiKey.value, env.terminalId.value, PaymentRequestOf(body), parseInt);
      network(wire).Responded? && !network(wire).ok
    ensures var wire := Helcim.Wire(env.apiKey.value, env.terminalId.value, PaymentRequestOf(body), parseInt);
      Post(Parsed(body), Helcim.Gateway(env, parseInt, network), timestamp).response ==
      Failure(400, OrElse(network(wire).data.message, Helcim.ProcessingFailed))
  {
    var payment := PaymentRequestOf(body);
    var gateway := Helcim.Gateway(env, parseInt, network);
    assert gateway(payment) == Helcim.ProcessHelcimPayment(env, payment, parseInt, network).result;
  }

  /** Missing credentials: the shopper gets status 400 with the
      configuration message, and nothing is sent to the processor. */
  lemma MissingCredentialsReachShopper(body: CheckoutBody, env: Helcim.Env, parseInt: string -> int,
                                       network: Helcim.WireRequest -> Helcim.FetchOutcome, timestamp: string)
    requires HasRequiredFields(body) && !Helcim.Configured(env)
    ensures Post(Parsed(body), Helcim.Gateway(env, parseInt, network), timestamp).response ==
            Failure(400, Helcim.CredentialsError)
    ensures Helcim.ProcessHelcimPayment(env, PaymentRequestOf(body), parseInt, network).sent.None?
  {
    var payment := PaymentRequestOf(body);
    var gateway := Helcim.Gateway(env, parseInt, network);
    assert gateway(payment) == Helcim.ProcessHelcimPayment(env, payment, parseInt, network).result;
  }

  /** The processor is charged the body's amount in major units: the cents
      received divided by 100, in the defaulted currency. */
  lemma ChargedAmountIsBodyAmount(body: CheckoutBody, env: Helcim.Env, parseInt: string -> int,
                                  network: Helcim.WireRequest -> Helcim.FetchOutcome)
    requires HasRequiredFields(body) && Helcim.Configured(env)
    ensures var sent := Helcim.ProcessHelcimPayment(env, PaymentRequestOf(body), parseInt, network).sent;
      && sent.Some?
      && sent.value.amount * 100.0 == body.amount.value as real
      && sent.value.currency == OrElse(body.currency, "USD")
      && sent.value.cardNumber == body.cardData.value.cardNumber
      && sent.value.cardExpiry == body.cardData.value.cardExpiry
  {
  }
}
