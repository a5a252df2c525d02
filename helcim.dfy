/** The card-payment gateway adapter: turns an internal payment request
    (amount in cents) into the processor's request (amount in major units),
    and turns whatever comes back — a response, a non-success status, a
    thrown error, or missing credentials — into one normalized result.
    The network call is a parameter: a function from the request sent to
    what came back. */
module Helcim {
  import opened Common

  datatype CardData = CardData(
    cardNumber: string,
    cardExpiry: string,   // MMYY
    cardCVV: string,
    cardHolderName: string,
    cardHolderAddress: Option<string>,
    cardHolderPostalCode: Option<string>)

  /** The internal request; `amount` is in cents. */
  datatype PaymentRequest = PaymentRequest(
    amount: int,
    currency: string,
    customerCode: Option<string>,
    invoiceNumber: Option<string>,
    comments: Option<string>,
    cardData: CardData)

  /** The two configuration values read from the process environment. */
  datatype Env = Env(apiKey: Option<string>, terminalId: Option<string>)

  /** What goes over the wire: the `api-token` header and the JSON body. */
  datatype WireRequest = WireRequest(
    apiToken: string,
    terminalId: int,
    amount: real,         // major units
    currency: string,
    customerCode: Option<string>,
    invoiceNumber: Option<string>,
    comments: Option<string>,
    cardNumber: string,
    cardExpiry: string,
    cardCVV: string,
    cardHolderName: string,
    cardHolderAddress: Option<string>,
    cardHolderPostalCode: Option<string>)

  /** The fields of the processor's JSON reply that the adapter reads. */
  datatype ProcessorData = ProcessorData(transactionId: Option<string>, message: Option<string>)

  /** What a thrown value is: an `Error` carries a message, anything else
      does not. */
  datatype Thrown = ErrorObject(message: string) | NonError

  /** The outcome of the fetch and of parsing its body. */
  datatype FetchOutcome =
    | Threw(thrown: Thrown)
    | Responded(ok: bool, data: ProcessorData)

  datatype PaymentResult = PaymentResult(
    success: bool,
    transactionId: Option<string>,
    message: Option<string>,
    error: Option<string>,
    response: Option<ProcessorData>)

  /** The normalized result, and the request put on the wire, if any. */
  datatype Attempt = Attempt(result: PaymentResult, sent: Option<WireRequest>)

  const CredentialsError := "Helcim API credentials not configured"
  const ProcessingFailed := "Payment processing failed"
  const UnknownError := "Unknown error occurred"
  const PaymentSuccessful := "Payment successful"

  /** Both credentials are set and non-empty: `!apiKey || !terminalId` is
      false, so neither reads as "" once absence is mapped to "". */
  function Configured(env: Env): (r: bool)
    ensures r <==> OrElse(env.apiKey, "") != "" && OrElse(env.terminalId, "") != ""
  {
    Present(env.apiKey) && Present(env.terminalId)
  }

  /** `request.amount / 100`: cents to major units, exactly. */
  function ToMajorUnits(cents: int): (r: real)
    ensures r * 100.0 == cents as real
    ensures cents >= 0 ==> r >= 0.0
  {
    cents as real / 100.0
  }

  /** The processor request built from the credentials and the internal
      request; `parseInt` stands for the conversion of the terminal id. */
  function Wire(apiKey: string, terminalId: string, request: PaymentRequest, parseInt: string -> int): (w: WireRequest)
    ensures w.amount * 100.0 == request.amount as real
    ensures w.apiToken == apiKey && w.terminalId == parseInt(terminalId)
    ensures w.currency == request.currency && w.customerCode == request.customerCode
    ensures w.invoiceNumber == request.invoiceNumber && w.comments == request.comments
    ensures w.cardNumber == request.cardData.cardNumber && w.cardExpiry == request.cardData.cardExpiry
    ensures w.cardCVV == request.cardData.cardCVV && w.cardHolderName == request.cardData.cardHolderName
    ensures w.cardHolderAddress == request.cardData.cardHolderAddress
    ensures w.cardHolderPostalCode == request.cardData.cardHolderPostalCode
  {
    var card := request.cardData;
    WireRequest(apiKey, parseInt(terminalId), ToMajorUnits(request.amount), request.currency,
                request.customerCode, request.invoiceNumber, request.comments,
                card.cardNumber, card.cardExpiry, card.cardCVV, card.cardHolderName,
                card.cardHolderAddress, card.cardHolderPostalCode)
  }

  /** What the adapter returns for the outcome of the fetch. */
  function Normalize(outcome: FetchOutcome): (r: PaymentResult)
    ensures r.success <==> outcome.Responded? && outcome.ok
    ensures r.success ==> && r.transactionId == outcome.data.transactionId
                          && r.message == Some(PaymentSuccessful)
                          && r.error == None
                          && r.response == Some(outcome.data)
    ensures !r.success ==> r.error.Some? && r.transactionId == None && r.message == None
    ensures outcome.Responded? && !outcome.ok ==>
              && r.error == Some(OrElse(outcome.data.message, ProcessingFailed))
              && r.response == Some(outcome.data)
    ensures outcome.Threw? ==>
              && r.response == None
              && r.error == Some(if outcome.thrown.ErrorObject? then outcome.thrown.message else UnknownError)
  {
    match outcome
    case Threw(thrown) =>
      var msg := if thrown.ErrorObject? then thrown.message else UnknownError;
      PaymentResult(false, None, None, Some(msg), None)
    case Responded(ok, data) =>
      if !ok then PaymentResult(false, None, None, Some(OrElse(data.message, ProcessingFailed)), Some(data))
      else PaymentResult(true, data.transactionId, Some(PaymentSuccessful), None, Some(data))
  }

  /** `processHelcimPayment`: refuse without credentials and send nothing;
      otherwise send exactly one request and normalize its outcome. It never
      throws: every outcome is a result. */
  function ProcessHelcimPayment(env: Env, request: PaymentRequest, parseInt: string -> int,
                                network: WireRequest -> FetchOutcome): (a: Attempt)
    ensures a.sent.None? <==> !Configured(env)
    ensures !Configured(env) ==> a.result == PaymentResult(false, None, None, Some(CredentialsError), None)
    ensures Configured(env) ==>
              && a.sent == Some(Wire(env.apiKey.value, env.terminalId.value, request, parseInt))
              && a.result == Normalize(network(a.sent.value))
    ensures a.result.success <==> a.sent.Some? && network(a.sent.value).Responded? && network(a.sent.value).ok
    ensures !a.result.success ==> a.result.error.Some?
  {
    if !Configured(env) then
      Attempt(PaymentResult(false, None, None, Some(CredentialsError), None), None)
    else
      var wire := Wire(env.apiKey.value, env.terminalId.value, request, parseInt);
      Attempt(Normalize(network(wire)), Some(wire))
  }

  /** The adapter as seen by its callers: the result alone. Without
      credentials every request gets the credentials error; with them, each
      request gets the normalized answer to its own wire request. */
  function Gateway(env: Env, parseInt: string -> int, network: WireRequest -> FetchOutcome):
    (g: PaymentRequest -> PaymentResult)
    ensures !Configured(env) ==>
              forall request :: g(request) == PaymentResult(false, None, None, Some(CredentialsError), None)
    ensures Configured(env) ==>
              forall request :: g(request) == Normalize(network(Wire(env.apiKey.value, env.terminalId.value, request, parseInt)))
  {
    request => ProcessHelcimPayment(env, request, parseInt, network).result
  }

  // ---------------------------------------------------------------------
  // calculateCartTotal

  datatype PricedItem = PricedItem(quantity: real, price: real)

  /** What one item adds to the cart total. */
  function Amount(item: PricedItem): real {
    item.quantity * item.price
  }

  /** The reference definition: the sum of quantity times price. */
  function Sum(items: seq<PricedItem>): real
    decreases |items|
  {
    if items == [] then 0.0 else Amount(items[0]) + Sum(items[1..])
  }

  /** `items.reduce((total, item) => total + item.quantity * item.price, acc)`:
      the accumulator plus the sum of the items. */
  function TotalFrom(acc: real, items: seq<PricedItem>): (r: real)
    ensures r == acc + Sum(items)
    decreases |items|
  {
    if items == [] then acc
    else TotalFrom(acc + Amount(items[0]), items[1..])
  }

  /** `calculateCartTotal`: the fold above started at 0. */
  function CalculateCartTotal(items: seq<PricedItem>): (r: real)
    ensures items == [] ==> r == 0.0
  {
    TotalFrom(0.0, items)
  }

  /** The left fold computes the sum of quantity times price. */
  lemma CartTotalIsSum(items: seq<PricedItem>)
    ensures CalculateCartTotal(items) == Sum(items)
  {
  }

  lemma {:induction false} SumAppend(a: seq<PricedItem>, b: seq<PricedItem>)
    ensures Sum(a + b) == Sum(a) + Sum(b)
    decreases |a|
  {
    if a == [] {
      assert a + b == b;
    } else {
      assert (a + b)[1..] == a[1..] + b;
      SumAppend(a[1..], b);
    }
  }

  /** The cart total of two lists joined is the sum of their totals. */
  lemma CartTotalAppend(a: seq<PricedItem>, b: seq<PricedItem>)
    ensures CalculateCartTotal(a + b) == CalculateCartTotal(a) + CalculateCartTotal(b)
  {
    CartTotalIsSum(a + b);
    CartTotalIsSum(a);
    CartTotalIsSum(b);
    SumAppend(a, b);
  }

  /** With no negative quantity or price, the cart total is not negative. */
  lemma {:induction false} CartTotalNonNegative(items: seq<PricedItem>)
    requires forall i :: 0 <= i < |items| ==> items[i].quantity >= 0.0 && items[i].price >= 0.0
    ensures CalculateCartTotal(items) >= 0.0
  {
    CartTotalIsSum(items);
    SumNonNegative(items);
  }

  lemma {:induction false} SumNonNegative(items: seq<PricedItem>)
    requires forall i :: 0 <= i < |items| ==> items[i].quantity >= 0.0 && items[i].price >= 0.0
    ensures Sum(items) >= 0.0
    decreases |items|
  {
    if items != [] {
      SumNonNegative(items[1..]);
      assert Amount(items[0]) >= 0.0;
    }
  }
}
