# Verse Monuments checkout, modelled in Dafny

This project models the checkout path of the Verse Monuments storefront:

- **Checkout page** (`app/checkout/page.tsx`):
  - the input masks applied as the shopper types the card number, the expiry and the CVV;
  - the pricing of the cart for the selected product line (line items, subtotal, 8.75 percent tax, free shipping, total);
  - the order body posted on submit;
  - the page state changed by the answer: loading flag, error text, cart and navigation.
- **Checkout endpoint** (`app/api/checkout/route.ts`): validates the posted body, hands the payment to the gateway adapter, and picks the status code and the JSON envelope.
- **Gateway adapter** (`lib/helcim.ts`):
  - `processHelcimPayment` checks the credentials, converts cents to major units, sends one request, and normalizes every outcome into one result record;
  - `calculateCartTotal` is its cart-total helper.

Files:

| file | module | contents |
|---|---|---|
| `common.dfy` | `Common` | `Option`, JavaScript truthiness of optional strings, the `\|\|` fallback |
| `js_string.dfy` | `JsString` | the JavaScript string operations the masks use: the `\s` and `\d` classes, `\s` and `\D` removal, `slice(0, n)`, `trim()`, decimal rendering |
| `input_masks.dfy` | `InputMasks` | the three masks, the clean-up applied on submit, and their round trips and idempotence |
| `helcim.dfy` | `Helcim` | the gateway adapter and `calculateCartTotal` |
| `pricing.dfy` | `Pricing` | the pricing block of the checkout page |
| `checkout_route.dfy` | `CheckoutRoute` | the `POST` handler, and its composition with the adapter |
| `checkout_page.dfy` | `CheckoutPage` | the order body, and the class `Checkout` holding the page's state |

Pure code is modelled as functions and lemmas: the masks, the pricing, the adapter and the endpoint.

The page's state is a class. Its fields are:

- `formData`: a map from input name to value, updated through `HandleChange`;
- `cart`;
- `productLine`;
- `loading`;
- `error`;
- `navigation`: the last route pushed.

Effects the code cannot see are parameters:

- the network call to the processor is a function from the request sent to what came back;
- the gateway, as the endpoint sees it, is a function from payment request to result;
- the page's request to the endpoint is a function from the posted body to the parsed answer, or an exception;
- `parseInt` is a parameter;
- the external pricing rule `msrp` is a parameter;
- the clock reading behind the invoice number (`Date.now()`) and the endpoint's timestamp are parameters.

Prices are exact `real`s and amounts are `int` cents.

## Model

| member | source | states |
|---|---|---|
| Common.OrElse | verse-monuments/app/api/checkout/route.ts:31 | `o \|\| fallback`: the value when present and non-empty, otherwise the fallback; non-empty whenever the fallback is |
| JsString.DigitClass | verse-monuments/app/checkout/page.tsx:72 | `\d` (and the complement `\D` removes) is exactly the ten characters "0" to "9", each the digit written for its distance from "0" |
| JsString.SpaceClass | verse-monuments/app/checkout/page.tsx:67 | `\s`, and the set `trim()` strips, is exactly ECMAScript's WhiteSpace (TAB, VT, FF, ZWNBSP and the Zs code points U+0020, U+00A0, U+1680, U+2000 to U+200A, U+202F, U+205F, U+3000) together with its LineTerminator (LF, CR, U+2028, U+2029); no digit and no "/" is whitespace |
| JsString.RemoveSpaces | verse-monuments/app/checkout/page.tsx:67 | the result has no whitespace, is no longer than the input, and is the input itself when it had none |
| JsString.KeepDigits | verse-monuments/app/checkout/page.tsx:72 | the result is all digits and no longer than the input; it is the input itself when that was all digits, and empty when the input had no digit |
| JsString.Slice | verse-monuments/app/checkout/page.tsx:72 | the length is the smaller of the input length and the bound |
| JsString.SliceIsPrefix | verse-monuments/app/checkout/page.tsx:72 | `slice(0, n)` is the prefix of the input of that length, and the whole input when it is no longer than n |
| JsString.TrimStart | verse-monuments/app/checkout/page.tsx:67 | a suffix of the input whose removed prefix is all whitespace and which does not start with whitespace |
| JsString.TrimEnd | verse-monuments/app/checkout/page.tsx:67 | a prefix of the input whose removed suffix is all whitespace and which does not end with whitespace |
| JsString.Trim | verse-monuments/app/checkout/page.tsx:67 | the result starts and ends with a non-whitespace character, or is empty |
| JsString.TrimIsInfix | verse-monuments/app/checkout/page.tsx:67 | `trim()` keeps a contiguous piece of the input starting where the leading whitespace ends; everything before and after it is whitespace |
| JsString.RemoveSpacesAppend | verse-monuments/app/checkout/page.tsx:67 | whitespace removal distributes over concatenation |
| JsString.KeepDigitsAppend | verse-monuments/app/checkout/page.tsx:72 | digit filtering distributes over concatenation |
| JsString.TrimKeepsNonSpace | verse-monuments/app/checkout/page.tsx:67 | trimming removes only whitespace: removing the whitespace before or after trimming gives the same string |
| JsString.DecimalString | verse-monuments/app/checkout/page.tsx:106 | `${n}` for a natural number: a non-empty string of digits whose decimal value is n, with no leading zero (a single digit exactly when n < 10) |
| InputMasks.GroupFours | verse-monuments/app/checkout/page.tsx:67 | the grouping only inserts characters: the result is at least as long as the input |
| InputMasks.CardMask | verse-monuments/app/checkout/page.tsx:67 | the masked card number neither starts nor ends with whitespace |
| InputMasks.MasksKeepEmpty | verse-monuments/app/checkout/page.tsx:31-33 | an empty card field stays empty under each of the three masks |
| InputMasks.CardMaskRoundTrip | verse-monuments/app/checkout/page.tsx:67 | removing the spaces from the masked number gives the input with all whitespace removed |
| InputMasks.CardMaskIdempotent | verse-monuments/app/checkout/page.tsx:67 | masking an already masked card number changes nothing |
| InputMasks.CardMaskFixedPoints | verse-monuments/app/checkout/page.tsx:67 | the values the card mask leaves unchanged are exactly the values it can produce |
| InputMasks.GroupFoursSplitsAtNonDigit | verse-monuments/app/checkout/page.tsx:67 | a non-digit is never inside a match of `\d{4}`: the text on each side of it is grouped on its own and the non-digit is kept in place, so each digit run is grouped separately (with `GroupFoursOfDigits` this fixes the grouping of every input) |
| InputMasks.GroupFoursOfDigits | verse-monuments/app/checkout/page.tsx:67 | on digits, grouping adds one space per complete group of four: a space at every fifth position, the digits in order elsewhere |
| InputMasks.TrimOfGroupedDigits | verse-monuments/app/checkout/page.tsx:67 | on non-empty digits, trim drops only the space after a final complete group |
| InputMasks.TrimEndOfFullGroups | verse-monuments/app/checkout/page.tsx:67 | when the digit count is a multiple of four, the grouping ends in one space and trim drops exactly it |
| InputMasks.TrimEndOfPartialGroup | verse-monuments/app/checkout/page.tsx:67 | otherwise the grouping ends in a digit and trim keeps all of it |
| InputMasks.CardMaskOfDigits | verse-monuments/app/checkout/page.tsx:67 | for n digits the mask has n + (n-1)/4 characters: spaces at every fifth position, the digits in order elsewhere, no space at either end |
| InputMasks.CleanCardNumber | verse-monuments/app/checkout/page.tsx:108 | the card number sent holds no whitespace |
| InputMasks.CardMaskOfCleaned | verse-monuments/app/checkout/page.tsx:108 | masking the sent card number again reproduces the field the shopper saw |
| InputMasks.ExpiryMask | verse-monuments/app/checkout/page.tsx:72-75 | at most 5 characters; `/` at index 2 exactly when the input has at least two digits; every other character is a digit |
| InputMasks.CleanExpiry | verse-monuments/app/checkout/page.tsx:96 | the expiry sent is all digits |
| InputMasks.ExpiryCleanRecoversDigits | verse-monuments/app/checkout/page.tsx:96 | stripping the non-digits from the masked expiry recovers the first four (or fewer) digits of the raw input |
| InputMasks.KeepDigitsAroundSlash | verse-monuments/app/checkout/page.tsx:96 | removing the non-digits from two digit runs joined by "/" gives the runs joined |
| InputMasks.ExpiryMaskIdempotent | verse-monuments/app/checkout/page.tsx:72-75 | masking an already masked expiry changes nothing |
| InputMasks.ExpiryMaskFixedPoints | verse-monuments/app/checkout/page.tsx:72-75 | the values the expiry mask leaves unchanged are exactly the values it can produce |
| InputMasks.ExpiryMaskOfCleaned | verse-monuments/app/checkout/page.tsx:109 | masking the MMYY that is sent again reproduces the field the shopper saw |
| InputMasks.CvvMask | verse-monuments/app/checkout/page.tsx:80 | the CVV is all digits and at most four characters |
| InputMasks.CvvMaskKeepsLeadingDigits | verse-monuments/app/checkout/page.tsx:80 | the CVV is a prefix of the digits typed, cut at four only when more were typed |
| InputMasks.CvvMaskIdempotent | verse-monuments/app/checkout/page.tsx:80 | masking an already masked CVV changes nothing |
| InputMasks.CvvMaskFixedPoints | verse-monuments/app/checkout/page.tsx:80 | the values the CVV mask leaves unchanged are exactly the values it can produce |
| InputMasks.MaskIdempotent | verse-monuments/app/checkout/page.tsx:62-87 | for whichever input is edited, re-applying its mask to the stored value changes nothing |
| InputMasks.Mask | verse-monuments/app/checkout/page.tsx:62-87 | inputs other than the three card fields keep what was typed; the card number keeps every non-whitespace character typed and neither starts nor ends with whitespace; the expiry has at most 5 characters whose digits are the first four digits typed; the CVV is the first four digits typed |
| Helcim.Configured | verse-monuments/lib/helcim.ts:36 | the credentials count as configured exactly when the API key and the terminal id are both present and non-empty |
| Helcim.ToMajorUnits | verse-monuments/lib/helcim.ts:52 | the amount in major units times 100 is the amount in cents, exactly |
| Helcim.Wire | verse-monuments/lib/helcim.ts:44-63 | the request sent carries the API key as token, the parsed terminal id and the amount in major units; currency, customer code, invoice number, comments and every card field pass through unchanged |
| Helcim.Normalize | verse-monuments/lib/helcim.ts:66-88 | success exactly on an ok response, with its transaction id, "Payment successful" and the data; a non-ok response gives the processor's message or "Payment processing failed", with the data; a thrown Error gives its message, anything else thrown gives "Unknown error occurred"; every failure carries an error |
| Helcim.Gateway | verse-monuments/app/api/checkout/route.ts:29-36 | `processHelcimPayment` as the endpoint calls it: without both credentials every request gets the credentials error; with them, each request gets the normalized outcome of its own wire request |
| Helcim.ProcessHelcimPayment | verse-monuments/lib/helcim.ts:30-89 | without both credentials (absent or empty) the result is the credentials error and no request is sent; otherwise exactly the wire request is sent and its outcome normalized; success exactly when that request got an ok response |
| Helcim.CalculateCartTotal | verse-monuments/lib/helcim.ts:92-94 | the total of an empty list is 0 |
| Helcim.TotalFrom | verse-monuments/lib/helcim.ts:93 | the `reduce` from any starting value is that value plus the sum of quantity times price |
| Helcim.CartTotalIsSum | verse-monuments/lib/helcim.ts:92-94 | the cart total equals the sum of quantity times price |
| Helcim.SumAppend | verse-monuments/lib/helcim.ts:92-94 | the reference sum is additive over concatenation |
| Helcim.CartTotalAppend | verse-monuments/lib/helcim.ts:92-94 | the cart total of two lists joined is the sum of their totals |
| Helcim.CartTotalNonNegative | verse-monuments/lib/helcim.ts:92-94 | with no negative quantity or price the cart total is not negative |
| Helcim.SumNonNegative | verse-monuments/lib/helcim.ts:93 | with no negative quantity or price the reference sum is not negative |
| Pricing.FindLine | verse-monuments/app/checkout/page.tsx:38-39 | `find` on the line table: the first record with the id, or none exactly when no record has it |
| Pricing.FindMonument | verse-monuments/app/checkout/page.tsx:45 | `find` on the catalog: the first record with the id, or none exactly when no record has it |
| Pricing.WholesalePrice | verse-monuments/app/checkout/page.tsx:40-42 | never 0; when the table has the line with a non-zero wholesale example, exactly that example; otherwise the fallback (18 standard, 28 USA); any value other than the fallback is the found line's example |
| Pricing.PriceItem | verse-monuments/app/checkout/page.tsx:45-54 | no line item exactly when the catalog lacks the id; otherwise unit price `msrp(wholesale, markupStd)` of the first matching record and total price unit price times quantity |
| Pricing.LineItems | verse-monuments/app/checkout/page.tsx:44-55 | at most one line item per cart entry, each priced from its catalog record as above |
| Pricing.Kept | verse-monuments/app/checkout/page.tsx:55 | `filter(Boolean)` on one priced entry: at most one line item, the one priced, or none when there was none |
| Pricing.LineItemsKeepCatalogued | verse-monuments/app/checkout/page.tsx:44-55 | an entry is kept exactly when it is in the cart and has a catalog record: unknown items are dropped, nothing is invented |
| Pricing.LineItemsAppend | verse-monuments/app/checkout/page.tsx:44-55 | pricing a cart in two parts gives the two parts' line items in order |
| Pricing.UnknownItemIgnored | verse-monuments/app/checkout/page.tsx:46 | inserting an entry without a catalog record anywhere in the cart changes neither the line items nor any total |
| Pricing.OrderTotals | verse-monuments/app/checkout/page.tsx:57-60 | the subtotal is the sum of the line items' total prices, the tax is the subtotal times 0.0875, shipping is 0, and the total is subtotal plus tax plus shipping, i.e. the subtotal times 1.0875 |
| Pricing.SubtotalFrom | verse-monuments/app/checkout/page.tsx:57 | the `reduce` from any starting value is that value plus the sum of the line items' total prices |
| Pricing.Subtotal | verse-monuments/app/checkout/page.tsx:57 | the subtotal is the sum of the line items' total prices, 0 for no items |
| Pricing.SumOfTotalsIsSum | verse-monuments/app/checkout/page.tsx:57 | over line items whose total price is unit price times quantity, the sum of total prices is the sum of quantity times unit price |
| Pricing.SubtotalIsCartTotal | verse-monuments/app/checkout/page.tsx:57 | the subtotal of the kept items is `calculateCartTotal` of them, the sum of quantity times unit price |
| Pricing.SubtotalAppend | verse-monuments/app/checkout/page.tsx:57 | the subtotal is additive over concatenation |
| Pricing.SumOfTotalsAppend | verse-monuments/app/checkout/page.tsx:57 | the sum of total prices is additive over concatenation |
| Pricing.TotalCoversSubtotal | verse-monuments/app/checkout/page.tsx:57-60 | with non-negative quantities and prices: the subtotal is not negative, the tax is 8.75 percent of it, the total is at least the subtotal |
| CheckoutRoute.HasRequiredFields | verse-monuments/app/api/checkout/route.ts:21 | the body is complete exactly when the amount is present and not 0 and the card data and billing are present |
| CheckoutRoute.PaymentRequestOf | verse-monuments/app/api/checkout/route.ts:29-36 | the gateway gets the amount, card data, customer code, invoice number and comments unchanged, and `currency \|\| "USD"`; items and product line are not forwarded |
| CheckoutRoute.Post | verse-monuments/app/api/checkout/route.ts:4-77 | status 200, 400 or 500, 200 exactly on success. A malformed body gives 500 "An unexpected error occurred". A falsy amount (absent or 0) or missing card data or billing gives 400 "Missing required fields". The gateway is called exactly when the body is complete. A gateway failure gives 400 with its error or "Payment processing failed". Success carries no error and echoes transaction id, amount, raw currency, billing, items, product line and timestamp. Every failure carries a non-empty error and no order |
| CheckoutRoute.CheckoutSucceedsIff | verse-monuments/app/api/checkout/route.ts:21-66 | through the adapter: status 200 exactly when the body is complete, the credentials are configured and the processor answers ok; then the transaction id is the processor's |
| CheckoutRoute.DeclineReachesShopper | verse-monuments/app/api/checkout/route.ts:38-46 | a non-ok processor answer reaches the client as 400 with the processor's message, or "Payment processing failed" |
| CheckoutRoute.MissingCredentialsReachShopper | verse-monuments/app/api/checkout/route.ts:38-46 | missing credentials reach the client as 400 with the credentials error, and nothing is sent to the processor |
| CheckoutRoute.ChargedAmountIsBodyAmount | verse-monuments/app/api/checkout/route.ts:29-36 | the processor is charged the body's cents divided by 100, in the defaulted currency, with the card number and expiry received |
| CheckoutPage.InitialFormMasked | verse-monuments/app/checkout/page.tsx:19-35 | the initial form has every input, and each card field is a value its mask leaves unchanged |
| CheckoutPage.MaskedAfterChange | verse-monuments/app/checkout/page.tsx:62-87 | storing an edited input through its mask keeps every input present and every card field a value its mask leaves unchanged |
| CheckoutPage.UpdateKeepsOther | verse-monuments/app/checkout/page.tsx:83-86 | setting one input of the form leaves every other input as it was |
| CheckoutPage.RoundHalfUp | verse-monuments/app/checkout/page.tsx:102 | `Math.round`: the result is within half of the input, halves rounded up |
| CheckoutPage.SuccessUrl | verse-monuments/app/checkout/page.tsx:134 | the success route followed by the transaction id, or by "undefined" when the answer had none |
| CheckoutPage.CartLineItems | verse-monuments/app/checkout/page.tsx:37-55 | the line items for the selected line: no more than the cart entries; each priced from the selected line's wholesale price (the table's non-zero example, else 18 or 28) through the first catalog record with its id, total price unit price times quantity; exactly the cart entries with a catalog record are kept |
| CheckoutPage.InvoiceNumber | verse-monuments/app/checkout/page.tsx:105 | "ORDER-" followed by the digits of the clock reading, whose decimal value is that reading, with no leading zero (so the string is determined by the reading) |
| CheckoutPage.InvoiceNumberIdentifiesClock | verse-monuments/app/checkout/page.tsx:105 | two order numbers are equal exactly when the clock readings are |
| CheckoutPage.BuildRequest | verse-monuments/app/checkout/page.tsx:101-127 | the posted body: amount within half a cent of the total, in cents; currency USD; customer code the email; invoice number "ORDER-" and the clock reading; comments the item count, the line and "line"; card number the field without whitespace, expiry its digits, CVV as typed, holder name the field or, when empty, the full name, address and postal code from the form; the billing block copied field by field; the line items and the product line |
| CheckoutPage.SubmittedCardFields | verse-monuments/app/checkout/page.tsx:108-111 | the sent card number has no whitespace and equals the field up to whitespace; the sent expiry is all digits; the holder name is empty only when both the holder-name field and the full name are |
| CheckoutPage.Checkout.constructor | verse-monuments/app/checkout/page.tsx:13-35 | the initial state: every input present, the form equal to the initial form (empty, country US), standard line, not loading, no error, no navigation |
| CheckoutPage.Checkout.Totals | verse-monuments/app/checkout/page.tsx:57-60 | the order totals of the line items priced from the current cart and line: no shipping, total is subtotal plus tax |
| CheckoutPage.Checkout.SetProductLine | verse-monuments/app/checkout/page.tsx:179-193 | only the product line changes |
| CheckoutPage.Checkout.HandleChange | verse-monuments/app/checkout/page.tsx:62-87 | the edited input is stored through its mask and no other field changes; every input stays present and every card field stays a value its mask leaves unchanged |
| CheckoutPage.Checkout.HandleSubmit | verse-monuments/app/checkout/page.tsx:89-144 | posts exactly the body built from the state before the call and the clock reading. On success: the cart is emptied, the error cleared, navigation to the success page with the transaction id. On a failure answer: the answer's error or the fixed fallback, cart and navigation untouched. On an exception: "An error occurred. Please try again.". Loading is off afterwards in every case; the form and line are unchanged |
| CheckoutPage.SubmittedCardFieldsRoundTrip | verse-monuments/app/checkout/page.tsx:108-110 | when each card field is a value its mask leaves unchanged, re-masking the sent number and expiry gives the displayed ones; the sent expiry and CVV are digits, at most four |
| CheckoutPage.SubmittedOrderValidates | verse-monuments/app/checkout/page.tsx:102 | the endpoint accepts the page's body exactly when the total does not round to 0 cents |
| CheckoutPage.ChargedWithinHalfCent | verse-monuments/app/checkout/page.tsx:102 | through endpoint and adapter, the processor is charged the page's total to within half a cent, in USD |
| CheckoutPage.RouteErrorsShownVerbatim | verse-monuments/app/checkout/page.tsx:136 | against this endpoint every failure answer has a non-empty error, so the page shows it rather than its own fallback |

## Left out

- Floating point: `subtotal * 0.0875`, `Math.round(total * 100)` and `amount / 100` are computed exactly on reals and integers. IEEE-754 rounding is not modelled.
- `fetch`, `response.json()`, `request.json()`, `process.env`, `parseInt`, `Date.now()` and `new Date().toISOString()` are parameters (functions or values), not I/O.
- `msrp` and `formatPrice` (`lib/pricing`) are not part of this model. `msrp` is an arbitrary function parameter; `formatPrice` only formats display text.
- The JSON body of the endpoint is loosely typed in the source. The model gives it typed optional fields:
  - the only falsy values recognised are absence and an `amount` of 0 (no `""`, `null`, `false` or `NaN` for `amount`, `cardData` or `billing`);
  - a body that cannot be parsed or destructured is one `Malformed` case that leads to status 500;
  - the processor's reply is reduced to the two fields the adapter reads.
- `console.error` logging, all JSX rendering, the empty-cart screen, and `e.preventDefault()`.
- The React plumbing:
  - state updates apply at once, not at the next render;
  - `handleChange` reads the current `formData`, not a stale closure;
  - `clearCart` and `router.push` are assignments to the `cart` and `navigation` fields (the cart context is not part of this model).
- CheckoutPage.Checkout.HandleSubmit: it takes the endpoint's answer as one atomic step. So the interleaving of other events while the request is pending (`loading` is true only during it) is not modelled.
- JavaScript strings are UTF-16. The model works on code points, so surrogate pairs are not modelled.
- The other pages and components (success page, partner pages, cart, header) are outside this model.
