# Checkout cart normaliser

A Dafny model of the one piece of logic in the checkout backend's
`/create-checkout-session` handler: the step that turns the client's
`products` array into payment-provider line items. The handler

- answers 400 "No products provided." when `products` is missing, not an
  array, or empty;
- otherwise maps every entry, in order, to a line item whose display name is
  `name`, else `title`, else `"Item " + (index + 1)`, whose price must be a
  finite number above zero and whose quantity (1 when absent or null) must be
  a positive integer; the unit amount is `Math.round(price * 100)` cents and
  the currency is always `usd`;
- aborts on the first invalid entry, price before quantity, and answers 500
  with a message naming that entry;
- hands the complete list to the provider's session call and answers with the
  session id and URL, or 500 if the provider fails.

Modules:

- `Wrappers` (`wrappers.dfy`): `Option` and `Result`.
- `Cart` (`cart.dfy`): the data model. `Number` is the value JavaScript's
  `Number(...)` yields (finite real, the two infinities, or NaN for anything
  that does not parse); `CartEntry`, `Products`, `LineItem`, `Rejection`.
- `Decimal` (`decimal.dfy`): decimal rendering of the position in
  `"Item N"`, with its inverse.
- `Normalizer` (`normalizer.dfy`): display-name resolution, rounding,
  per-entry validation, the fail-fast mapping and its properties.
- `Checkout` (`checkout.dfy`): the handler's response as a function of the
  normalisation result and of the provider's answer, a function parameter.
- `Scenarios` (`scenarios.dfy`): concrete carts.

Prices are exact reals: `Math.round(x * 100)` is modelled as
`Floor(x * 100 + 1/2)`, the nearest integer with halves rounded up, which is
what `Math.round` computes on exact values.

The handler answers 400 for a missing, non-array or empty list
(server.js:34-36) and 500 for an invalid entry or a provider failure
(server.js:72-76); `Checkout.Handle` models both status codes. The `??` at
server.js:41 applies the quantity default to `null` as well as to an absent
field.

## Model

| member | source | states |
|---|---|---|
| `Decimal.Render` | server.js:39 | The position rendered into `Item N` is a non-empty string of decimal digits with a leading zero only for zero. |
| `Decimal.ParseRender` | server.js:39 | Reading the rendered digits back gives the number, so rendering loses nothing. |
| `Decimal.RenderInjective` | server.js:39 | Distinct positions render to distinct digit strings. |
| `Normalizer.FirstTruthy` | server.js:39 | Ordered fallback over `a || b || fallback`: the result is the first non-empty candidate, or the fallback when every candidate is absent or empty. |
| `Normalizer.DisplayName` | server.js:39 | The resolved display name is never empty. |
| `Normalizer.DisplayNamePrecedence` | server.js:39 | The display name is the first truthy of `name`, `title`, with the position as last resort; without name and title it reads back as position `i + 1`. |
| `Normalizer.PlaceholderInjective` | server.js:39 | Two different entry positions never get the same placeholder name. |
| `Normalizer.PlaceholderRoundTrip` | server.js:39 | The placeholder `Item N` for index `i` carries position `i + 1` and can be decoded back to it. |
| `Normalizer.RoundHalfUp` | server.js:54 | `Math.round` yields the integer `n` with `n - 1/2 <= x < n + 1/2`: nearest integer, halves toward plus infinity. |
| `Normalizer.RoundHalfUpUnique` | server.js:54 | Any integer within that half-open interval is the rounding result, so the characterisation determines it. |
| `Normalizer.Cents` | server.js:54 | The cents amount is within half a cent of `price * 100` and is non-negative for a positive price. |
| `Normalizer.NormalizeEntry` | server.js:38-58 | An entry yields a line item iff its price is finite and positive and its quantity (1 when absent) is a positive integer; the item has currency `usd`, the display name, the price in cents and that quantity; a failure names the display name and is a price error exactly when the price is bad, so price is checked first. |
| `Normalizer.MapFrom` | server.js:38-58 | Mapping the remaining entries yields one item per entry and never fails with the empty-list error. |
| `Normalizer.Normalize` | server.js:33-38 | The empty-list error arises exactly for a missing, non-array or empty list; success yields as many items as entries. |
| `Normalizer.MapFromSucceedsIff` | server.js:38-58 | Mapping from index `i` succeeds iff every entry from `i` on is valid. |
| `Normalizer.MapFromItems` | server.js:38-58 | On success, output position `k - i` is exactly the line item of entry `k`. |
| `Normalizer.MapFromFirstInvalid` | server.js:38-48 | When entry `k` is the first invalid one from `i`, the mapping fails with entry `k`'s error. |
| `Normalizer.NormalizeSucceedsIff` | server.js:34-58 | A cart is accepted iff it is a non-empty list whose every entry is valid. |
| `Normalizer.NormalizeItems` | server.js:38-58 | On success item `k` comes from entry `k`: entry valid, currency `usd`, its display name, `round(price * 100)`, its quantity (1 when absent), unit amount non-negative, quantity at least 1. |
| `Normalizer.NormalizeFailsAtFirstInvalid` | server.js:38-48 | The lowest-index invalid entry decides the rejection: an invalid price when its price is bad, otherwise an invalid quantity, naming its display name. |
| `Normalizer.NormalizeFailureHasCause` | server.js:38-48 | Every rejection of a non-empty list is the error of some entry that is the first invalid one. |
| `Normalizer.FailFastIgnoresLaterEntries` | server.js:38-48 | Appending entries to a rejected cart does not change the rejection: nothing after the failing entry is examined. |
| `Normalizer.AcceptedPrefix` | server.js:38-58 | If a cart is accepted, every non-empty prefix is accepted with the corresponding prefix of the items: no partial or reordered output. |
| `Checkout.Handle` | server.js:31-77 | Status is 200, 400 or 500; 400 exactly for the empty-list error; 200 exactly when normalisation succeeds and the provider creates a session on those items, returning its id and url; a rejection is reported in the error body. |
| `Checkout.RejectionSkipsProvider` | server.js:38-60 | When normalisation fails the response does not depend on the provider, which is only called after success. |
| `Checkout.EntryRejectionIsServerError` | server.js:43-76 | An invalid entry yields status 500 with an error naming the first invalid entry, its price error before its quantity error. |
| `Scenarios.MugIsPricedInCents` | server.js:50-57 | A mug at 9.99 with quantity 2 becomes one `usd` item of 999 cents and quantity 2. |
| `Scenarios.NegativePriceIsRejected` | server.js:43-45 | A price of -5 is rejected as an invalid price naming the title "Book". |
| `Scenarios.EmptyCartIsRejected` | server.js:34-36 | An empty, absent or non-array list gives the no-products error. |
| `Scenarios.NamelessEntryGetsPosition` | server.js:39-41 | An entry with an empty name at index 1 is called "Item 2" and its missing quantity counts as 1. |
| `Scenarios.TinyPriceRoundsToZero` | server.js:43-54 | A positive price of 0.004 passes validation and becomes 0 cents. |
| `Scenarios.PriceIsCheckedBeforeQuantity` | server.js:43-48 | An entry bad in both reports its price; a quantity of 1.5 alone is an invalid quantity. |

## Left out

- Server set-up, CORS, JSON body parsing, the port and `app.listen`: HTTP plumbing.
- The start-up check for the provider secret and `process.exit`: process configuration.
- The provider client and its session call: a foreign network SDK, modelled only as the `createSession` parameter of `Checkout.Handle`; its other arguments (mode, redirect URLs, billing-address and promotion flags) are not modelled.
- JavaScript's `Number(...)` coercion of arbitrary JSON values: the model takes its result as the `Number` datatype.
- IEEE-754 double arithmetic: `price * 100` is exact, so float effects such as 1.005 giving 100 cents, and overflow of a huge price to an infinite amount, are not modelled.
- Non-string `name` or `title` values (numbers, objects), which JavaScript would also accept when truthy: names are optional strings.
- The text of error messages, including the raw offending value and the `"Internal server error"` fallback: the model keeps the error kind and the entry's display name.
- Logging to the console.
