# Order controller: payment set-up

A Dafny model of the `setUpStripe` action of a Strapi e-commerce backend's
order controller. The action receives a cart of `{id, qty}` lines, looks each
line up in the "package-item" catalog, builds a validated cart whose titles and
prices come from the catalog and whose quantities come from the client, totals
it in cents (sum of quantity × price, times 100), and asks the payment gateway
(Stripe) for a payment intent for that amount in `"usd"`, with the validated
cart as metadata. An unknown product fails the whole cart with "Cart contains
an invalid item"; a gateway failure returns the gateway's raw message.

Files:

- `catalog.dfy` (module `Catalog`): catalog records, cart lines, validated
  lines, and `PricedFrom`, the line-for-line relation between a cart and its
  validated cart.
- `pricing.dfy` (module `Pricing`): the reducer of the total as a left fold,
  an independent reference sum, and the lemmas about the total.
- `order_controller.dfy` (module `OrderController`): the validation loop, the
  classification of the gateway reply and the whole action.

The catalog lookup is a `map<ProductId, Product>` passed in; the payment
gateway is a function from the request to a reply (`Created(intent)`,
carrying the gateway's own intent object, which the action returns unchanged,
or `Failed(rawMessage)`), also passed in. `SetUpStripe` returns, besides the
response, the list of requests it sent to the gateway, so that "no payment
request is made" can be stated. Prices are integers in dollars and the amount
is an integer in cents.

The code performs no check that quantities are positive, although a positive
quantity is what a cart line is meant to carry; the model follows the code,
and `Pricing.NegativeQuantityLowersTotal` shows what a negative quantity does.

## Model

| member | source | states |
|---|---|---|
| `OrderController.ValidateCart` | api/order/controllers/order.js:19-35 | fails exactly when some cart line's id is not in the catalog, with the message "Cart contains an invalid item"; otherwise one validated line per cart line, in which id, title and price are the catalog record's and qty is the client's |
| `OrderController.Classify` | api/order/controllers/order.js:43-53 | a created intent is returned exactly as the gateway gave it; a gateway failure, and only that, becomes an error carrying the gateway's raw message |
| `OrderController.SetUpStripe` | api/order/controllers/order.js:10-56 | a validation error (with the invalid-item message, and no request sent) exactly when some line is unknown; otherwise exactly one request, for amount = total of the validated cart, currency "usd", metadata = the validated cart; the response is the gateway's reply to that request: its intent unchanged, or an error with its raw message |
| `OrderController.PricedFromUnique` | api/order/controllers/order.js:26-29 | the validated cart is fully determined by the catalog and the cart |
| `OrderController.AmountIndependentOfPushOrder` | api/order/controllers/order.js:19-41 | any order in which the concurrent lookups push the validated lines still has one line per cart line and yields the same amount, 100 × the sum over the cart |
| `OrderController.TwoAtTenDollars` | api/order/controllers/order.js:37-41 | two units of a 10-dollar product total 2000 cents |
| `Catalog.PricedKeepsIds` | api/order/controllers/order.js:21-28 | when the lookup returns the record with the requested id, every validated line keeps the client's id |
| `Pricing.ReduceIsSum` | api/order/controllers/order.js:38-40 | the left fold from an accumulator equals the accumulator plus the reference sum of quantity × price |
| `Pricing.Total` | api/order/controllers/order.js:37-41 | the amount is 100 × the sum of quantity × price over the lines, and 0 for an empty cart |
| `Pricing.SumAppend` | api/order/controllers/order.js:38-40 | the sum over two concatenated carts is the sum of their sums |
| `Pricing.TotalPush` | api/order/controllers/order.js:29 | pushing one more validated line adds 100 × its quantity × price |
| `Pricing.SumPermutation` | api/order/controllers/order.js:38-40 | two carts with the same lines in any order have the same sum |
| `Pricing.TotalPermutation` | api/order/controllers/order.js:37-41 | two carts with the same lines in any order have the same total |
| `Pricing.SumNonNegative` | api/order/controllers/order.js:38-40 | the sum is non-negative when every price and quantity is |
| `Pricing.TotalNonNegative` | api/order/controllers/order.js:37-41 | the total is non-negative when every price and quantity is |
| `Pricing.NegativeQuantityLowersTotal` | api/order/controllers/order.js:27-29 | a client quantity is used unchecked: a negative one on a positive-price line lowers the total |
| `Pricing.SumRemoveAt` | api/order/controllers/order.js:38-40 | removing one line takes exactly its quantity × price out of the sum |

## Left out

- The Stripe client and its network call (api/order/controllers/order.js:2, 44): the gateway is a function parameter from request to reply.
- The catalog service call `findOne` (api/order/controllers/order.js:21-25): the catalog is a map; a lookup that itself throws (a database error) is not modelled.
- The concurrency of `Promise.all` (api/order/controllers/order.js:19-20): lookups run as a sequential loop in cart order, and the nondeterministic push order is covered by the permutation lemmas on the total.
- The assignment of `qty` onto the fetched record (api/order/controllers/order.js:27): that record is a fresh copy used only to build the line, so only the line it produces is modelled.
- JSON serialisation of the metadata (api/order/controllers/order.js:48): the request carries the validated lines themselves.
- JavaScript numbers: prices and quantities are unbounded integers, so floating-point rounding of prices times 100 and coercion of non-numeric quantities are not modelled.
- A gateway error without a `raw` field, and a request body whose `cart` is not an array: both would raise a JavaScript type error caught by the outer handler; the model assumes every gateway failure carries a raw message and that the cart is a list.
- The remaining fields of the Stripe intent object: an intent is modelled by its id, amount, currency and metadata, and what the gateway puts in them is not constrained.
- OrderController.SetUpStripe: the request's metadata lists the validated lines in cart order; the code sends them in the order the concurrent lookups finish, a permutation of that order, so only order-independent facts (the total) carry over to the code.
- Error tags: the `GatewayErr` and `ValidationErr` tags of the response belong to the model; the code answers both with the same `{error: message}` shape, so a client cannot tell them apart by anything but the message.
- The marketing-contact relay (api/contact-email/controllers/contact-email.js), the cron stub (config/functions/cron.js) and the plugin configuration (config/plugins.js): forwarding and static configuration with no logic to verify.
- Order confirmation, duplicate detection and amount reconciliation: no code for them exists in these sources.
