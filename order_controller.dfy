/**
 * The order controller's `setUpStripe` action: validate the posted cart
 * against the catalog, total it in cents, and ask the payment gateway
 * for a payment intent, classifying what comes back.
 */
module OrderController {
  import opened Catalog
  import opened Pricing

  const InvalidItemMessage := "Cart contains an invalid item"
  const Currency := "usd"

  /** What is sent to the gateway; the metadata is the validated cart. */
  datatype PaymentRequest = PaymentRequest(amount: int, currency: string, metadata: seq<PricedLine>)

  /** The payment intent object the gateway creates, as far as it is modelled. */
  datatype PaymentIntent = PaymentIntent(id: string, amount: int, currency: string, metadata: seq<PricedLine>)

  /** What the gateway does with a request: create an intent, or fail with a raw error message. */
  datatype GatewayReply = Created(intent: PaymentIntent) | Failed(rawMessage: string)

  /**
   * The controller's response. Both errors reach the client as the same
   * `{error: message}` shape; the two tags only record which handler
   * produced the message.
   */
  datatype Outcome =
    | Intent(intent: PaymentIntent)
    | GatewayErr(msg: string)
    | ValidationErr(msg: string)

  datatype Validation = Validated(lines: seq<PricedLine>) | Invalid(msg: string)

  /**
   * Looks every cart line up in the catalog and pushes a validated line
   * for it; the first unknown id fails the whole cart.
   */
  method ValidateCart(catalog: map<ProductId, Product>, cart: seq<CartLine>) returns (v: Validation)
    ensures v.Invalid? <==> !AllKnown(catalog, cart)
    ensures v.Invalid? ==> v.msg == InvalidItemMessage
    ensures v.Validated? ==> PricedFrom(catalog, cart, v.lines)
  {
    var validated: seq<PricedLine> := [];
    var i := 0;
    while i < |cart|
      invariant 0 <= i <= |cart|
      invariant PricedFrom(catalog, cart[..i], validated)
    {
      var line := cart[i];
      if line.id !in catalog {
        return Invalid(InvalidItemMessage);
      }
      var product := catalog[line.id];
      validated := validated + [PricedLine(product.id, product.title, product.price, line.qty)];
      i := i + 1;
      assert cart[..i] == cart[..i - 1] + [line];
    }
    assert cart[..i] == cart;
    return Validated(validated);
  }

  /**
   * The response for a gateway reply: the created intent is returned as the
   * gateway gave it, a gateway failure as its raw message.
   */
  function Classify(reply: GatewayReply): (out: Outcome)
    ensures out.Intent? <==> reply.Created?
    ensures out.Intent? ==> out.intent == reply.intent
    ensures out.GatewayErr? <==> reply.Failed?
    ensures out.GatewayErr? ==> out.msg == reply.rawMessage
  {
    match reply
    case Created(intent) => Intent(intent)
    case Failed(message) => GatewayErr(message)
  }

  /**
   * The whole action. `gateway` stands for the payment service; `sent`
   * lists the requests made to it.
   */
  method SetUpStripe(catalog: map<ProductId, Product>, cart: seq<CartLine>, gateway: PaymentRequest -> GatewayReply)
    returns (out: Outcome, sent: seq<PaymentRequest>)
    ensures out.ValidationErr? <==> !AllKnown(catalog, cart)
    ensures out.ValidationErr? ==> out.msg == InvalidItemMessage && sent == []
    ensures !out.ValidationErr? ==>
      && |sent| == 1
      && PricedFrom(catalog, cart, sent[0].metadata)
      && sent[0].amount == Total(sent[0].metadata)
      && sent[0].currency == Currency
      && out == Classify(gateway(sent[0]))
    ensures out.Intent? ==> gateway(sent[0]) == Created(out.intent)
    ensures out.GatewayErr? ==> gateway(sent[0]) == Failed(out.msg)
  {
    var v := ValidateCart(catalog, cart);
    match v
    case Invalid(message) =>
      out, sent := ValidationErr(message), [];
    case Validated(lines) =>
      var total := Total(lines);
      var request := PaymentRequest(total, Currency, lines);
      out, sent := Classify(gateway(request)), [request];
  }

  /** Pricing a cart against a catalog determines the validated lines completely. */
  lemma PricedFromUnique(catalog: map<ProductId, Product>, cart: seq<CartLine>, a: seq<PricedLine>, b: seq<PricedLine>)
    requires PricedFrom(catalog, cart, a) && PricedFrom(catalog, cart, b)
    ensures a == b
  {
  }

  /**
   * Lookups finishing in another order push the same lines in another
   * order: still one line per cart line, and the amount asked for is the same.
   */
  lemma AmountIndependentOfPushOrder(catalog: map<ProductId, Product>, cart: seq<CartLine>, lines: seq<PricedLine>, pushed: seq<PricedLine>)
    requires PricedFrom(catalog, cart, lines) && multiset(pushed) == multiset(lines)
    ensures |pushed| == |cart|
    ensures Total(pushed) == CentsPerDollar * Sum(lines)
  {
    assert |pushed| == |multiset(pushed)| == |multiset(lines)| == |lines|;
    TotalPermutation(pushed, lines);
  }

  /** One product at 10 dollars, quantity 2: the intent is for 2000 cents. */
  lemma TwoAtTenDollars()
    ensures Total([PricedLine(1, "A", 10, 2)]) == 2000
  {
  }
}
