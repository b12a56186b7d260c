/**
 * The create-payment-intent route: it rejects an empty order, prices every
 * line item from the catalog (never from the client), adds a fixed shipping
 * charge, and asks the payment gateway to open a payment intent for that
 * amount. The gateway is an object whose replies are fixed by a function of
 * the amount and which logs every intent it is asked to create.
 */
module Payment {
  import opened Types

  /** The fixed shipping charge, in cents ($5.00). */
  const Shipping: int := 500

  /** The error returned for a request without items. */
  const NoItemsMessage: string := "No items in cart"

  /** One entry of the request's `items`: the product identity and how many. */
  datatype LineItem = LineItem(id: int, quantity: int)

  /** What the route computes: a rejection, or the amount to charge in cents. */
  datatype Charge = BadRequest(message: string) | Amount(cents: int)

  /**
   * `products.find(p => p.id === id)`: the first catalog product with that
   * identity, or none at all.
   */
  function FindProduct(catalog: seq<Product>, id: int): (r: Option<Product>)
    ensures r.None? <==> forall k :: 0 <= k < |catalog| ==> catalog[k].id != id
    ensures r.Some? ==>
              r.value.id == id &&
              exists k :: 0 <= k < |catalog| && catalog[k] == r.value &&
                forall j :: 0 <= j < k ==> catalog[j].id != id
  {
    if catalog == [] then None
    else if catalog[0].id == id then Some(catalog[0])
    else
      var r := FindProduct(catalog[1..], id);
      assert r.Some? ==> exists k :: 0 <= k < |catalog| && catalog[k] == r.value &&
                           forall j :: 0 <= j < k ==> catalog[j].id != id
      by {
        if r.Some? {
          var k :| 0 <= k < |catalog[1..]| && catalog[1..][k] == r.value &&
                   forall j :: 0 <= j < k ==> catalog[1..][j].id != id;
          assert catalog[k + 1] == r.value;
          forall j | 0 <= j < k + 1 ensures catalog[j].id != id {
            if j > 0 {
              assert catalog[j] == catalog[1..][j - 1];
            }
          }
        }
      }
      r
  }

  /** `Math.round(product.price * 100)`: prices are already held in cents. */
  function Cents(product: Product): int {
    product.price
  }

  /**
   * What one line item adds to the total: the price of the first catalog
   * product with its id times its quantity. An id missing from the catalog
   * adds 0, and nothing is negative when quantity and prices are not.
   */
  function Contribution(item: LineItem, catalog: seq<Product>): (c: int)
    ensures (forall k :: 0 <= k < |catalog| ==> catalog[k].id != item.id) ==> c == 0
    ensures item.quantity >= 0 && NonNegativePrices(catalog) ==> c >= 0
    ensures c != 0 ==> exists k :: 0 <= k < |catalog| && catalog[k].id == item.id && c == catalog[k].price * item.quantity
  {
    match FindProduct(catalog, item.id)
    case Some(product) =>
      assert product.price >= 0 && item.quantity >= 0 ==> product.price * item.quantity >= 0;
      Cents(product) * item.quantity
    case None => 0
  }

  /**
   * The items total, accumulated in request order: 0 for no items, and never
   * negative when quantities and prices are not.
   */
  function Subtotal(items: seq<LineItem>, catalog: seq<Product>): (s: int)
    ensures items == [] ==> s == 0
    ensures NonNegativeQuantities(items) && NonNegativePrices(catalog) ==> s >= 0
  {
    if items == [] then 0
    else
      var init := items[..|items| - 1];
      assert forall i :: 0 <= i < |init| ==> init[i] == items[i];
      Subtotal(init, catalog) + Contribution(items[|items| - 1], catalog)
  }

  /**
   * The validation and total computation of `POST`: a missing or empty item
   * list is a bad request; otherwise every item is priced from the catalog
   * and the shipping charge is added.
   */
  method ComputeAmount(items: Option<seq<LineItem>>, catalog: seq<Product>) returns (charge: Charge)
    ensures charge.BadRequest? <==> items.None? || items.value == []
    ensures charge.BadRequest? ==> charge.message == NoItemsMessage
    ensures charge.Amount? ==> charge.cents == Subtotal(items.value, catalog) + Shipping
    ensures charge.Amount? && catalog == [] ==> charge.cents == Shipping
    ensures charge.Amount? && NonNegativeQuantities(items.value) && NonNegativePrices(catalog) ==>
              charge.cents >= Shipping
  {
    if items.None? || |items.value| == 0 {
      return BadRequest(NoItemsMessage);
    }
    var lines := items.value;
    var total := 0;
    for i := 0 to |lines|
      invariant total == Subtotal(lines[..i], catalog)
    {
      var product := FindProduct(catalog, lines[i].id);
      if product.Some? {
        total := total + Cents(product.value) * lines[i].quantity;
      }
      assert lines[..i + 1][..i] == lines[..i];
    }
    assert lines[..|lines|] == lines;
    if catalog == [] {
      SubtotalEmptyCatalog(lines);
    }
    charge := Amount(total + Shipping);
  }

  /** Every requested quantity is at least zero. */
  predicate NonNegativeQuantities(items: seq<LineItem>) {
    forall i :: 0 <= i < |items| ==> items[i].quantity >= 0
  }

  /** Every catalog price is at least zero. */
  predicate NonNegativePrices(catalog: seq<Product>) {
    forall k :: 0 <= k < |catalog| ==> catalog[k].price >= 0
  }

  /** No two catalog products share an identity. */
  predicate UniqueCatalog(catalog: seq<Product>) {
    forall j, k :: 0 <= j < k < |catalog| ==> catalog[j].id != catalog[k].id
  }

  // ----- Lemmas about the total -----

  /** The total of two item lists sent one after the other is the sum of their totals. */
  lemma {:induction false} SubtotalAppend(a: seq<LineItem>, b: seq<LineItem>, catalog: seq<Product>)
    ensures Subtotal(a + b, catalog) == Subtotal(a, catalog) + Subtotal(b, catalog)
  {
    if b == [] {
      assert a + b == a;
    } else {
      var init := b[..|b| - 1];
      assert (a + b)[..|a + b| - 1] == a + init;
      assert (a + b)[|a + b| - 1] == b[|b| - 1];
      SubtotalAppend(a, init, catalog);
    }
  }

  /** An item whose product is not in the catalog adds nothing and does not disturb the rest. */
  lemma MissingItemIgnored(a: seq<LineItem>, missing: LineItem, b: seq<LineItem>, catalog: seq<Product>)
    requires FindProduct(catalog, missing.id).None?
    ensures Subtotal(a + [missing] + b, catalog) == Subtotal(a + b, catalog)
  {
    SubtotalAppend(a + [missing], b, catalog);
    SubtotalAppend(a, [missing], catalog);
    SubtotalAppend(a, b, catalog);
    assert [missing][..0] == [];
  }

  /** Against an empty catalog (the fallback of a failed fetch) no item is charged. */
  lemma {:induction false} SubtotalEmptyCatalog(items: seq<LineItem>)
    ensures Subtotal(items, []) == 0
  {
    if items != [] {
      SubtotalEmptyCatalog(items[..|items| - 1]);
    }
  }

  // ----- The same total, summed over the catalog -----

  /** How many units of product `id` the request asks for, over all its items. */
  function OrderedQuantity(items: seq<LineItem>, id: int): int {
    if items == [] then 0
    else
      var last := items[|items| - 1];
      OrderedQuantity(items[..|items| - 1], id) + (if last.id == id then last.quantity else 0)
  }

  /** Each catalog product's price times the quantity ordered of it. */
  function CatalogCharge(catalog: seq<Product>, items: seq<LineItem>): int {
    if catalog == [] then 0
    else Cents(catalog[0]) * OrderedQuantity(items, catalog[0].id) + CatalogCharge(catalog[1..], items)
  }

  /** Adding one item to the request adds its contribution to the per-product sum. */
  lemma {:induction false} CatalogChargeStep(catalog: seq<Product>, init: seq<LineItem>, item: LineItem)
    requires UniqueCatalog(catalog)
    ensures CatalogCharge(catalog, init + [item]) == CatalogCharge(catalog, init) + Contribution(item, catalog)
  {
    if catalog != [] {
      var head, tail := catalog[0], catalog[1..];
      assert UniqueCatalog(tail) by {
        forall j, k | 0 <= j < k < |tail| ensures tail[j].id != tail[k].id {
          assert tail[j] == catalog[j + 1] && tail[k] == catalog[k + 1];
        }
      }
      CatalogChargeStep(tail, init, item);
      var items := init + [item];
      assert items[..|items| - 1] == init;
      var extra := if item.id == head.id then item.quantity else 0;
      assert OrderedQuantity(items, head.id) == OrderedQuantity(init, head.id) + extra;
      assert Cents(head) * (OrderedQuantity(init, head.id) + extra)
          == Cents(head) * OrderedQuantity(init, head.id) + Cents(head) * extra;
      if item.id == head.id {
        assert FindProduct(tail, item.id).None? by {
          forall k | 0 <= k < |tail| ensures tail[k].id != item.id {
            assert tail[k] == catalog[k + 1];
          }
        }
      }
    }
  }

  /**
   * When catalog identities are unique, the amount charged for the items is
   * the sum over catalog products of price times quantity ordered: each item
   * is priced by its own product, and unknown products are not charged.
   */
  lemma {:induction false} SubtotalByCatalog(items: seq<LineItem>, catalog: seq<Product>)
    requires UniqueCatalog(catalog)
    ensures Subtotal(items, catalog) == CatalogCharge(catalog, items)
  {
    if items == [] {
      CatalogChargeEmpty(catalog);
    } else {
      var init := items[..|items| - 1];
      SubtotalByCatalog(init, catalog);
      assert init + [items[|items| - 1]] == items;
      CatalogChargeStep(catalog, init, items[|items| - 1]);
    }
  }

  /** With no items nothing is ordered, so the per-product sum is 0. */
  lemma {:induction false} CatalogChargeEmpty(catalog: seq<Product>)
    ensures CatalogCharge(catalog, []) == 0
  {
    if catalog != [] {
      CatalogChargeEmpty(catalog[1..]);
    }
  }

  // ----- The gateway and the route -----

  /** The gateway's answer to a request for a payment intent. */
  datatype GatewayReply = IntentCreated(clientSecret: string) | GatewayError(message: string)

  /** The payment gateway: its replies depend on the amount; it logs every intent it opens. */
  class PaymentGateway {
    /** The amounts of the payment intents requested so far, in order. */
    var created: seq<int>
    const reply: int -> GatewayReply

    constructor (reply: int -> GatewayReply)
      ensures created == [] && this.reply == reply
    {
      created := [];
      this.reply := reply;
    }

    /** `stripe.paymentIntents.create({amount, currency: 'usd', ...})`. */
    method CreatePaymentIntent(amount: int) returns (r: GatewayReply)
      modifies this
      ensures created == old(created) + [amount]
      ensures r == reply(amount)
    {
      created := created + [amount];
      r := reply(amount);
    }
  }

  /** The request body: unreadable JSON, or an object whose `items` may be missing. */
  datatype RequestBody = Unreadable(message: string) | Body(items: Option<seq<LineItem>>)

  /** The JSON body the route answers with. */
  datatype ResponseBody = ClientSecret(secret: string) | Error(message: string)

  /** An HTTP status with its JSON body. */
  datatype Response = Response(status: int, body: ResponseBody)

  /**
   * The catalog the route prices from: `fetchAPI` answers a failed request
   * with `{data: []}`, so a failed fetch gives the empty catalog; a
   * successful one gives the fetched products and no others.
   */
  function CatalogOf(fetched: Option<seq<Product>>): (catalog: seq<Product>)
    ensures fetched.None? ==> catalog == []
    ensures forall p :: p in catalog ==> fetched.Some? && p in fetched.value
  {
    if fetched.Some? then fetched.value else []
  }

  /**
   * `POST /api/create-payment-intent`. `fetched` is the catalog fetch's
   * outcome (`None` when the request failed). No intent is opened for an
   * unreadable or empty request; otherwise exactly one is opened, for the
   * computed amount, and the gateway's answer decides the response.
   */
  method Post(request: RequestBody, fetched: Option<seq<Product>>, gateway: PaymentGateway)
    returns (response: Response)
    modifies gateway
    ensures request.Unreadable? ==>
              response == Response(500, Error(request.message)) && gateway.created == old(gateway.created)
    ensures request.Body? && (request.items.None? || request.items.value == []) ==>
              response == Response(400, Error(NoItemsMessage)) && gateway.created == old(gateway.created)
    ensures request.Body? && request.items.Some? && request.items.value != [] ==>
              var amount := Subtotal(request.items.value, CatalogOf(fetched)) + Shipping;
              gateway.created == old(gateway.created) + [amount] &&
              (fetched.None? ==> amount == Shipping) &&
              response == match gateway.reply(amount)
                          case IntentCreated(secret) => Response(200, ClientSecret(secret))
                          case GatewayError(message) => Response(500, Error(message))
  {
    if request.Unreadable? {
      return Response(500, Error(request.message));
    }
    var charge := ComputeAmount(request.items, CatalogOf(fetched));
    if charge.BadRequest? {
      return Response(400, Error(charge.message));
    }
    var reply := gateway.CreatePaymentIntent(charge.cents);
    match reply
    case IntentCreated(secret) =>
      response := Response(200, ClientSecret(secret));
    case GatewayError(message) =>
      response := Response(500, Error(message));
  }
}
