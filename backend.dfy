/**
 * The route handlers of the cart and payment backend, acting on one store.
 * Each handler answers with the HTTP status code the route sends; the JSON
 * bodies are reduced to the values they carry.
 */
module Backend {
  import opened Tables
  import opened Pricing

  /** What the payment provider's order-creation call gave back. */
  datatype ProviderReply =
    | Responded(status: int, paymentId: Option<string>)
    | Unreachable

  /** The fields of a webhook notification that the reconciler reads. */
  datatype Notification = Notification(paymentId: string, status: Option<string>)

  class Store {
    /** The catalog, keyed by product id; no handler writes it. */
    const products: map<int, Product>
    /** The cart table, in store order. */
    var cart: seq<CartLine>
    /** The order table, in store order. */
    var orders: seq<Order>

    /**
     * A freshly synced store: the cart and order tables are created empty.
     * The catalog is given; the program itself never fills it.
     */
    constructor (catalog: map<int, Product>)
      ensures products == catalog && cart == [] && orders == []
    {
      products := catalog;
      cart := [];
      orders := [];
    }

    /**
     * The cart total of a user: the user's lines are read, then each line's
     * product is looked up and its price times the quantity added. A line
     * whose product does not exist makes the lookup yield nothing and the
     * computation fail.
     */
    method CalculateCartTotal(userId: int) returns (total: Option<int>)
      ensures total.Some? <==> AllPriced(UserLines(cart, userId), products)
      ensures total.Some? ==> total.value == Sum(UserLines(cart, userId), products)
      ensures total == CartTotal(cart, products, userId)
    {
      var items := UserLines(cart, userId);
      var sum := 0;
      var i := 0;
      while i < |items|
        invariant 0 <= i <= |items|
        invariant AllPriced(items[..i], products)
        invariant sum == Sum(items[..i], products)
      {
        var item := items[i];
        if item.productId !in products {
          return None;
        }
        sum := sum + products[item.productId].price * item.quantity;
        assert items[..i + 1][..i] == items[..i];
        i := i + 1;
      }
      assert items[..i] == items;
      return Some(sum);
    }

    /** POST /cart: creates one new cart row; a missing or null field fails the not-null check with 400. */
    method AddToCart(userId: Option<int>, productId: Option<int>, quantity: Option<int>)
      returns (status: int, created: Option<CartLine>)
      modifies this
      ensures orders == old(orders)
      ensures userId.Some? && productId.Some? && quantity.Some? ==>
                status == 201
                && created == Some(CartLine(userId.value, productId.value, quantity.value))
                && cart == old(cart) + [created.value]
      ensures !(userId.Some? && productId.Some? && quantity.Some?) ==>
                status == 400 && created == None && cart == old(cart)
    {
      if userId.Some? && productId.Some? && quantity.Some? {
        var line := CartLine(userId.value, productId.value, quantity.value);
        cart := cart + [line];
        status, created := 201, Some(line);
      } else {
        status, created := 400, None;
      }
    }

    /**
     * GET /cart/:userId: one entry per line of the user, in store order,
     * built up line by line; a line whose product does not exist fails the
     * whole request with 400.
     */
    method FetchCart(userId: int) returns (status: int, entries: seq<CartEntry>)
      ensures status == 200 <==> AllPriced(UserLines(cart, userId), products)
      ensures status != 200 ==> status == 400 && entries == []
      ensures status == 200 ==> entries == Entries(UserLines(cart, userId), products)
      ensures status == 200 ==> CartView(cart, products, userId) == Some(entries)
    {
      var items := UserLines(cart, userId);
      var details := [];
      var i := 0;
      while i < |items|
        invariant 0 <= i <= |items|
        invariant AllPriced(items[..i], products)
        invariant details == Entries(items[..i], products)
      {
        var item := items[i];
        if item.productId !in products {
          return 400, [];
        }
        details := details + [EntryOf(item, products)];
        assert items[..i + 1][..i] == items[..i];
        i := i + 1;
      }
      assert items[..i] == items;
      return 200, details;
    }

    /**
     * PUT /cart: the first row of (userId, productId) gets the new quantity
     * and is saved; no such row gives 404. A missing quantity fails the
     * save's not-null check with 400.
     */
    method UpdateCart(userId: int, productId: int, quantity: Option<int>)
      returns (status: int, updated: Option<CartLine>)
      modifies this
      ensures orders == old(orders)
      ensures FirstMatch(old(cart), userId, productId).None? ==>
                status == 404 && updated == None && cart == old(cart)
      ensures FirstMatch(old(cart), userId, productId).Some? && quantity.None? ==>
                status == 400 && updated == None && cart == old(cart)
      ensures FirstMatch(old(cart), userId, productId).Some? && quantity.Some? ==>
                var i := FirstMatch(old(cart), userId, productId).value;
                status == 200
                && cart == SetQuantity(old(cart), i, quantity.value)
                && |cart| == |old(cart)|
                && cart[i] == CartLine(userId, productId, quantity.value)
                && (forall j :: 0 <= j < |cart| && j != i ==> cart[j] == old(cart)[j])
                && updated == Some(cart[i])
    {
      match FirstMatch(cart, userId, productId)
      case None =>
        status, updated := 404, None;
      case Some(i) =>
        if quantity.None? {
          status, updated := 400, None;
        } else {
          cart := SetQuantity(cart, i, quantity.value);
          status, updated := 200, Some(cart[i]);
        }
    }

    /** DELETE /cart: the first row of (userId, productId) is destroyed; no such row gives 404. */
    method RemoveFromCart(userId: int, productId: int) returns (status: int)
      modifies this
      ensures orders == old(orders)
      ensures FirstMatch(old(cart), userId, productId).None? ==> status == 404 && cart == old(cart)
      ensures FirstMatch(old(cart), userId, productId).Some? ==>
                var i := FirstMatch(old(cart), userId, productId).value;
                status == 200
                && cart == RemoveAt(old(cart), i)
                && cart[..i] == old(cart)[..i]
                && cart[i..] == old(cart)[i + 1..]
                && multiset(cart) + multiset{old(cart)[i]} == multiset(old(cart))
    {
      match FirstMatch(cart, userId, productId)
      case None =>
        status := 404;
      case Some(i) =>
        ghost var before := cart;
        cart := RemoveAt(cart, i);
        assert before == before[..i] + [before[i]] + before[i + 1..];
        status := 200;
    }

    /**
     * POST /payment/initiate: the user's cart total is computed and sent to
     * the provider as the order amount; only a 200 reply stores a new order,
     * Pending, with that total and the provider's payment id. Every failure
     * (the total, the provider call, a reply other than 200) answers 400.
     * A null userId matches no cart row (the column is not null), so the
     * provider is asked for 0; the order create then fails its not-null
     * check, so that request answers 400 whatever the provider replied.
     * The cart is never touched.
     */
    method InitiatePayment(userId: Option<int>, reply: ProviderReply) returns (status: int, requested: Option<int>)
      modifies this
      ensures cart == old(cart)
      ensures userId.Some? ==> requested == CartTotal(cart, products, userId.value)
      ensures userId.None? ==> requested == Some(0)
      ensures status == 200 <==> userId.Some? && requested.Some? && reply.Responded? && reply.status == 200
      ensures status != 200 ==> status == 400 && orders == old(orders)
      ensures status == 200 ==>
                orders == old(orders) + [Order(userId.value, requested.value, Pending, reply.paymentId)]
    {
      if userId.None? {
        // The cart query on a null userId finds no rows: the total is 0.
        return 400, Some(0);
      }
      requested := CalculateCartTotal(userId.value);
      if requested.None? {
        return 400, requested;
      }
      if reply.Responded? && reply.status == 200 {
        orders := orders + [Order(userId.value, requested.value, DefaultPaymentStatus, reply.paymentId)];
        status := 200;
      } else {
        status := 400;
      }
    }

    /**
     * POST /payment/webhook: the header signature must equal the one computed
     * over the payload; the first order with the notified payment id then
     * becomes SUCCESS or FAILED. A bad signature answers 400, an unknown
     * payment id 404, and neither changes an order.
     */
    method Webhook(notification: Notification, signature: Option<string>, computedSignature: string)
      returns (status: int)
      modifies this
      ensures cart == old(cart)
      ensures signature != Some(computedSignature) ==> status == 400 && orders == old(orders)
      ensures signature == Some(computedSignature) && FirstOrder(old(orders), notification.paymentId).None? ==>
                status == 404 && orders == old(orders)
      ensures signature == Some(computedSignature) && FirstOrder(old(orders), notification.paymentId).Some? ==>
                var i := FirstOrder(old(orders), notification.paymentId).value;
                status == 200
                && orders == SetStatus(old(orders), i, ReconciledStatus(notification.status))
                && |orders| == |old(orders)|
                && orders[i] == old(orders)[i].(paymentStatus := ReconciledStatus(notification.status))
                && (forall j :: 0 <= j < |orders| && j != i ==> orders[j] == old(orders)[j])
    {
      if signature != Some(computedSignature) {
        return 400;
      }
      match FirstOrder(orders, notification.paymentId)
      case None =>
        status := 404;
      case Some(i) =>
        orders := SetStatus(orders, i, ReconciledStatus(notification.status));
        status := 200;
    }
  }

  /** The catalog of the purchase scenario: product 1 costs 10.00, product 2 costs 5.50. */
  function SampleCatalog(): map<int, Product> {
    map[1 := Product("A", 1000, 5), 2 := Product("B", 550, 5)]
  }

  /** Two of product 1 and one of product 2 in user 1's cart cost 25.50. */
  lemma SampleCartTotal()
    ensures CartTotal([CartLine(1, 1, 2), CartLine(1, 2, 1)], SampleCatalog(), 1) == Some(2550)
  {
    var first, second := CartLine(1, 1, 2), CartLine(1, 2, 1);
    NoLinesTotalsZero([], SampleCatalog(), 1);
    assert [] + [first] == [first];
    AddRaisesOwnTotal([], SampleCatalog(), first);
    assert [first] + [second] == [first, second];
    AddRaisesOwnTotal([first], SampleCatalog(), second);
  }

  /**
   * A whole purchase: user 1 puts product 1 (10.00) twice and product 2
   * (5.50) once in the cart, pays 25.50, and the provider confirms with a
   * correctly signed SUCCESS notification.
   */
  method Purchase(paymentId: string, signature: string) returns (order: Order)
    ensures order == Order(1, 2550, Success, Some(paymentId))
  {
    var store := new Store(SampleCatalog());
    var status, line := store.AddToCart(Some(1), Some(1), Some(2));
    status, line := store.AddToCart(Some(1), Some(2), Some(1));
    assert store.cart == [CartLine(1, 1, 2), CartLine(1, 2, 1)];
    SampleCartTotal();
    var requested;
    status, requested := store.InitiatePayment(Some(1), Responded(200, Some(paymentId)));
    assert store.orders == [Order(1, 2550, Pending, Some(paymentId))];
    status := store.Webhook(Notification(paymentId, Some("SUCCESS")), Some(signature), signature);
    order := store.orders[0];
  }
}
