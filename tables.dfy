/**
 * The rows of the backend's store and the row queries its route handlers
 * issue. The store is seen as three tables: the product catalog (read-only
 * here), the cart lines and the orders. A table is a sequence of rows in
 * store (insertion) order; the catalog is a map from product id to row.
 * Money is kept in integer minor units.
 */
module Tables {

  datatype Option<T> = None | Some(value: T)

  /** A catalog row; its id is the key it is stored under. */
  datatype Product = Product(name: string, price: int, stock: int)

  /** A cart row. Nothing ties (userId, productId) to one row: repeated adds give duplicates. */
  datatype CartLine = CartLine(userId: int, productId: int, quantity: int)

  datatype PaymentStatus = Pending | Success | Failed

  /** An order row. The provider may leave out payment_id, so the column is nullable. */
  datatype Order = Order(userId: int, totalAmount: int, paymentStatus: PaymentStatus, paymentId: Option<string>)

  /** The status an order gets when it is created: the column default. */
  const DefaultPaymentStatus: PaymentStatus := Pending

  // ---------------------------------------------------------------------------
  // Cart queries
  // ---------------------------------------------------------------------------

  /** `findAll` on the cart table filtered by user: that user's lines, in store order. */
  function UserLines(cart: seq<CartLine>, userId: int): (r: seq<CartLine>)
    ensures |r| <= |cart|
    ensures forall k :: 0 <= k < |r| ==> r[k].userId == userId
  {
    if cart == [] then []
    else
      var last := cart[|cart| - 1];
      UserLines(cart[..|cart| - 1], userId) + (if last.userId == userId then [last] else [])
  }

  /** A row is among its user's lines exactly when it is in the cart. */
  lemma {:induction false} UserLinesMembers(cart: seq<CartLine>, userId: int, line: CartLine)
    ensures line in UserLines(cart, userId) <==> line in cart && line.userId == userId
  {
    if cart != [] {
      var init := cart[..|cart| - 1];
      UserLinesMembers(init, userId, line);
      assert cart == init + [cart[|cart| - 1]];
    }
  }

  predicate Matches(line: CartLine, userId: int, productId: int) {
    line.userId == userId && line.productId == productId
  }

  /** `findOne` on the cart table by (userId, productId): the position of the first matching row. */
  function FirstMatch(cart: seq<CartLine>, userId: int, productId: int): (r: Option<nat>)
    ensures r.Some? ==> r.value < |cart| && Matches(cart[r.value], userId, productId)
    ensures r.Some? ==> forall j :: 0 <= j < r.value ==> !Matches(cart[j], userId, productId)
    ensures r.None? <==> forall j :: 0 <= j < |cart| ==> !Matches(cart[j], userId, productId)
  {
    if cart == [] then None
    else if Matches(cart[0], userId, productId) then Some(0)
    else match FirstMatch(cart[1..], userId, productId)
      case None => None
      case Some(k) => Some(k + 1)
  }

  /** The cart with row `i` taken out; the other rows keep their order. */
  function RemoveAt(cart: seq<CartLine>, i: nat): (r: seq<CartLine>)
    requires i < |cart|
    ensures |r| == |cart| - 1
    ensures forall j :: 0 <= j < i ==> r[j] == cart[j]
    ensures forall j :: i <= j < |r| ==> r[j] == cart[j + 1]
    ensures multiset(r) + multiset{cart[i]} == multiset(cart)
  {
    assert cart == cart[..i] + [cart[i]] + cart[i + 1..];
    cart[..i] + cart[i + 1..]
  }

  /** The cart with the quantity of row `i` set to `quantity`; no other row and no other column changes. */
  function SetQuantity(cart: seq<CartLine>, i: nat, quantity: int): (r: seq<CartLine>)
    requires i < |cart|
    ensures |r| == |cart|
    ensures r[i].userId == cart[i].userId && r[i].productId == cart[i].productId && r[i].quantity == quantity
    ensures forall j :: 0 <= j < |cart| && j != i ==> r[j] == cart[j]
  {
    cart[i := cart[i].(quantity := quantity)]
  }

  lemma {:induction false} UserLinesAppend(a: seq<CartLine>, b: seq<CartLine>, userId: int)
    ensures UserLines(a + b, userId) == UserLines(a, userId) + UserLines(b, userId)
  {
    if b == [] {
      assert a + b == a;
    } else {
      var b' := b[..|b| - 1];
      assert (a + b)[..|a + b| - 1] == a + b';
      assert (a + b)[|a + b| - 1] == b[|b| - 1];
      UserLinesAppend(a, b', userId);
    }
  }

  lemma UserLinesSingle(line: CartLine, userId: int)
    ensures UserLines([line], userId) == if line.userId == userId then [line] else []
  {
    assert [line][..0] == [];
  }

  /** Splitting the cart around row `i` splits each user's lines the same way. */
  lemma UserLinesAround(cart: seq<CartLine>, i: nat, userId: int)
    requires i < |cart|
    ensures UserLines(cart, userId)
         == UserLines(cart[..i], userId)
          + (if cart[i].userId == userId then [cart[i]] else [])
          + UserLines(cart[i + 1..], userId)
  {
    assert cart == cart[..i] + [cart[i]] + cart[i + 1..];
    UserLinesAppend(cart[..i] + [cart[i]], cart[i + 1..], userId);
    UserLinesAppend(cart[..i], [cart[i]], userId);
    UserLinesSingle(cart[i], userId);
  }

  /** Appending a row changes only its own user's lines, and those by that one row at the end. */
  lemma AddAppendsToOwnerOnly(cart: seq<CartLine>, line: CartLine, userId: int)
    ensures UserLines(cart + [line], userId)
         == UserLines(cart, userId) + (if line.userId == userId then [line] else [])
  {
    UserLinesAppend(cart, [line], userId);
    UserLinesSingle(line, userId);
  }

  /** Changing the quantity of one row leaves every other user's lines as they were. */
  lemma SetQuantityKeepsOtherUsers(cart: seq<CartLine>, i: nat, quantity: int, userId: int)
    requires i < |cart| && cart[i].userId != userId
    ensures UserLines(SetQuantity(cart, i, quantity), userId) == UserLines(cart, userId)
  {
    var c' := SetQuantity(cart, i, quantity);
    assert c'[..i] == cart[..i] && c'[i + 1..] == cart[i + 1..];
    UserLinesAround(cart, i, userId);
    UserLinesAround(c', i, userId);
  }

  /** Taking out one row leaves every other user's lines as they were. */
  lemma RemoveAtKeepsOtherUsers(cart: seq<CartLine>, i: nat, userId: int)
    requires i < |cart| && cart[i].userId != userId
    ensures UserLines(RemoveAt(cart, i), userId) == UserLines(cart, userId)
  {
    UserLinesAround(cart, i, userId);
    UserLinesAppend(cart[..i], cart[i + 1..], userId);
  }

  /**
   * Taking out one row of a user removes exactly that line from the user's
   * cart: the user's lines before and after it stay, in the same order.
   */
  lemma RemoveAtDropsOneOwnerLine(cart: seq<CartLine>, i: nat)
    requires i < |cart|
    ensures var u := cart[i].userId;
            UserLines(cart, u) == UserLines(cart[..i], u) + [cart[i]] + UserLines(cart[i + 1..], u)
    ensures var u := cart[i].userId;
            UserLines(RemoveAt(cart, i), u) == UserLines(cart[..i], u) + UserLines(cart[i + 1..], u)
  {
    UserLinesAround(cart, i, cart[i].userId);
    UserLinesAppend(cart[..i], cart[i + 1..], cart[i].userId);
  }

  // ---------------------------------------------------------------------------
  // Order queries
  // ---------------------------------------------------------------------------

  /** `findOne` on the order table by paymentId: the position of the first matching row. */
  function FirstOrder(orders: seq<Order>, paymentId: string): (r: Option<nat>)
    ensures r.Some? ==> r.value < |orders| && orders[r.value].paymentId == Some(paymentId)
    ensures r.Some? ==> forall j :: 0 <= j < r.value ==> orders[j].paymentId != Some(paymentId)
    ensures r.None? <==> forall j :: 0 <= j < |orders| ==> orders[j].paymentId != Some(paymentId)
  {
    if orders == [] then None
    else if orders[0].paymentId == Some(paymentId) then Some(0)
    else match FirstOrder(orders[1..], paymentId)
      case None => None
      case Some(k) => Some(k + 1)
  }

  /** The status a webhook notification sets: SUCCESS for exactly the string "SUCCESS", FAILED for anything else. */
  function ReconciledStatus(notified: Option<string>): (r: PaymentStatus)
    ensures r != Pending
    ensures r == Success <==> notified == Some("SUCCESS")
    ensures r == Failed <==> notified != Some("SUCCESS")
  {
    if notified == Some("SUCCESS") then Success else Failed
  }

  /** The orders with the status of row `i` set to `status`; no other row and no other column changes. */
  function SetStatus(orders: seq<Order>, i: nat, status: PaymentStatus): (r: seq<Order>)
    requires i < |orders|
    ensures |r| == |orders|
    ensures r[i].userId == orders[i].userId && r[i].totalAmount == orders[i].totalAmount
    ensures r[i].paymentId == orders[i].paymentId && r[i].paymentStatus == status
    ensures forall j :: 0 <= j < |orders| && j != i ==> r[j] == orders[j]
  {
    orders[i := orders[i].(paymentStatus := status)]
  }

  /**
   * Reconciling an order keeps its paymentId, so a second delivery of the same
   * notification finds the same order and writes the status it already has.
   */
  lemma RedeliveryIsNoOp(orders: seq<Order>, paymentId: string, notified: Option<string>)
    requires FirstOrder(orders, paymentId).Some?
    ensures var i := FirstOrder(orders, paymentId).value;
            var once := SetStatus(orders, i, ReconciledStatus(notified));
            FirstOrder(once, paymentId) == Some(i)
            && SetStatus(once, i, ReconciledStatus(notified)) == once
  {
  }

  /**
   * No guard keeps a terminal status: whatever status the first order with
   * the notified payment id has (SUCCESS included), a notification with any
   * status other than "SUCCESS" turns it into FAILED.
   */
  lemma TerminalStatusCanBeOverwritten(orders: seq<Order>, paymentId: string, notified: Option<string>)
    requires FirstOrder(orders, paymentId).Some?
    requires notified != Some("SUCCESS")
    ensures var i := FirstOrder(orders, paymentId).value;
            SetStatus(orders, i, ReconciledStatus(notified))[i].paymentStatus == Failed
  {
  }
}
