/**
 * What a user's cart costs and what the cart view shows, as functions of the
 * cart table and the catalog, and how the cart edits change them.
 */
module Pricing {
  import opened Tables

  /** Every line names a product that the catalog holds. */
  predicate AllPriced(lines: seq<CartLine>, products: map<int, Product>) {
    forall i :: 0 <= i < |lines| ==> lines[i].productId in products
  }

  /** What one line costs: the product's price times the line's quantity. */
  function Amount(line: CartLine, products: map<int, Product>): int
    requires line.productId in products
  {
    products[line.productId].price * line.quantity
  }

  /** The sum of the lines' amounts. */
  function Sum(lines: seq<CartLine>, products: map<int, Product>): int
    requires AllPriced(lines, products)
  {
    if lines == [] then 0
    else Sum(lines[..|lines| - 1], products) + Amount(lines[|lines| - 1], products)
  }

  /** The total of a user's cart, or None when one of the user's lines names no product. */
  function CartTotal(cart: seq<CartLine>, products: map<int, Product>, userId: int): Option<int> {
    var lines := UserLines(cart, userId);
    if AllPriced(lines, products) then Some(Sum(lines, products)) else None
  }

  /** One entry of the cart view: the product's id, name and price with the line's quantity. */
  datatype CartEntry = CartEntry(productId: int, name: string, price: int, quantity: int)

  function EntryOf(line: CartLine, products: map<int, Product>): CartEntry
    requires line.productId in products
  {
    var p := products[line.productId];
    CartEntry(line.productId, p.name, p.price, line.quantity)
  }

  /** The cart view of some lines: one entry per line, in the lines' order. */
  function Entries(lines: seq<CartLine>, products: map<int, Product>): (r: seq<CartEntry>)
    requires AllPriced(lines, products)
    ensures |r| == |lines|
    ensures forall i :: 0 <= i < |lines| ==> r[i] == EntryOf(lines[i], products)
  {
    if lines == [] then []
    else Entries(lines[..|lines| - 1], products) + [EntryOf(lines[|lines| - 1], products)]
  }

  /** The cart view of a user, or None when one of the user's lines names no product. */
  function CartView(cart: seq<CartLine>, products: map<int, Product>, userId: int): Option<seq<CartEntry>> {
    var lines := UserLines(cart, userId);
    if AllPriced(lines, products) then Some(Entries(lines, products)) else None
  }

  /** What the entries of a cart view add up to. */
  function EntriesTotal(entries: seq<CartEntry>): int {
    if entries == [] then 0
    else EntriesTotal(entries[..|entries| - 1]) + entries[|entries| - 1].price * entries[|entries| - 1].quantity
  }

  lemma AllPricedAppend(a: seq<CartLine>, b: seq<CartLine>, products: map<int, Product>)
    ensures AllPriced(a + b, products) <==> AllPriced(a, products) && AllPriced(b, products)
  {
    assert forall i :: 0 <= i < |a| ==> (a + b)[i] == a[i];
    assert forall i :: 0 <= i < |b| ==> (a + b)[|a| + i] == b[i];
  }

  lemma {:induction false} SumAppend(a: seq<CartLine>, b: seq<CartLine>, products: map<int, Product>)
    requires AllPriced(a, products) && AllPriced(b, products)
    ensures AllPriced(a + b, products)
    ensures Sum(a + b, products) == Sum(a, products) + Sum(b, products)
  {
    AllPricedAppend(a, b, products);
    if b == [] {
      assert a + b == a;
    } else {
      var b' := b[..|b| - 1];
      assert (a + b)[..|a + b| - 1] == a + b';
      SumAppend(a, b', products);
    }
  }

  /** A user with no lines in the cart has total exactly 0 and an empty cart view. */
  lemma {:induction false} NoLinesTotalsZero(cart: seq<CartLine>, products: map<int, Product>, userId: int)
    requires forall i :: 0 <= i < |cart| ==> cart[i].userId != userId
    ensures CartTotal(cart, products, userId) == Some(0)
    ensures CartView(cart, products, userId) == Some([])
  {
    if cart != [] {
      NoLinesTotalsZero(cart[..|cart| - 1], products, userId);
    }
  }

  /**
   * The total of a user's cart is the sum of price times quantity over the
   * cart rows of that user only, counted in store order.
   */
  lemma {:induction false} TotalSumsOwnRows(cart: seq<CartLine>, products: map<int, Product>, userId: int)
    requires forall i :: 0 <= i < |cart| && cart[i].userId == userId ==> cart[i].productId in products
    ensures CartTotal(cart, products, userId).Some?
    ensures CartTotal(cart, products, userId).value == OwnAmounts(cart, products, userId)
  {
    if cart != [] {
      TotalSumsOwnRows(cart[..|cart| - 1], products, userId);
      var last := cart[|cart| - 1];
      var lines := UserLines(cart[..|cart| - 1], userId);
      if last.userId == userId {
        SumAppend(lines, [last], products);
        assert (lines + [last])[..|lines|] == lines;
      } else {
        assert lines + [] == lines;
      }
    }
  }

  /** The amounts of a user's rows, summed over the whole cart; other users' rows add 0. */
  function OwnAmounts(cart: seq<CartLine>, products: map<int, Product>, userId: int): int
    requires forall i :: 0 <= i < |cart| && cart[i].userId == userId ==> cart[i].productId in products
  {
    if cart == [] then 0
    else
      var last := cart[|cart| - 1];
      OwnAmounts(cart[..|cart| - 1], products, userId)
        + (if last.userId == userId then Amount(last, products) else 0)
  }

  /** A line of the user whose product is missing makes the total fail; it is never counted as 0. */
  lemma MissingProductFailsTotal(cart: seq<CartLine>, products: map<int, Product>, i: nat)
    requires i < |cart| && cart[i].productId !in products
    ensures CartTotal(cart, products, cart[i].userId) == None
    ensures CartView(cart, products, cart[i].userId) == None
  {
    UserLinesMembers(cart, cart[i].userId, cart[i]);
  }

  /** The entries of a cart view add up to the total of its lines. */
  lemma {:induction false} ViewAddsUpToTotal(lines: seq<CartLine>, products: map<int, Product>)
    requires AllPriced(lines, products)
    ensures EntriesTotal(Entries(lines, products)) == Sum(lines, products)
  {
    if lines != [] {
      var init := lines[..|lines| - 1];
      ViewAddsUpToTotal(init, products);
      var e := Entries(lines, products);
      assert e[..|e| - 1] == Entries(init, products);
    }
  }

  /** Adding a line leaves the totals of all other users unchanged. */
  lemma AddLeavesOtherTotals(cart: seq<CartLine>, products: map<int, Product>, line: CartLine, userId: int)
    requires line.userId != userId
    ensures CartTotal(cart + [line], products, userId) == CartTotal(cart, products, userId)
    ensures CartView(cart + [line], products, userId) == CartView(cart, products, userId)
  {
    AddAppendsToOwnerOnly(cart, line, userId);
    assert UserLines(cart, userId) + [] == UserLines(cart, userId);
  }

  /** The view of two runs of lines is the view of the first followed by the view of the second. */
  lemma EntriesAppend(a: seq<CartLine>, b: seq<CartLine>, products: map<int, Product>)
    requires AllPriced(a, products) && AllPriced(b, products)
    ensures AllPriced(a + b, products)
    ensures Entries(a + b, products) == Entries(a, products) + Entries(b, products)
  {
    AllPricedAppend(a, b, products);
    var l, r := Entries(a + b, products), Entries(a, products) + Entries(b, products);
    assert |l| == |r|;
    forall k | 0 <= k < |l| ensures l[k] == r[k] {
      if k < |a| {
        assert (a + b)[k] == a[k];
      } else {
        assert (a + b)[k] == b[k - |a|];
      }
    }
  }

  /**
   * Adding a line for a catalog product, then fetching, shows the earlier view
   * with the new line's entry at the end.
   */
  lemma AddThenFetch(cart: seq<CartLine>, products: map<int, Product>, line: CartLine)
    requires line.productId in products
    requires CartView(cart, products, line.userId).Some?
    ensures CartView(cart + [line], products, line.userId)
         == Some(CartView(cart, products, line.userId).value + [EntryOf(line, products)])
  {
    var lines := UserLines(cart, line.userId);
    AddAppendsToOwnerOnly(cart, line, line.userId);
    assert UserLines(cart + [line], line.userId) == lines + [line];
    assert AllPriced([line], products);
    EntriesAppend(lines, [line], products);
    assert Entries([line], products) == [EntryOf(line, products)];
  }

  /** Adding a line for a catalog product grows its owner's total by that line's amount. */
  lemma AddRaisesOwnTotal(cart: seq<CartLine>, products: map<int, Product>, line: CartLine)
    requires line.productId in products
    requires CartTotal(cart, products, line.userId).Some?
    ensures CartTotal(cart + [line], products, line.userId)
         == Some(CartTotal(cart, products, line.userId).value + Amount(line, products))
  {
    var lines := UserLines(cart, line.userId);
    AddAppendsToOwnerOnly(cart, line, line.userId);
    assert UserLines(cart + [line], line.userId) == lines + [line];
    assert AllPriced([line], products);
    SumAppend(lines, [line], products);
    assert [line][..0] == [];
    assert Sum([line], products) == Amount(line, products);
  }

  /** Setting a quantity leaves the totals and views of all other users unchanged. */
  lemma SetQuantityLeavesOtherTotals(cart: seq<CartLine>, products: map<int, Product>, i: nat, quantity: int, userId: int)
    requires i < |cart| && cart[i].userId != userId
    ensures CartTotal(SetQuantity(cart, i, quantity), products, userId) == CartTotal(cart, products, userId)
    ensures CartView(SetQuantity(cart, i, quantity), products, userId) == CartView(cart, products, userId)
  {
    SetQuantityKeepsOtherUsers(cart, i, quantity, userId);
  }

  /** The sum over some lines with one line in the middle counts that line's amount once. */
  lemma SumAround(pre: seq<CartLine>, x: CartLine, post: seq<CartLine>, products: map<int, Product>)
    requires AllPriced(pre + [x] + post, products)
    ensures AllPriced(pre, products) && x.productId in products && AllPriced(post, products)
    ensures Sum(pre + [x] + post, products) == Sum(pre, products) + Amount(x, products) + Sum(post, products)
  {
    AllPricedAppend(pre + [x], post, products);
    AllPricedAppend(pre, [x], products);
    assert [x][0] == x;
    SumAppend(pre + [x], post, products);
    SumAppend(pre, [x], products);
    assert [x][..0] == [];
  }

  /** Setting a line's quantity moves its owner's total by the change in that line's amount. */
  lemma SetQuantityMovesOwnTotal(cart: seq<CartLine>, products: map<int, Product>, i: nat, quantity: int)
    requires i < |cart|
    requires CartTotal(cart, products, cart[i].userId).Some?
    ensures cart[i].productId in products
    ensures CartTotal(SetQuantity(cart, i, quantity), products, cart[i].userId)
         == Some(CartTotal(cart, products, cart[i].userId).value
                 - Amount(cart[i], products) + Amount(cart[i].(quantity := quantity), products))
  {
    var u := cart[i].userId;
    var c' := SetQuantity(cart, i, quantity);
    assert c'[..i] == cart[..i] && c'[i + 1..] == cart[i + 1..];
    UserLinesAround(cart, i, u);
    UserLinesAround(c', i, u);
    var pre, post := UserLines(cart[..i], u), UserLines(cart[i + 1..], u);
    SumAround(pre, cart[i], post, products);
    AllPricedAppend(pre + [c'[i]], post, products);
    AllPricedAppend(pre, [c'[i]], products);
    SumAround(pre, c'[i], post, products);
  }

  /** Removing a line leaves the totals and views of all other users unchanged. */
  lemma RemoveLeavesOtherTotals(cart: seq<CartLine>, products: map<int, Product>, i: nat, userId: int)
    requires i < |cart| && cart[i].userId != userId
    ensures CartTotal(RemoveAt(cart, i), products, userId) == CartTotal(cart, products, userId)
    ensures CartView(RemoveAt(cart, i), products, userId) == CartView(cart, products, userId)
  {
    RemoveAtKeepsOtherUsers(cart, i, userId);
  }

  /** Removing a line lowers its owner's total by that line's amount. */
  lemma RemoveLowersOwnTotal(cart: seq<CartLine>, products: map<int, Product>, i: nat)
    requires i < |cart|
    requires CartTotal(cart, products, cart[i].userId).Some?
    ensures cart[i].productId in products
    ensures CartTotal(RemoveAt(cart, i), products, cart[i].userId)
         == Some(CartTotal(cart, products, cart[i].userId).value - Amount(cart[i], products))
  {
    var u := cart[i].userId;
    UserLinesAround(cart, i, u);
    UserLinesAppend(cart[..i], cart[i + 1..], u);
    var pre, post := UserLines(cart[..i], u), UserLines(cart[i + 1..], u);
    SumAround(pre, cart[i], post, products);
    SumAppend(pre, post, products);
  }
}
