/** The order panel (CartDisplay): the cart line record, the running total
    shown under the lines, and the CLEAR button. Prices are unit prices in
    integer cents, so the total is exact. */
module CartDisplay {
  import opened Wrappers

  /** One line of the order. `id` is the variant id, `price` the unit price
      in cents. */
  datatype CartItem = CartItem(
    id: string,
    productName: string,
    variantName: string,
    price: int,
    quantity: int)

  /** The variant ids of the cart lines, in order. */
  function CartIds(cart: seq<CartItem>): (ids: seq<string>)
    ensures |ids| == |cart| && forall i :: 0 <= i < |cart| ==> ids[i] == cart[i].id
  {
    seq(|cart|, i requires 0 <= i < |cart| => cart[i].id)
  }

  /** The notification the CLEAR button leaves behind. */
  const ClearedMessage: string := "Cleared all items"

  /** What the panel shows: the page's cart and its `lastAdded` notification. */
  datatype CartPanel = CartPanel(cart: seq<CartItem>, lastAdded: Option<string>)

  /** The cart total: a left fold from 0 adding price * quantity of each
      line, in cart order, as `reduce` does. */
  function Total(cart: seq<CartItem>): int
  {
    if cart == [] then 0
    else Total(cart[..|cart| - 1]) + cart[|cart| - 1].price * cart[|cart| - 1].quantity
  }

  /** Appending a line adds exactly its price times its quantity. */
  lemma TotalAppend(cart: seq<CartItem>, item: CartItem)
    ensures Total(cart + [item]) == Total(cart) + item.price * item.quantity
  {
  }

  /** The total of two carts laid end to end is the sum of their totals, so
      the total does not depend on how the cart is split. */
  lemma {:induction false} TotalConcat(a: seq<CartItem>, b: seq<CartItem>)
    ensures Total(a + b) == Total(a) + Total(b)
    decreases |b|
  {
    if b == [] {
      assert a + b == a;
    } else {
      var front := b[..|b| - 1];
      var last := b[|b| - 1];
      assert b == front + [last];
      assert a + b == (a + front) + [last];
      TotalConcat(a, front);
      TotalAppend(a + front, last);
      TotalAppend(front, last);
    }
  }

  /** Raising the quantity of line k by one adds exactly that line's price. */
  lemma {:induction false} TotalIncrement(cart: seq<CartItem>, k: int)
    requires 0 <= k < |cart|
    ensures Total(cart[k := cart[k].(quantity := cart[k].quantity + 1)])
         == Total(cart) + cart[k].price
    decreases |cart|
  {
    var bumped := cart[k := cart[k].(quantity := cart[k].quantity + 1)];
    var n := |cart| - 1;
    assert bumped[..n] == if k == n then cart[..n] else cart[..n][k := cart[k].(quantity := cart[k].quantity + 1)];
    if k < n {
      TotalIncrement(cart[..n], k);
    }
  }

  /** With non-negative prices and quantities the total is non-negative. */
  lemma {:induction false} TotalNonNegative(cart: seq<CartItem>)
    requires forall i :: 0 <= i < |cart| ==> cart[i].price >= 0 && cart[i].quantity >= 0
    ensures Total(cart) >= 0
    decreases |cart|
  {
    if cart != [] {
      var n := |cart| - 1;
      TotalNonNegative(cart[..n]);
      assert cart[n].price * cart[n].quantity >= 0;
    }
  }

  /** The CLEAR button: empties the cart and sets the notification. */
  function ClearAll(panel: CartPanel): (r: CartPanel)
    ensures |r.cart| == 0 && Total(r.cart) == 0
    ensures r.lastAdded == Some(ClearedMessage)
  {
    CartPanel([], Some(ClearedMessage))
  }
}
