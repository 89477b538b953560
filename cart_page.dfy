/** The cart page (src/components/CartPage.tsx): what it shows for a cart
    and the quantity changes its buttons ask the store for. */
module CartPage {
  import opened Catalog
  import opened Seqs
  import Store
  import Checkout

  /** What the page renders: the empty-cart notice, or the lines with their
      amounts and the summary. Shipping is worked out on the next page, so
      the summary's total is the subtotal. */
  datatype Page =
    | EmptyCart
    | CartSummary(lineTotals: seq<int>, subtotal: int, total: int)

  function LineTotals(cart: seq<CartItem>): (r: seq<int>)
    ensures |r| == |cart| && forall i :: 0 <= i < |cart| ==> r[i] == Checkout.LineTotal(cart[i])
  {
    seq(|cart|, i requires 0 <= i < |cart| => Checkout.LineTotal(cart[i]))
  }

  /** The page for a cart (src/components/CartPage.tsx:23-95). */
  function Render(cart: seq<CartItem>): Page {
    if |cart| == 0 then EmptyCart
    else
      var subtotal := Checkout.Subtotal(cart);
      CartSummary(LineTotals(cart), subtotal, subtotal)
  }

  function Id(x: int): int {
    x
  }

  /** The line amounts shown add up to the subtotal shown. */
  lemma {:induction false} LineTotalsAddUp(cart: seq<CartItem>)
    ensures Sum(LineTotals(cart), Id) == Checkout.Subtotal(cart)
  {
    if |cart| > 0 {
      var init := cart[..|cart| - 1];
      LineTotalsAddUp(init);
      assert LineTotals(cart)[..|cart| - 1] == LineTotals(init);
    }
  }

  /** Only an empty cart shows the notice; any other cart shows one amount
      per line, a subtotal that is the sum of those amounts, and a total
      equal to the subtotal. */
  lemma RenderMeaning(cart: seq<CartItem>)
    ensures Render(cart).EmptyCart? <==> |cart| == 0
    ensures Render(cart).CartSummary? ==>
      var page := Render(cart);
      |page.lineTotals| == |cart| && page.total == page.subtotal
      && page.subtotal == Sum(page.lineTotals, Id) && page.subtotal == Checkout.Subtotal(cart)
  {
    LineTotalsAddUp(cart);
  }

  /** The minus button: the line's id and one unit fewer
      (src/components/CartPage.tsx:59). */
  function MinusRequest(item: CartItem): (int, int) {
    (item.perfume.id, item.quantity - 1)
  }

  /** The plus button: the line's id and one unit more
      (src/components/CartPage.tsx:61). */
  function PlusRequest(item: CartItem): (int, int) {
    (item.perfume.id, item.quantity + 1)
  }

  /** Pressing minus on a line with one unit removes the line. */
  lemma MinusOnLastUnitRemoves(cart: seq<CartItem>, k: nat)
    requires k < |cart| && cart[k].quantity <= 1
    ensures var (id, q) := MinusRequest(cart[k]);
      Store.UpdateQuantity(cart, id, q) == Store.RemoveFromCart(cart, id)
      && !Store.InCart(Store.UpdateQuantity(cart, id, q), id)
  {
    var id := cart[k].perfume.id;
    assert Store.InCart(cart, id) by {
      assert ItemId(cart[k]) == id;
    }
    var r := Store.RemoveFromCart(cart, id);
    assert !Store.InCart(r, id) by {
      forall i | 0 <= i < |r| ensures ItemId(r[i]) != id {
      }
    }
  }

  /** With one line per perfume, minus on a line with more than one unit
      and plus below the stock move that line's quantity by exactly one, and
      plus at the stock leaves it at the stock. */
  lemma ButtonsStep(cart: seq<CartItem>, k: nat)
    requires Store.DistinctIds(cart)
    requires k < |cart| && cart[k].quantity <= cart[k].perfume.stock
    ensures cart[k].quantity > 1 ==>
      var (id, q) := MinusRequest(cart[k]);
      Store.UpdateQuantity(cart, id, q)[k].quantity == cart[k].quantity - 1
    ensures cart[k].quantity >= 0 ==>
      var (id, q) := PlusRequest(cart[k]);
      Store.UpdateQuantity(cart, id, q)[k].quantity == Store.Min(cart[k].quantity + 1, cart[k].perfume.stock)
  {
    var id := cart[k].perfume.id;
    assert ItemId(cart[k]) == id;
    if cart[k].quantity > 1 {
      Store.UpdateQuantityAt(cart, id, cart[k].quantity - 1, k);
    }
    if cart[k].quantity >= 0 {
      Store.UpdateQuantityAt(cart, id, cart[k].quantity + 1, k);
    }
  }
}
