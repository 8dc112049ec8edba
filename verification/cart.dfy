/**
  The cart page: the +/- and remove handlers, and the order summary derived
  from the cart on every render (subtotal, shipping, 18% tax, total, and the
  "add more for free shipping" hint).
 */
module Cart {
  import opened Types
  import opened Store
  import Seqs
  import Text

  /** Subtotals strictly above this ship free. */
  const FreeShippingThreshold: int := 10000
  const ShippingFee: int := 500
  /** Goods and services tax, exactly 18/100. */
  const TaxRate: real := 0.18

  function LineTotal(item: CartItem): int
  {
    item.product.price * item.quantity
  }

  /** The cart's subtotal: `reduce` of price times quantity, from 0. */
  function Subtotal(cart: seq<CartItem>): (r: int)
    ensures r == Seqs.Sum(cart, LineTotal)
  {
    Seqs.Reduce(0, cart, LineTotal)
  }

  /** The empty cart costs nothing, and adding a row adds its line total. */
  lemma SubtotalOfRows(cart: seq<CartItem>, item: CartItem)
    ensures Subtotal([]) == 0
    ensures Subtotal(cart + [item]) == Subtotal(cart) + item.product.price * item.quantity
  {
  }

  /** Non-negative prices and quantities give a non-negative subtotal. */
  lemma SubtotalNonNegative(cart: seq<CartItem>)
    requires forall i :: 0 <= i < |cart| ==> cart[i].product.price >= 0 && cart[i].quantity >= 0
    ensures Subtotal(cart) >= 0
  {
    Seqs.SumNonNegative(cart, LineTotal);
  }

  function Shipping(subtotal: int): (r: int)
    ensures r == 0 <==> subtotal > FreeShippingThreshold
    ensures r == 0 || r == ShippingFee
  {
    if subtotal > 10000 then 0 else 500
  }

  /** The threshold itself is not above the threshold: 10000 still pays. */
  lemma ShippingAtThreshold()
    ensures Shipping(10000) == 500 && Shipping(10001) == 0
  {
  }

  function Tax(subtotal: int): (r: real)
    ensures 100.0 * r == 18.0 * subtotal as real
  {
    subtotal as real * TaxRate
  }

  /** The order summary shown beside a non-empty cart. */
  datatype Summary = Summary(subtotal: int, shipping: int, tax: real, total: real)

  function OrderSummary(cart: seq<CartItem>): (r: Summary)
    ensures r.subtotal == Seqs.Sum(cart, LineTotal)
    ensures r.shipping == 0 <==> r.subtotal > FreeShippingThreshold
    ensures r.shipping == 0 || r.shipping == ShippingFee
    ensures 100.0 * r.tax == 18.0 * r.subtotal as real
    ensures r.total == r.subtotal as real + r.shipping as real + r.tax
  {
    var subtotal := Subtotal(cart);
    var shipping := Shipping(subtotal);
    var tax := Tax(subtotal);
    Summary(subtotal, shipping, tax, subtotal as real + shipping as real + tax)
  }

  /** A subtotal `s` totals 118% of `s`, plus the fee when `s` is at most the
      threshold; so the total jumps down as the subtotal crosses it. */
  lemma TotalFormula(cart: seq<CartItem>)
    ensures var s := Subtotal(cart) as real;
      OrderSummary(cart).total == (if s > 10000.0 then 1.18 * s else 1.18 * s + 500.0)
  {
  }

  function Item(id: string, price: int, quantity: int): CartItem
  {
    CartItem(id, Product(id, "", price, None, "", "", "", true, 0.0, 0, None, None), quantity)
  }

  /** Two items at 6000 and 5000: subtotal 11000, free shipping, tax 1980,
      total 12980. */
  lemma SummaryExample()
    ensures OrderSummary([Item("a", 6000, 1), Item("b", 5000, 1)])
      == Summary(11000, 0, 1980.0, 12980.0)
  {
  }

  /** The free-shipping hint: present exactly when shipping is charged, and
      then it names the amount that brings the subtotal up to the threshold. */
  function FreeShippingGap(cart: seq<CartItem>): (r: Option<int>)
    ensures r.Some? <==> Shipping(Subtotal(cart)) > 0
    ensures r.Some? ==> r.value >= 0 && Subtotal(cart) + r.value == FreeShippingThreshold
  {
    var subtotal := Subtotal(cart);
    if Shipping(subtotal) > 0 then Some(10000 - subtotal) else None
  }

  /** With non-negative prices and quantities the gap never exceeds the threshold. */
  lemma FreeShippingGapBounded(cart: seq<CartItem>)
    requires forall i :: 0 <= i < |cart| ==> cart[i].product.price >= 0 && cart[i].quantity >= 0
    ensures FreeShippingGap(cart).Some? ==> 0 <= FreeShippingGap(cart).value <= FreeShippingThreshold
  {
    SubtotalNonNegative(cart);
  }

  /** What the cart page renders: the empty state, or the rows with their
      count label, the summary and the free-shipping hint. */
  datatype CartView =
    | EmptyCart
    | Filled(countLabel: string, summary: Summary, freeShippingGap: Option<int>)

  function CartPage(cart: seq<CartItem>): (r: CartView)
    ensures r.EmptyCart? <==> |cart| == 0
    ensures r.Filled? ==> r.summary == OrderSummary(cart) && r.freeShippingGap == FreeShippingGap(cart)
    ensures r.Filled? ==> (r.countLabel == "items" <==> |cart| > 1)
  {
    if |cart| == 0 then EmptyCart
    else Filled(Text.ItemNoun(|cart|), OrderSummary(cart), FreeShippingGap(cart))
  }

  /** The +/- handler: a new quantity of zero or less removes the row, any
      other quantity is set as is. Either way the row keeps its id. */
  function UpdateQuantity(id: string, quantity: int): (r: Action)
    ensures r.RemoveFromCart? || r.UpdateCartQuantity?
    ensures r.RemoveFromCart? <==> quantity <= 0
    ensures r.RemoveFromCart? ==> r.itemId == id
    ensures r.UpdateCartQuantity? ==> r.itemId == id && r.quantity == quantity && r.quantity >= 1
  {
    if quantity <= 0 then RemoveFromCart(id) else UpdateCartQuantity(id, quantity)
  }

  /** The trash button removes the row by its cart-item id. */
  function RemoveItem(id: string): (r: Action)
    ensures r.RemoveFromCart? && r.itemId == id
  {
    RemoveFromCart(id)
  }

  function MinusPressed(item: CartItem): Action
  {
    UpdateQuantity(item.id, item.quantity - 1)
  }

  function PlusPressed(item: CartItem): Action
  {
    UpdateQuantity(item.id, item.quantity + 1)
  }

  /** Minus on a row of one removes it; minus on more decrements; plus always
      increments. No press ever asks the store to hold a quantity below 1. */
  lemma QuantityButtons(item: CartItem)
    requires item.quantity >= 1
    ensures item.quantity == 1 ==> MinusPressed(item) == RemoveFromCart(item.id)
    ensures item.quantity > 1 ==> MinusPressed(item) == UpdateCartQuantity(item.id, item.quantity - 1)
    ensures PlusPressed(item) == UpdateCartQuantity(item.id, item.quantity + 1)
  {
  }
}
