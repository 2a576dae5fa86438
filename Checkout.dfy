/**
 * The checkout page's order summary, computed over its own fixed list of lines
 * with its own copy of the tax, shipping and total expressions.
 */
module Checkout {
  import opened Wrappers
  import opened CartItem
  import Cart
  import CartSummary

  /** The two mock lines the checkout page shows. */
  const CheckoutItems: seq<LineItem> := [
    LineItem(1, "Wireless Bluetooth Earbuds", 59.99, "/placeholder.svg", 1, None),
    LineItem(2, "Minimalist Analog Watch", 79.99, "/placeholder.svg", 1, Some(Variant(None, Some("Black"))))
  ]

  datatype OrderSummary = OrderSummary(subtotal: real, tax: real, shipping: real, total: real)

  /** The page's own subtotal fold and price expressions; they agree with the cart summary's. */
  function Summarize(items: seq<LineItem>): (s: OrderSummary)
    ensures s.subtotal == Cart.Subtotal(items)
    ensures s.tax == CartSummary.Tax(s.subtotal)
    ensures s.shipping == CartSummary.Shipping(s.subtotal)
    ensures s.total == CartSummary.Total(s.subtotal)
  {
    var subtotal := Cart.Subtotal(items);
    var tax := subtotal * 0.08;
    var shipping := if subtotal > 100.0 then 0.0 else 10.0;
    OrderSummary(subtotal, tax, shipping, subtotal + tax + shipping)
  }

  /** For the fixed lines (59.99 and 79.99, one each) the subtotal is 139.98 and shipping is free. */
  lemma FixedOrderSummary()
    ensures Summarize(CheckoutItems) == OrderSummary(139.98, 11.1984, 0.0, 151.1784)
  {
    Cart.InitialCartTotals();
    assert CheckoutItems == Cart.InitialCartItems;
  }
}
