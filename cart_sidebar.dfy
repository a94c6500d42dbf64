/**
 * The cart drawer (components/CartSidebar.tsx): the cart total, each line's
 * subtotal, and the quantities its minus and plus buttons ask the shop to set.
 * The same pricing rule prices an order at checkout (index.tsx).
 */
module CartSidebar {
  import opened Wrappers
  import opened Types
  import Seqs

  /**
   * `item.discountPrice || item.price`: the discount price is charged whenever
   * it is present and non-zero, even when it is not below the list price.
   */
  function UnitPrice(p: Product): (r: nat)
    ensures r == p.price || Some(r) == p.discountPrice
    ensures r == p.price <== p.discountPrice.None? || p.discountPrice == Some(0)
    ensures p.discountPrice.Some? && p.discountPrice.value != 0 ==> r == p.discountPrice.value
    ensures r == 0 ==> p.price == 0
  {
    if p.discountPrice.Some? && p.discountPrice.value != 0 then p.discountPrice.value else p.price
  }

  /** The amount shown beside a line: unit price times quantity. */
  function LineSubtotal(item: CartItem): nat {
    UnitPrice(item.product) * item.quantity
  }

  /** The cart total: the sum of the line subtotals (0 for an empty cart). */
  function CartTotal(items: seq<CartItem>): nat {
    Seqs.SumOf(items, LineSubtotal)
  }

  /** The total of a concatenation is the sum of the totals; an empty cart totals 0. */
  lemma CartTotalAppend(a: seq<CartItem>, b: seq<CartItem>)
    ensures CartTotal(a + b) == CartTotal(a) + CartTotal(b)
    ensures CartTotal([]) == 0
  {
    Seqs.SumOfAppend(a, b, LineSubtotal);
  }

  /** A cart whose lines all have quantity 0 or unit price 0 totals 0, and conversely. */
  lemma {:induction false} CartTotalZero(items: seq<CartItem>)
    ensures CartTotal(items) == 0 <==> forall i :: 0 <= i < |items| ==> LineSubtotal(items[i]) == 0
    decreases |items|
  {
    if items != [] {
      CartTotalZero(items[1..]);
      assert forall i :: 0 < i < |items| ==> items[i] == items[1..][i - 1];
    }
  }

  datatype QuantityButton = Minus | Plus

  /**
   * The quantity a button asks for, given the line's current quantity:
   * `Math.max(1, q - 1)` for minus and `q + 1` for plus. No button ever asks
   * for less than 1; minus on a line at 1 leaves it at 1.
   */
  function RequestedQuantity(b: QuantityButton, q: nat): (r: nat)
    ensures r >= 1
    ensures b == Plus ==> r == q + 1
    ensures b == Minus ==> r <= q || q == 0
    ensures b == Minus && q >= 2 ==> r + 1 == q
    ensures b == Minus && q <= 1 ==> r == 1
  {
    match b
    case Minus => if q - 1 > 1 then q - 1 else 1
    case Plus => q + 1
  }
}
