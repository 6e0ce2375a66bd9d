/**
 * The cart page of src/pages/Cart.tsx: the subtotal `reduce`, the line
 * totals, the +/- stepper and which of its buttons is disabled, and which of
 * the three views is shown. Prices are `real`; the two-decimal formatting of
 * the display is not modelled.
 */
module CartPage {
  import opened Common
  import opened Catalog

  /** The amount shown on a line: quantity times unit price. */
  function LineTotal(item: CartItem): real {
    item.quantity as real * item.product.price
  }

  /** `items.reduce((sum, item) => sum + item.quantity * item.product.price, acc)`. */
  function PriceFold(acc: real, items: seq<CartItem>): real
    decreases |items|
  {
    if items == [] then acc else PriceFold(acc + LineTotal(items[0]), items[1..])
  }

  /** The sum of the line totals, as a reference for the fold. */
  function SumLineTotals(items: seq<CartItem>): real
    decreases |items|
  {
    if items == [] then 0.0 else LineTotal(items[0]) + SumLineTotals(items[1..])
  }

  lemma {:induction false} PriceFoldIsSum(acc: real, items: seq<CartItem>)
    ensures PriceFold(acc, items) == acc + SumLineTotals(items)
    decreases |items|
  {
    if items != [] {
      PriceFoldIsSum(acc + LineTotal(items[0]), items[1..]);
    }
  }

  /** `subtotal`: the fold from 0 is the sum of the line totals. */
  function Subtotal(items: seq<CartItem>): (r: real)
    ensures r == SumLineTotals(items)
    ensures items == [] ==> r == 0.0
  {
    PriceFoldIsSum(0.0, items);
    PriceFold(0.0, items)
  }

  lemma {:induction false} SumLineTotalsAppend(a: seq<CartItem>, b: seq<CartItem>)
    ensures SumLineTotals(a + b) == SumLineTotals(a) + SumLineTotals(b)
    decreases |a|
  {
    if a != [] {
      assert (a + b)[0] == a[0] && (a + b)[1..] == a[1..] + b;
      SumLineTotalsAppend(a[1..], b);
    } else {
      assert a + b == b;
    }
  }

  /** The subtotal of two lists of lines is the sum of their subtotals. */
  lemma SubtotalAppend(a: seq<CartItem>, b: seq<CartItem>)
    ensures Subtotal(a + b) == Subtotal(a) + Subtotal(b)
  {
    SumLineTotalsAppend(a, b);
  }

  /** With no negative quantity or price the subtotal is never negative. */
  lemma {:induction false} SubtotalNonNegative(items: seq<CartItem>)
    requires forall i :: 0 <= i < |items| ==> items[i].quantity >= 0 && items[i].product.price >= 0.0
    ensures Subtotal(items) >= 0.0
    decreases |items|
  {
    if items != [] {
      SubtotalNonNegative(items[1..]);
      assert LineTotal(items[0]) >= 0.0;
    }
  }

  /** An `updateQuantity(id, q)` call a button would make. */
  datatype Request = Request(id: LineId, quantity: int)

  /** The minus button: disabled at quantity 1 or less, otherwise asks for one less. */
  function MinusRequest(item: CartItem): (r: Option<Request>)
    ensures r.None? <==> item.quantity <= 1
    ensures r.Some? ==> r.value.id == item.id && r.value.quantity == item.quantity - 1
    ensures r.Some? ==> r.value.quantity >= 1
  {
    if item.quantity <= 1 then None else Some(Request(item.id, item.quantity - 1))
  }

  /** The plus button: always enabled, asks for one more. */
  function PlusRequest(item: CartItem): (r: Request)
    ensures r.id == item.id && r.quantity == item.quantity + 1
    ensures item.quantity >= 1 ==> r.quantity >= 2
  {
    Request(item.id, item.quantity + 1)
  }

  /** A stepper on a line of quantity at least 1 never asks to remove the line or for a negative quantity. */
  lemma StepperNeverRemoves(item: CartItem)
    requires item.quantity >= 1
    ensures MinusRequest(item).Some? ==> MinusRequest(item).value.quantity >= 1
    ensures PlusRequest(item).quantity > item.quantity
  {
  }

  /** A listed line: the item and its line total. */
  datatype Line = Line(item: CartItem, total: real)

  /** What the page shows: a skeleton, the empty cart, or the lines with the order summary. */
  datatype CartView = Loading | EmptyCart | Listing(lines: seq<Line>, subtotal: real, total: real)

  function ViewCart(loading: bool, items: seq<CartItem>): (v: CartView)
    ensures loading <==> v == Loading
    ensures !loading ==> (v == EmptyCart <==> items == [])
    ensures v.Listing? ==> |v.lines| == |items|
    ensures v.Listing? ==> forall i :: 0 <= i < |items| ==>
      v.lines[i].item == items[i] && v.lines[i].total == items[i].quantity as real * items[i].product.price
    ensures v.Listing? ==> v.subtotal == SumLineTotals(items) && v.total == v.subtotal
  {
    if loading then Loading
    else if items == [] then EmptyCart
    else
      var lines := seq(|items|, i requires 0 <= i < |items| => Line(items[i], LineTotal(items[i])));
      var subtotal := Subtotal(items);
      Listing(lines, subtotal, subtotal)
  }
}
