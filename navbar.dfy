/**
 * The cart badge of src/components/Navbar.tsx: `totalItems` is a `reduce`
 * over the quantities of the provider's `cartItems`, and the badge shows it
 * for a signed-in user when it is positive.
 */
module Navbar {
  import opened Common
  import opened Catalog

  /** `items.reduce((sum, item) => sum + item.quantity, acc)`. */
  function QuantityFold(acc: int, items: seq<CartItem>): int
    decreases |items|
  {
    if items == [] then acc else QuantityFold(acc + items[0].quantity, items[1..])
  }

  /** The sum of the quantities, as a reference for the fold. */
  function SumQuantities(items: seq<CartItem>): int
    decreases |items|
  {
    if items == [] then 0 else items[0].quantity + SumQuantities(items[1..])
  }

  lemma {:induction false} QuantityFoldIsSum(acc: int, items: seq<CartItem>)
    ensures QuantityFold(acc, items) == acc + SumQuantities(items)
    decreases |items|
  {
    if items != [] {
      QuantityFoldIsSum(acc + items[0].quantity, items[1..]);
    }
  }

  /** `totalItems`: the fold from 0 is the sum of the quantities. */
  function TotalItems(items: seq<CartItem>): (r: int)
    ensures r == SumQuantities(items)
    ensures items == [] ==> r == 0
  {
    QuantityFoldIsSum(0, items);
    QuantityFold(0, items)
  }

  /** The count for two lists of items is the sum of their counts. */
  lemma {:induction false} TotalItemsAppend(a: seq<CartItem>, b: seq<CartItem>)
    ensures TotalItems(a + b) == TotalItems(a) + TotalItems(b)
    decreases |a|
  {
    if a != [] {
      assert (a + b)[0] == a[0] && (a + b)[1..] == a[1..] + b;
      TotalItemsAppend(a[1..], b);
    } else {
      assert a + b == b;
    }
  }

  /** With every quantity at least 1, the count is at least the number of lines. */
  lemma {:induction false} TotalItemsAtLeastLines(items: seq<CartItem>)
    requires forall i :: 0 <= i < |items| ==> items[i].quantity >= 1
    ensures TotalItems(items) >= |items|
    decreases |items|
  {
    if items != [] {
      TotalItemsAtLeastLines(items[1..]);
    }
  }

  /** The badge: shown to a signed-in user when the count is positive, holding the count. */
  function Badge(signedIn: bool, items: seq<CartItem>): (r: Option<int>)
    ensures r.Some? <==> signedIn && TotalItems(items) > 0
    ensures r.Some? ==> r.value == SumQuantities(items)
  {
    var n := TotalItems(items);
    if signedIn && n > 0 then Some(n) else None
  }

  /** For fetched lines, whose quantities are at least 1, the badge shows exactly when the cart has a line. */
  lemma BadgeShownIffNonEmpty(items: seq<CartItem>)
    requires forall i :: 0 <= i < |items| ==> items[i].quantity >= 1
    ensures Badge(true, items).Some? <==> items != []
  {
    TotalItemsAtLeastLines(items);
  }
}
