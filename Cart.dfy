/**
 * The cart page: one state cell holding the line items, two handlers that replace
 * it (update a quantity by id, remove by id) and two derived folds (subtotal and
 * item count) recomputed from the current lines.
 */
module Cart {
  import opened Wrappers
  import opened CartItem
  import CartSummary

  /** Sum of price times quantity, folded from the left as `reduce` does; 0 for an empty cart. */
  function Subtotal(items: seq<LineItem>): (r: real)
    ensures items == [] ==> r == 0.0
    ensures |items| == 1 ==> r == items[0].price * items[0].quantity as real
    decreases |items|
  {
    if items == [] then 0.0 else Subtotal(items[..|items| - 1]) + LineAmount(items[|items| - 1])
  }

  /** Sum of the quantities, folded from the left; 0 for an empty cart. */
  function ItemCount(items: seq<LineItem>): (r: int)
    ensures items == [] ==> r == 0
    ensures |items| == 1 ==> r == items[0].quantity
    decreases |items|
  {
    if items == [] then 0 else ItemCount(items[..|items| - 1]) + items[|items| - 1].quantity
  }

  predicate DistinctIds(items: seq<LineItem>) {
    forall i, j :: 0 <= i < j < |items| ==> items[i].id != items[j].id
  }

  /** Every line holds at least one unit. */
  predicate QuantitiesPositive(items: seq<LineItem>) {
    forall i :: 0 <= i < |items| ==> items[i].quantity >= 1
  }

  /** Sets the quantity, unclamped, on every line with the id; nothing else changes. */
  function Updated(items: seq<LineItem>, id: int, quantity: int): (r: seq<LineItem>)
    ensures |r| == |items|
    ensures forall i :: 0 <= i < |items| && items[i].id == id ==> r[i] == items[i].(quantity := quantity)
    ensures forall i :: 0 <= i < |items| && items[i].id != id ==> r[i] == items[i]
    decreases |items|
  {
    if items == [] then []
    else
      var last := items[|items| - 1];
      Updated(items[..|items| - 1], id, quantity) + [if last.id == id then last.(quantity := quantity) else last]
  }

  /** Filters out every line with the id; the survivors keep their order. */
  function Removed(items: seq<LineItem>, id: int): (r: seq<LineItem>)
    ensures forall i :: 0 <= i < |r| ==> r[i].id != id
    ensures forall x :: x in r <==> x in items && x.id != id
    ensures (forall i :: 0 <= i < |items| ==> items[i].id != id) ==> r == items
    ensures |r| <= |items|
    decreases |items|
  {
    if items == [] then []
    else
      var front, last := items[..|items| - 1], items[|items| - 1];
      assert items == front + [last];
      Removed(front, id) + (if last.id == id then [] else [last])
  }

  /** The state change a request from a line's controls causes. */
  function ApplyRequest(items: seq<LineItem>, request: CartRequest): seq<LineItem> {
    match request
    case UpdateQuantity(id, quantity) => Updated(items, id, quantity)
    case RemoveItem(id) => Removed(items, id)
  }

  lemma {:induction false} SubtotalAppend(a: seq<LineItem>, b: seq<LineItem>)
    ensures Subtotal(a + b) == Subtotal(a) + Subtotal(b)
    decreases |b|
  {
    if b == [] {
      assert a + b == a;
    } else {
      var b' := b[..|b| - 1];
      assert (a + b)[..|a + b| - 1] == a + b';
      SubtotalAppend(a, b');
    }
  }

  lemma {:induction false} ItemCountAppend(a: seq<LineItem>, b: seq<LineItem>)
    ensures ItemCount(a + b) == ItemCount(a) + ItemCount(b)
    decreases |b|
  {
    if b == [] {
      assert a + b == a;
    } else {
      var b' := b[..|b| - 1];
      assert (a + b)[..|a + b| - 1] == a + b';
      ItemCountAppend(a, b');
    }
  }

  /** With positive quantities the count is at least the number of lines, so it is 0 only for an empty cart. */
  lemma {:induction false} ItemCountCoversLines(items: seq<LineItem>)
    requires QuantitiesPositive(items)
    ensures ItemCount(items) >= |items|
    ensures ItemCount(items) == 0 <==> items == []
    decreases |items|
  {
    if items != [] {
      ItemCountCoversLines(items[..|items| - 1]);
    }
  }

  /** The summary's checkout button, fed this cart's item count, is disabled exactly while updating or when the cart has no lines. */
  lemma CheckoutDisabledExactlyWhenEmpty(items: seq<LineItem>, isLoading: bool)
    requires QuantitiesPositive(items)
    ensures CartSummary.CheckoutDisabled(isLoading, ItemCount(items)) <==> isLoading || items == []
  {
    ItemCountCoversLines(items);
  }

  lemma {:induction false} RemovedDistributes(a: seq<LineItem>, b: seq<LineItem>, id: int)
    ensures Removed(a + b, id) == Removed(a, id) + Removed(b, id)
    decreases |b|
  {
    if b == [] {
      assert a + b == a;
    } else {
      var b' := b[..|b| - 1];
      assert (a + b)[..|a + b| - 1] == a + b';
      RemovedDistributes(a, b', id);
    }
  }

  /** The line with the id sits at index k and nowhere else. */
  predicate OnlyAt(items: seq<LineItem>, id: int, k: int) {
    0 <= k < |items| && items[k].id == id &&
    forall i :: 0 <= i < |items| && i != k ==> items[i].id != id
  }

  lemma UniqueLine(items: seq<LineItem>, id: int, k: int)
    requires DistinctIds(items) && 0 <= k < |items| && items[k].id == id
    ensures OnlyAt(items, id, k)
  {
  }

  /** Splits a cart around its line k, and shows the update touches only that line. */
  lemma UpdatedAround(items: seq<LineItem>, id: int, quantity: int, k: int)
    requires OnlyAt(items, id, k)
    ensures items == items[..k] + [items[k]] + items[k + 1..]
    ensures Updated(items, id, quantity) == items[..k] + [items[k].(quantity := quantity)] + items[k + 1..]
  {
  }

  /** With distinct ids, setting line `id` from q0 to q moves the item count by q - q0. */
  lemma ItemCountAfterUpdate(items: seq<LineItem>, id: int, quantity: int, k: int)
    requires DistinctIds(items) && 0 <= k < |items| && items[k].id == id
    ensures ItemCount(Updated(items, id, quantity)) == ItemCount(items) - items[k].quantity + quantity
  {
    UniqueLine(items, id, k);
    UpdatedAround(items, id, quantity, k);
    ItemCountAroundLine(items[..k], items[k], items[k + 1..]);
    ItemCountAroundLine(items[..k], items[k].(quantity := quantity), items[k + 1..]);
  }

  /** With distinct ids, setting line `id` from q0 to q moves the subtotal by price * (q - q0). */
  lemma SubtotalAfterUpdate(items: seq<LineItem>, id: int, quantity: int, k: int)
    requires DistinctIds(items) && 0 <= k < |items| && items[k].id == id
    ensures Subtotal(Updated(items, id, quantity))
         == Subtotal(items) + items[k].price * (quantity - items[k].quantity) as real
  {
    UniqueLine(items, id, k);
    UpdatedAround(items, id, quantity, k);
    LineAmountStep(items[k], quantity);
    SubtotalShift(items, Updated(items, id, quantity), items[..k], items[k], items[k].(quantity := quantity),
      items[k + 1..], items[k].price * (quantity - items[k].quantity) as real);
  }

  lemma SubtotalShift(before: seq<LineItem>, after: seq<LineItem>,
                      front: seq<LineItem>, line: LineItem, line': LineItem, back: seq<LineItem>, d: real)
    requires before == front + [line] + back && after == front + [line'] + back
    requires LineAmount(line') == LineAmount(line) + d
    ensures Subtotal(after) == Subtotal(before) + d
  {
    SubtotalReplaceLine(front, line, line', back, d);
  }

  lemma LineAmountStep(line: LineItem, quantity: int)
    ensures LineAmount(line.(quantity := quantity)) == LineAmount(line) + line.price * (quantity - line.quantity) as real
  {
    Distributes(line.price, line.quantity, quantity);
  }

  lemma Distributes(p: real, a: int, b: int)
    ensures p * b as real == p * a as real + p * (b - a) as real
  {
  }

  lemma SubtotalReplaceLine(front: seq<LineItem>, line: LineItem, line': LineItem, back: seq<LineItem>, d: real)
    requires LineAmount(line') == LineAmount(line) + d
    ensures Subtotal(front + [line'] + back) == Subtotal(front + [line] + back) + d
  {
    SubtotalAroundLine(front, line, back);
    SubtotalAroundLine(front, line', back);
  }

  lemma SubtotalAroundLine(front: seq<LineItem>, line: LineItem, back: seq<LineItem>)
    ensures Subtotal(front + [line] + back) == Subtotal(front) + LineAmount(line) + Subtotal(back)
  {
    SubtotalAppend(front + [line], back);
    SubtotalAppend(front, [line]);
    assert Subtotal([line]) == LineAmount(line) by { assert [line][..0] == []; }
  }

  lemma ItemCountAroundLine(front: seq<LineItem>, line: LineItem, back: seq<LineItem>)
    ensures ItemCount(front + [line] + back) == ItemCount(front) + line.quantity + ItemCount(back)
  {
    ItemCountAppend(front + [line], back);
    ItemCountAppend(front, [line]);
    assert ItemCount([line]) == line.quantity by { assert [line][..0] == []; }
  }

  /** Removing the one line with the id leaves the lines before and after it. */
  lemma RemovedAround(items: seq<LineItem>, id: int, k: int)
    requires OnlyAt(items, id, k)
    ensures items == items[..k] + [items[k]] + items[k + 1..]
    ensures Removed(items, id) == items[..k] + items[k + 1..]
  {
    var front, line, back := items[..k], items[k], items[k + 1..];
    assert items == front + [line] + back;
    forall i | 0 <= i < |front| ensures front[i].id != id { assert front[i] == items[i]; }
    forall i | 0 <= i < |back| ensures back[i].id != id { assert back[i] == items[k + 1 + i]; }
    calc {
      Removed(items, id);
      Removed(front + [line] + back, id);
      { RemovedDistributes(front + [line], back, id); }
      Removed(front + [line], id) + Removed(back, id);
      { RemovedDistributes(front, [line], id); }
      Removed(front, id) + Removed([line], id) + Removed(back, id);
      { KeptWhole(front, id); KeptWhole(back, id);
        assert Removed([line], id) == [] by { assert [line][..0] == []; } }
      front + [] + back;
      { assert front + [] == front; }
      front + back;
    }
  }

  lemma KeptWhole(items: seq<LineItem>, id: int)
    requires forall i :: 0 <= i < |items| ==> items[i].id != id
    ensures Removed(items, id) == items
  {
  }

  /** With distinct ids, removing line `id` lowers the item count by that line's quantity. */
  lemma ItemCountAfterRemove(items: seq<LineItem>, id: int, k: int)
    requires DistinctIds(items) && 0 <= k < |items| && items[k].id == id
    ensures ItemCount(Removed(items, id)) == ItemCount(items) - items[k].quantity
  {
    UniqueLine(items, id, k);
    RemovedAround(items, id, k);
    ItemCountAroundLine(items[..k], items[k], items[k + 1..]);
    ItemCountAppend(items[..k], items[k + 1..]);
  }

  /**
   * The stepper keeps the floor: starting from lines that all hold at least one
   * unit, any control pressed on one of those lines leaves every line at least 1.
   */
  lemma ControlsKeepQuantitiesPositive(items: seq<LineItem>, k: int, control: Control)
    requires QuantitiesPositive(items) && 0 <= k < |items|
    ensures var r := Press(items[k], control);
      r.Some? ==> QuantitiesPositive(ApplyRequest(items, r.value))
  {
    var r := Press(items[k], control);
    if r.Some? && r.value.RemoveItem? {
      var after := Removed(items, r.value.id);
      forall i | 0 <= i < |after| ensures after[i].quantity >= 1 {
        assert after[i] in after;
      }
    }
  }

  /** With distinct ids, plus then minus on one line restores the cart exactly. */
  lemma PlusThenMinusRestores(items: seq<LineItem>, k: int)
    requires DistinctIds(items) && QuantitiesPositive(items) && 0 <= k < |items|
    ensures var once := ApplyRequest(items, HandleIncrease(items[k]));
      Press(once[k], Minus).Some? && ApplyRequest(once, Press(once[k], Minus).value) == items
  {
    var id, q := items[k].id, items[k].quantity;
    var once := Updated(items, id, q + 1);
    assert once[k] == items[k].(quantity := q + 1);
    var twice := Updated(once, id, q);
    forall i | 0 <= i < |items| ensures twice[i] == items[i] {
      if items[i].id == id {
        assert i == k;
      }
    }
    assert twice == items;
  }

  /** The two mock lines the page starts with. */
  const InitialCartItems: seq<LineItem> := [
    LineItem(1, "Wireless Bluetooth Earbuds", 59.99, "/placeholder.svg", 1, None),
    LineItem(2, "Minimalist Analog Watch", 79.99, "/placeholder.svg", 1, Some(Variant(None, Some("Black"))))
  ]

  lemma InitialCartTotals()
    ensures Subtotal(InitialCartItems) == 139.98
    ensures ItemCount(InitialCartItems) == 2
    ensures DistinctIds(InitialCartItems) && QuantitiesPositive(InitialCartItems)
  {
    assert InitialCartItems[..1][..0] == [];
    assert InitialCartItems[..1] == [InitialCartItems[0]];
  }

  /** The page's state cell. */
  class CartPage {
    var cartItems: seq<LineItem>

    constructor ()
      ensures cartItems == InitialCartItems
    {
      cartItems := InitialCartItems;
    }

    /** Replaces the quantity on matching lines; the stored quantity is exactly the one passed in. */
    method HandleUpdateQuantity(id: int, quantity: int)
      modifies this
      ensures cartItems == Updated(old(cartItems), id, quantity)
      ensures QuantitiesPositive(old(cartItems)) && quantity >= 1 ==> QuantitiesPositive(cartItems)
      ensures DistinctIds(old(cartItems)) ==> DistinctIds(cartItems)
    {
      cartItems := Updated(cartItems, id, quantity);
    }

    /** Filters out the matching lines; an absent id leaves the cart as it is. */
    method HandleRemoveItem(id: int)
      modifies this
      ensures cartItems == Removed(old(cartItems), id)
      ensures forall i :: 0 <= i < |cartItems| ==> cartItems[i].id != id
    {
      cartItems := Removed(cartItems, id);
    }
  }
}
