/**
 * One cart line and its stepper controls. The component keeps no state of its
 * own: each handler computes a request and hands it to the cart page.
 */
module CartItem {
  import opened Wrappers

  datatype Variant = Variant(size: Option<string>, color: Option<string>)

  /** A cart line; prices are exact reals, quantities unbounded integers. */
  datatype LineItem = LineItem(id: int, name: string, price: real, image: string, quantity: int, variant: Option<Variant>)

  /** A request from a line's controls to the cart page. */
  datatype CartRequest = UpdateQuantity(id: int, quantity: int) | RemoveItem(id: int)

  /** The amount displayed for one line. */
  function LineAmount(item: LineItem): (r: real)
    ensures item.quantity == 0 ==> r == 0.0
    ensures item.price >= 0.0 && item.quantity >= 0 ==> r >= 0.0
    ensures item.quantity == 1 ==> r == item.price
  {
    item.price * item.quantity as real
  }

  /** The plus button always asks for one more of the same line. */
  function HandleIncrease(item: LineItem): (r: CartRequest)
    ensures r.UpdateQuantity? && r.id == item.id && r.quantity == item.quantity + 1
    ensures item.quantity >= 1 ==> r.quantity >= 1
  {
    UpdateQuantity(item.id, item.quantity + 1)
  }

  /** The minus button asks for one fewer only above 1, and emits nothing at or below 1. */
  function HandleDecrease(item: LineItem): (r: Option<CartRequest>)
    ensures r.Some? <==> item.quantity > 1
    ensures r.Some? ==> r.value.UpdateQuantity? && r.value.id == item.id && r.value.quantity >= 1
    ensures r.Some? ==> r.value.quantity == item.quantity - 1
  {
    if item.quantity > 1 then Some(UpdateQuantity(item.id, item.quantity - 1)) else None
  }

  /** The minus button is disabled exactly when pressing it would emit nothing. */
  predicate DecreaseDisabled(item: LineItem)
    ensures DecreaseDisabled(item) <==> HandleDecrease(item).None?
  {
    item.quantity <= 1
  }

  /** The trash button forwards the line's own id. */
  function HandleRemove(item: LineItem): (r: CartRequest)
    ensures r.RemoveItem? && r.id == item.id
  {
    RemoveItem(item.id)
  }

  /** The three controls of a line. */
  datatype Control = Plus | Minus | Trash

  /** What pressing a control asks of the cart page, if anything. */
  function Press(item: LineItem, control: Control): (r: Option<CartRequest>)
    ensures r.Some? ==> r.value.id == item.id
    ensures r.None? <==> control == Minus && item.quantity <= 1
    ensures item.quantity >= 1 && r.Some? && r.value.UpdateQuantity? ==> r.value.quantity >= 1
    ensures control == Plus ==> r == Some(UpdateQuantity(item.id, item.quantity + 1))
    ensures control == Minus && item.quantity > 1 ==> r == Some(UpdateQuantity(item.id, item.quantity - 1))
    ensures control == Trash ==> r == Some(RemoveItem(item.id))
  {
    match control
    case Plus => Some(HandleIncrease(item))
    case Minus => HandleDecrease(item)
    case Trash => Some(HandleRemove(item))
  }

  /** Increase then decrease asks for the quantity the line started with. */
  lemma DecreaseUndoesIncrease(item: LineItem)
    requires item.quantity >= 1
    ensures HandleDecrease(item.(quantity := HandleIncrease(item).quantity)) == Some(UpdateQuantity(item.id, item.quantity))
  {
  }
}
