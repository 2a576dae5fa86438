/**
 * The product page's quantity picker and colour choice. The quantity state cell
 * starts at 1 and is stepped up (only below the stock) and down (only above 1).
 */
module ProductDetail {
  import opened Wrappers

  datatype Product = Product(id: int, name: string, price: real, stock: int, colors: seq<string>)

  /** The mock product the page shows. */
  const MockProduct: Product := Product(1, "Wireless Bluetooth Earbuds", 59.99, 15, ["Black", "White", "Blue"])

  /** One press of the plus button: add 1 only while below the stock. */
  function Increased(quantity: int, stock: int): (r: int)
    ensures quantity < stock ==> r == quantity + 1
    ensures quantity >= stock ==> r == quantity
    ensures 1 <= quantity <= stock ==> 1 <= r <= stock
  {
    if quantity < stock then quantity + 1 else quantity
  }

  /** One press of the minus button: subtract 1 only while above 1. */
  function Decreased(quantity: int): (r: int)
    ensures quantity > 1 ==> r == quantity - 1
    ensures quantity <= 1 ==> r == quantity
    ensures quantity >= 1 ==> r >= 1 && r <= quantity
  {
    if quantity > 1 then quantity - 1 else quantity
  }

  /** A decrease after an increase that changed the value restores the original quantity. */
  lemma DecreaseUndoesIncrease(quantity: int, stock: int)
    requires quantity >= 1 && Increased(quantity, stock) != quantity
    ensures Decreased(Increased(quantity, stock)) == quantity
  {
  }

  datatype Press = Plus | Minus

  /** The quantity after a run of presses. */
  function Run(quantity: int, stock: int, presses: seq<Press>): (r: int)
    ensures 1 <= quantity <= stock ==> 1 <= r <= stock
    decreases |presses|
  {
    if presses == [] then quantity
    else
      var q := Run(quantity, stock, presses[..|presses| - 1]);
      if presses[|presses| - 1] == Plus then Increased(q, stock) else Decreased(q)
  }

  /** From the initial 1, and with at least one unit in stock, every run keeps 1 <= quantity <= stock. */
  lemma {:induction false} RunStaysInBounds(stock: int, presses: seq<Press>)
    requires stock >= 1
    ensures 1 <= Run(1, stock, presses) <= stock
    decreases |presses|
  {
    if presses != [] {
      RunStaysInBounds(stock, presses[..|presses| - 1]);
    }
  }

  /** The colour chosen first: the first listed colour, or none when the list is empty. */
  function DefaultColor(colors: seq<string>): (r: Option<string>)
    ensures r.Some? <==> |colors| > 0
    ensures r.Some? ==> r.value == colors[0] && r.value in colors
  {
    if |colors| > 0 then Some(colors[0]) else None
  }

  /** The page's state cells. */
  class ProductDetailPage {
    const product: Product
    var quantity: int
    var selectedColor: Option<string>

    /** 1 <= quantity <= stock whenever there is stock. */
    ghost predicate Valid()
      reads this
    {
      product.stock >= 1 ==> 1 <= quantity <= product.stock
    }

    constructor (p: Product)
      ensures product == p && quantity == 1 && selectedColor == DefaultColor(p.colors)
      ensures Valid()
    {
      product := p;
      quantity := 1;
      selectedColor := DefaultColor(p.colors);
    }

    method IncreaseQuantity()
      requires Valid()
      modifies this`quantity
      ensures Valid()
      ensures quantity == Increased(old(quantity), product.stock)
    {
      if quantity < product.stock {
        quantity := quantity + 1;
      }
    }

    method DecreaseQuantity()
      requires Valid()
      modifies this`quantity
      ensures Valid()
      ensures quantity == Decreased(old(quantity))
    {
      if quantity > 1 {
        quantity := quantity - 1;
      }
    }

    method SelectColor(color: string)
      modifies this`selectedColor
      ensures selectedColor == Some(color)
    {
      selectedColor := Some(color);
    }
  }

  /** The mock product's page starts at quantity 1 with "Black" selected. */
  method OpenMockProduct() returns (page: ProductDetailPage)
    ensures fresh(page) && page.Valid()
    ensures page.quantity == 1 && page.selectedColor == Some("Black")
  {
    page := new ProductDetailPage(MockProduct);
  }
}
