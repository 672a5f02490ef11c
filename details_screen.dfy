/**
 * The product-detail screen's cart state: the stored cart slot, the cart
 * shown on screen, the badge count, the quantity stepper and the chosen
 * colour and size. `AddToCart` reads the slot, merges the selection into
 * it in place, raises the total and writes the slot back.
 */
module DetailsScreen {
  import opened Nullable
  import opened Cart

  /** The product handed to the screen: the fields an add copies into a line. */
  datatype Product = Product(id: string, name: string, price: int, image: string)

  /** The colour selected when the screen opens. */
  const DefaultColor := "Đen"

  class Screen {
    const product: Product
    /** The 'cart' entry of the device's key-value storage; None when it is absent. */
    var slot: Option<CartData>
    var cart: CartData
    var cartCount: int
    var quantity: int
    var selectedColor: string
    var selectedSize: Option<string>

    /** The stepper never shows less than one. */
    ghost predicate Valid()
      reads this
    {
      quantity >= 1
    }

    constructor (product: Product, slot: Option<CartData>)
      ensures Valid()
      ensures this.product == product && this.slot == slot
      ensures cart == Empty && cartCount == 0 && quantity == 1
      ensures selectedColor == DefaultColor && selectedSize == None
    {
      this.product := product;
      this.slot := slot;
      cart := Empty;
      cartCount := 0;
      quantity := 1;
      selectedColor := DefaultColor;
      selectedSize := None;
    }

    /** The line an add would store for the current selection. */
    function Selection(): (line: Line)
      reads this
      ensures line.MergeKey() == Key(product.id, selectedColor, selectedSize)
      ensures line.quantity == quantity && line.price == product.price
      ensures line.title == product.name && line.image == product.image
    {
      Line(product.id, product.name, product.price, product.image, quantity, selectedColor, selectedSize)
    }

    /** The minus button: one less, but never below one. */
    method Decrease()
      modifies this`quantity
      ensures Valid()
      ensures quantity == if old(quantity) - 1 > 1 then old(quantity) - 1 else 1
    {
      quantity := if quantity - 1 > 1 then quantity - 1 else 1;
    }

    /** The plus button. */
    method Increase()
      requires Valid()
      modifies this`quantity
      ensures Valid() && quantity == old(quantity) + 1
    {
      quantity := quantity + 1;
    }

    method SelectColor(color: string)
      requires Valid()
      modifies this`selectedColor
      ensures Valid()
      ensures selectedColor == color
    {
      selectedColor := color;
    }

    method SelectSize(size: string)
      requires Valid()
      modifies this`selectedSize
      ensures Valid()
      ensures selectedSize == Some(size)
    {
      selectedSize := Some(size);
    }

    /** Shows the stored cart and its count; an absent slot leaves both as they were. */
    method LoadCart()
      requires Valid()
      modifies this`cart, this`cartCount
      ensures Valid()
      ensures slot.Some? ==> cart == slot.value && cartCount == Count(cart.items)
      ensures slot.None? ==> cart == old(cart) && cartCount == old(cartCount)
    {
      if slot.Some? {
        cart := slot.value;
        cartCount := Count(cart.items);
      }
    }

    /**
     * Adds the selection to the stored cart (an absent slot counts as the
     * empty cart), stores the result and shows it. The badge count grows by
     * exactly the selected quantity over the stored cart's count.
     */
    method AddToCart()
      requires Valid()
      modifies this`slot, this`cart, this`cartCount
      ensures Valid()
      ensures cart == Add(Stored(old(slot)), Selection())
      ensures slot == Some(cart)
      ensures cartCount == Count(cart.items)
      ensures cartCount == Count(Stored(old(slot)).items) + quantity
      ensures UniqueKeys(Stored(old(slot)).items) ==> UniqueKeys(cart.items)
    {
      var current := if slot.Some? then slot.value else Empty;
      ghost var before := current;
      var line := Line(product.id, product.name, product.price, product.image,
                       quantity, selectedColor, selectedSize);
      var items := current.items;
      var i := FindIndex(items, line.MergeKey());
      if i >= 0 {
        items := items[i := items[i].(quantity := items[i].quantity + quantity)];
      } else {
        items := items + [line];
      }
      assert items == Merge(before.items, line);
      current := CartData(items, current.total + product.price * quantity);
      MergeCount(before.items, line);
      if UniqueKeys(before.items) {
        MergeKeepsKeysUnique(before.items, line);
      }
      slot := Some(current);
      cart := current;
      cartCount := Count(current.items);
    }
  }

  /** Two adds of the same selection leave one line holding both quantities. */
  method AddTwice(s: Screen)
    requires s.Valid() && s.slot == None
    modifies s
    ensures s.cart.items == [s.Selection().(quantity := 2 * s.quantity)]
    ensures s.cartCount == 2 * s.quantity
  {
    s.AddToCart();
    assert s.cart.items == [s.Selection()];
    s.AddToCart();
    assert FindIndex([s.Selection()], s.Selection().MergeKey()) == 0;
  }
}
