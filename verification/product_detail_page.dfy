/** The product page's quantity stepper and its two cart buttons. Fetching
    the product is remote: the page is modelled from the moment the fetch
    has settled, holding the product or nothing. Navigation is reported as
    a flag. */
module ProductDetailPage {
  import opened Wrappers
  import opened Types
  import opened JsText
  import opened CartStore

  /** The quantity after typing `text` into the field: `parseInt(text)` is
      taken when it is a number above 0, otherwise the quantity stays. */
  function AfterTyping(quantity: int, text: string): int {
    var v := ParseInt(text);
    if v.Some? && v.value > 0 then v.value else quantity
  }

  /** Typing never takes the quantity below 1, and any positive number typed
      in its decimal form is taken as it is: the field is not capped by the
      stock. */
  lemma TypingKeepsPositive(quantity: int, text: string, n: int)
    requires quantity >= 1 && n > 0
    ensures AfterTyping(quantity, text) >= 1
    ensures AfterTyping(quantity, IntToString(n)) == n
  {
    ParseIntOfIntToString(n);
  }

  /** Zero and negative numbers typed in decimal form are ignored. */
  lemma TypingIgnoresNonPositive(quantity: int, n: int)
    requires n <= 0
    ensures AfterTyping(quantity, IntToString(n)) == quantity
  {
    ParseIntOfIntToString(n);
  }

  /** Text without a single digit is `NaN` to `parseInt`, so it is ignored;
      the empty field is such a text. */
  lemma DigitlessIgnored(quantity: int, text: string)
    requires forall i :: 0 <= i < |text| ==> !IsDigit(text[i])
    ensures ParseInt(text) == None
    ensures AfterTyping(quantity, text) == quantity
  {
    TrimStartShape(text);
    var t := TrimStart(text);
    var body := if t != [] && (t[0] == '-' || t[0] == '+') then t[1..] else t;
    assert forall i :: 0 <= i < |body| ==> !IsDigit(body[i]) by {
      forall i | 0 <= i < |body| ensures !IsDigit(body[i]) {
        if t != [] && (t[0] == '-' || t[0] == '+') {
          assert body[i] == text[|text| - |t| + 1 + i];
        } else {
          assert body[i] == text[|text| - |t| + i];
        }
      }
    }
    assert LeadingDigits(body) == [];
  }

  class DetailPage {
    var product: Option<Product>
    var quantity: int

    /** The selected quantity is at least 1. */
    ghost predicate Valid()
      reads this
    {
      quantity >= 1
    }

    /** The page once the fetch has settled; the quantity starts at 1. */
    constructor (loaded: Option<Product>)
      ensures product == loaded && quantity == 1 && Valid()
    {
      product := loaded;
      quantity := 1;
    }

    /** The stepper and both cart buttons are disabled when the product is
      out of stock. */
    predicate ControlsEnabled()
      reads this
    {
      product.Some? && product.value.stock > 0
    }

    /** `handleQuantityChange`. */
    method QuantityChange(text: string)
      modifies this
      ensures product == old(product)
      ensures quantity == AfterTyping(old(quantity), text)
      ensures old(Valid()) ==> Valid()
    {
      var value := ParseInt(text);
      if value.Some? && value.value > 0 {
        quantity := value.value;
      }
    }

    /** The "−" button: steps down only from above 1. */
    method Decrement()
      requires ControlsEnabled()
      modifies this
      ensures product == old(product)
      ensures quantity == if old(quantity) > 1 then old(quantity) - 1 else old(quantity)
      ensures old(Valid()) ==> Valid()
    {
      if quantity > 1 {
        quantity := quantity - 1;
      }
    }

    /** The "+" button: steps up only below the stock. */
    method Increment()
      requires ControlsEnabled()
      modifies this
      ensures product == old(product)
      ensures quantity == if old(quantity) < product.value.stock then old(quantity) + 1 else old(quantity)
      ensures old(quantity) <= product.value.stock ==> quantity <= product.value.stock
      ensures old(Valid()) ==> Valid()
    {
      if quantity < product.value.stock {
        quantity := quantity + 1;
      }
    }

    /** `handleAddToCart`: the loaded product at the selected quantity, or
      nothing when no product is loaded. */
    method AddToCart(cart: Cart)
      modifies cart
      ensures product.None? ==> cart.items == old(cart.items)
      ensures product.Some? ==> cart.items == WithItem(old(cart.items), FromProduct(product.value), quantity)
    {
      if product.Some? {
        cart.AddItem(FromProduct(product.value), quantity);
      }
    }

    /** `handleBuyNow`: the same addition, then a move to the cart page. */
    method BuyNow(cart: Cart) returns (toCart: bool)
      modifies cart
      ensures toCart <==> product.Some?
      ensures product.None? ==> cart.items == old(cart.items)
      ensures product.Some? ==> cart.items == WithItem(old(cart.items), FromProduct(product.value), quantity)
    {
      toCart := false;
      if product.Some? {
        cart.AddItem(FromProduct(product.value), quantity);
        toCart := true;
      }
    }
  }
}
