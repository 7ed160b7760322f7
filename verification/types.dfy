/** The row shapes the storefront reads from its hosted database and the
    cart line it keeps on the client. Prices are whole cents. */
module Types {
  import opened Wrappers
  import opened JsText

  datatype User = User(
    id: string,
    email: string,
    firstName: Option<string>,
    lastName: Option<string>,
    isAdmin: bool,
    createdAt: string)

  datatype Category = Category(
    id: string,
    name: string,
    description: Option<string>,
    imageUrl: Option<string>,
    createdAt: string)

  datatype Product = Product(
    id: string,
    name: string,
    description: string,
    price: int,
    imageUrl: string,
    stock: int,
    categoryId: Option<string>,
    specifications: map<string, JsValue>,
    createdAt: string)

  datatype ShippingInfo = ShippingInfo(address: string, city: string, state: string, zip: string, country: string)

  datatype PaymentInfo = PaymentInfo(payMethod: string, cardNumber: string, cardholder: string, expiry: string, cvv: string)

  datatype OrderItem = OrderItem(
    id: string,
    orderId: string,
    productId: Option<string>,
    buildId: Option<string>,
    quantity: int,
    price: int,
    createdAt: string)

  /** One line of the cart: an ordinary product, or a saved PC build
      (`isBuild`) that also carries its component products. */
  datatype CartItem = CartItem(
    id: string,
    name: string,
    price: int,
    imageUrl: string,
    quantity: int,
    isBuild: bool,
    buildId: Option<string>,
    components: Option<seq<Product>>)

  function ProductId(p: Product): string { p.id }

  function CategoryId(c: Category): string { c.id }

  /** `rows.map(r => r.id)`: the ids, in the rows' order. */
  function Ids<T>(rows: seq<T>, id: T -> string): (ids: seq<string>)
    ensures |ids| == |rows| && forall i :: 0 <= i < |rows| ==> ids[i] == id(rows[i])
  {
    if rows == [] then [] else [id(rows[0])] + Ids(rows[1..], id)
  }
}
