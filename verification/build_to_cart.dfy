/** Saving a PC build and putting it into the cart as one synthetic line.
    The auth call and the `pc_builds` insert are remote, and the build id is
    a random UUID drawn on the client; all three are parameters. */
module BuildToCart {
  import opened Wrappers
  import opened Types
  import opened CartStore
  import PcBuilderStore

  const DefaultPcBuildImage: string :=
    "https://c.dns-shop.kz/thumb/st4/fit/500/500/74b1d82cd8ea4b500778059a46043ad8/f5790e38bf4e4b06921b9b722706e72f5efad395c9ed5572c676250b98910f6c.jpg.webp"

  const BuildName: string := "Сборка ПК"

  /** The row written to `pc_builds`. */
  datatype BuildRow = BuildRow(id: string, userId: string, componentIds: seq<string>)

  datatype BuildError = NotAuthenticated | InsertFailed

  /** `products.reduce((sum, p) => sum + p.price, 0)`. */
  function SumPrices(products: seq<Product>): int {
    if products == [] then 0 else products[0].price + SumPrices(products[1..])
  }

  /** The cart argument built from the saved build. */
  function BuildItem(buildId: string, products: seq<Product>): Addable {
    Addable(buildId, BuildName, SumPrices(products), DefaultPcBuildImage, Some(true), Some(products))
  }

  /** The cart accepts the build line exactly when its id is non-empty and
      the component prices do not sum to 0; in particular an empty build is
      always refused. */
  lemma BuildItemAcceptable(buildId: string, products: seq<Product>)
    ensures Acceptable(BuildItem(buildId, products)) <==> buildId != "" && SumPrices(products) != 0
    ensures IsBuildInput(BuildItem(buildId, products))
    ensures WithItem([], BuildItem(buildId, []), 1) == []
  {
  }

  /** The build's price is the builder's `getBuildTotal` when the products
      are the values of the build. */
  lemma {:induction false} SumPricesOfBuild(b: PcBuilderStore.Build)
    ensures SumPrices(PcBuilderStore.Values(b)) == PcBuilderStore.BuildTotal(b)
  {
    if b != [] {
      SumPricesOfBuild(b[1..]);
      assert PcBuilderStore.Values(b)[1..] == PcBuilderStore.Values(b[1..]);
    }
  }

  /** When the cart has no line for this build yet, an accepted build item
      becomes one new last line of quantity 1 that records the build id and
      the components, priced at the components' sum. */
  lemma NewBuildLine(items: seq<CartItem>, buildId: string, products: seq<Product>)
    requires buildId != "" && SumPrices(products) != 0
    requires !HasLine(items, buildId, true)
    ensures var r := WithItem(items, BuildItem(buildId, products), 1);
      |r| == |items| + 1 && r[..|items|] == items
      && r[|items|] == CartItem(buildId, BuildName, SumPrices(products), DefaultPcBuildImage,
                                1, true, Some(buildId), Some(products))
  {
  }

  /** `createBuildAndAddToCart(products, addItem)`. `authUser` is the id the
      auth service reports, `buildId` the UUID drawn for the new build and
      `insertOk` whether the insert succeeded. `request` is the row the
      insert was asked to write; `error` is what is thrown, if anything. */
  method CreateBuildAndAddToCart(products: seq<Product>, cart: Cart, authUser: Option<string>,
                                 buildId: string, insertOk: bool)
    returns (request: Option<BuildRow>, error: Option<BuildError>)
    modifies cart
    ensures authUser.None? ==>
      request == None && error == Some(NotAuthenticated) && cart.items == old(cart.items)
    ensures authUser.Some? ==> request == Some(BuildRow(buildId, authUser.value, Ids(products, ProductId)))
    ensures authUser.Some? && !insertOk ==> error == Some(InsertFailed) && cart.items == old(cart.items)
    ensures error.None? <==> authUser.Some? && insertOk
    ensures error.None? ==>
      cart.items == WithItem(old(cart.items), BuildItem(buildId, products), 1)
  {
    if authUser.None? {
      return None, Some(NotAuthenticated);
    }
    var componentIds := Ids(products, ProductId);
    var totalPrice := SumPrices(products);
    request := Some(BuildRow(buildId, authUser.value, componentIds));
    if !insertOk {
      return request, Some(InsertFailed);
    }
    cart.AddItem(Addable(buildId, BuildName, totalPrice, DefaultPcBuildImage, Some(true), Some(products)), 1);
    return request, None;
  }
}
