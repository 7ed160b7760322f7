/** The PC-builder page: the completion test, the (empty) compatibility
    check, the enabled state of its buttons, "add every component to the
    cart" and "put the build into the cart". Navigation after an action is
    not modelled. */
module PcBuilderPage {
  import opened Wrappers
  import opened Types
  import opened CartStore
  import opened PcBuilderStore
  import BuildToCart

  /** `Object.keys(componentCategories).length`. */
  const CategoryCount: nat := |AllSlots|

  /** `isComplete`. */
  predicate IsComplete(b: Build) {
    ComponentsCount(b) >= CategoryCount
  }

  /** The build is complete exactly when every one of the eight slots is
      filled. */
  lemma IsCompleteIffAllFilled(b: Build)
    requires DistinctSlots(b)
    ensures IsComplete(b) <==> AllFilled(b)
  {
    ComponentsCountBySlot(b);
  }

  /** A build has no entries exactly when no slot is filled. */
  lemma EmptyIffNoSlot(b: Build)
    ensures ComponentsCount(b) == 0 <==> forall s :: Lookup(b, s) == None
  {
    if b != [] {
      assert Lookup(b, b[0].slot).Some?;
    }
  }

  /** The compatibility effect: it inspects the CPU and motherboard slots
      but never records an issue. */
  method CompatibilityIssues(b: Build) returns (issues: seq<string>)
    ensures issues == []
  {
    issues := [];
    if Lookup(b, Cpu).Some? && Lookup(b, Motherboard).Some? {
      // no rule is implemented for this pair
    }
  }

  /** The `disabled` condition of "Add All to Cart". */
  predicate AddAllDisabled(b: Build, issues: seq<string>) {
    ComponentsCount(b) == 0 || |issues| > 0
  }

  /** The `disabled` condition of "Clear Build". */
  predicate ClearDisabled(b: Build) {
    ComponentsCount(b) == 0
  }

  /** Since the issue list is always empty, both buttons are disabled
      exactly when no slot is filled. */
  lemma ButtonsDisabledIffEmpty(b: Build, issues: seq<string>)
    requires issues == []
    ensures AddAllDisabled(b, issues) <==> forall s :: Lookup(b, s) == None
    ensures ClearDisabled(b) <==> forall s :: Lookup(b, s) == None
  {
    EmptyIffNoSlot(b);
  }

  /** The cart after `addItem(p, 1)` for each product `ps` in turn. */
  function AddEach(items: seq<CartItem>, ps: seq<Product>): seq<CartItem> {
    if ps == [] then items
    else WithItem(AddEach(items, ps[..|ps| - 1]), FromProduct(ps[|ps| - 1]), 1)
  }

  /** How many of the products the cart accepts. */
  function AcceptedCount(ps: seq<Product>): nat {
    if ps == [] then 0
    else AcceptedCount(ps[..|ps| - 1]) + (if Acceptable(FromProduct(ps[|ps| - 1])) then 1 else 0)
  }

  /** Adding the products one unit at a time keeps one line per key and
      raises the item count by one per accepted product. */
  lemma {:induction false} AddEachEffect(items: seq<CartItem>, ps: seq<Product>)
    requires UniqueKeys(items)
    ensures UniqueKeys(AddEach(items, ps))
    ensures TotalItems(AddEach(items, ps)) == TotalItems(items) + AcceptedCount(ps)
  {
    if ps != [] {
      var pre := ps[..|ps| - 1];
      AddEachEffect(items, pre);
      var a := FromProduct(ps[|ps| - 1]);
      AddKeepsKeysUnique(AddEach(items, pre), a, 1);
      if Acceptable(a) {
        AddTotals(AddEach(items, pre), a, 1);
      }
    }
  }

  /** A product that is already in the cart as a product line gets one
      more unit; the other lines stay as they were. */
  lemma AddOneMerges(items: seq<CartItem>, p: Product, k: int)
    requires UniqueKeys(items) && Acceptable(FromProduct(p))
    requires 0 <= k < |items| && SameLine(items[k], p.id, false)
    ensures var r := AddEach(items, [p]);
      |r| == |items| && r[k].quantity == items[k].quantity + 1
      && forall i :: 0 <= i < |items| && i != k ==> r[i] == items[i]
  {
    assert [p][..0] == [];
    AddMerges(items, FromProduct(p), 1, k);
  }

  /** `handleAddAllToCart`: `addItem(product, 1)` for every filled slot, in
      the build's key order, and for nothing else. */
  method AddAllToCart(builder: PCBuilder, cart: Cart)
    modifies cart
    ensures cart.items == AddEach(old(cart.items), Values(builder.build))
    ensures old(cart.Valid()) ==> cart.Valid()
    ensures old(cart.Valid()) ==>
      cart.GetTotalItems() == old(cart.GetTotalItems()) + AcceptedCount(Values(builder.build))
  {
    var products := Values(builder.build);
    for i := 0 to |products|
      invariant cart.items == AddEach(old(cart.items), products[..i])
    {
      assert products[..i + 1][..i] == products[..i];
      cart.AddItem(FromProduct(products[i]), 1);
    }
    assert products[..|products|] == products;
    if old(cart.Valid()) {
      AddEachEffect(old(cart.items), products);
    }
  }

  /** "Сборку в корзину", offered only on a complete build: the products of
      the filled slots, in key order, go to `createBuildAndAddToCart`. The
      cart line it creates is priced at the builder's total. */
  method BuildToCartAction(builder: PCBuilder, cart: Cart, authUser: Option<string>,
                           buildId: string, insertOk: bool)
    returns (selected: seq<Product>, error: Option<BuildToCart.BuildError>)
    requires builder.Valid() && IsComplete(builder.build)
    modifies cart
    ensures selected == Values(builder.build)
    ensures |selected| == ComponentsCount(builder.build)
    ensures forall i :: 0 <= i < |selected| ==> Lookup(builder.build, builder.build[i].slot) == Some(selected[i])
    ensures BuildToCart.SumPrices(selected) == BuildTotal(builder.build)
    ensures error.None? <==> authUser.Some? && insertOk
    ensures error.None? ==>
      cart.items == WithItem(old(cart.items), BuildToCart.BuildItem(buildId, selected), 1)
    ensures error.Some? ==> cart.items == old(cart.items)
  {
    selected := Values(builder.build);
    BuildToCart.SumPricesOfBuild(builder.build);
    ValuesAreLookups(builder.build);
    var request;
    request, error := BuildToCart.CreateBuildAndAddToCart(selected, cart, authUser, buildId, insertOk);
  }

  /** Each value of a build with distinct slots is what its slot holds. */
  lemma {:induction false} ValuesAreLookups(b: Build)
    ensures DistinctSlots(b) ==> forall i :: 0 <= i < |b| ==> Lookup(b, b[i].slot) == Some(Values(b)[i])
  {
    if b != [] && DistinctSlots(b) {
      ValuesAreLookups(b[1..]);
      forall i | 0 <= i < |b| ensures Lookup(b, b[i].slot) == Some(Values(b)[i]) {
        if i > 0 {
          assert b[i] == b[1..][i - 1];
          assert b[0].slot != b[i].slot;
        }
      }
    }
  }
}
