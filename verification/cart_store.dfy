/** The client-side shopping cart: an ordered list of lines, each an
    ordinary product or a saved PC build, merged by (id, isBuild). */
module CartStore {
  import opened Wrappers
  import opened Types

  /** What `addItem` reads from its argument, which may be a catalogue
      product or a cart-shaped object. `isBuild` and `components` are
      `None` when the argument has no such key. */
  datatype Addable = Addable(
    id: string,
    name: string,
    price: int,
    imageUrl: string,
    isBuild: Option<bool>,
    components: Option<seq<Product>>)

  /** A catalogue product handed to `addItem`: it has neither key. */
  function FromProduct(p: Product): Addable {
    Addable(p.id, p.name, p.price, p.imageUrl, None, None)
  }

  /** The discriminator: only a literal `isBuild === true` makes a build line. */
  predicate IsBuildInput(a: Addable) {
    a.isBuild == Some(true)
  }

  /** `addItem` refuses an argument whose id, name or image URL is the empty
      string or whose price is 0 (the JavaScript falsy values of those fields). */
  predicate Acceptable(a: Addable) {
    a.id != "" && a.name != "" && a.price != 0 && a.imageUrl != ""
  }

  predicate SameLine(item: CartItem, id: string, isBuild: bool) {
    item.id == id && item.isBuild == isBuild
  }

  predicate HasLine(items: seq<CartItem>, id: string, isBuild: bool) {
    exists i :: 0 <= i < |items| && SameLine(items[i], id, isBuild)
  }

  /** The cart's invariant: no two lines share the same (id, isBuild). */
  ghost predicate UniqueKeys(items: seq<CartItem>) {
    forall i, j :: 0 <= i < j < |items| ==> !SameLine(items[j], items[i].id, items[i].isBuild)
  }

  predicate AllPositive(items: seq<CartItem>) {
    forall i :: 0 <= i < |items| ==> items[i].quantity >= 1
  }

  /** The `map` that adds `q` to the quantity of every line with this key. */
  function Merged(items: seq<CartItem>, id: string, isBuild: bool, q: int): seq<CartItem> {
    seq(|items|, i requires 0 <= i < |items| =>
      if SameLine(items[i], id, isBuild) then items[i].(quantity := items[i].quantity + q) else items[i])
  }

  /** The line `addItem` appends for an argument it has not seen before. */
  function NewLine(a: Addable, q: int): CartItem {
    var isBuild := IsBuildInput(a);
    CartItem(a.id, a.name, a.price, a.imageUrl, q, isBuild,
      if isBuild then Some(a.id) else None,
      if isBuild && a.components.Some? then a.components else None)
  }

  /** The item list after `addItem(a, q)`. */
  function WithItem(items: seq<CartItem>, a: Addable, q: int): seq<CartItem> {
    if !Acceptable(a) then items
    else if HasLine(items, a.id, IsBuildInput(a)) then Merged(items, a.id, IsBuildInput(a), q)
    else items + [NewLine(a, q)]
  }

  /** The item list after `removeItem(id)`: the `filter` on the id alone. */
  function Without(items: seq<CartItem>, id: string): seq<CartItem> {
    if items == [] then []
    else (if items[0].id == id then [] else [items[0]]) + Without(items[1..], id)
  }

  /** The item list after `updateQuantity(id, q)`. */
  function WithQuantity(items: seq<CartItem>, id: string, q: int): seq<CartItem> {
    seq(|items|, i requires 0 <= i < |items| =>
      if items[i].id == id then items[i].(quantity := q) else items[i])
  }

  /** `getTotal`: the sum of price times quantity over the lines. */
  function Total(items: seq<CartItem>): int {
    if items == [] then 0 else items[0].price * items[0].quantity + Total(items[1..])
  }

  /** `getTotalItems`: the sum of the quantities. */
  function TotalItems(items: seq<CartItem>): int {
    if items == [] then 0 else items[0].quantity + TotalItems(items[1..])
  }

  // ---------------- addItem ----------------

  /** A refused argument leaves the cart as it was. */
  lemma AddRejected(items: seq<CartItem>, a: Addable, q: int)
    requires !Acceptable(a)
    ensures WithItem(items, a, q) == items
  {
  }

  /** When a line with the same id and discriminator exists, only that line
      changes, and only by `q` more in its quantity. */
  lemma AddMerges(items: seq<CartItem>, a: Addable, q: int, k: int)
    requires Acceptable(a) && UniqueKeys(items)
    requires 0 <= k < |items| && SameLine(items[k], a.id, IsBuildInput(a))
    ensures var r := WithItem(items, a, q);
      |r| == |items| && r[k] == items[k].(quantity := items[k].quantity + q)
      && forall i :: 0 <= i < |items| && i != k ==> r[i] == items[i]
  {
    var r := WithItem(items, a, q);
    forall i | 0 <= i < |items| && i != k
      ensures r[i] == items[i]
    {
      if i < k {
        assert !SameLine(items[k], items[i].id, items[i].isBuild);
      } else {
        assert !SameLine(items[i], items[k].id, items[k].isBuild);
      }
    }
  }

  /** Otherwise exactly one line is appended; only a build line records a
      build id (its own id) and its components. */
  lemma AddAppends(items: seq<CartItem>, a: Addable, q: int)
    requires Acceptable(a) && !HasLine(items, a.id, IsBuildInput(a))
    ensures var r := WithItem(items, a, q);
      |r| == |items| + 1 && r[..|items|] == items
      && r[|items|].id == a.id && r[|items|].quantity == q && r[|items|].price == a.price
      && r[|items|].isBuild == (a.isBuild == Some(true))
      && r[|items|].name == a.name && r[|items|].imageUrl == a.imageUrl
      && r[|items|].buildId == (if a.isBuild == Some(true) then Some(a.id) else None)
      && r[|items|].components == (if a.isBuild == Some(true) then a.components else None)
  {
  }

  /** `addItem` keeps at most one line per (id, isBuild). */
  lemma AddKeepsKeysUnique(items: seq<CartItem>, a: Addable, q: int)
    requires UniqueKeys(items)
    ensures UniqueKeys(WithItem(items, a, q))
  {
    var r := WithItem(items, a, q);
    if Acceptable(a) && !HasLine(items, a.id, IsBuildInput(a)) {
      forall i, j | 0 <= i < j < |r|
        ensures !SameLine(r[j], r[i].id, r[i].isBuild)
      {
        if j == |items| {
          assert !SameLine(items[i], a.id, IsBuildInput(a));
        }
      }
    }
  }

  lemma {:induction false} TotalAppend(xs: seq<CartItem>, ys: seq<CartItem>)
    ensures Total(xs + ys) == Total(xs) + Total(ys)
    ensures TotalItems(xs + ys) == TotalItems(xs) + TotalItems(ys)
  {
    if xs != [] {
      assert (xs + ys)[0] == xs[0] && (xs + ys)[1..] == xs[1..] + ys;
      TotalAppend(xs[1..], ys);
    } else {
      assert xs + ys == ys;
    }
  }

  /** Replacing one line changes the totals by that line's difference. */
  lemma {:induction false} TotalReplace(items: seq<CartItem>, k: int, x: CartItem)
    requires 0 <= k < |items|
    ensures Total(items[k := x]) == Total(items) - items[k].price * items[k].quantity + x.price * x.quantity
    ensures TotalItems(items[k := x]) == TotalItems(items) - items[k].quantity + x.quantity
  {
    if k > 0 {
      TotalReplace(items[1..], k - 1, x);
      assert items[k := x][1..] == items[1..][k - 1 := x];
    } else {
      assert items[k := x][1..] == items[1..];
    }
  }

  lemma OneLinePerKey(items: seq<CartItem>, id: string, isBuild: bool, k: int, k': int)
    requires UniqueKeys(items)
    requires 0 <= k < |items| && SameLine(items[k], id, isBuild)
    requires 0 <= k' < |items| && SameLine(items[k'], id, isBuild)
    ensures k == k'
  {
  }

  /** Under the invariant the `map` of a merge touches one line only. */
  lemma MergedIsUpdate(items: seq<CartItem>, id: string, isBuild: bool, q: int, k: int)
    requires UniqueKeys(items)
    requires 0 <= k < |items| && SameLine(items[k], id, isBuild)
    ensures Merged(items, id, isBuild, q) == items[k := items[k].(quantity := items[k].quantity + q)]
  {
    var r := Merged(items, id, isBuild, q);
    forall i | 0 <= i < |items| && i != k ensures r[i] == items[i] {
      if SameLine(items[i], id, isBuild) {
        OneLinePerKey(items, id, isBuild, k, i);
      }
    }
  }

  /** Merging `q` more into line `k` raises the totals by `q` units at
      that line's own price. */
  lemma {:induction false} MergeTotals(items: seq<CartItem>, id: string, isBuild: bool, q: int, k: int)
    requires UniqueKeys(items)
    requires 0 <= k < |items| && SameLine(items[k], id, isBuild)
    ensures Total(Merged(items, id, isBuild, q)) == Total(items) + items[k].price * q
    ensures TotalItems(Merged(items, id, isBuild, q)) == TotalItems(items) + q
  {
    var x := items[k].(quantity := items[k].quantity + q);
    MergedIsUpdate(items, id, isBuild, q, k);
    TotalReplace(items, k, x);
    var p, n := items[k].price, items[k].quantity;
    assert p * (n + q) == p * n + p * q;
  }

  /** `addItem` raises the item count by `q`, and the money total by `q`
      times the unit price of the line that receives them: the argument's
      price for a new line, the price already in the cart for a merge. */
  lemma AddTotals(items: seq<CartItem>, a: Addable, q: int)
    requires Acceptable(a) && UniqueKeys(items)
    ensures TotalItems(WithItem(items, a, q)) == TotalItems(items) + q
    ensures !HasLine(items, a.id, IsBuildInput(a)) ==>
      Total(WithItem(items, a, q)) == Total(items) + a.price * q
    ensures forall k :: 0 <= k < |items| && SameLine(items[k], a.id, IsBuildInput(a)) ==>
      Total(WithItem(items, a, q)) == Total(items) + items[k].price * q
  {
    if HasLine(items, a.id, IsBuildInput(a)) {
      forall k | 0 <= k < |items| && SameLine(items[k], a.id, IsBuildInput(a))
        ensures TotalItems(WithItem(items, a, q)) == TotalItems(items) + q
        ensures Total(WithItem(items, a, q)) == Total(items) + items[k].price * q
      {
        MergeTotals(items, a.id, IsBuildInput(a), q, k);
      }
    } else {
      TotalAppend(items, [NewLine(a, q)]);
      assert Total([NewLine(a, q)]) == a.price * q;
    }
  }

  /** Adding the same product `n` times to a cart without it: the list of
      quantities given, folded left to right through `addItem`. */
  function AddRepeatedly(items: seq<CartItem>, a: Addable, qs: seq<int>): seq<CartItem> {
    if qs == [] then items else WithItem(AddRepeatedly(items, a, qs[..|qs| - 1]), a, qs[|qs| - 1])
  }

  function Sum(qs: seq<int>): int {
    if qs == [] then 0 else Sum(qs[..|qs| - 1]) + qs[|qs| - 1]
  }

  /** Repeated `addItem` calls with one id and discriminator leave exactly
      one line for them, at the end, whose quantity is the sum of the
      quantities added; the lines already there are untouched. */
  lemma {:induction false} RepeatedAddsMerge(items: seq<CartItem>, a: Addable, qs: seq<int>)
    requires Acceptable(a) && qs != []
    requires !HasLine(items, a.id, IsBuildInput(a))
    ensures var r := AddRepeatedly(items, a, qs);
      |r| == |items| + 1 && r[..|items|] == items
      && r[|items|] == NewLine(a, Sum(qs))
  {
    var pre := qs[..|qs| - 1];
    var q := qs[|qs| - 1];
    if pre == [] {
      assert Sum(qs) == q;
    } else {
      RepeatedAddsMerge(items, a, pre);
      var s := AddRepeatedly(items, a, pre);
      assert SameLine(s[|items|], a.id, IsBuildInput(a));
      var r := WithItem(s, a, q);
      forall i | 0 <= i < |items| ensures r[i] == items[i] {
        assert s[i] == items[i];
        assert !SameLine(items[i], a.id, IsBuildInput(a));
      }
    }
  }

  // ---------------- removeItem ----------------

  /** `removeItem(id)` keeps exactly the lines whose id differs, whatever
      their discriminator. */
  lemma {:induction false} WithoutMembers(items: seq<CartItem>, id: string)
    ensures forall x :: x in Without(items, id) <==> x in items && x.id != id
  {
    if items != [] {
      WithoutMembers(items[1..], id);
      assert items == [items[0]] + items[1..];
    }
  }

  /** ... and keeps them in their order: removal distributes over
      concatenation. */
  lemma {:induction false} WithoutConcat(xs: seq<CartItem>, ys: seq<CartItem>, id: string)
    ensures Without(xs + ys, id) == Without(xs, id) + Without(ys, id)
  {
    if xs != [] {
      assert (xs + ys)[0] == xs[0] && (xs + ys)[1..] == xs[1..] + ys;
      WithoutConcat(xs[1..], ys, id);
    } else {
      assert xs + ys == ys;
    }
  }

  lemma {:induction false} WithoutKeepsKeysUnique(items: seq<CartItem>, id: string)
    requires UniqueKeys(items)
    ensures UniqueKeys(Without(items, id))
  {
    if items != [] {
      WithoutKeepsKeysUnique(items[1..], id);
      WithoutMembers(items[1..], id);
      var rest := Without(items[1..], id);
      if items[0].id != id {
        var r := [items[0]] + rest;
        forall i, j | 0 <= i < j < |r| ensures !SameLine(r[j], r[i].id, r[i].isBuild) {
          if i == 0 {
            assert r[j] in items[1..];
            var m :| 0 <= m < |items[1..]| && items[1..][m] == r[j];
            assert items[m + 1] == r[j];
          } else {
            assert r[i] == rest[i - 1] && r[j] == rest[j - 1];
          }
        }
      }
    }
  }

  // ---------------- updateQuantity ----------------

  /** `updateQuantity(id, q)` gives every line with that id the quantity `q`,
      whatever `q` is, and changes nothing else: not the order, not the keys. */
  lemma WithQuantityEffect(items: seq<CartItem>, id: string, q: int)
    ensures var r := WithQuantity(items, id, q);
      |r| == |items|
      && (forall i :: 0 <= i < |items| && items[i].id == id ==> r[i] == items[i].(quantity := q))
      && (forall i :: 0 <= i < |items| && items[i].id != id ==> r[i] == items[i])
      && (UniqueKeys(items) ==> UniqueKeys(r))
  {
  }

  /** The store does not refuse a quantity below 1: only its caller does. */
  lemma UpdateQuantityNotDefensive(line: CartItem)
    ensures WithQuantity([line], line.id, 0)[0].quantity == 0
    ensures !AllPositive(WithQuantity([line], line.id, 0))
  {
  }

  /** A cart whose quantities are all at least 1 keeps that property under
      `addItem` and `updateQuantity` as long as the quantities passed are at
      least 1 (what the product page and the cart page ensure). */
  lemma PositiveQuantitiesKept(items: seq<CartItem>, a: Addable, id: string, q: int)
    requires AllPositive(items) && q >= 1
    ensures AllPositive(WithItem(items, a, q))
    ensures AllPositive(WithQuantity(items, id, q))
    ensures AllPositive(Without(items, id))
  {
    WithoutMembers(items, id);
    var r := Without(items, id);
    forall i | 0 <= i < |r| ensures r[i].quantity >= 1 {
      assert r[i] in items;
    }
  }

  /** The cart store. Each action replaces `items` with a new list computed
      from the old one. */
  class Cart {
    var items: seq<CartItem>

    ghost predicate Valid()
      reads this
    {
      UniqueKeys(items)
    }

    constructor ()
      ensures items == [] && Valid()
    {
      items := [];
    }

    method AddItem(product: Addable, quantity: int := 1)
      modifies this
      ensures items == WithItem(old(items), product, quantity)
      ensures !Acceptable(product) ==> items == old(items)
      ensures old(Valid()) ==> Valid()
      ensures old(Valid()) && Acceptable(product) ==> TotalItems(items) == TotalItems(old(items)) + quantity
    {
      var isBuild := IsBuildInput(product);
      if !Acceptable(product) {
        return;
      }
      if HasLine(items, product.id, isBuild) {
        items := Merged(items, product.id, isBuild, quantity);
      } else {
        items := items + [NewLine(product, quantity)];
      }
      if old(Valid()) {
        AddKeepsKeysUnique(old(items), product, quantity);
        AddTotals(old(items), product, quantity);
      }
    }

    method RemoveItem(productId: string)
      modifies this
      ensures items == Without(old(items), productId)
      ensures forall x :: x in items <==> x in old(items) && x.id != productId
      ensures old(Valid()) ==> Valid()
    {
      items := Without(items, productId);
      WithoutMembers(old(items), productId);
      if old(Valid()) {
        WithoutKeepsKeysUnique(old(items), productId);
      }
    }

    method UpdateQuantity(productId: string, quantity: int)
      modifies this
      ensures items == WithQuantity(old(items), productId, quantity)
      ensures old(Valid()) ==> Valid()
    {
      items := WithQuantity(items, productId, quantity);
      WithQuantityEffect(old(items), productId, quantity);
    }

    method ClearCart()
      modifies this
      ensures items == [] && Valid()
      ensures Total(items) == 0 && TotalItems(items) == 0
    {
      items := [];
    }

    function GetTotal(): int
      reads this
    {
      Total(items)
    }

    function GetTotalItems(): int
      reads this
    {
      TotalItems(items)
    }
  }
}
