/** Checkout: turning the cart into an order row and checking every line
    before reporting the new order's id. The authentication call and the
    order insert are remote; their outcomes are parameters. */
module Checkout {
  import opened Wrappers
  import opened Types
  import opened CartStore

  datatype CheckoutError =
    | EmptyCart          // the cart has no lines
    | NotAuthenticated   // no signed-in user
    | OrderInsertFailed  // the order row could not be inserted
    | InvalidBuildId     // a build line without an id
    | NeitherIdSet       // a line that ends up with neither a product nor a build id

  /** The row sent to the `orders` table. */
  datatype OrderRow = OrderRow(userId: string, totalPrice: int)

  /** The per-line payload built inside the loop. A JavaScript `null` is
      `None`; an empty id is `Some("")`. */
  datatype LinePayload = LinePayload(
    orderId: string,
    quantity: int,
    price: int,
    unitPrice: int,
    productId: Option<string>,
    buildId: Option<string>)

  /** JavaScript truthiness of an optional id. */
  predicate Filled(o: Option<string>) {
    o.Some? && o.value != ""
  }

  function Payload(orderId: string, item: CartItem): LinePayload {
    LinePayload(orderId, item.quantity, item.price * item.quantity, item.price,
      if item.isBuild then None else Some(item.id),
      if item.isBuild then Some(item.id) else None)
  }

  /** A product line points at its product and a build line at its build,
      never both; exactly one id is set precisely when the line's id is
      non-empty. The line price is the unit price times the quantity. */
  lemma PayloadShape(orderId: string, item: CartItem)
    ensures var p := Payload(orderId, item);
      p.orderId == orderId && p.quantity == item.quantity
      && p.unitPrice == item.price && p.price == p.unitPrice * p.quantity
      && (item.isBuild ==> p.productId == None && p.buildId == Some(item.id))
      && (!item.isBuild ==> p.buildId == None && p.productId == Some(item.id))
      && !(Filled(p.productId) && Filled(p.buildId))
      && (Filled(p.productId) || Filled(p.buildId) <==> item.id != "")
  {
  }

  /** The two checks the loop makes on one line, in the source's order: the
      build-id check, then the check that the payload carries some id. Only
      a line with an empty id fails, and the build check comes first, so a
      build line reports the invalid build id and a product line reports
      that neither id is set. */
  function LineError(orderId: string, item: CartItem): (e: Option<CheckoutError>)
    ensures e.None? <==> item.id != ""
    ensures e == Some(InvalidBuildId) <==> item.id == "" && item.isBuild
    ensures e == Some(NeitherIdSet) <==> item.id == "" && !item.isBuild
  {
    var payload := Payload(orderId, item);
    if item.isBuild && item.id == "" then Some(InvalidBuildId)
    else if !Filled(payload.productId) && !Filled(payload.buildId) then Some(NeitherIdSet)
    else None
  }

  predicate AllIdsSet(items: seq<CartItem>) {
    forall i :: 0 <= i < |items| ==> items[i].id != ""
  }

  /** `handleCheckout(userId, items)`. `authUser` is the id the auth service
      reports (`None` when it reports no user or an error) and `insertedId`
      the id of the inserted order row (`None` when the insert fails).
      `orderRequest` is the row the insert was asked to write, if the
      procedure got that far. The `userId` argument is never read. */
  method HandleCheckout(userId: string, items: seq<CartItem>, authUser: Option<string>, insertedId: Option<string>)
    returns (authRequested: bool, orderRequest: Option<OrderRow>, result: Result<string, CheckoutError>)
    ensures items == [] ==> !authRequested && orderRequest == None && result == Failure(EmptyCart)
    ensures items != [] ==> authRequested
    ensures items != [] && authUser.None? ==> orderRequest == None && result == Failure(NotAuthenticated)
    ensures orderRequest.Some? <==> items != [] && authUser.Some?
    ensures orderRequest.Some? ==> orderRequest.value == OrderRow(authUser.value, Total(items))
    ensures orderRequest.Some? && insertedId.None? ==> result == Failure(OrderInsertFailed)
    ensures result.Success? <==> items != [] && authUser.Some? && insertedId.Some? && AllIdsSet(items)
    ensures result.Success? ==> result.value == insertedId.value
    ensures orderRequest.Some? && insertedId.Some? && result.Failure? ==>
      exists k :: 0 <= k < |items| && items[k].id == "" && AllIdsSet(items[..k])
        && Some(result.error) == LineError(insertedId.value, items[k])
  {
    authRequested, orderRequest := false, None;
    if |items| == 0 {
      return authRequested, orderRequest, Failure(EmptyCart);
    }
    var totalPrice := Total(items);
    authRequested := true;
    if authUser.None? {
      return authRequested, orderRequest, Failure(NotAuthenticated);
    }
    orderRequest := Some(OrderRow(authUser.value, totalPrice));
    if insertedId.None? {
      return authRequested, orderRequest, Failure(OrderInsertFailed);
    }
    var orderId := insertedId.value;
    for i := 0 to |items|
      invariant AllIdsSet(items[..i])
    {
      var item := items[i];
      var isBuild := item.isBuild;
      var payload := Payload(orderId, item);
      if isBuild && item.id == "" {
        return authRequested, orderRequest, Failure(InvalidBuildId);
      }
      if !Filled(payload.productId) && !Filled(payload.buildId) {
        return authRequested, orderRequest, Failure(NeitherIdSet);
      }
      assert items[..i + 1] == items[..i] + [item];
    }
    assert items[..|items|] == items;
    return authRequested, orderRequest, Success(orderId);
  }
}
