/** The admin order list: the mapping of fetched rows to display rows, the
    status and text filters, the local status update and the status badge
    colour. The queries are remote and not modelled. */
module AdminOrders {
  import opened Wrappers
  import opened JsText
  import opened Types

  /** A row as the order query returns it. The query names the joined user
      `users`; it selects no order items. */
  datatype RawOrder = RawOrder(
    id: string,
    createdAt: string,
    status: string,
    totalPrice: int,
    shippingInfo: Option<ShippingInfo>,
    paymentInfo: Option<PaymentInfo>,
    users: Option<User>)

  datatype OrderWithDetails = OrderWithDetails(
    id: string,
    userId: string,
    user: User,
    createdAt: string,
    updatedAt: string,
    status: string,
    totalPrice: int,
    shippingInfo: ShippingInfo,
    paymentInfo: PaymentInfo,
    items: seq<OrderItem>)

  const PlaceholderUser: User := User("", "Unknown", Some(""), Some(""), false, "")
  const EmptyShipping: ShippingInfo := ShippingInfo("", "", "", "", "")
  const EmptyPayment: PaymentInfo := PaymentInfo("", "", "", "", "")

  /** The mapping given the user the code finds on the row (`o.user`). */
  function Mapped(o: RawOrder, user: Option<User>): (r: OrderWithDetails)
    ensures user.None? ==> r.user == PlaceholderUser && r.userId == ""
    ensures user.Some? ==> r.user == user.value && r.userId == user.value.id
    ensures o.shippingInfo.None? ==> r.shippingInfo == EmptyShipping
    ensures o.paymentInfo.None? ==> r.paymentInfo == EmptyPayment
    ensures o.shippingInfo.Some? ==> r.shippingInfo == o.shippingInfo.value
    ensures o.paymentInfo.Some? ==> r.paymentInfo == o.paymentInfo.value
    ensures r.updatedAt == r.createdAt == o.createdAt
    ensures r.id == o.id && r.status == o.status && r.totalPrice == o.totalPrice && r.items == []
  {
    OrderWithDetails(o.id,
      if user.Some? then user.value.id else "",
      user.GetOr(PlaceholderUser),
      o.createdAt, o.createdAt, o.status, o.totalPrice,
      o.shippingInfo.GetOr(EmptyShipping),
      o.paymentInfo.GetOr(EmptyPayment),
      [])
  }

  /** The mapping as written: it reads `o.user`, a key the aliased query
      never returns, so every row gets the placeholder user. */
  function MapOrderAsWritten(o: RawOrder): (r: OrderWithDetails)
    ensures r.user == PlaceholderUser && r.userId == ""
  {
    Mapped(o, None)
  }

  /** The mapping as intended: the joined user, when there is one. */
  function MapOrder(o: RawOrder): (r: OrderWithDetails)
    ensures o.users.Some? ==> r.user == o.users.value && r.userId == o.users.value.id
    ensures o.users.None? ==> r.user == PlaceholderUser && r.userId == ""
    ensures r.id == o.id && r.status == o.status && r.totalPrice == o.totalPrice
  {
    Mapped(o, o.users)
  }

  /** An order placed by a known customer shows as "Unknown" as written,
      and with the customer's e-mail as intended. */
  lemma JoinedUserLost(o: RawOrder)
    requires o.users.Some? && o.users.value.email != "Unknown"
    ensures MapOrderAsWritten(o).user.email == "Unknown"
    ensures MapOrder(o).user.email == o.users.value.email
    ensures MapOrder(o).user != MapOrderAsWritten(o).user
  {
  }

  // ---------------- filteredOrders ----------------

  predicate Passes(o: OrderWithDetails, statusFilter: string, searchQuery: string) {
    (statusFilter == "all" || o.status == statusFilter)
    && (searchQuery != "" ==> IncludesIgnoringCase(o.id, searchQuery) || IncludesIgnoringCase(o.user.email, searchQuery))
  }

  function FilteredOrders(os: seq<OrderWithDetails>, statusFilter: string, searchQuery: string): (r: seq<OrderWithDetails>)
    ensures forall o :: o in r <==> o in os && Passes(o, statusFilter, searchQuery)
  {
    if os == [] then []
    else
      var head := if Passes(os[0], statusFilter, searchQuery) then [os[0]] else [];
      head + FilteredOrders(os[1..], statusFilter, searchQuery)
  }

  /** With status "all" and no search text every order is shown, in order. */
  lemma {:induction false} NoFilterKeepsAll(os: seq<OrderWithDetails>)
    ensures FilteredOrders(os, "all", "") == os
  {
    if os != [] {
      NoFilterKeepsAll(os[1..]);
      assert [os[0]] + os[1..] == os;
    }
  }

  /** A status other than "all" keeps only orders with exactly that status;
      search text keeps only orders whose id or customer e-mail contains it,
      ignoring case. */
  lemma FilterEffect(os: seq<OrderWithDetails>, statusFilter: string, searchQuery: string)
    ensures statusFilter != "all" ==> forall o :: o in FilteredOrders(os, statusFilter, searchQuery) ==> o.status == statusFilter
    ensures searchQuery != "" ==> forall o :: o in FilteredOrders(os, statusFilter, searchQuery) ==>
      IncludesIgnoringCase(o.id, searchQuery) || IncludesIgnoringCase(o.user.email, searchQuery)
    ensures searchQuery == "" ==> forall o :: o in os && (statusFilter == "all" || o.status == statusFilter) ==>
      o in FilteredOrders(os, statusFilter, searchQuery)
  {
  }

  // ---------------- handleUpdateStatus ----------------

  function WithStatus(os: seq<OrderWithDetails>, orderId: string, status: string): seq<OrderWithDetails> {
    seq(|os|, i requires 0 <= i < |os| => if os[i].id == orderId then os[i].(status := status) else os[i])
  }

  /** Only the orders with that id change, and only in their status. */
  lemma WithStatusEffect(os: seq<OrderWithDetails>, orderId: string, status: string)
    ensures var r := WithStatus(os, orderId, status);
      |r| == |os|
      && (forall i :: 0 <= i < |os| && os[i].id == orderId ==> r[i] == os[i].(status := status))
      && (forall i :: 0 <= i < |os| && os[i].id != orderId ==> r[i] == os[i])
  {
  }

  class OrdersPage {
    var orders: seq<OrderWithDetails>
    var currentOrder: Option<OrderWithDetails>

    constructor ()
      ensures orders == [] && currentOrder == None
    {
      orders := [];
      currentOrder := None;
    }

    /** `handleUpdateStatus`; `remoteOk` is whether the update succeeded. */
    method UpdateStatus(orderId: string, status: string, remoteOk: bool)
      modifies this
      ensures !remoteOk ==> orders == old(orders) && currentOrder == old(currentOrder)
      ensures remoteOk ==> orders == WithStatus(old(orders), orderId, status)
      ensures remoteOk && old(currentOrder).Some? && old(currentOrder).value.id == orderId ==>
        currentOrder == Some(old(currentOrder).value.(status := status))
      ensures !(old(currentOrder).Some? && old(currentOrder).value.id == orderId) ==> currentOrder == old(currentOrder)
    {
      if !remoteOk {
        return;
      }
      orders := WithStatus(orders, orderId, status);
      if currentOrder.Some? && currentOrder.value.id == orderId {
        currentOrder := Some(currentOrder.value.(status := status));
      }
    }
  }

  // ---------------- getStatusColor ----------------

  const KnownStatuses: seq<string> := ["pending", "processing", "shipped", "delivered", "cancelled"]

  function StatusColor(status: string): string {
    if status == "pending" then "bg-yellow-100 text-yellow-800"
    else if status == "processing" then "bg-blue-100 text-blue-800"
    else if status == "shipped" then "bg-purple-100 text-purple-800"
    else if status == "delivered" then "bg-green-100 text-green-800"
    else if status == "cancelled" then "bg-red-100 text-red-800"
    else "bg-gray-100 text-gray-800"
  }

  /** The five known statuses get five different badges, none of them the
      gray default; every other status gets the default. */
  lemma StatusColorsDistinct(s: string, t: string)
    ensures s in KnownStatuses && t in KnownStatuses && s != t ==> StatusColor(s) != StatusColor(t)
    ensures s in KnownStatuses ==> StatusColor(s) != "bg-gray-100 text-gray-800"
    ensures s !in KnownStatuses ==> StatusColor(s) == "bg-gray-100 text-gray-800"
  {
  }
}
