/**
 * The order list of the admin area, src/pages/admin/AdminOrders.tsx: the local
 * effect of a status change, the search filter and the status badge colours.
 */
module AdminOrders {
  import opened Types
  import opened Seqs
  import opened Text

  /** `orders.map(order => order.id === orderId ? { ...order, status } : order)` */
  function WithStatus(orders: seq<Order>, orderId: string, status: OrderStatus): seq<Order> {
    seq(|orders|, i requires 0 <= i < |orders| =>
      if orders[i].id == orderId then orders[i].(status := status) else orders[i])
  }

  /**
   * Every order with the id gets the new status, whatever its old status (no
   * transition rule applies); nothing else changes: not the other orders, not
   * the other fields, not the length or the order of the list.
   */
  lemma WithStatusEffect(orders: seq<Order>, orderId: string, status: OrderStatus)
    ensures var r := WithStatus(orders, orderId, status);
      |r| == |orders|
      && (forall i :: 0 <= i < |orders| && orders[i].id == orderId ==> r[i].status == status)
      && (forall i :: 0 <= i < |orders| && orders[i].id != orderId ==> r[i] == orders[i])
      && (forall i :: 0 <= i < |orders| ==> r[i].(status := orders[i].status) == orders[i])
  {
  }

  /** Setting a status twice is setting the second one; setting it again changes nothing. */
  lemma WithStatusLastWriteWins(orders: seq<Order>, orderId: string, s1: OrderStatus, s2: OrderStatus)
    ensures WithStatus(WithStatus(orders, orderId, s1), orderId, s2) == WithStatus(orders, orderId, s2)
    ensures WithStatus(WithStatus(orders, orderId, s1), orderId, s1) == WithStatus(orders, orderId, s1)
  {
  }

  /** Updates of different orders commute. */
  lemma WithStatusCommutes(orders: seq<Order>, id1: string, s1: OrderStatus, id2: string, s2: OrderStatus)
    requires id1 != id2
    ensures WithStatus(WithStatus(orders, id1, s1), id2, s2) == WithStatus(WithStatus(orders, id2, s2), id1, s1)
  {
  }

  /** `getStatusColor`; the `default` branch cannot be reached with the five statuses. */
  function StatusColor(status: OrderStatus): string {
    match status
    case Pending => "bg-yellow-100 text-yellow-800"
    case Processing => "bg-blue-100 text-blue-800"
    case Shipped => "bg-purple-100 text-purple-800"
    case Delivered => "bg-green-100 text-green-800"
    case Cancelled => "bg-red-100 text-red-800"
  }

  /** The five statuses get five different badges, none of them the grey fallback. */
  lemma StatusColorsDistinct(s1: OrderStatus, s2: OrderStatus)
    ensures s1 != s2 ==> StatusColor(s1) != StatusColor(s2)
    ensures StatusColor(s1) != "bg-gray-100 text-gray-800"
  {
  }

  predicate OrderMatches(o: Order, term: string) {
    IncludesIgnoringCase(o.id, term) || IncludesIgnoringCase(o.shippingAddress.name, term)
  }

  function OrderMatching(term: string): Order -> bool {
    (o: Order) => OrderMatches(o, term)
  }

  /** `filteredOrders` */
  function FilterOrders(orders: seq<Order>, term: string): seq<Order> {
    Filter(orders, OrderMatching(term))
  }

  /**
   * The list keeps exactly the orders whose id or shipping name contains the
   * term, ignoring case, in list order; the empty term keeps every order.
   */
  lemma FilterOrdersMeaning(orders: seq<Order>, more: seq<Order>, term: string)
    ensures forall o :: o in FilterOrders(orders, term) <==> o in orders && OrderMatches(o, term)
    ensures FilterOrders(orders + more, term) == FilterOrders(orders, term) + FilterOrders(more, term)
    ensures FilterOrders(orders, "") == orders
  {
    FilterMembers(orders, OrderMatching(term));
    FilterAppend(orders, more, OrderMatching(term));
    forall i | 0 <= i < |orders| ensures OrderMatching("")(orders[i]) {
      EmptyTermMatches(orders[i].id);
    }
    FilterAll(orders, OrderMatching(""));
  }

  /** The orders page state that a status change touches. */
  class OrdersView {
    var orders: seq<Order>
    var selectedOrder: Option<Order>
    var searchTerm: string

    constructor (orders: seq<Order>)
      ensures this.orders == orders && selectedOrder == None && searchTerm == ""
    {
      this.orders := orders;
      selectedOrder := None;
      searchTerm := "";
    }

    /** `filteredOrders` for the current search term. */
    function Shown(): seq<Order>
      reads this
    {
      FilterOrders(orders, searchTerm)
    }

    /**
     * `handleUpdateStatus`. `remoteThrows` stands for a failure of the order
     * service, after which nothing changes locally.
     */
    method UpdateStatus(orderId: string, status: OrderStatus, remoteThrows: bool) returns (updated: bool)
      modifies this
      ensures updated == !remoteThrows
      ensures updated ==> orders == WithStatus(old(orders), orderId, status)
      ensures updated ==> (selectedOrder ==
        if old(selectedOrder).Some? && old(selectedOrder).value.id == orderId
        then Some(old(selectedOrder).value.(status := status)) else old(selectedOrder))
      ensures !updated ==> orders == old(orders) && selectedOrder == old(selectedOrder)
      ensures searchTerm == old(searchTerm)
    {
      if remoteThrows {
        return false;
      }
      orders := WithStatus(orders, orderId, status);
      if selectedOrder.Some? && selectedOrder.value.id == orderId {
        selectedOrder := Some(selectedOrder.value.(status := status));
      }
      return true;
    }
  }
}
