/**
 * The admin dashboard, src/pages/admin/AdminDashboard.tsx: the four summary
 * figures, the five most recent orders and the first products of the
 * inventory table, all computed from the fetched products and orders.
 */
module Dashboard {
  import opened Types
  import opened Seqs
  import opened StableSort
  import AdminOrders

  /** `orders.reduce((sum, order) => sum + order.total, 0)` */
  function Revenue(orders: seq<Order>): real {
    if orders == [] then 0.0 else Revenue(orders[..|orders| - 1]) + orders[|orders| - 1].total
  }

  lemma {:induction false} RevenueAppend(a: seq<Order>, b: seq<Order>)
    ensures Revenue(a + b) == Revenue(a) + Revenue(b)
  {
    if b != [] {
      var init := b[..|b| - 1];
      assert (a + b)[..|a + b| - 1] == a + init;
      RevenueAppend(a, init);
    } else {
      assert a + b == a;
    }
  }

  /**
   * Revenue counts every order whatever its status: changing the status of an
   * order, cancelled included, leaves the revenue as it was.
   */
  lemma {:induction false} RevenueIgnoresStatus(orders: seq<Order>, orderId: string, status: OrderStatus)
    ensures Revenue(AdminOrders.WithStatus(orders, orderId, status)) == Revenue(orders)
  {
    if orders != [] {
      var init := orders[..|orders| - 1];
      var r := AdminOrders.WithStatus(orders, orderId, status);
      assert r[..|r| - 1] == AdminOrders.WithStatus(init, orderId, status);
      RevenueIgnoresStatus(init, orderId, status);
    }
  }

  function OutOfStock(p: Product): bool { !p.inStock }

  /** `products.filter(product => !product.inStock).length` */
  function LowStockCount(products: seq<Product>): nat {
    |Filter(products, OutOfStock)|
  }

  /** The count never exceeds the number of products, adds up over parts, and is 0 exactly when everything is in stock. */
  lemma LowStockCountMeaning(products: seq<Product>, more: seq<Product>)
    ensures LowStockCount(products) <= |products|
    ensures LowStockCount(products + more) == LowStockCount(products) + LowStockCount(more)
    ensures LowStockCount(products) == 0 <==> forall p :: p in products ==> p.inStock
  {
    FilterAppend(products, more, OutOfStock);
    FilterMembers(products, OutOfStock);
    if LowStockCount(products) != 0 {
      assert Filter(products, OutOfStock)[0] in Filter(products, OutOfStock);
    }
  }

  datatype Metrics = Metrics(totalRevenue: real, totalOrders: nat, totalProducts: nat, lowStockProducts: nat)

  /** The four summary cards. */
  function DashboardMetrics(products: seq<Product>, orders: seq<Order>): (m: Metrics)
    ensures m.totalOrders == |orders| && m.totalProducts == |products|
    ensures m.lowStockProducts <= m.totalProducts
    ensures orders == [] ==> m.totalRevenue == 0.0
  {
    Metrics(Revenue(orders), |orders|, |products|, LowStockCount(products))
  }

  function NewestOrderKey(o: Order): real { -(o.createdAt as real) }

  /** `[...orders].sort(newest first).slice(0, 5)`: a sorted copy, the fetched list itself is not reordered. */
  function RecentOrders(orders: seq<Order>): seq<Order> {
    Take(Sort(orders, NewestOrderKey), 5)
  }

  /** At most five orders, newest first, all taken from the fetched orders. */
  lemma RecentOrdersMeaning(orders: seq<Order>)
    ensures var r := RecentOrders(orders);
      |r| == (if |orders| < 5 then |orders| else 5)
      && (forall i, j :: 0 <= i < j < |r| ==> r[i].createdAt >= r[j].createdAt)
      && multiset(r) <= multiset(orders)
  {
    var s := Sort(orders, NewestOrderKey);
    var r := RecentOrders(orders);
    SortSorted(orders, NewestOrderKey);
    assert s == r + s[|r|..];
    assert multiset(s) == multiset(r) + multiset(s[|r|..]);
  }

  /** No order left out of the recent list is newer than one shown. */
  lemma RecentOrdersNoNewerOmitted(orders: seq<Order>)
    ensures var r := RecentOrders(orders);
      forall o, x :: o in orders && o !in r && x in r ==> o.createdAt <= x.createdAt
  {
    var s := Sort(orders, NewestOrderKey);
    var r := RecentOrders(orders);
    SortSorted(orders, NewestOrderKey);
    assert forall k :: 0 <= k < |r| ==> s[k] == r[k];
    forall o, x | o in orders && o !in r && x in r ensures o.createdAt <= x.createdAt {
      assert o in multiset(s);
      var j :| 0 <= j < |s| && s[j] == o;
      var i :| 0 <= i < |r| && r[i] == x;
      assert i < j;
      assert NewestOrderKey(s[i]) <= NewestOrderKey(s[j]);
    }
  }

  /** `products.slice(0, 5)`: the first products in list order, "Showing min(n, 5) of n". */
  function Inventory(products: seq<Product>): (r: seq<Product>)
    ensures |r| == (if |products| < 5 then |products| else 5)
    ensures r == products[..|r|]
  {
    Take(products, 5)
  }
}
