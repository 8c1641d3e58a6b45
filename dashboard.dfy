/**
 * The dashboard (app/dashboard/page.tsx): `fetchOrders` loads the user's
 * orders and derives four numbers from them; the "My Orders" tab shows the
 * first five orders, the "Order History" tab all of them.
 */
module Dashboard {
  import opened Wrappers
  import opened Database

  datatype Stats = Stats(totalOrders: int, completedOrders: int, pendingOrders: int, totalSpent: int)

  /** The result of the orders query: an error, or the rows (`data` may be null). */
  datatype Fetch = FetchFailed | Fetched(data: Option<seq<Order>>)

  /** `orders.filter(order => order.status === st).length`. */
  function CountStatus(orders: seq<Order>, st: Status): (n: nat)
    ensures n <= |orders|
    ensures n == 0 <==> forall i :: 0 <= i < |orders| ==> orders[i].status != st
  {
    if orders == [] then 0
    else CountStatus(orders[..|orders| - 1], st) + (if orders[|orders| - 1].status == st then 1 else 0)
  }

  /**
   * `orders.reduce((sum, order) => sum + order.amount, 0)`, summing from the
   * front: nothing spent without orders, and never a negative total when no
   * amount is negative.
   */
  function TotalSpent(orders: seq<Order>): (r: int)
    ensures orders == [] ==> r == 0
    ensures (forall i :: 0 <= i < |orders| ==> orders[i].amount >= 0) ==> r >= 0
  {
    if orders == [] then 0 else TotalSpent(orders[..|orders| - 1]) + orders[|orders| - 1].amount
  }

  /** The four numbers the dashboard shows; all zero when the query returned no data. */
  function ComputeStats(data: Option<seq<Order>>): (r: Stats)
    ensures data.None? ==> r == Stats(0, 0, 0, 0)
    ensures data.Some? ==> r.totalOrders == |data.value|
    ensures r.completedOrders + r.pendingOrders <= r.totalOrders
  {
    if data.None? then Stats(0, 0, 0, 0)
    else
      var d := data.value;
      CompletedPlusPendingAtMostTotal(d);
      Stats(|d|, CountStatus(d, Completed), CountStatus(d, Pending), TotalSpent(d))
  }

  /** `orders.slice(0, 5)`: the orders of the "My Orders" tab, a prefix of the full history. */
  function Recent(orders: seq<Order>): (r: seq<Order>)
    ensures |r| == if |orders| < 5 then |orders| else 5
    ensures r == orders[..|r|]
  {
    if |orders| < 5 then orders else orders[..5]
  }

  /** Every order has exactly one of the four statuses, so the four counts add up to the total. */
  lemma {:induction false} StatusCountsPartition(orders: seq<Order>)
    ensures CountStatus(orders, Pending) + CountStatus(orders, Processing)
          + CountStatus(orders, Completed) + CountStatus(orders, Failed) == |orders|
  {
    if orders != [] {
      StatusCountsPartition(orders[..|orders| - 1]);
    }
  }

  /** Completed and pending orders are disjoint selections of the list. */
  lemma CompletedPlusPendingAtMostTotal(orders: seq<Order>)
    ensures CountStatus(orders, Completed) + CountStatus(orders, Pending) <= |orders|
  {
    StatusCountsPartition(orders);
  }

  /** The count of a status is its multiplicity among the orders' statuses. */
  lemma {:induction false} CountStatusIsMultiplicity(orders: seq<Order>, st: Status)
    ensures CountStatus(orders, st) == multiset(seq(|orders|, i requires 0 <= i < |orders| => orders[i].status))[st]
  {
    if orders != [] {
      var front := orders[..|orders| - 1];
      CountStatusIsMultiplicity(front, st);
      var all := seq(|orders|, i requires 0 <= i < |orders| => orders[i].status);
      var init := seq(|front|, i requires 0 <= i < |front| => front[i].status);
      assert all == init + [orders[|orders| - 1].status];
    }
  }

  /** The total spent over two lists is the sum of their totals: the order of summing does not matter. */
  lemma {:induction false} TotalSpentAppend(a: seq<Order>, b: seq<Order>)
    ensures TotalSpent(a + b) == TotalSpent(a) + TotalSpent(b)
  {
    if b != [] {
      assert (a + b)[..|a + b| - 1] == a + b[..|b| - 1];
      TotalSpentAppend(a, b[..|b| - 1]);
    } else {
      assert a + b == a;
    }
  }

  /** When every order is charged the same amount, the total is that amount times the number of orders. */
  lemma {:induction false} TotalSpentUniformPrice(orders: seq<Order>, price: int)
    requires forall i :: 0 <= i < |orders| ==> orders[i].amount == price
    ensures TotalSpent(orders) == price * |orders|
  {
    if orders != [] {
      TotalSpentUniformPrice(orders[..|orders| - 1], price);
      assert price * |orders| == price * (|orders| - 1) + price;
    }
  }

  /** The dashboard's state: the list shown, the numbers, and whether it is still loading. */
  class DashboardPage {
    var orders: seq<Order>
    var stats: Stats
    var loadingData: bool

    constructor ()
      ensures orders == [] && stats == Stats(0, 0, 0, 0) && loadingData
    {
      orders := [];
      stats := Stats(0, 0, 0, 0);
      loadingData := true;
    }

    /** `fetchOrders`: on success show the rows and their numbers; on an error keep both; stop loading either way. */
    method FetchOrders(result: Fetch)
      modifies this
      ensures result.FetchFailed? ==> orders == old(orders) && stats == old(stats)
      ensures result.Fetched? ==> stats == ComputeStats(result.data)
      ensures result.Fetched? ==> orders == if result.data.Some? then result.data.value else []
      ensures !loadingData
    {
      if result.Fetched? {
        orders := if result.data.Some? then result.data.value else [];
        var data := result.data;
        var totalOrders := if data.Some? then |data.value| else 0;
        var completedOrders := if data.Some? then CountStatus(data.value, Completed) else 0;
        var pendingOrders := if data.Some? then CountStatus(data.value, Pending) else 0;
        var totalSpent := if data.Some? then TotalSpent(data.value) else 0;
        stats := Stats(totalOrders, completedOrders, pendingOrders, totalSpent);
      }
      loadingData := false;
    }
  }
}
