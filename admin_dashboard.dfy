/**
 * The admin "Platform Overview" page (pages/admin/Dashboard.tsx): the four
 * platform figures derived from a profile count and the `total_amount` column
 * of every order.
 */
module AdminDashboard {
  import opened Wrappers

  /** A fetched order row: only `total_amount` is selected, and it may be null. */
  datatype OrderAmount = OrderAmount(totalAmount: Option<int>)

  /** The figures shown on the four cards. */
  datatype PlatformStats = PlatformStats(vendors: int, orders: int, revenue: int, sms: int)

  /** `curr.total_amount || 0`. */
  function Amount(row: OrderAmount): (amount: int)
    ensures row.totalAmount.None? ==> amount == 0
    ensures row.totalAmount.Some? ==> amount == row.totalAmount.value
  {
    row.totalAmount.GetOr(0)
  }

  /** `rows.reduce((acc, curr) => acc + (curr.total_amount || 0), acc)`: a left fold. */
  function RevenueFrom(acc: int, rows: seq<OrderAmount>): int
    decreases |rows|
  {
    if rows == [] then acc else RevenueFrom(acc + Amount(rows[0]), rows[1..])
  }

  /** The sum of the amounts, missing ones counting as zero. */
  function SumAmounts(rows: seq<OrderAmount>): int
    decreases |rows|
  {
    if rows == [] then 0 else Amount(rows[0]) + SumAmounts(rows[1..])
  }

  /** The left fold adds the sum of the amounts to its starting value. */
  lemma {:induction false} RevenueFromIsSum(acc: int, rows: seq<OrderAmount>)
    ensures RevenueFrom(acc, rows) == acc + SumAmounts(rows)
    decreases |rows|
  {
    if rows != [] {
      RevenueFromIsSum(acc + Amount(rows[0]), rows[1..]);
    }
  }

  /** `totalRevenue` for fetched rows: the fold from 0, which is the sum of the amounts. */
  function Revenue(rows: seq<OrderAmount>): (revenue: int)
    ensures revenue == SumAmounts(rows)
  {
    RevenueFromIsSum(0, rows);
    RevenueFrom(0, rows)
  }

  lemma {:induction false} SumAmountsAppend(a: seq<OrderAmount>, b: seq<OrderAmount>)
    ensures SumAmounts(a + b) == SumAmounts(a) + SumAmounts(b)
    decreases |a|
  {
    if a == [] {
      assert a + b == b;
    } else {
      SumAmountsAppend(a[1..], b);
      assert (a + b)[1..] == a[1..] + b;
    }
  }

  /** The revenue of two batches of rows is the sum of their revenues. */
  lemma RevenueAppend(a: seq<OrderAmount>, b: seq<OrderAmount>)
    ensures Revenue(a + b) == Revenue(a) + Revenue(b)
  {
    SumAmountsAppend(a, b);
  }

  /** A row without an amount leaves the revenue unchanged. */
  lemma MissingAmountAddsNothing(rows: seq<OrderAmount>)
    ensures Revenue(rows + [OrderAmount(None)]) == Revenue(rows)
  {
    RevenueAppend(rows, [OrderAmount(None)]);
  }

  /** What `fetchStats` stores, from the profile count and the order rows of the
      two queries (either may come back absent). */
  function ComputeStats(vendorCount: Option<int>, ordersData: Option<seq<OrderAmount>>): (stats: PlatformStats)
    ensures stats.vendors == (if vendorCount.Some? then vendorCount.value else 0)
    ensures stats.orders == (if ordersData.Some? then |ordersData.value| else 0)
    ensures stats.revenue == (if ordersData.Some? then SumAmounts(ordersData.value) else 0)
    ensures ordersData.Some? && ordersData.value == [] ==> stats.revenue == 0
    ensures stats.sms == 0
  {
    var orderCount := match ordersData case Some(rows) => |rows| case None => 0;
    var totalRevenue := match ordersData case Some(rows) => Revenue(rows) case None => 0;
    PlatformStats(vendorCount.GetOr(0), orderCount, totalRevenue, 0)
  }
}
