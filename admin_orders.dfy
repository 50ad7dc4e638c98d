/**
 * The admin "Platform Orders" page (pages/admin/Orders.tsx): the fetched order
 * rows are narrowed by the status tab the admin picked, `'all'` showing every
 * row and any other tab the rows whose status equals it, ignoring case.
 */
module AdminOrders {
  import opened Text
  import opened Seqs

  /** A fetched order row, with the fields the page lists. */
  datatype PlatformOrder = PlatformOrder(id: string, orderStatus: string, totalAmount: int)

  /** `o.order_status.toLowerCase() === filter.toLowerCase()`. */
  predicate StatusMatches(order: PlatformOrder, filter: string)
  {
    ToLower(order.orderStatus) == ToLower(filter)
  }

  function StatusFilter(filter: string): PlatformOrder -> bool
  {
    order => StatusMatches(order, filter)
  }

  /** `filteredOrders`: every row under the `'all'` tab, otherwise the rows whose
      status matches the tab. */
  function FilterOrders(orders: seq<PlatformOrder>, filter: string): (shown: seq<PlatformOrder>)
    ensures filter == "all" ==> shown == orders
    ensures filter != "all" ==> forall i :: 0 <= i < |shown| ==> StatusMatches(shown[i], filter)
    ensures |shown| <= |orders|
  {
    if filter == "all" then orders else Filter(orders, StatusFilter(filter))
  }

  /** Whether a row belongs under the tab `filter`. */
  predicate Listed(order: PlatformOrder, filter: string)
  {
    filter == "all" || StatusMatches(order, filter)
  }

  /** With `'all'` the list is the input itself; with any other tab it is the
      input filtered by its status. Either way it is the input filtered by `Listed`. */
  lemma FilterOrdersIsListedFilter(orders: seq<PlatformOrder>, filter: string)
    ensures FilterOrders(orders, filter) == Filter(orders, order => Listed(order, filter))
  {
    if filter == "all" {
      FilterKeepsAll(orders, order => Listed(order, filter));
    } else {
      FilterCongruent(orders, StatusFilter(filter), order => Listed(order, filter));
    }
  }

  /** A row is shown exactly when it was fetched and belongs under the tab: no
      matching row is lost and no other row appears. */
  lemma FilterOrdersMembership(orders: seq<PlatformOrder>, filter: string, order: PlatformOrder)
    ensures order in FilterOrders(orders, filter) <==> order in orders && Listed(order, filter)
  {
    FilterOrdersIsListedFilter(orders, filter);
    FilterMembership(orders, order => Listed(order, filter), order);
  }

  /** The shown rows keep the fetched (newest first) order. */
  lemma FilterOrdersKeepsOrder(orders: seq<PlatformOrder>, filter: string)
    ensures IsSubsequence(FilterOrders(orders, filter), orders)
  {
    FilterOrdersIsListedFilter(orders, filter);
    FilterIsSubsequence(orders, order => Listed(order, filter));
  }

  /** Filtering the shown rows again by the same tab shows the same rows. */
  lemma FilterOrdersIdempotent(orders: seq<PlatformOrder>, filter: string)
    ensures FilterOrders(FilterOrders(orders, filter), filter) == FilterOrders(orders, filter)
  {
    if filter != "all" {
      FilterIdempotent(orders, StatusFilter(filter));
    }
  }

  /** The tab shows, for two batches of fetched rows placed end to end, the rows
      it shows for the first batch followed by those it shows for the second. */
  lemma FilterOrdersAppend(first: seq<PlatformOrder>, second: seq<PlatformOrder>, filter: string)
    ensures FilterOrders(first + second, filter) ==
      FilterOrders(first, filter) + FilterOrders(second, filter)
  {
    if filter != "all" {
      FilterAppend(first, second, StatusFilter(filter));
    }
  }

  /** Tabs that differ only in case (and neither is exactly `'all'`) show the same rows. */
  lemma FilterOrdersIgnoresCase(orders: seq<PlatformOrder>, filter: string, other: string)
    requires filter != "all" && other != "all" && ToLower(filter) == ToLower(other)
    ensures FilterOrders(orders, filter) == FilterOrders(orders, other)
  {
    FilterCongruent(orders, StatusFilter(filter), StatusFilter(other));
  }

  /** The table shows its "No matching orders found." row. */
  predicate ShowsNoMatchRow(orders: seq<PlatformOrder>, filter: string)
  {
    |FilterOrders(orders, filter)| == 0
  }

  /** The placeholder row is shown exactly when no fetched row belongs under the tab. */
  lemma NoMatchRowIff(orders: seq<PlatformOrder>, filter: string)
    ensures ShowsNoMatchRow(orders, filter) <==> forall i :: 0 <= i < |orders| ==> !Listed(orders[i], filter)
  {
    FilterOrdersIsListedFilter(orders, filter);
    FilterEmptyIff(orders, order => Listed(order, filter));
  }
}
