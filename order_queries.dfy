/**
 * The order list queries of the orders hook: by status, sorted by creation
 * date, and within a date range. Each returns a new list and leaves the
 * hook's list alone. Dates are instants in milliseconds.
 */
module OrderQueries {
  import opened Wrappers
  import opened Js
  import Lists
  import Sorting
  import opened Orders

  /** `!status || status === 'all'`. */
  predicate AllStatuses(status: Option<string>) {
    !Truthy(status) || status.value == "all"
  }

  /** `filterByStatus(status)`: all orders, or exactly those with the status, in order. */
  function FilterByStatus(orders: seq<PaymentIntent>, status: Option<string>): (r: seq<PaymentIntent>)
    ensures AllStatuses(status) ==> r == orders
    ensures !AllStatuses(status) ==>
      && (forall x :: x in r <==> x in orders && x.status == status.value)
      && Lists.SubsequenceOf(r, orders)
  {
    if AllStatuses(status) then orders
    else Lists.Filter(orders, (o: PaymentIntent) => o.status == status.value)
  }

  /** `new Date(order.created).getTime()`: the timestamp read as milliseconds. */
  function CreatedKey(o: PaymentIntent): int {
    o.created
  }

  /** The descending comparator `dateB - dateA` sorts ascending by the negated date. */
  function NegatedCreatedKey(o: PaymentIntent): int {
    -o.created
  }

  /** `direction === 'desc'`, with `'desc'` the default; `None` is an omitted (`undefined`) argument. */
  predicate Descending(direction: Option<string>) {
    direction.None? || direction.value == "desc"
  }

  /**
   * `sortByDate(direction)`: a sorted copy, newest first for `'desc'` (the
   * default) and oldest first for any other direction; ties keep their order.
   */
  function SortByDate(orders: seq<PaymentIntent>, direction: Option<string>): (r: seq<PaymentIntent>)
    ensures multiset(r) == multiset(orders) && |r| == |orders|
    ensures Descending(direction) ==> forall i, j :: 0 <= i <= j < |r| ==> r[i].created >= r[j].created
    ensures !Descending(direction) ==> forall i, j :: 0 <= i <= j < |r| ==> r[i].created <= r[j].created
  {
    if Descending(direction) then
      var r := Sorting.SortBy(orders, NegatedCreatedKey);
      SortedPairs(r, NegatedCreatedKey);
      r
    else
      var r := Sorting.SortBy(orders, CreatedKey);
      SortedPairs(r, CreatedKey);
      r
  }

  /** Sorted on neighbours gives sorted on all pairs. */
  lemma SortedPairs(r: seq<PaymentIntent>, key: PaymentIntent -> int)
    requires Sorting.SortedBy(r, key)
    ensures forall i, j :: 0 <= i <= j < |r| ==> key(r[i]) <= key(r[j])
  {
    forall i, j | 0 <= i <= j < |r| ensures key(r[i]) <= key(r[j]) {
      Sorting.SortedPairwise(r, key, i, j);
    }
  }

  /** `startDate ? new Date(startDate) : new Date(0)`. */
  function RangeStart(start: Option<int>): int {
    if TruthyInt(start) then start.value else 0
  }

  /** `endDate ? new Date(endDate) : new Date()`. */
  function RangeEnd(end: Option<int>, now: int): int {
    if TruthyInt(end) then end.value else now
  }

  /**
   * `filterByDateRange(startDate, endDate)` as written: with neither bound,
   * all orders; otherwise those whose `created`, read as milliseconds, lies
   * within the bounds, inclusive.
   */
  function FilterByDateRange(orders: seq<PaymentIntent>, start: Option<int>, end: Option<int>, now: int): (r: seq<PaymentIntent>)
    ensures !TruthyInt(start) && !TruthyInt(end) ==> r == orders
    ensures TruthyInt(start) || TruthyInt(end) ==>
      && (forall x :: x in r <==> x in orders && RangeStart(start) <= x.created <= RangeEnd(end, now))
      && Lists.SubsequenceOf(r, orders)
  {
    if !TruthyInt(start) && !TruthyInt(end) then orders
    else
      var lo := RangeStart(start);
      var hi := RangeEnd(end, now);
      Lists.Filter(orders, (o: PaymentIntent) => lo <= o.created <= hi)
  }

  /** Milliseconds per second: Stripe's `created` is in seconds. */
  const MillisPerSecond: int := 1000

  /**
   * An order created on 2024-01-01 00:00:00 UTC (Stripe `created`
   * 1704067200) is dropped by a range starting at that very instant
   * (1704067200000 ms), because its seconds are compared as milliseconds.
   */
  lemma DateRangeDropsOrderOnStartInstant()
    ensures var order := PaymentIntent("pi_1", "succeeded", 1704067200, None, None);
      && order.created * MillisPerSecond == 1704067200000
      && FilterByDateRange([order], Some(1704067200000), None, 1704067200000) == []
  {
    var order := PaymentIntent("pi_1", "succeeded", 1704067200, None, None);
    var r := FilterByDateRange([order], Some(1704067200000), None, 1704067200000);
    assert order !in r;
  }

  /** The date range over order instants: `created` converted from seconds to milliseconds. */
  function FilterByDateRangeSeconds(orders: seq<PaymentIntent>, start: Option<int>, end: Option<int>, now: int): (r: seq<PaymentIntent>)
    ensures !TruthyInt(start) && !TruthyInt(end) ==> r == orders
    ensures TruthyInt(start) || TruthyInt(end) ==>
      && (forall x :: x in r <==> x in orders && RangeStart(start) <= x.created * MillisPerSecond <= RangeEnd(end, now))
      && Lists.SubsequenceOf(r, orders)
  {
    if !TruthyInt(start) && !TruthyInt(end) then orders
    else
      var lo := RangeStart(start);
      var hi := RangeEnd(end, now);
      Lists.Filter(orders, (o: PaymentIntent) => lo <= o.created * MillisPerSecond <= hi)
  }

  /**
   * With the conversion, an order created within a range given to the second
   * is kept: the order of `DateRangeDropsOrderOnStartInstant` is kept, and
   * in general an order is kept by the range of its own creation instant.
   */
  lemma DateRangeKeepsOrderOnStartInstant(order: PaymentIntent, now: int)
    requires order.created > 0 && order.created * MillisPerSecond <= now
    ensures FilterByDateRangeSeconds([order], Some(order.created * MillisPerSecond), None, now) == [order]
  {
    var r := FilterByDateRangeSeconds([order], Some(order.created * MillisPerSecond), None, now);
    assert order in r;
    assert Lists.SubsequenceOf(r, [order]);
    assert |r| <= 1;
  }
}
