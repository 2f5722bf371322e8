/**
 * The group-orders page: the category/status filter over the fetched orders, the three
 * statistics computed over the filtered list, the minimum-members warning, the items
 * preview, the status badge, and the Join button.
 */
module GroupOrders {
  import opened Wrappers
  import opened Seqs
  import opened Js

  /** The fields of a fetched group order that the page reads. */
  datatype Order = Order(
    id: string, title: string, supplier: string, category: string,
    currentMembers: int, maxMembers: int, status: string, items: seq<string>, minimumOrder: int)

  /** The `filteredOrders` callback for the selected filter value. */
  predicate Keep(filter: string, order: Order)
  {
    if filter == "all" then true
    else if filter == "open" then order.status == "open"
    else Includes(ToLower(order.category), filter)
  }

  /** `filteredOrders`. */
  function FilteredOrders(orders: seq<Order>, filter: string): (shown: seq<Order>)
    ensures |shown| <= |orders|
    ensures forall i :: 0 <= i < |shown| ==> shown[i] in orders && Keep(filter, shown[i])
  {
    Filter(orders, order => Keep(filter, order))
  }

  /** "All Orders" keeps the list whole. */
  lemma AllKeepsEverything(orders: seq<Order>)
    ensures FilteredOrders(orders, "all") == orders
  {
    FilterKeepsAll(orders, order => Keep("all", order));
  }

  /** "Open Orders" keeps exactly the open orders. */
  lemma OpenFilterIff(orders: seq<Order>, k: nat)
    requires k < |orders|
    ensures orders[k] in FilteredOrders(orders, "open") <==> orders[k].status == "open"
  {
  }

  /**
   * Any other filter value keeps exactly the orders whose lower-cased category contains it
   * at some position.
   */
  lemma CategoryFilterIff(orders: seq<Order>, filter: string, k: nat)
    requires filter != "all" && filter != "open" && k < |orders|
    ensures orders[k] in FilteredOrders(orders, filter) <==>
      exists i :: OccursAt(ToLower(orders[k].category), filter, i)
  {
    IncludesIff(ToLower(orders[k].category), filter);
    assert Keep(filter, orders[k]) == Includes(ToLower(orders[k].category), filter);
  }

  /**
   * The filter cannot tell categories apart that differ only in letter case: an order whose
   * category is written in lower case, or in any other case, is kept or dropped alike.
   */
  lemma CategoryCaseIgnored(filter: string, order: Order, other: string)
    requires ToLower(other) == ToLower(order.category)
    ensures Keep(filter, order.(category := other)) <==> Keep(filter, order)
    ensures Keep(filter, order.(category := ToLower(order.category))) <==> Keep(filter, order)
  {
    var lower := ToLower(order.category);
    assert ToLower(lower) == lower;
  }

  /** The lower-cased category never contains a filter value holding an upper-case letter. */
  lemma {:induction false} UppercaseNeverIncluded(category: string, filter: string, j: nat)
    requires j < |filter| && 'A' <= filter[j] <= 'Z'
    ensures !Includes(ToLower(category), filter)
  {
    var lower := ToLower(category);
    IncludesIff(lower, filter);
  }

  /** So a filter value holding an upper-case letter shows no order at all. */
  lemma UppercaseFilterShowsNothing(orders: seq<Order>, filter: string, j: nat)
    requires filter != "all" && filter != "open"
    requires j < |filter| && 'A' <= filter[j] <= 'Z'
    ensures FilteredOrders(orders, filter) == []
  {
    forall k | 0 <= k < |orders| ensures !Keep(filter, orders[k]) {
      UppercaseNeverIncluded(orders[k].category, filter, j);
    }
    FilterDropsAll(orders, order => Keep(filter, order));
  }

  /** The filtered list keeps the fetched list's order and drops the rest. */
  lemma FilteredIsSublist(orders: seq<Order>, filter: string)
    ensures IsSubsequence(FilteredOrders(orders, filter), orders)
    ensures |FilteredOrders(orders, filter)| <= |orders|
  {
    FilterIsSubsequence(orders, order => Keep(filter, order));
  }

  predicate IsOpen(order: Order)
  {
    order.status == "open"
  }

  predicate IsCompleted(order: Order)
  {
    order.status == "completed"
  }

  /** The "Open Orders" statistic. */
  function OpenCount(shown: seq<Order>): (r: nat)
  {
    Count(shown, IsOpen)
  }

  /** The "Completed" statistic. */
  function CompletedCount(shown: seq<Order>): (r: nat)
  {
    Count(shown, IsCompleted)
  }

  /** The "Total Members" statistic: the sum of `currentMembers`. */
  function TotalMembers(shown: seq<Order>): (r: int)
  {
    if shown == [] then 0 else shown[0].currentMembers + TotalMembers(shown[1..])
  }

  /** The open and completed statistics never add up to more orders than are shown. */
  lemma StatisticsBounded(orders: seq<Order>, filter: string)
    ensures OpenCount(FilteredOrders(orders, filter)) + CompletedCount(FilteredOrders(orders, filter))
      <= |FilteredOrders(orders, filter)|
  {
    CountDisjoint(FilteredOrders(orders, filter), IsOpen, IsCompleted);
  }

  /** Under "Open Orders" every shown order counts as open and none as completed. */
  lemma OpenFilterStatistics(orders: seq<Order>)
    ensures OpenCount(FilteredOrders(orders, "open")) == |FilteredOrders(orders, "open")|
    ensures CompletedCount(FilteredOrders(orders, "open")) == 0
  {
    var shown := FilteredOrders(orders, "open");
    FilterKeepsAll(shown, IsOpen);
    FilterDropsAll(shown, IsCompleted);
  }

  /** Filtering can only lower the statistics (members counts being non-negative). */
  lemma FilterLowersStatistics(orders: seq<Order>, filter: string)
    requires forall k :: 0 <= k < |orders| ==> orders[k].currentMembers >= 0
    ensures OpenCount(FilteredOrders(orders, filter)) <= OpenCount(orders)
    ensures CompletedCount(FilteredOrders(orders, filter)) <= CompletedCount(orders)
    ensures TotalMembers(FilteredOrders(orders, filter)) <= TotalMembers(orders)
  {
    FilteredIsSublist(orders, filter);
    CountSubsequence(FilteredOrders(orders, filter), orders, IsOpen);
    CountSubsequence(FilteredOrders(orders, filter), orders, IsCompleted);
    SumSubsequence(FilteredOrders(orders, filter), orders);
  }

  lemma {:induction false} SumSubsequence(a: seq<Order>, b: seq<Order>)
    requires IsSubsequence(a, b)
    requires forall k :: 0 <= k < |b| ==> b[k].currentMembers >= 0
    ensures TotalMembers(a) <= TotalMembers(b)
    decreases |b|
  {
    if a != [] {
      if a[0] == b[0] && IsSubsequence(a[1..], b[1..]) {
        SumSubsequence(a[1..], b[1..]);
      } else {
        SumSubsequence(a, b[1..]);
      }
    } else {
      NonNegativeTotal(b);
    }
  }

  lemma {:induction false} NonNegativeTotal(b: seq<Order>)
    requires forall k :: 0 <= k < |b| ==> b[k].currentMembers >= 0
    ensures TotalMembers(b) >= 0
  {
    if b != [] {
      NonNegativeTotal(b[1..]);
    }
  }

  /** "Minimum N members required" is shown under the progress bar. */
  predicate ShowsMinimumWarning(order: Order)
  {
    order.currentMembers < order.minimumOrder
  }

  /** The progress bar's colour class. */
  function ProgressColor(order: Order): (r: string)
  {
    if order.currentMembers >= order.minimumOrder then "bg-primary" else "bg-warning"
  }

  /** The warning appears exactly when the bar is drawn in the warning colour. */
  lemma WarningMatchesBar(order: Order)
    ensures ShowsMinimumWarning(order) <==> ProgressColor(order) == "bg-warning"
    ensures !ShowsMinimumWarning(order) <==> ProgressColor(order) == "bg-primary"
  {
  }

  /** The "Items included" badges: the first items, and the "+k more" count when there are more. */
  function ItemsPreview(items: seq<string>): (r: (seq<string>, Option<nat>))
  {
    var shown := if |items| <= 3 then items else items[..3];
    (shown, if |items| > 3 then Some(|items| - 3) else None)
  }

  /** At most three items are shown, they are the list's first ones, and the count covers the rest. */
  lemma ItemsPreviewCovers(items: seq<string>)
    ensures |ItemsPreview(items).0| <= 3
    ensures ItemsPreview(items).0 == items[..|ItemsPreview(items).0|]
    ensures ItemsPreview(items).1.Some? <==> |items| > 3
    ensures ItemsPreview(items).1.Some? ==> |ItemsPreview(items).0| + ItemsPreview(items).1.value == |items|
    ensures ItemsPreview(items).1.None? ==> ItemsPreview(items).0 == items
  {
  }

  /** The status badge's text. */
  function StatusLabel(status: string): (r: string)
  {
    if status == "open" then "Open" else if status == "closed" then "Closed" else "Completed"
  }

  /** Any status other than "open" or "closed", not only "completed", is labelled "Completed". */
  lemma StatusLabelOthers(status: string)
    ensures StatusLabel(status) == "Open" <==> status == "open"
    ensures StatusLabel(status) == "Closed" <==> status == "closed"
    ensures StatusLabel(status) == "Completed" <==> status != "open" && status != "closed"
  {
  }

  /** The "Join Order" button. */
  predicate ShowsJoinButton(order: Order, userType: string)
  {
    order.status == "open" && userType == "vendor"
  }

  /** A supplier, or a user whose type is missing, never gets the Join button; a vendor gets it on every open order. */
  lemma JoinButtonIff(order: Order, userType: string)
    ensures userType != "vendor" ==> !ShowsJoinButton(order, userType)
    ensures userType == "vendor" ==> (ShowsJoinButton(order, userType) <==> IsOpen(order))
  {
  }

  /** `joinOrder`: only an alert, whose text names the order; no order is touched. */
  function JoinOrderAlert(orderId: string): (message: string)
    ensures OccursAt(message, orderId, |"Joined group order "|)
    ensures |message| == |orderId| + |"Joined group order !"|
  {
    "Joined group order " + orderId + "!"
  }
}
