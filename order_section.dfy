/**
 * The orders page: search over the stored orders, ten orders a page, the
 * page clamp, the five-button page window, and the item count of an order.
 */
module OrderSection {
  import opened Options
  import opened Text
  import opened Seqs
  import opened OrderSlice

  const ItemsPerPage := 10

  /** `field?.toLowerCase().includes(searchLower)`; a missing field never matches. */
  predicate FieldHas(field: Option<string>, searchLower: string) {
    field.Some? && Contains(ToLower(field.value), searchLower)
  }

  predicate OrderMatches(o: Order, search: string) {
    var searchLower := ToLower(search);
    FieldHas(o.orderId, searchLower) || FieldHas(o.fullName, searchLower)
    || FieldHas(o.email, searchLower) || FieldHas(o.id, searchLower)
  }

  /**
   * `filteredOrders`: nothing when the store does not hold a list; every
   * order when the search is blank; else the orders with a matching field.
   * The blank test trims the search, the match itself does not.
   */
  function FilteredOrders(allOrders: Orders, search: string): (r: seq<Order>)
    ensures !allOrders.OrderList? ==> r == []
    ensures allOrders.OrderList? && IsBlank(search) ==> r == allOrders.list
    ensures allOrders.OrderList? && !IsBlank(search) ==>
      (forall o :: o in r <==> o in allOrders.list && OrderMatches(o, search))
  {
    if !allOrders.OrderList? then []
    else if IsBlank(search) then allOrders.list
    else
      var keep := o => OrderMatches(o, search);
      FilterMembers(allOrders.list, keep);
      Filter(allOrders.list, keep)
  }

  /**
   * A non-blank search keeps the orders in store order: the list is filtered
   * part by part, and one order stays exactly when one of its fields matches.
   */
  lemma FilteredOrdersKeepsOrder(a: seq<Order>, b: seq<Order>, o: Order, search: string)
    requires !IsBlank(search)
    ensures FilteredOrders(OrderList(a + b), search)
      == FilteredOrders(OrderList(a), search) + FilteredOrders(OrderList(b), search)
    ensures FilteredOrders(OrderList([o]), search) == if OrderMatches(o, search) then [o] else []
  {
    FilterConcat(a, b, q => OrderMatches(q, search));
    FilterSingle(o, q => OrderMatches(q, search));
  }

  /** After a status update the store holds the response object, so the table is empty until the refetch lands. */
  lemma StatusUpdateEmptiesTable(message: Option<string>, search: string)
    ensures FilteredOrders(Record(message), search) == []
  {
  }

  /** `Math.ceil(n / 10)` for a count. */
  function CeilDiv(n: nat, d: nat): (r: nat)
    requires d > 0
    ensures (r - 1) * d < n <= r * d || (n == 0 && r == 0)
  {
    (n + d - 1) / d
  }

  /** `totalPages`: enough pages of ten for every order, and at least one. */
  function TotalPages(count: nat): (r: nat)
    ensures r >= 1
    ensures count == 0 ==> r == 1
    ensures count <= r * ItemsPerPage
    ensures count > 0 ==> (r - 1) * ItemsPerPage < count
  {
    var pages := CeilDiv(count, ItemsPerPage);
    if pages < 1 then 1 else pages
  }

  /** `Array.prototype.slice(start, end)` with non-negative bounds, clamped to the list. */
  function Slice<T>(s: seq<T>, start: nat, end: nat): (r: seq<T>)
    ensures start <= end <= |s| ==> r == s[start..end]
    ensures |s| <= start || end <= start ==> r == []
  {
    var hi := if end < |s| then end else |s|;
    if start < hi then s[start..hi] else []
  }

  /** `paginatedOrders` for a page of at least 1. */
  function Paginated(orders: seq<Order>, page: int): (r: seq<Order>)
    requires page >= 1
    ensures |r| <= ItemsPerPage
    ensures r == [] || (page - 1) * ItemsPerPage + |r| <= |orders|
    ensures forall k :: 0 <= k < |r| ==> r[k] == orders[(page - 1) * ItemsPerPage + k]
  {
    Slice(orders, (page - 1) * ItemsPerPage, (page - 1) * ItemsPerPage + ItemsPerPage)
  }

  /** The page stays where it was when the search narrows the list, so a late page can show nothing. */
  lemma StalePageShowsNothing(orders: seq<Order>, page: int)
    requires page >= 1 && (page - 1) * ItemsPerPage >= |orders|
    ensures Paginated(orders, page) == []
  {
  }

  /** The pages tile the list: every order is on exactly the page its index says. */
  lemma OrderOnItsPage(orders: seq<Order>, k: int)
    requires 0 <= k < |orders|
    ensures var page := k / ItemsPerPage + 1;
      1 <= page <= TotalPages(|orders|) && Paginated(orders, page)[k % ItemsPerPage] == orders[k]
  {
    var page := k / ItemsPerPage + 1;
    assert (page - 1) * ItemsPerPage + k % ItemsPerPage == k;
  }

  /** `item.quantity || 0`. */
  function Quantity(i: Item): int {
    if i.quantity.Some? then i.quantity.value else 0
  }

  function SumQuantities(items: seq<Item>): int {
    if items == [] then 0 else SumQuantities(items[..|items| - 1]) + Quantity(items[|items| - 1])
  }

  /** `getItemsCount`: the sum of the quantities, counting a missing quantity as none. */
  function ItemsCount(o: Order): (r: int)
    ensures o.items.None? ==> r == 0
    ensures o.items.Some? ==> r == SumQuantities(o.items.value)
  {
    if o.items.Some? then SumQuantities(o.items.value) else 0
  }

  /** Adding an item adds its quantity. */
  lemma {:induction false} SumQuantitiesConcat(a: seq<Item>, b: seq<Item>)
    ensures SumQuantities(a + b) == SumQuantities(a) + SumQuantities(b)
    decreases |b|
  {
    if b == [] {
      assert a + b == a;
    } else {
      assert (a + b)[..|a + b| - 1] == a + b[..|b| - 1];
      SumQuantitiesConcat(a, b[..|b| - 1]);
    }
  }

  /** With no negative quantities the count is at least every single quantity. */
  lemma {:induction false} CountCoversEachItem(items: seq<Item>, k: int)
    requires forall j :: 0 <= j < |items| ==> Quantity(items[j]) >= 0
    requires 0 <= k < |items|
    ensures SumQuantities(items) >= Quantity(items[k])
  {
    var init := items[..|items| - 1];
    if k < |items| - 1 {
      CountCoversEachItem(init, k);
    } else {
      NonNegativeSum(init);
    }
  }

  lemma {:induction false} NonNegativeSum(items: seq<Item>)
    requires forall j :: 0 <= j < |items| ==> Quantity(items[j]) >= 0
    ensures SumQuantities(items) >= 0
  {
    if items != [] {
      NonNegativeSum(items[..|items| - 1]);
    }
  }

  /** `handlePageChange`: the requested page, clamped into 1 .. totalPages. */
  function ClampPage(newPage: int, totalPages: int): (r: int)
    requires totalPages >= 1
    ensures 1 <= r <= totalPages
    ensures 1 <= newPage <= totalPages ==> r == newPage
    ensures newPage < 1 ==> r == 1
    ensures newPage > totalPages ==> r == totalPages
  {
    if newPage < 1 then 1 else if newPage > totalPages then totalPages else newPage
  }

  const MaxVisible := 5

  /** The first and last page button of `renderPagination`. */
  function WindowStart(page: int, totalPages: int): int {
    var start := if page - MaxVisible / 2 > 1 then page - MaxVisible / 2 else 1;
    var end := if totalPages < start + MaxVisible - 1 then totalPages else start + MaxVisible - 1;
    if end - start + 1 < MaxVisible then (if end - MaxVisible + 1 > 1 then end - MaxVisible + 1 else 1) else start
  }

  function WindowEnd(page: int, totalPages: int): int {
    var start := if page - MaxVisible / 2 > 1 then page - MaxVisible / 2 else 1;
    if totalPages < start + MaxVisible - 1 then totalPages else start + MaxVisible - 1
  }

  /** `lo, lo + 1, …, hi`. */
  function Range(lo: int, hi: int): (r: seq<int>)
    ensures |r| == if hi < lo then 0 else hi - lo + 1
    ensures forall k :: 0 <= k < |r| ==> r[k] == lo + k
    decreases hi - lo
  {
    if hi < lo then [] else [lo] + Range(lo + 1, hi)
  }

  /** `renderPagination`'s page buttons; none at all when there is a single page. */
  method PageButtons(page: int, totalPages: int) returns (pages: seq<int>)
    ensures totalPages <= 1 ==> pages == []
    ensures totalPages > 1 ==> pages == Range(WindowStart(page, totalPages), WindowEnd(page, totalPages))
  {
    pages := [];
    if totalPages <= 1 {
      return;
    }
    var startPage := if page - MaxVisible / 2 > 1 then page - MaxVisible / 2 else 1;
    var endPage := if totalPages < startPage + MaxVisible - 1 then totalPages else startPage + MaxVisible - 1;
    if endPage - startPage + 1 < MaxVisible {
      startPage := if endPage - MaxVisible + 1 > 1 then endPage - MaxVisible + 1 else 1;
    }
    assert startPage == WindowStart(page, totalPages) && endPage == WindowEnd(page, totalPages);
    var i := startPage;
    while i <= endPage
      invariant startPage <= i <= endPage + 1 || (endPage < startPage && i == startPage)
      invariant pages == Range(startPage, i - 1)
      decreases endPage - i
    {
      RangeSnoc(startPage, i);
      pages := pages + [i];
      i := i + 1;
    }
  }

  lemma RangeSnoc(lo: int, hi: int)
    requires lo <= hi
    ensures Range(lo, hi) == Range(lo, hi - 1) + [hi]
  {
    var r := Range(lo, hi);
    var q := Range(lo, hi - 1) + [hi];
    assert |r| == |q|;
    forall k | 0 <= k < |r| ensures r[k] == q[k] {
      if k < |r| - 1 {
        assert q[k] == Range(lo, hi - 1)[k];
      }
    }
  }

  /**
   * On a valid page of a multi-page list the buttons are five consecutive
   * pages (fewer only when there are fewer pages), all real pages, and the
   * current page is among them.
   */
  lemma WindowShowsCurrentPage(page: int, totalPages: int)
    requires 1 <= page <= totalPages && totalPages > 1
    ensures var w := Range(WindowStart(page, totalPages), WindowEnd(page, totalPages));
      |w| == (if totalPages < MaxVisible then totalPages else MaxVisible)
      && page in w && 1 <= w[0] && w[|w| - 1] <= totalPages
  {
    var w := Range(WindowStart(page, totalPages), WindowEnd(page, totalPages));
    assert w[page - WindowStart(page, totalPages)] == page;
  }

  /** The "Showing a to b of n" caption, for a page of at least 1. */
  function ShowingRange(page: int, count: nat): (r: (int, int))
    requires page >= 1
    ensures r.0 == (page - 1) * ItemsPerPage + 1
    ensures r.1 <= count && r.1 <= r.0 + ItemsPerPage - 1
    ensures r.1 == count || r.1 == r.0 + ItemsPerPage - 1
  {
    var start := (page - 1) * ItemsPerPage;
    (start + 1, if start + ItemsPerPage < count then start + ItemsPerPage else count)
  }

  /**
   * On a page that shows orders, the caption names exactly the orders on the
   * page: it starts at the first of them and counts as many as the page shows.
   */
  lemma ShowingRangeMatchesPage(orders: seq<Order>, page: int)
    requires page >= 1 && (page - 1) * ItemsPerPage < |orders|
    ensures var r := ShowingRange(page, |orders|);
      r.1 - r.0 + 1 == |Paginated(orders, page)| && Paginated(orders, page)[0] == orders[r.0 - 1]
  {
  }

  /** The search box, the page and the detail popup of the orders page. */
  class OrdersPage {
    var search: string
    var page: int
    var selectedOrder: Option<Order>
    var isDetailOpen: bool

    constructor ()
      ensures search == "" && page == 1 && selectedOrder == None && !isDetailOpen
    {
      search, page, selectedOrder, isDetailOpen := "", 1, None, false;
    }

    /** Typing a search keeps the current page. */
    method HandleSearch(value: string)
      modifies this`search
      ensures search == value
    {
      search := value;
    }

    method HandlePageChange(newPage: int, totalPages: int)
      requires totalPages >= 1
      modifies this`page
      ensures page == ClampPage(newPage, totalPages)
    {
      page := if newPage < totalPages then newPage else totalPages;
      page := if page > 1 then page else 1;
    }

    method HandleViewOrder(o: Order)
      modifies this`selectedOrder, this`isDetailOpen
      ensures selectedOrder == Some(o) && isDetailOpen
    {
      selectedOrder := Some(o);
      isDetailOpen := true;
    }

    method CloseDetail()
      modifies this`isDetailOpen
      ensures !isDetailOpen
    {
      isDetailOpen := false;
    }
  }
}
