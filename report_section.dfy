/**
 * The reports page: the filter payload sent with every change of filters,
 * the best-sellers table of the exported report, the thumbnail of a product
 * and the colours of the brand chart.
 */
module ReportSection {
  import opened Options
  import opened Seqs
  import opened AsyncOp
  import opened Catalog
  import opened ReportSlice
  import ProductsSection

  /** The filter panel; `last30` is the "Last 30 Days" toggle, the rest are text inputs. */
  datatype Filters = Filters(
    categoryId: string, brandId: string, granularity: string, last30: bool,
    startDate: string, endDate: string)

  const NoFilters := Filters("", "", "", false, "", "")

  /** `{ filterType, ...filters }`, in key order. */
  function Payload(filterType: string, f: Filters): (r: seq<(string, JsValue)>)
    ensures |r| == 7 && r[0] == ("filterType", Text(filterType)) && r[4] == ("last30", Bool(f.last30))
  {
    [("filterType", Text(filterType)), ("categoryId", Text(f.categoryId)), ("brandId", Text(f.brandId)),
     ("granularity", Text(f.granularity)), ("last30", Bool(f.last30)), ("startDate", Text(f.startDate)),
     ("endDate", Text(f.endDate))]
  }

  /** The keys the effect deletes: empty text and `false`. */
  predicate Kept(e: (string, JsValue)) {
    e.1 != Text("") && e.1 != Bool(false)
  }

  /** The effect's cleanup loop over the payload's keys. */
  method CleanPayload(payload: seq<(string, JsValue)>) returns (cleaned: seq<(string, JsValue)>)
    ensures cleaned == Filter(payload, Kept)
  {
    cleaned := [];
    var i := 0;
    while i < |payload|
      invariant 0 <= i <= |payload|
      invariant cleaned == Filter(payload[..i], Kept)
    {
      assert payload[..i + 1] == payload[..i] + [payload[i]];
      FilterConcat(payload[..i], [payload[i]], Kept);
      assert [payload[i]][..0] == [];
      if Kept(payload[i]) {
        cleaned := cleaned + [payload[i]];
      }
      i := i + 1;
    }
    assert payload[..i] == payload;
  }

  function Cleaned(filterType: string, f: Filters): seq<(string, JsValue)> {
    Filter(Payload(filterType, f), Kept)
  }

  /** The query sent for the given filters. */
  function Query(filterType: string, f: Filters): seq<(string, string)> {
    ReportParams(Cleaned(filterType, f))
  }

  lemma FilterSingle(e: (string, JsValue))
    ensures Filter([e], Kept) == if Kept(e) then [e] else []
  {
    assert [e][..0] == [];
  }

  /** Unfolds the cleanup of a literal payload key by key. */
  lemma CleanedUnfold(filterType: string, f: Filters)
    ensures Cleaned(filterType, f) ==
      Filter([("filterType", Text(filterType))], Kept) + Filter([("categoryId", Text(f.categoryId))], Kept)
      + Filter([("brandId", Text(f.brandId))], Kept) + Filter([("granularity", Text(f.granularity))], Kept)
      + Filter([("last30", Bool(f.last30))], Kept) + Filter([("startDate", Text(f.startDate))], Kept)
      + Filter([("endDate", Text(f.endDate))], Kept)
  {
    var p := Payload(filterType, f);
    assert p == [p[0]] + [p[1]] + [p[2]] + [p[3]] + [p[4]] + [p[5]] + [p[6]];
    FilterConcat([p[0]] + [p[1]] + [p[2]] + [p[3]] + [p[4]] + [p[5]], [p[6]], Kept);
    FilterConcat([p[0]] + [p[1]] + [p[2]] + [p[3]] + [p[4]], [p[5]], Kept);
    FilterConcat([p[0]] + [p[1]] + [p[2]] + [p[3]], [p[4]], Kept);
    FilterConcat([p[0]] + [p[1]] + [p[2]], [p[3]], Kept);
    FilterConcat([p[0]] + [p[1]], [p[2]], Kept);
    FilterConcat([p[0]], [p[1]], Kept);
  }

  /** With no filter set, the report is asked for by period alone. */
  lemma NoFiltersQuery(filterType: string)
    requires filterType != ""
    ensures Query(filterType, NoFilters) == [("filterType", filterType)]
  {
    CleanedUnfold(filterType, NoFilters);
    FilterSingle(("filterType", Text(filterType)));
    FilterSingle(("categoryId", Text("")));
    FilterSingle(("brandId", Text("")));
    FilterSingle(("granularity", Text("")));
    FilterSingle(("last30", Bool(false)));
    FilterSingle(("startDate", Text("")));
    FilterSingle(("endDate", Text("")));
    var c := [("filterType", Text(filterType))];
    assert Cleaned(filterType, NoFilters) == c;
    assert c[..0] == [];
    assert Lookup(c, "last30") == Undefined;
  }

  lemma Last30Cleaned(filterType: string)
    requires filterType != ""
    ensures Cleaned(filterType, NoFilters.(last30 := true)) ==
      [("filterType", Text(filterType)), ("last30", Bool(true))]
  {
    var f := NoFilters.(last30 := true);
    CleanedUnfold(filterType, f);
    var head := ("filterType", Text(filterType));
    var tick := ("last30", Bool(true));
    FilterSingle(head);
    FilterSingle(("categoryId", Text("")));
    FilterSingle(("brandId", Text("")));
    FilterSingle(("granularity", Text("")));
    FilterSingle(tick);
    FilterSingle(("startDate", Text("")));
    FilterSingle(("endDate", Text("")));
    assert Cleaned(filterType, f) == [head] + [] + [] + [] + [tick] + [] + [];
    assert [head] + [] + [] + [] + [tick] + [] + [] == [head, tick];
  }

  /** Ticking "Last 30 Days" alone sends `last30=true` twice: once from the payload, once from the thunk. */
  lemma Last30Query(filterType: string)
    requires filterType != ""
    ensures Query(filterType, NoFilters.(last30 := true)) ==
      [("filterType", filterType), ("last30", "true"), ("last30", "true")]
  {
    Last30Cleaned(filterType);
    var c := [("filterType", Text(filterType)), ("last30", Bool(true))];
    var head := [("filterType", Text(filterType))];
    assert c[..1] == head;
    assert head[..0] == [];
    assert EntryParams(c) == [("filterType", filterType), ("last30", "true")];
    assert Lookup(c, "last30") == Bool(true) by {
      assert c[1..] == [("last30", Bool(true))];
    }
  }

  /** Nothing the cleanup keeps is one of the values the thunk would skip. */
  lemma CleanedAllAppended(filterType: string, f: Filters, e: (string, JsValue))
    requires e in Cleaned(filterType, f)
    ensures Appended(e.1)
  {
    FilterMembers(Payload(filterType, f), Kept);
  }

  /** A best seller of the report. */
  datatype BestSeller = BestSeller(product: Option<ListedProduct>, totalSold: Option<int>, revenue: Option<int>)

  function SoldSum(items: seq<BestSeller>): Option<int> {
    if items == [] then Some(0)
    else
      var init := SoldSum(items[..|items| - 1]);
      var last := items[|items| - 1].totalSold;
      if init.Some? && last.Some? then Some(init.value + last.value) else None
  }

  /**
   * "Total Products Sold": the sum of the counts, where a missing count makes
   * the sum NaN and `|| 0` then turns it, like a zero sum, into 0.
   */
  function TotalSold(items: Option<seq<BestSeller>>): (r: int)
    ensures items.None? ==> r == 0
    ensures items.Some? && SoldSum(items.value).Some? ==> r == SoldSum(items.value).value
  {
    if items.Some? && SoldSum(items.value).Some? then SoldSum(items.value).value else 0
  }

  /** One best seller without a count hides every other count from the total. */
  lemma {:induction false} MissingCountZeroesTotal(items: seq<BestSeller>, k: int)
    requires 0 <= k < |items| && items[k].totalSold.None?
    ensures TotalSold(Some(items)) == 0
  {
    MissingCountPoisons(items, k);
  }

  lemma {:induction false} MissingCountPoisons(items: seq<BestSeller>, k: int)
    requires 0 <= k < |items| && items[k].totalSold.None?
    ensures SoldSum(items).None?
  {
    if k < |items| - 1 {
      MissingCountPoisons(items[..|items| - 1], k);
    }
  }

  function ProductNameOf(item: BestSeller): string {
    if item.product.Some? && item.product.value.name.Some? && item.product.value.name.value != "" then
      item.product.value.name.value
    else "N/A"
  }

  /** `variantName`: the first variant's name of a variant product. */
  function VariantNameOf(item: BestSeller): Option<string> {
    if item.product.Some? && item.product.value.isVariant && NonEmpty(item.product.value.variants) then
      item.product.value.variants.value[0].name
    else None
  }

  /** The row title: "name (variant)" when the product is a variant product whose first variant has a name. */
  function RowName(item: BestSeller): (r: string)
    ensures Truthy(VariantNameOf(item)) ==> r == ProductNameOf(item) + " (" + VariantNameOf(item).value + ")"
    ensures !Truthy(VariantNameOf(item)) ==> r == ProductNameOf(item)
    ensures r != ""
  {
    var v := VariantNameOf(item);
    if Truthy(v) then ProductNameOf(item) + " (" + v.value + ")" else ProductNameOf(item)
  }

  /** A product flagged as not having variants shows its bare name, whatever variants it carries. */
  lemma PlainProductShowsName(item: BestSeller)
    requires item.product.Some? && !item.product.value.isVariant
    ensures RowName(item) == ProductNameOf(item)
  {
  }

  /**
   * A row of the exported best-sellers table: the title, the "Sold" cell
   * `item.totalSold || 0`, and the "Revenue" cell, which is "₹" followed by
   * `item.revenue || 0`; the model keeps the amount the cell's text is made from.
   */
  datatype TableRow = TableRow(name: string, sold: int, revenue: int)

  function Row(item: BestSeller): (r: TableRow)
    ensures r.name == RowName(item)
    ensures item.totalSold.Some? ==> r.sold == item.totalSold.value
    ensures item.totalSold.None? ==> r.sold == 0
    ensures item.revenue.Some? ==> r.revenue == item.revenue.value
    ensures item.revenue.None? ==> r.revenue == 0
  {
    TableRow(RowName(item),
      if item.totalSold.Some? then item.totalSold.value else 0,
      if item.revenue.Some? then item.revenue.value else 0)
  }

  /** `(data?.bestSellingProducts || []).map(...)`: one row per best seller, in order. */
  function TableRows(items: Option<seq<BestSeller>>): (r: seq<TableRow>)
    ensures items.None? ==> r == []
    ensures items.Some? ==> |r| == |items.value|
    ensures items.Some? ==> forall i :: 0 <= i < |r| ==> r[i] == Row(items.value[i])
  {
    if items.None? then []
    else seq(|items.value|, i requires 0 <= i < |items.value| => Row(items.value[i]))
  }

  /** The sum of the "Sold" column. */
  function SoldColumn(rows: seq<TableRow>): int {
    if rows == [] then 0 else SoldColumn(rows[..|rows| - 1]) + rows[|rows| - 1].sold
  }

  /**
   * When every best seller has a count, "Total Products Sold" above the table
   * is the sum of the table's "Sold" column; with one count missing it is 0
   * (`MissingCountZeroesTotal`) while the column still shows the others.
   */
  lemma TotalIsSoldColumn(items: seq<BestSeller>)
    requires SoldSum(items).Some?
    ensures TotalSold(Some(items)) == SoldColumn(TableRows(Some(items)))
  {
    SoldSumIsColumn(items);
  }

  lemma {:induction false} SoldSumIsColumn(items: seq<BestSeller>)
    requires SoldSum(items).Some?
    ensures SoldSum(items).value == SoldColumn(TableRows(Some(items)))
  {
    if items != [] {
      var init := items[..|items| - 1];
      var rows := TableRows(Some(items));
      assert rows[..|rows| - 1] == TableRows(Some(init));
      SoldSumIsColumn(init);
    }
  }

  /** The thumbnail as `getProductImage` returns it: a URL, `undefined` or `null`. */
  datatype Thumb = Url(url: string) | UndefinedThumb | NullThumb

  /**
   * This page's `getProductImage`: it only asks whether the first variant has
   * an image list, so an empty list yields `undefined` rather than `null`.
   */
  function ProductImage(p: ListedProduct): (r: Thumb)
    ensures NonEmpty(p.productImages) ==> r == Url(p.productImages.value[0])
    ensures r == UndefinedThumb <==>
      !NonEmpty(p.productImages) && NonEmpty(p.variants) && p.variants.value[0].variantImages == Some([])
  {
    if NonEmpty(p.productImages) then Url(p.productImages.value[0])
    else if NonEmpty(p.variants) && p.variants.value[0].variantImages.Some? then
      (if |p.variants.value[0].variantImages.value| > 0 then Url(p.variants.value[0].variantImages.value[0])
       else UndefinedThumb)
    else NullThumb
  }

  /** Up to the difference between `undefined` and `null`, which both show no picture, it is the products page's thumbnail. */
  lemma SameThumbnailAsProductsPage(p: ListedProduct)
    ensures ProductImage(p).Url? <==> ProductsSection.ProductImage(p).Some?
    ensures ProductImage(p).Url? ==> ProductImage(p).url == ProductsSection.ProductImage(p).value
  {
  }

  const Palette := ["#0088FE", "#00C49F", "#FFBB28", "#FF8042"]

  /** The slice colour of the brand at `index` in the chart. */
  function BrandColour(index: nat): (r: string)
    ensures r in Palette
    ensures r == Palette[index % 4]
  {
    Palette[index % 4]
  }

  /** Four neighbouring brands get four different colours; the fifth repeats the first. */
  lemma BrandColoursCycle(index: nat)
    ensures BrandColour(index + 4) == BrandColour(index)
    ensures forall j, k :: index <= j < k < index + 4 ==> BrandColour(j) != BrandColour(k)
  {
    forall j, k | index <= j < k < index + 4
      ensures BrandColour(j) != BrandColour(k)
    {
      assert j % 4 != k % 4;
    }
  }

  /** The text filters `handleFilterChange` sets. */
  datatype FilterKey = CategoryId | BrandId | Granularity | StartDate | EndDate

  function FilterText(f: Filters, key: FilterKey): string {
    match key
    case CategoryId => f.categoryId
    case BrandId => f.brandId
    case Granularity => f.granularity
    case StartDate => f.startDate
    case EndDate => f.endDate
  }

  /** `setFilters(prev => ({ ...prev, [key]: value }))`: one text filter changes, nothing else. */
  function WithFilter(f: Filters, key: FilterKey, value: string): (r: Filters)
    ensures FilterText(r, key) == value
    ensures forall k :: k != key ==> FilterText(r, k) == FilterText(f, k)
    ensures r.last30 == f.last30
  {
    match key
    case CategoryId => f.(categoryId := value)
    case BrandId => f.(brandId := value)
    case Granularity => f.(granularity := value)
    case StartDate => f.(startDate := value)
    case EndDate => f.(endDate := value)
  }

  /** The filters of the reports page. */
  class ReportPage {
    var filterType: string
    var showFilters: bool
    var filters: Filters

    constructor ()
      ensures filterType == "month" && !showFilters && filters == NoFilters
    {
      filterType, showFilters, filters := "month", false, NoFilters;
    }

    method SetFilterType(value: string)
      modifies this`filterType
      ensures filterType == value
    {
      filterType := value;
    }

    method ToggleFilters()
      modifies this`showFilters
      ensures showFilters == !old(showFilters)
    {
      showFilters := !showFilters;
    }

    method HandleFilterChange(key: FilterKey, value: string)
      modifies this`filters
      ensures filters == WithFilter(old(filters), key, value)
    {
      filters := WithFilter(filters, key, value);
    }

    /** The "Last 30 Days" button flips the toggle. */
    method ToggleLast30()
      modifies this`filters
      ensures filters == old(filters).(last30 := !old(filters).last30)
    {
      filters := filters.(last30 := !filters.last30);
    }

    /** "Last 7 Days": a date range, and the 30-day toggle off. */
    method LastSevenDays(lastWeek: string, today: string)
      modifies this`filters
      ensures filters == old(filters).(startDate := lastWeek, endDate := today, last30 := false)
    {
      filters := WithFilter(filters, StartDate, lastWeek);
      filters := WithFilter(filters, EndDate, today);
      filters := filters.(last30 := false);
    }

    /** `resetFilters`: back to the first query of the page. */
    method ResetFilters()
      modifies this`filters
      ensures filters == NoFilters
      ensures filterType != "" ==> Query(filterType, filters) == [("filterType", filterType)]
    {
      filters := NoFilters;
      if filterType != "" {
        NoFiltersQuery(filterType);
      }
    }

    /** The request the filter effect sends. */
    method CurrentQuery() returns (params: seq<(string, string)>)
      ensures params == Query(filterType, filters)
    {
      var cleaned := CleanPayload(Payload(filterType, filters));
      params := BuildParams(cleaned);
    }
  }
}
