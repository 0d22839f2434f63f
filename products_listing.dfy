/**
 * The products page and the product details page: the product records the
 * API returns, the search filter and thumbnail of the list, the add/update
 * mode of the editor popup, and what the details page derives for the
 * selected variant.
 */
module Catalog {
  import opened Options

  /** A variant as the API returns it; every field may be absent. */
  datatype ListedVariant = ListedVariant(
    name: Option<string>, variantImages: Option<seq<string>>,
    price: Option<real>, offerPrice: Option<real>, stock: Option<int>)

  /** A product as the API returns it; every field may be absent. */
  datatype ListedProduct = ListedProduct(
    id: Option<string>, name: Option<string>, sku: Option<string>, slug: Option<string>,
    productImages: Option<seq<string>>, variants: Option<seq<ListedVariant>>,
    price: Option<real>, offerPrice: Option<real>, stock: Option<int>, isVariant: bool)

  /** `list?.length > 0`. */
  predicate NonEmpty<T>(list: Option<seq<T>>) {
    list.Some? && |list.value| > 0
  }
}

module ProductsSection {
  import opened Options
  import opened Text
  import opened Seqs
  import opened Wire
  import opened Catalog

  /** `field?.toLowerCase().includes(search.toLowerCase())`: an absent field never matches. */
  predicate FieldMatches(field: Option<string>, search: string) {
    field.Some? && Contains(ToLower(field.value), ToLower(search))
  }

  predicate ProductMatches(p: ListedProduct, search: string) {
    FieldMatches(p.name, search) || FieldMatches(p.sku, search)
  }

  /** `filteredProducts`: the products whose name or SKU contains the search, case-insensitively, in list order. */
  function FilteredProducts(all: seq<ListedProduct>, search: string): (r: seq<ListedProduct>)
    ensures |r| <= |all|
    ensures forall p :: p in r ==> p in all && ProductMatches(p, search)
    ensures forall k :: 0 <= k < |all| && ProductMatches(all[k], search) ==> all[k] in r
  {
    var keep := p => ProductMatches(p, search);
    FilterMembers(all, keep);
    Filter(all, keep)
  }

  /**
   * The search keeps the products in list order: a list is filtered part by
   * part, and one product stays exactly when its name or SKU matches.
   */
  lemma FilteredProductsKeepsOrder(a: seq<ListedProduct>, b: seq<ListedProduct>, p: ListedProduct, search: string)
    ensures FilteredProducts(a + b, search) == FilteredProducts(a, search) + FilteredProducts(b, search)
    ensures FilteredProducts([p], search) == if ProductMatches(p, search) then [p] else []
  {
    FilterConcat(a, b, q => ProductMatches(q, search));
    FilterSingle(p, q => ProductMatches(q, search));
  }

  /**
   * With an empty search every product that has a name or a SKU is listed,
   * and a product with neither is left out.
   */
  lemma EmptySearchNeedsNameOrSku(all: seq<ListedProduct>, p: ListedProduct)
    requires p in all
    ensures p in FilteredProducts(all, "") <==> p.name.Some? || p.sku.Some?
  {
    if p.name.Some? {
      ContainsEmpty(ToLower(p.name.value));
    } else if p.sku.Some? {
      ContainsEmpty(ToLower(p.sku.value));
    }
  }

  /** `getProductImage`: the first product image, else the first image of the first variant, else null. */
  function ProductImage(p: ListedProduct): (r: Option<string>)
    ensures NonEmpty(p.productImages) ==> r == Some(p.productImages.value[0])
    ensures !NonEmpty(p.productImages) && NonEmpty(p.variants) && NonEmpty(p.variants.value[0].variantImages) ==>
      r == Some(p.variants.value[0].variantImages.value[0])
    ensures r.None? <==>
      !NonEmpty(p.productImages) && !(NonEmpty(p.variants) && NonEmpty(p.variants.value[0].variantImages))
  {
    if NonEmpty(p.productImages) then Some(p.productImages.value[0])
    else if NonEmpty(p.variants) && NonEmpty(p.variants.value[0].variantImages) then
      Some(p.variants.value[0].variantImages.value[0])
    else None
  }

  datatype Mode = AddMode | UpdateMode

  /** The requests `handleSubmit` dispatches, in order. */
  datatype ProductRequest = CreateProduct(body: seq<Field>) | UpdateProduct(slug: Option<string>, body: seq<Field>) | GetProducts

  /** `isUpdate?._id` is truthy. */
  predicate HasId(editing: Option<ListedProduct>) {
    editing.Some? && editing.value.id.Some? && editing.value.id.value != ""
  }

  /**
   * `handleSubmit`: create in add mode; update, keyed by the product's slug,
   * in update mode when the edited product has an id; then refetch.
   */
  function SubmitRequests(mode: Mode, editing: Option<ListedProduct>, body: seq<Field>): (r: seq<ProductRequest>)
    ensures 1 <= |r| <= 2 && r[|r| - 1] == GetProducts
    ensures (|r| == 2) <==> (mode == AddMode || HasId(editing))
    ensures |r| == 2 ==> !r[0].GetProducts? && r[0].body == body
    ensures |r| == 2 ==> (r[0].CreateProduct? <==> mode == AddMode)
    ensures |r| == 2 && r[0].UpdateProduct? ==> r[0].slug == editing.value.slug
  {
    if mode == AddMode then [CreateProduct(body), GetProducts]
    else if HasId(editing) then [UpdateProduct(editing.value.slug, body), GetProducts]
    else [GetProducts]
  }

  /** The popup state of the products page. */
  class ProductsPage {
    var isFormOpen: bool
    var isUpdate: Option<ListedProduct>
    var mode: Mode

    constructor ()
      ensures !isFormOpen && isUpdate == None && mode == AddMode
    {
      isFormOpen, isUpdate, mode := false, None, AddMode;
    }

    method HandleAdd()
      modifies this
      ensures isFormOpen && mode == AddMode && isUpdate == None
    {
      isFormOpen := true;
      mode := AddMode;
      isUpdate := None;
    }

    method HandleUpdate(p: ListedProduct)
      modifies this
      ensures isFormOpen && mode == UpdateMode && isUpdate == Some(p)
    {
      isUpdate := Some(p);
      isFormOpen := true;
      mode := UpdateMode;
    }

    method HandleSubmit(body: seq<Field>) returns (requests: seq<ProductRequest>)
      ensures requests == SubmitRequests(mode, isUpdate, body)
    {
      requests := [];
      if mode == AddMode {
        requests := requests + [CreateProduct(body)];
      } else if mode == UpdateMode && HasId(isUpdate) {
        requests := requests + [UpdateProduct(isUpdate.value.slug, body)];
      }
      requests := requests + [GetProducts];
    }
  }

  /** After "add", a submit creates; after "update" on a stored product, a submit updates that product by slug. */
  lemma ModeDecidesRequest(body: seq<Field>, p: ListedProduct)
    requires p.id.Some? && p.id.value != ""
    ensures SubmitRequests(AddMode, None, body) == [CreateProduct(body), GetProducts]
    ensures SubmitRequests(UpdateMode, Some(p), body) == [UpdateProduct(p.slug, body), GetProducts]
    ensures SubmitRequests(UpdateMode, None, body) == [GetProducts]
  {
  }
}

/** What the details page shows for the selected variant. */
module ProductDetails {
  import opened Options
  import opened Catalog

  /** `singleProduct?.variants?.[selectedVariant]`. */
  function CurrentVariant(p: Option<ListedProduct>, selected: int): (r: Option<ListedVariant>)
    ensures r.Some? <==> p.Some? && p.value.variants.Some? && 0 <= selected < |p.value.variants.value|
    ensures r.Some? ==> r.value == p.value.variants.value[selected]
  {
    if p.Some? && p.value.variants.Some? && 0 <= selected < |p.value.variants.value| then
      Some(p.value.variants.value[selected])
    else None
  }

  function Images(p: Option<ListedProduct>): seq<string> {
    if p.Some? && p.value.productImages.Some? then p.value.productImages.value else []
  }

  /** The gallery: the variant's own images when it has some, else the product's, else none. */
  function ShownImages(p: Option<ListedProduct>, v: Option<ListedVariant>): (r: seq<string>)
    ensures v.Some? && NonEmpty(v.value.variantImages) ==> r == v.value.variantImages.value
    ensures !(v.Some? && NonEmpty(v.value.variantImages)) ==> r == Images(p)
  {
    if v.Some? && NonEmpty(v.value.variantImages) then v.value.variantImages.value else Images(p)
  }

  /** A value interpolated into a template literal: an absent one prints as "undefined". */
  function Interpolated(s: Option<string>): string {
    if s.Some? then s.value else "undefined"
  }

  function ProductName(p: Option<ListedProduct>): Option<string> {
    if p.Some? then p.value.name else None
  }

  /** The title: "product | variant" exactly when the variant has a non-empty name, else the product name. */
  function DisplayName(p: Option<ListedProduct>, v: Option<ListedVariant>): (r: Option<string>)
    ensures v.Some? && v.value.name.Some? && v.value.name.value != "" ==>
      r == Some(Interpolated(ProductName(p)) + " | " + v.value.name.value)
    ensures !(v.Some? && v.value.name.Some? && v.value.name.value != "") ==> r == ProductName(p)
  {
    if v.Some? && v.value.name.Some? && v.value.name.value != "" then
      Some(Interpolated(ProductName(p)) + " | " + v.value.name.value)
    else ProductName(p)
  }

  /** `a ?? b`. */
  function Coalesce<T>(a: Option<T>, b: Option<T>): (r: Option<T>)
    ensures a.Some? ==> r == a
    ensures a.None? ==> r == b
  {
    if a.Some? then a else b
  }

  function VOfferPrice(v: Option<ListedVariant>): Option<real> { if v.Some? then v.value.offerPrice else None }
  function VPrice(v: Option<ListedVariant>): Option<real> { if v.Some? then v.value.price else None }
  function VStock(v: Option<ListedVariant>): Option<int> { if v.Some? then v.value.stock else None }
  function POfferPrice(p: Option<ListedProduct>): Option<real> { if p.Some? then p.value.offerPrice else None }
  function PPrice(p: Option<ListedProduct>): Option<real> { if p.Some? then p.value.price else None }
  function PStock(p: Option<ListedProduct>): Option<int> { if p.Some? then p.value.stock else None }

  /** The price shown: variant offer price, variant price, product offer price, product price; the first present wins. */
  function DisplayPrice(p: Option<ListedProduct>, v: Option<ListedVariant>): (r: Option<real>)
    ensures VOfferPrice(v).Some? ==> r == VOfferPrice(v)
    ensures VOfferPrice(v).None? && VPrice(v).Some? ==> r == VPrice(v)
    ensures VOfferPrice(v).None? && VPrice(v).None? && POfferPrice(p).Some? ==> r == POfferPrice(p)
    ensures VOfferPrice(v).None? && VPrice(v).None? && POfferPrice(p).None? ==> r == PPrice(p)
    ensures r.None? <==>
      VOfferPrice(v).None? && VPrice(v).None?
      && POfferPrice(p).None? && PPrice(p).None?
  {
    Coalesce(VOfferPrice(v),
      Coalesce(VPrice(v),
        Coalesce(POfferPrice(p), PPrice(p))))
  }

  /** The struck-through price: the variant price, else the product price. */
  function OriginalPrice(p: Option<ListedProduct>, v: Option<ListedVariant>): (r: Option<real>)
    ensures VPrice(v).Some? ==> r == VPrice(v)
    ensures VPrice(v).None? ==> r == PPrice(p)
  {
    Coalesce(VPrice(v), PPrice(p))
  }

  /**
   * Without an offer price on the variant or the product, the shown price is
   * the struck-through one, so no discount badge appears.
   */
  lemma NoOfferShowsOriginal(p: Option<ListedProduct>, v: Option<ListedVariant>)
    requires VOfferPrice(v).None? && POfferPrice(p).None?
    ensures DisplayPrice(p, v) == OriginalPrice(p, v)
    ensures DiscountPercent(DisplayPrice(p, v), OriginalPrice(p, v)) == Whole(0)
  {
  }

  /** `Math.round`: half-way cases go up. */
  function Round(x: real): (r: int)
    ensures x - 0.5 < r as real <= x + 0.5
  {
    (x + 0.5).Floor
  }

  /** A percentage off; `Unbounded` is the division by a zero original price. */
  datatype Percent = Whole(n: int) | Unbounded

  /** `display < original` compares numbers only; a missing price makes it false. */
  predicate HasDiscount(display: Option<real>, original: Option<real>) {
    display.Some? && original.Some? && display.value < original.value
  }

  /** The discount badge: 0 unless the shown price is below the original, else the rounded percentage off. */
  function DiscountPercent(display: Option<real>, original: Option<real>): (r: Percent)
    ensures !HasDiscount(display, original) ==> r == Whole(0)
    ensures HasDiscount(display, original) && original.value != 0.0 ==>
      r == Whole(Round((original.value - display.value) / original.value * 100.0))
  {
    if !HasDiscount(display, original) then Whole(0)
    else if original.value == 0.0 then Unbounded
    else Whole(Round((original.value - display.value) / original.value * 100.0))
  }

  /** With non-negative prices the badge lies between 0 and 100; a free item shows 100. */
  lemma DiscountInRange(display: real, original: real)
    requires 0.0 <= display < original
    ensures var r := DiscountPercent(Some(display), Some(original)); r.Whole? && 0 <= r.n <= 100
    ensures display == 0.0 ==> DiscountPercent(Some(display), Some(original)) == Whole(100)
  {
    var q := (original - display) / original;
    assert q * original == original - display;
    assert (1.0 - q) * original == display;
    assert 0.0 < q <= 1.0;
    if display == 0.0 {
      assert q == 1.0;
    }
  }

  /** The stock shown: the variant's, else the product's. */
  function CurrentStock(p: Option<ListedProduct>, v: Option<ListedVariant>): (r: Option<int>)
    ensures VStock(v).Some? ==> r == VStock(v)
    ensures VStock(v).None? ==> r == PStock(p)
  {
    Coalesce(VStock(v), PStock(p))
  }

  /** The selected variant and gallery image of the details page. */
  class DetailsView {
    var selectedVariant: int
    var selectedImage: int

    constructor ()
      ensures selectedVariant == 0 && selectedImage == 0
    {
      selectedVariant, selectedImage := 0, 0;
    }

    /** Picking a variant shows its first image. */
    method HandleVariantSelect(index: int)
      modifies this
      ensures selectedVariant == index && selectedImage == 0
    {
      selectedVariant := index;
      selectedImage := 0;
    }

    method HandleImageSelect(index: int)
      modifies this`selectedImage
      ensures selectedImage == index
    {
      selectedImage := index;
    }

    /** A newly loaded product: back to the first variant when it has variants, and to the first image. */
    method OnProductLoaded(p: Option<ListedProduct>)
      modifies this
      ensures selectedImage == 0
      ensures selectedVariant == if p.Some? && NonEmpty(p.value.variants) then 0 else old(selectedVariant)
    {
      if p.Some? && NonEmpty(p.value.variants) {
        selectedVariant := 0;
      }
      selectedImage := 0;
    }
  }
}
