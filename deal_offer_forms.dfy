/**
 * The "Create/Update Deal" modal: a deal on one product with prices, dates
 * and banner images; a stored deal is loaded into it once the products are
 * known.
 */
module CreateDealForm {
  import opened Options
  import opened Text
  import opened Wire
  import opened Validation
  import opened FormCommon
  import opened PairedImages

  /**
   * The form. The price-like inputs hold a `Value`: the text typed, or the
   * number a stored deal carried.
   */
  datatype DealForm = DealForm(
    title: string, description: string, product: string,
    originalPrice: Value, dealPrice: Value, discountPercentage: Value,
    startDate: string, endDate: string, maxQuantity: Value, priority: Value,
    isFeatured: bool, images: Paired)

  const EmptyDealForm := DealForm("", "", "", Str(""), Str(""), Str(""), "", "", Str(""), Num(1.0), false, NoImages)

  /** A deal as the API returns it; `product` is the id of its product, when it has one. */
  datatype StoredDeal = StoredDeal(
    id: string, title: Option<string>, description: Option<string>, product: Option<string>,
    originalPrice: Option<real>, dealPrice: Option<real>, discountPercentage: Option<real>,
    startDate: Option<string>, endDate: Option<string>, maxQuantity: Option<real>,
    priority: Option<real>, isFeatured: Option<bool>, dealBanner: Option<seq<string>>)

  /**
   * The hydration effect's new form: text fields default to "", dates keep
   * their first ten characters, a product that is not among the loaded ones
   * is dropped, priority defaults to 1, and the stored banners become
   * previews with no file to upload.
   */
  function HydratedDeal(d: StoredDeal, productIds: seq<string>): (r: DealForm)
    ensures r.title == TextOr(d.title, "") && r.description == TextOr(d.description, "")
    ensures r.originalPrice == NumOr(d.originalPrice, Str("")) && r.dealPrice == NumOr(d.dealPrice, Str(""))
    ensures r.discountPercentage == NumOr(d.discountPercentage, Str(""))
    ensures r.maxQuantity == NumOr(d.maxQuantity, Str(""))
    ensures r.startDate == DateInput(d.startDate) && r.endDate == DateInput(d.endDate)
    ensures r.product == "" || (r.product in productIds && d.product == Some(r.product))
    ensures d.product.Some? && d.product.value in productIds ==> r.product == d.product.value
    ensures r.priority == NumOr(d.priority, Num(1.0)) && Filled(r.priority)
    ensures r.isFeatured <==> d.isFeatured == Some(true)
    ensures r.images.files == [] && Aligned(r.images)
    ensures StoredCount(r.images) == if d.dealBanner.Some? then |d.dealBanner.value| else 0
  {
    DealForm(
      TextOr(d.title, ""), TextOr(d.description, ""),
      if d.product.Some? && d.product.value in productIds then d.product.value else "",
      NumOr(d.originalPrice, Str("")), NumOr(d.dealPrice, Str("")), NumOr(d.discountPercentage, Str("")),
      DateInput(d.startDate), DateInput(d.endDate), NumOr(d.maxQuantity, Str("")),
      NumOr(d.priority, Num(1.0)), d.isFeatured == Some(true),
      Hydrated(if d.dealBanner.Some? then d.dealBanner.value else []))
  }

  datatype DealInput =
    | TitleInput | DescriptionInput | ProductInput | OriginalPriceInput | DealPriceInput
    | DiscountInput | StartDateInput | EndDateInput | MaxQuantityInput | PriorityInput

  /** The field an input shows, as a `Value`. */
  function InputValue(f: DealForm, input: DealInput): Value {
    match input
    case TitleInput => Str(f.title)
    case DescriptionInput => Str(f.description)
    case ProductInput => Str(f.product)
    case OriginalPriceInput => f.originalPrice
    case DealPriceInput => f.dealPrice
    case DiscountInput => f.discountPercentage
    case StartDateInput => Str(f.startDate)
    case EndDateInput => Str(f.endDate)
    case MaxQuantityInput => f.maxQuantity
    case PriorityInput => f.priority
  }

  /** `handleChange` on a text, number, date or select input: its own field takes the text, every other field stays. */
  function SetInput(f: DealForm, input: DealInput, value: string): (r: DealForm)
    ensures InputValue(r, input) == Str(value)
    ensures forall other :: other != input ==> InputValue(r, other) == InputValue(f, other)
    ensures r.images == f.images && r.isFeatured == f.isFeatured
  {
    match input
    case TitleInput => f.(title := value)
    case DescriptionInput => f.(description := value)
    case ProductInput => f.(product := value)
    case OriginalPriceInput => f.(originalPrice := Str(value))
    case DealPriceInput => f.(dealPrice := Str(value))
    case DiscountInput => f.(discountPercentage := Str(value))
    case StartDateInput => f.(startDate := value)
    case EndDateInput => f.(endDate := value)
    case MaxQuantityInput => f.(maxQuantity := Str(value))
    case PriorityInput => f.(priority := Str(value))
  }

  function DealChecks(f: DealForm): seq<Check> {
    [Check(!IsBlank(f.title), "Title is required"),
     Check(!IsBlank(f.product), "Product ID is required"),
     Check(Filled(f.originalPrice), "Original price is required"),
     Check(Filled(f.dealPrice), "Deal price is required"),
     Check(Filled(f.discountPercentage), "Discount percentage is required"),
     Check(f.startDate != "", "Start date is required"),
     Check(f.endDate != "", "End date is required")]
  }

  /** The form's keys in declaration order, each appended once, before the banner files. */
  function DealSingles(f: DealForm): seq<Field> {
    [Field(Name("title"), Str(f.title)), Field(Name("description"), Str(f.description)),
     Field(Name("product"), Str(f.product)), Field(Name("originalPrice"), f.originalPrice),
     Field(Name("dealPrice"), f.dealPrice), Field(Name("discountPercentage"), f.discountPercentage),
     Field(Name("startDate"), Str(f.startDate)), Field(Name("endDate"), Str(f.endDate)),
     Field(Name("maxQuantity"), f.maxQuantity), Field(Name("priority"), f.priority),
     Field(Name("isFeatured"), Flag(f.isFeatured))]
  }

  /** The preview list, appended as one entry (the text of the array). */
  function PreviewsField(f: DealForm): Field {
    Field(Name("previewImages"), Listed(seq(|f.images.previews|, k requires 0 <= k < |f.images.previews| => Link(f.images.previews[k]))))
  }

  /** `Object.entries(form)`: every key once, except `dealBanner`, which gives one entry per file. */
  function DealBody(f: DealForm): seq<Field> {
    DealSingles(f) + Repeated(Name("dealBanner"), Blobs(f.images.files)) + [PreviewsField(f)]
  }

  /** `handleSubmit`: the seven required fields in order, then create, or update the deal being edited. */
  function SubmitDeal(f: DealForm, editing: Option<string>): (r: Outcome<Request>)
    ensures r.Dispatched? <==>
      !IsBlank(f.title) && !IsBlank(f.product) && Filled(f.originalPrice) && Filled(f.dealPrice)
      && Filled(f.discountPercentage) && f.startDate != "" && f.endDate != ""
    ensures r.Warned? ==> FirstFailure(DealChecks(f)) == Some(r.message)
    ensures r.Dispatched? ==> r.request == CreateOrUpdate(editing, DealBody(f))
  {
    var cs := DealChecks(f);
    DealChecksPass(f);
    match FirstFailure(cs)
    case Some(m) => Warned(m)
    case None => Dispatched(CreateOrUpdate(editing, DealBody(f)))
  }

  /** The title is checked first, then the product. */
  lemma DealWarnsInOrder(f: DealForm, editing: Option<string>)
    ensures IsBlank(f.title) ==> SubmitDeal(f, editing) == Warned("Title is required")
    ensures !IsBlank(f.title) && IsBlank(f.product) ==> SubmitDeal(f, editing) == Warned("Product ID is required")
  {
    var cs := DealChecks(f);
    if IsBlank(f.title) {
      FirstFailureIs(cs, 0);
    } else if IsBlank(f.product) {
      FirstFailureIs(cs, 1);
    }
  }

  lemma DealChecksPass(f: DealForm)
    ensures (forall i :: 0 <= i < |DealChecks(f)| ==> DealChecks(f)[i].passes) <==>
      !IsBlank(f.title) && !IsBlank(f.product) && Filled(f.originalPrice) && Filled(f.dealPrice)
      && Filled(f.discountPercentage) && f.startDate != "" && f.endDate != ""
  {
    var cs := DealChecks(f);
    assert |cs| == 7;
    assert cs[0].passes == !IsBlank(f.title) && cs[1].passes == !IsBlank(f.product);
    assert cs[2].passes == Filled(f.originalPrice) && cs[3].passes == Filled(f.dealPrice);
    assert cs[4].passes == Filled(f.discountPercentage);
    assert cs[5].passes == (f.startDate != "") && cs[6].passes == (f.endDate != "");
    if cs[0].passes && cs[1].passes && cs[2].passes && cs[3].passes && cs[4].passes && cs[5].passes && cs[6].passes {
      forall i | 0 <= i < |cs| ensures cs[i].passes {
        assert i == 0 || i == 1 || i == 2 || i == 3 || i == 4 || i == 5 || i == 6;
      }
    }
  }

  lemma DealKeysDistinct(f: DealForm)
    ensures DistinctKeys(DealSingles(f) + [PreviewsField(f)])
    ensures forall j :: 0 <= j < |DealSingles(f) + [PreviewsField(f)]| ==>
      (DealSingles(f) + [PreviewsField(f)])[j].key != Name("dealBanner")
  {
  }

  /**
   * A sent deal holds each form key once with its value, the banner files
   * one entry each in pick order, and the preview list once.
   */
  lemma DealPayloadReadsBack(f: DealForm)
    ensures var body := DealBody(f);
      ValuesOf(body, Name("dealBanner")) == Blobs(f.images.files)
      && (forall j :: 0 <= j < |DealSingles(f)| ==> ValuesOf(body, DealSingles(f)[j].key) == [DealSingles(f)[j].value])
      && ValuesOf(body, Name("previewImages")) == [PreviewsField(f).value]
  {
    DealKeysDistinct(f);
    SinglesThenFiles(DealSingles(f), Name("dealBanner"), f.images.files, [PreviewsField(f)]);
  }

  /** The modal: the form, the deal being edited, whether it is open, and the toasts shown. */
  class DealModal {
    var form: DealForm
    var updateData: Option<StoredDeal>
    var isOpen: bool
    var alerts: seq<Alert>

    constructor (isOpen: bool, updateData: Option<StoredDeal>)
      ensures form == EmptyDealForm && this.updateData == updateData && this.isOpen == isOpen && alerts == []
    {
      form, this.updateData, this.isOpen, alerts := EmptyDealForm, updateData, isOpen, [];
    }

    /** The hydration effect: only with a deal to edit and the products loaded; otherwise the form stays. */
    method HydrationEffect(productIds: seq<string>)
      modifies this`form
      ensures updateData.Some? && productIds != [] ==> form == HydratedDeal(updateData.value, productIds)
      ensures updateData.None? || productIds == [] ==> form == old(form)
    {
      if updateData.Some? && productIds != [] {
        form := HydratedDeal(updateData.value, productIds);
      }
    }

    /** `resetForm`: the initial form, and no deal under edit. */
    method ResetForm()
      modifies this`form, this`updateData
      ensures form == EmptyDealForm && updateData == None
    {
      form := EmptyDealForm;
      updateData := None;
    }

    method HandleClose()
      modifies this`form, this`updateData, this`isOpen
      ensures form == EmptyDealForm && updateData == None && !isOpen
    {
      ResetForm();
      isOpen := false;
    }

    method HandleChange(input: DealInput, value: string)
      modifies this`form
      ensures form == SetInput(old(form), input, value)
    {
      form := SetInput(form, input, value);
    }

    /** `handleChange` on the "featured" checkbox. */
    method HandleFeaturedChange(checked: bool)
      modifies this`form
      ensures form == old(form).(isFeatured := checked)
    {
      form := form.(isFeatured := checked);
    }

    /** `handleImageUpload`: nothing when no file is picked; else files and previews grow together. */
    method HandleImageUpload(files: seq<FileId>)
      modifies this`form
      ensures files == [] ==> form == old(form)
      ensures files != [] ==> form == old(form).(images := Appended(old(form.images), files))
      ensures Aligned(old(form.images)) ==> Aligned(form.images)
    {
      if files != [] {
        if Aligned(form.images) {
          AppendedStaysAligned(form.images, files);
        }
        form := form.(images := Appended(form.images, files));
      }
    }

    /**
     * `removeImage` as written: `splice(index, 1)` on both the files and the previews. With no stored image on screen this
     * keeps every preview with its file; after hydration it does not (see
     * `RemovalMisalignsAfterHydration`).
     */
    method RemoveImage(index: int)
      modifies this`form
      ensures form == old(form).(images := SplicedBoth(old(form.images), index))
      ensures Aligned(old(form.images)) && StoredCount(old(form.images)) == 0 && index >= 0 ==> Aligned(form.images)
    {
      if Aligned(form.images) && StoredCount(form.images) == 0 && index >= 0 {
        SplicedFreshStaysAligned(form.images, index);
      }
      form := form.(images := SplicedBoth(form.images, index));
    }

    /** The removal the editor evidently intends: counting past the stored images when it drops a file. */
    method RemoveImageIntended(index: int)
      modifies this`form
      ensures form == old(form).(images := Removed(old(form.images), index))
      ensures Aligned(old(form.images)) ==> Aligned(form.images)
    {
      if Aligned(form.images) {
        RemovedStaysAligned(form.images, index);
      }
      form := form.(images := Removed(form.images, index));
    }

    /** Warns and sends nothing, or sends the body as a create or as an update of the edited deal. */
    method HandleSubmit() returns (request: Option<Request>)
      modifies this`alerts
      ensures var out := SubmitDeal(form, if updateData.Some? then Some(updateData.value.id) else None);
        && (out.Warned? ==> request == None && alerts == old(alerts) + [Warning(out.message)])
        && (out.Dispatched? ==> request == Some(out.request) && alerts == old(alerts))
    {
      var out := SubmitDeal(form, if updateData.Some? then Some(updateData.value.id) else None);
      match out
      case Warned(message) =>
        alerts := alerts + [Warning(message)];
        request := None;
      case Dispatched(r) =>
        var body := DealSingles(form);
        body := AppendFiles(body, Name("dealBanner"), form.images.files);
        body := body + [PreviewsField(form)];
        request := Some(CreateOrUpdate(if updateData.Some? then Some(updateData.value.id) else None, body));
    }
  }
}

/**
 * The "Create/Update Offer" modal: a percentage offer over a date range,
 * with photos.
 */
module CreateOfferForm {
  import opened Options
  import opened Text
  import opened Wire
  import opened Validation
  import opened FormCommon
  import opened PairedImages

  datatype OfferForm = OfferForm(
    title: string, description: string, percentage: Value,
    startDate: string, endDate: string, status: int, images: Paired)

  const EmptyOfferForm := OfferForm("", "", Str(""), "", "", 1, NoImages)

  datatype StoredOffer = StoredOffer(
    id: string, title: Option<string>, description: Option<string>, percentage: Option<real>,
    startDate: Option<string>, endDate: Option<string>, status: Option<int>, offerPhoto: Option<seq<string>>)

  /**
   * The hydration effect's new form: `status || 1` turns a missing or zero
   * status into 1; the stored photos become previews with no file to upload.
   */
  function HydratedOffer(o: StoredOffer): (r: OfferForm)
    ensures r.status == (if o.status.Some? && o.status.value != 0 then o.status.value else 1)
    ensures r.status != 0
    ensures r.title == TextOr(o.title, "") && r.description == TextOr(o.description, "")
    ensures r.percentage == NumOr(o.percentage, Str(""))
    ensures r.startDate == DateInput(o.startDate) && r.endDate == DateInput(o.endDate)
    ensures r.images.files == [] && Aligned(r.images)
    ensures StoredCount(r.images) == if o.offerPhoto.Some? then |o.offerPhoto.value| else 0
  {
    OfferForm(
      TextOr(o.title, ""), TextOr(o.description, ""), NumOr(o.percentage, Str("")),
      DateInput(o.startDate), DateInput(o.endDate),
      if o.status.Some? && o.status.value != 0 then o.status.value else 1,
      Hydrated(if o.offerPhoto.Some? then o.offerPhoto.value else []))
  }

  datatype OfferInput = TitleInput | DescriptionInput | PercentageInput | StartDateInput | EndDateInput

  /** The field an input shows, as a `Value`. */
  function InputValue(f: OfferForm, input: OfferInput): Value {
    match input
    case TitleInput => Str(f.title)
    case DescriptionInput => Str(f.description)
    case PercentageInput => f.percentage
    case StartDateInput => Str(f.startDate)
    case EndDateInput => Str(f.endDate)
  }

  /** `handleChange`: the input's own field takes the text, every other field stays. */
  function SetInput(f: OfferForm, input: OfferInput, value: string): (r: OfferForm)
    ensures InputValue(r, input) == Str(value)
    ensures forall other :: other != input ==> InputValue(r, other) == InputValue(f, other)
    ensures r.images == f.images && r.status == f.status
  {
    match input
    case TitleInput => f.(title := value)
    case DescriptionInput => f.(description := value)
    case PercentageInput => f.(percentage := Str(value))
    case StartDateInput => f.(startDate := value)
    case EndDateInput => f.(endDate := value)
  }

  function OfferChecks(f: OfferForm): seq<Check> {
    [Check(!IsBlank(f.title), "Title is required"),
     Check(Filled(f.percentage), "Discount percentage is required"),
     Check(f.startDate != "", "Start date is required"),
     Check(f.endDate != "", "End date is required")]
  }

  function OfferSingles(f: OfferForm): seq<Field> {
    [Field(Name("title"), Str(f.title)), Field(Name("description"), Str(f.description)),
     Field(Name("percentage"), f.percentage), Field(Name("startDate"), Str(f.startDate)),
     Field(Name("endDate"), Str(f.endDate)), Field(Name("status"), Num(f.status as real))]
  }

  /** The six single entries, then one `offerPhoto` per new file. */
  function OfferBody(f: OfferForm): seq<Field> {
    OfferSingles(f) + Repeated(Name("offerPhoto"), Blobs(f.images.files)) + []
  }

  /** `handleSubmit`: trimmed title, percentage, start date and end date, in that order. */
  function SubmitOffer(f: OfferForm, editing: Option<string>): (r: Outcome<Request>)
    ensures r.Dispatched? <==> !IsBlank(f.title) && Filled(f.percentage) && f.startDate != "" && f.endDate != ""
    ensures IsBlank(f.title) ==> r == Warned("Title is required")
    ensures !IsBlank(f.title) && !Filled(f.percentage) ==> r == Warned("Discount percentage is required")
    ensures !IsBlank(f.title) && Filled(f.percentage) && f.startDate == "" ==> r == Warned("Start date is required")
    ensures !IsBlank(f.title) && Filled(f.percentage) && f.startDate != "" && f.endDate == "" ==>
      r == Warned("End date is required")
    ensures r.Dispatched? ==> r.request == CreateOrUpdate(editing, OfferBody(f))
  {
    var cs := OfferChecks(f);
    var req := CreateOrUpdate(editing, OfferBody(f));
    if IsBlank(f.title) then (FirstFailureIs(cs, 0); Submit(cs, req))
    else if !Filled(f.percentage) then (FirstFailureIs(cs, 1); Submit(cs, req))
    else if f.startDate == "" then (FirstFailureIs(cs, 2); Submit(cs, req))
    else if f.endDate == "" then (FirstFailureIs(cs, 3); Submit(cs, req))
    else Submit(cs, req)
  }

  /** A sent offer holds each of the six fields once, and the new photos in pick order. */
  lemma OfferPayloadReadsBack(f: OfferForm)
    ensures var body := OfferBody(f);
      ValuesOf(body, Name("offerPhoto")) == Blobs(f.images.files)
      && (forall j :: 0 <= j < |OfferSingles(f)| ==> ValuesOf(body, OfferSingles(f)[j].key) == [OfferSingles(f)[j].value])
  {
    var s := OfferSingles(f);
    assert s + [] == s;
    assert DistinctKeys(s + []);
    SinglesThenFiles(s, Name("offerPhoto"), f.images.files, []);
  }

  /** The modal: the form, the offer being edited, whether it is open, and the toasts shown. */
  class OfferModal {
    var form: OfferForm
    var updateData: Option<StoredOffer>
    var isOpen: bool
    var alerts: seq<Alert>

    constructor (isOpen: bool, updateData: Option<StoredOffer>)
      ensures form == EmptyOfferForm && this.updateData == updateData && this.isOpen == isOpen && alerts == []
    {
      form, this.updateData, this.isOpen, alerts := EmptyOfferForm, updateData, isOpen, [];
    }

    /** The hydration effect: the edited offer's form, or a reset when there is none. */
    method HydrationEffect()
      modifies this`form, this`updateData
      ensures old(updateData).Some? ==> form == HydratedOffer(old(updateData).value) && updateData == old(updateData)
      ensures old(updateData).None? ==> form == EmptyOfferForm && updateData == None
    {
      if updateData.Some? {
        form := HydratedOffer(updateData.value);
      } else {
        ResetForm();
      }
    }

    method ResetForm()
      modifies this`form, this`updateData
      ensures form == EmptyOfferForm && updateData == None
    {
      form := EmptyOfferForm;
      updateData := None;
    }

    method HandleClose()
      modifies this`form, this`updateData, this`isOpen
      ensures form == EmptyOfferForm && updateData == None && !isOpen
    {
      ResetForm();
      isOpen := false;
    }

    method HandleChange(input: OfferInput, value: string)
      modifies this`form
      ensures form == SetInput(old(form), input, value)
    {
      form := SetInput(form, input, value);
    }

    method HandleStatusToggle()
      modifies this`form
      ensures form == old(form).(status := ToggleOneTwo(old(form.status)))
    {
      form := form.(status := ToggleOneTwo(form.status));
    }

    method HandleImageUpload(files: seq<FileId>)
      modifies this`form
      ensures files == [] ==> form == old(form)
      ensures files != [] ==> form == old(form).(images := Appended(old(form.images), files))
      ensures Aligned(old(form.images)) ==> Aligned(form.images)
    {
      if files != [] {
        if Aligned(form.images) {
          AppendedStaysAligned(form.images, files);
        }
        form := form.(images := Appended(form.images, files));
      }
    }

    /**
     * `removeImage` as written: `splice(index, 1)` on both the files and the previews. With no stored image on screen this
     * keeps every preview with its file; after hydration it does not (see
     * `RemovalMisalignsAfterHydration`).
     */
    method RemoveImage(index: int)
      modifies this`form
      ensures form == old(form).(images := SplicedBoth(old(form.images), index))
      ensures Aligned(old(form.images)) && StoredCount(old(form.images)) == 0 && index >= 0 ==> Aligned(form.images)
    {
      if Aligned(form.images) && StoredCount(form.images) == 0 && index >= 0 {
        SplicedFreshStaysAligned(form.images, index);
      }
      form := form.(images := SplicedBoth(form.images, index));
    }

    /** The removal the editor evidently intends: counting past the stored images when it drops a file. */
    method RemoveImageIntended(index: int)
      modifies this`form
      ensures form == old(form).(images := Removed(old(form.images), index))
      ensures Aligned(old(form.images)) ==> Aligned(form.images)
    {
      if Aligned(form.images) {
        RemovedStaysAligned(form.images, index);
      }
      form := form.(images := Removed(form.images, index));
    }

    /** The edited offer is updated by its `_id`. */
    method HandleSubmit() returns (request: Option<Request>)
      modifies this`alerts
      ensures var out := SubmitOffer(form, if updateData.Some? then Some(updateData.value.id) else None);
        && (out.Warned? ==> request == None && alerts == old(alerts) + [Warning(out.message)])
        && (out.Dispatched? ==> request == Some(out.request) && alerts == old(alerts))
    {
      var out := SubmitOffer(form, if updateData.Some? then Some(updateData.value.id) else None);
      match out
      case Warned(message) =>
        alerts := alerts + [Warning(message)];
        request := None;
      case Dispatched(_) =>
        var body := AppendFiles(OfferSingles(form), Name("offerPhoto"), form.images.files);
        assert body + [] == body;
        request := Some(CreateOrUpdate(if updateData.Some? then Some(updateData.value.id) else None, body));
    }
  }
}
