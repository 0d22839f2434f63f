/**
 * The "Add/Update Banner" modal: a header, a colour, an active flag and
 * banner images, sent with no validation.
 */
module CreateBannerForm {
  import opened Options
  import opened Wire
  import opened FormCommon
  import opened PairedImages

  datatype BannerForm = BannerForm(header: string, colourCode: string, images: Paired, isActive: bool)

  /** The form a new banner starts from. */
  const EmptyBannerForm := BannerForm("", "#ffffff", NoImages, true)

  /** The form closing leaves behind: the same, except that the colour is emptied rather than white. */
  const ClosedBannerForm := BannerForm("", "", NoImages, true)

  /** The stored `bannerImage`: absent, one URL, or an array of URLs. */
  datatype StoredImages = NoImage | OneImage(url: string) | ManyImages(urls: seq<string>)

  datatype StoredBanner = StoredBanner(
    id: string, header: Option<string>, colourCode: Option<string>,
    bannerImage: StoredImages, isActive: Option<bool>)

  /** `bannerImage ? (Array.isArray(bannerImage) ? bannerImage : [bannerImage]) : []`. */
  function StoredUrls(b: StoredImages): (r: seq<string>)
    ensures b.ManyImages? ==> r == b.urls
    ensures b.OneImage? && b.url != "" ==> r == [b.url]
    ensures b.NoImage? || (b.OneImage? && b.url == "") ==> r == []
  {
    match b
    case NoImage => []
    case OneImage(url) => if url == "" then [] else [url]
    case ManyImages(urls) => urls
  }

  /**
   * The hydration effect's new form: header and colour default to "" and
   * white, `isActive ?? true` keeps a stored `false`, and the stored images
   * become previews with no file to upload.
   */
  function HydratedBanner(b: StoredBanner): (r: BannerForm)
    ensures r.header == TextOr(b.header, "") && r.colourCode == TextOr(b.colourCode, "#ffffff")
    ensures r.isActive <==> b.isActive != Some(false)
    ensures r.images.files == [] && Aligned(r.images) && StoredCount(r.images) == |StoredUrls(b.bannerImage)|
  {
    BannerForm(TextOr(b.header, ""), TextOr(b.colourCode, "#ffffff"),
      Hydrated(StoredUrls(b.bannerImage)), if b.isActive.Some? then b.isActive.value else true)
  }

  /**
   * The inputs wired to `handleChange`: the header text, the colour text
   * (`name="colourCode"`) and the colour picker, whose `name="colorCode"`
   * is not a field the modal ever reads.
   */
  datatype BannerInput = HeaderInput | ColourInput | PickerInput

  /** The colour the picker's swatch shows: `colourCode || "#ffffff"`. */
  function Swatch(f: BannerForm): (r: string)
    ensures f.colourCode != "" ==> r == f.colourCode
    ensures f.colourCode == "" ==> r == "#ffffff"
  {
    if f.colourCode != "" then f.colourCode else "#ffffff"
  }

  /**
   * `handleChange` as written: the input's `name` is the key it sets. The
   * picker sets the stray key `colorCode`, which neither the swatch nor the
   * submit reads, so the form the modal uses stays as it was.
   */
  function WithInput(f: BannerForm, input: BannerInput, value: string): (r: BannerForm)
    ensures input == HeaderInput ==> r.header == value
    ensures input == ColourInput ==> r.colourCode == value
    ensures input != HeaderInput ==> r.header == f.header
    ensures input != ColourInput ==> r.colourCode == f.colourCode
    ensures r.images == f.images && r.isActive == f.isActive
  {
    match input
    case HeaderInput => f.(header := value)
    case ColourInput => f.(colourCode := value)
    case PickerInput => f
  }

  /** The picker as evidently intended: it sets the colour the text input and the submit use. */
  function WithInputIntended(f: BannerForm, input: BannerInput, value: string): (r: BannerForm)
    ensures input == HeaderInput ==> r.header == value && r.colourCode == f.colourCode
    ensures input != HeaderInput ==> r.colourCode == value && r.header == f.header
    ensures r.images == f.images && r.isActive == f.isActive
  {
    match input
    case HeaderInput => f.(header := value)
    case ColourInput | PickerInput => f.(colourCode := value)
  }

  function BannerSingles(f: BannerForm): seq<Field> {
    [Field(Name("header"), Str(f.header)), Field(Name("isActive"), Flag(f.isActive)),
     Field(Name("colourCode"), Str(f.colourCode))]
  }

  /** `handleSubmit`: header, isActive and colourCode, then one `bannerImage` per new file. */
  function BannerBody(f: BannerForm): seq<Field> {
    BannerSingles(f) + Repeated(Name("bannerImage"), Blobs(f.images.files)) + []
  }

  /** Every banner form is sent: there is no check before the request. */
  lemma BannerPayloadReadsBack(f: BannerForm)
    ensures var body := BannerBody(f);
      ValuesOf(body, Name("bannerImage")) == Blobs(f.images.files)
      && ValuesOf(body, Name("header")) == [Str(f.header)]
      && ValuesOf(body, Name("isActive")) == [Flag(f.isActive)]
      && ValuesOf(body, Name("colourCode")) == [Str(f.colourCode)]
  {
    var s := BannerSingles(f);
    assert s + [] == s;
    assert DistinctKeys(s + []);
    SinglesThenFiles(s, Name("bannerImage"), f.images.files, []);
    assert s[0].key == Name("header") && s[1].key == Name("isActive") && s[2].key == Name("colourCode");
  }

  /**
   * As written, picking a colour changes neither what is sent nor what the
   * swatch shows: on a new banner the swatch stays white after picking red,
   * and white is what is sent.
   */
  lemma PickedColourIsLost(f: BannerForm, value: string)
    ensures BannerBody(WithInput(f, PickerInput, value)) == BannerBody(f)
    ensures Swatch(WithInput(f, PickerInput, value)) == Swatch(f)
    ensures var g := WithInput(EmptyBannerForm, PickerInput, "#ff0000");
      Swatch(g) == "#ffffff" && ValuesOf(BannerBody(g), Name("colourCode")) == [Str("#ffffff")]
  {
    BannerPayloadReadsBack(EmptyBannerForm);
  }

  /** With the picker writing `colourCode`, a picked colour is shown and sent. */
  lemma PickedColourIsSent(f: BannerForm, value: string)
    requires value != ""
    ensures var g := WithInputIntended(f, PickerInput, value);
      Swatch(g) == value && ValuesOf(BannerBody(g), Name("colourCode")) == [Str(value)]
  {
    BannerPayloadReadsBack(WithInputIntended(f, PickerInput, value));
  }

  class BannerModal {
    var form: BannerForm
    var updateData: Option<StoredBanner>
    var isOpen: bool

    constructor (isOpen: bool, updateData: Option<StoredBanner>)
      ensures form == EmptyBannerForm && this.updateData == updateData && this.isOpen == isOpen
    {
      form, this.updateData, this.isOpen := EmptyBannerForm, updateData, isOpen;
    }

    /** The hydration effect, run when the edited banner changes: its form, or the initial one. */
    method HydrationEffect()
      modifies this`form
      ensures updateData.Some? ==> form == HydratedBanner(updateData.value)
      ensures updateData.None? ==> form == EmptyBannerForm
    {
      if updateData.Some? {
        form := HydratedBanner(updateData.value);
      } else {
        form := EmptyBannerForm;
      }
    }

    /** `handleChange` as written; a picked colour leaves the form as it was (see `PickedColourIsLost`). */
    method HandleChange(input: BannerInput, value: string)
      modifies this`form
      ensures form == WithInput(old(form), input, value)
      ensures input == HeaderInput ==> form == old(form).(header := value)
      ensures input == ColourInput ==> form == old(form).(colourCode := value)
      ensures input == PickerInput ==> form == old(form)
    {
      match input
      case HeaderInput => form := form.(header := value);
      case ColourInput => form := form.(colourCode := value);
      case PickerInput =>
    }

    method HandleStatusToggle()
      modifies this`form
      ensures form == old(form).(isActive := !old(form.isActive))
    {
      form := form.(isActive := !form.isActive);
    }

    /** `handleImageChange`: files and previews grow together. */
    method HandleImageChange(files: seq<FileId>)
      modifies this`form
      ensures form == old(form).(images := Appended(old(form.images), files))
      ensures Aligned(old(form.images)) ==> Aligned(form.images)
    {
      if Aligned(form.images) {
        AppendedStaysAligned(form.images, files);
      }
      form := form.(images := Appended(form.images, files));
    }

    /**
     * `removeImage` as written: the same position filtered out of the files and the previews. With no stored image on screen this
     * keeps every preview with its file; after hydration it does not (see
     * `RemovalMisalignsAfterHydration`).
     */
    method RemoveImage(index: int)
      modifies this`form
      ensures form == old(form).(images := FilteredBoth(old(form.images), index))
      ensures Aligned(old(form.images)) && StoredCount(old(form.images)) == 0 && index >= 0 ==> Aligned(form.images)
    {
      if Aligned(form.images) && StoredCount(form.images) == 0 && index >= 0 {
        FreshListsStayAligned(form.images, index);
      }
      form := form.(images := FilteredBoth(form.images, index));
    }

    /** The removal the editor evidently intends: counting past the stored images when it drops a file. */
    method RemoveImageIntended(index: int)
      modifies this`form
      ensures form == old(form).(images := Removed(old(form.images), index))
      ensures Aligned(old(form.images)) ==> Aligned(form.images)
    {
      if Aligned(form.images) {
        RemovedStaysAligned(form.images, index);
      }
      form := form.(images := Removed(form.images, index));
    }

    /** Always sends: an update of the edited banner by its `_id`, or a create. */
    method HandleSubmit() returns (request: Request)
      ensures request == CreateOrUpdate(if updateData.Some? then Some(updateData.value.id) else None, BannerBody(form))
    {
      var body := AppendFiles(BannerSingles(form), Name("bannerImage"), form.images.files);
      assert body + [] == body;
      request := CreateOrUpdate(if updateData.Some? then Some(updateData.value.id) else None, body);
    }

    method HandleClose()
      modifies this`form, this`updateData, this`isOpen
      ensures form == ClosedBannerForm && updateData == None && !isOpen
    {
      isOpen := false;
      form := ClosedBannerForm;
      updateData := None;
    }
  }
}

/**
 * The "Create/Update Ad Banner" modal: a date range, an active flag and the
 * ad images. When an ad is edited, its `adImage` field holds the stored URL
 * (a string, or nothing) instead of a list of files.
 */
module CreateAdBannerForm {
  import opened Options
  import opened Wire
  import opened Seqs
  import opened Validation
  import opened FormCommon
  import opened PairedImages

  /** `adImage`: the stored URL of the edited ad, or the files picked in this form. */
  datatype AdImages = StoredAd(url: Option<string>) | PickedAds(files: seq<FileId>)

  datatype AdForm = AdForm(adImage: AdImages, startDate: string, endDate: string, previews: seq<Preview>, isActive: bool)

  const EmptyAdForm := AdForm(PickedAds([]), "", "", [], true)

  datatype StoredAdBanner = StoredAdBanner(
    id: string, adImage: Option<string>, startDate: Option<string>, endDate: Option<string>, status: Option<int>)

  /**
   * The hydration effect's new form: the stored URL as `adImage` and, when
   * it is not empty, as the one preview; active exactly when the stored
   * status is 1. `formatDate` is a helper that is not part of this model.
   */
  function HydratedAd(d: StoredAdBanner, formatDate: Option<string> -> string): (r: AdForm)
    ensures r.adImage == StoredAd(d.adImage)
    ensures r.previews == (if d.adImage.Some? && d.adImage.value != "" then [Remote(d.adImage.value)] else [])
    ensures r.isActive <==> d.status == Some(1)
    ensures r.startDate == formatDate(d.startDate) && r.endDate == formatDate(d.endDate)
  {
    AdForm(StoredAd(d.adImage), formatDate(d.startDate), formatDate(d.endDate),
      if d.adImage.Some? && d.adImage.value != "" then [Remote(d.adImage.value)] else [],
      d.status == Some(1))
  }

  /** The previews show exactly the picked files, in order. */
  predicate ShowsPicks(f: AdForm) {
    f.adImage.PickedAds? && Aligned(Paired(f.adImage.files, f.previews)) && |f.adImage.files| == |f.previews|
  }

  /** `handleFileChange`: the new selection replaces both the files and the previews. */
  function WithFiles(f: AdForm, files: seq<FileId>): (r: AdForm)
    ensures r.adImage == PickedAds(files) && r.startDate == f.startDate && r.endDate == f.endDate
    ensures r.isActive == f.isActive
    ensures ShowsPicks(r)
  {
    var r := f.(adImage := PickedAds(files), previews := ObjectUrls(files));
    assert StoredCount(Paired(files, ObjectUrls(files))) == 0;
    r
  }

  /** What `removeImage` does: the lists without position `index`, or a `TypeError` on a stored URL, which has no `filter`. */
  datatype Removal = RemovedAd(form: AdForm) | RemoveThrew

  function RemoveAdImage(f: AdForm, index: int): (r: Removal)
    ensures f.adImage.StoredAd? <==> r.RemoveThrew?
    ensures r.RemovedAd? ==> r.form == f.(adImage := PickedAds(RemoveAt(f.adImage.files, index)), previews := RemoveAt(f.previews, index))
    ensures r.RemovedAd? && ShowsPicks(f) ==> ShowsPicks(r.form)
  {
    match f.adImage
    case StoredAd(_) => RemoveThrew
    case PickedAds(files) =>
      var r := RemovedAd(f.(adImage := PickedAds(RemoveAt(files, index)), previews := RemoveAt(f.previews, index)));
      if ShowsPicks(f) then (FreshListsStayAligned(Paired(files, f.previews), index); r) else r
  }

  /** What `handleSubmit` does: an error toast, a request, or a `TypeError` thrown before any request. */
  datatype AdSubmit = AdRefused(message: string) | AdSent(request: Request) | AdThrew

  function AdSingles(f: AdForm): seq<Field> {
    [Field(Name("startDate"), Str(f.startDate)), Field(Name("endDate"), Str(f.endDate)),
     Field(Name("status"), Num(if f.isActive then 1.0 else 0.0))]
  }

  /**
   * `handleSubmit`. Both dates are required; a new ad also needs a picked
   * file, and sends one `adImage` entry per file. An edited ad appends its
   * `adImage` once when it is truthy: the stored URL, or the picked list as
   * one value (its text, so no file is uploaded). Reading `length` of a
   * missing `adImage`, or calling `forEach` on a stored URL, throws.
   */
  function SubmitAd(f: AdForm, editing: Option<string>): (r: AdSubmit)
    ensures f.startDate == "" || f.endDate == "" ==> r == AdRefused("Please fill all required fields")
    ensures f.startDate != "" && f.endDate != "" && editing.None? && f.adImage == PickedAds([]) ==>
      r == AdRefused("Please upload at least one image")
    ensures r.AdSent? && editing.None? ==>
      f.adImage.PickedAds? && f.adImage.files != []
      && r.request == Create(AdSingles(f) + Repeated(Name("adImage"), Blobs(f.adImage.files)))
    ensures (editing.None? && f.startDate != "" && f.endDate != ""
             && f.adImage.PickedAds? && f.adImage.files != [])
      ==> r.AdSent?
    ensures (editing.None? && f.startDate != "" && f.endDate != "" && f.adImage.StoredAd?)
      ==> r == if f.adImage.url == Some("") then AdRefused("Please upload at least one image") else AdThrew
    ensures r.AdSent? && editing.Some? ==> r.request.Update? && r.request.id == editing.value
    ensures r.AdSent? && editing.Some? ==> r.request == Update(editing.value, AdSingles(f) + UpdateImage(f.adImage))
    ensures editing.Some? && f.startDate != "" && f.endDate != "" ==> r.AdSent?
    ensures r.AdThrew? ==> editing.None? && f.adImage.StoredAd?
  {
    if f.startDate == "" || f.endDate == "" then AdRefused("Please fill all required fields")
    else match editing
      case None =>
        (match f.adImage
         case StoredAd(None) => AdThrew
         case StoredAd(Some(u)) => if u == "" then AdRefused("Please upload at least one image") else AdThrew
         case PickedAds(files) =>
           if files == [] then AdRefused("Please upload at least one image")
           else AdSent(Create(AdSingles(f) + Repeated(Name("adImage"), Blobs(files)))))
      case Some(id) => AdSent(Update(id, AdSingles(f) + UpdateImage(f.adImage)))
  }

  /**
   * The image part of an update: the stored URL when there is one, or the
   * picked list appended as one value, never as files.
   */
  function UpdateImage(img: AdImages): seq<Field> {
    match img
    case StoredAd(u) => if u.Some? && u.value != "" then [Field(Name("adImage"), Str(u.value))] else []
    case PickedAds(files) => [Field(Name("adImage"), Listed(Blobs(files)))]
  }

  /**
   * Files picked while editing an ad are never uploaded: an update carries
   * at most one `adImage` entry, and no entry of it is a file.
   */
  lemma UpdateUploadsNoFile(f: AdForm, id: string)
    requires SubmitAd(f, Some(id)).AdSent?
    ensures var body := SubmitAd(f, Some(id)).request.body;
      (forall j :: 0 <= j < |body| ==> !body[j].value.Blob?)
      && |ValuesOf(body, Name("adImage"))| <= 1
      && (f.adImage.PickedAds? ==> ValuesOf(body, Name("adImage")) == [Listed(Blobs(f.adImage.files))])
  {
    var s := AdSingles(f);
    var extra := UpdateImage(f.adImage);
    assert SubmitAd(f, Some(id)).request.body == s + extra;
    ValuesOfConcat(s, extra, Name("adImage"));
    ValuesOfAbsent(s, Name("adImage"));
    if extra != [] {
      assert extra == [extra[0]];
      ValuesOfSingle(extra[0], Name("adImage"));
    } else {
      assert ValuesOf(extra, Name("adImage")) == [];
    }
  }

  /** A new ad sends every picked file, in pick order, under `adImage`. */
  lemma CreateUploadsEveryFile(f: AdForm)
    requires SubmitAd(f, None).AdSent?
    ensures ValuesOf(SubmitAd(f, None).request.body, Name("adImage")) == Blobs(f.adImage.files)
  {
    var s := AdSingles(f);
    assert s + [] == s;
    assert DistinctKeys(s + []);
    SinglesThenFiles(s, Name("adImage"), f.adImage.files, []);
    assert SubmitAd(f, None).request.body == s + Repeated(Name("adImage"), Blobs(f.adImage.files)) + [];
  }

  class AdBannerModal {
    var form: AdForm
    var updateData: Option<StoredAdBanner>
    var isOpen: bool
    var alerts: seq<Alert>
    const formatDate: Option<string> -> string

    constructor (isOpen: bool, updateData: Option<StoredAdBanner>, formatDate: Option<string> -> string)
      ensures form == EmptyAdForm && this.updateData == updateData && this.isOpen == isOpen && alerts == []
      ensures this.formatDate == formatDate
    {
      form, this.updateData, this.isOpen, alerts := EmptyAdForm, updateData, isOpen, [];
      this.formatDate := formatDate;
    }

    /** The hydration effect: only when an ad is being edited. */
    method HydrationEffect()
      modifies this`form
      ensures updateData.Some? ==> form == HydratedAd(updateData.value, formatDate)
      ensures updateData.None? ==> form == old(form)
    {
      if updateData.Some? {
        form := HydratedAd(updateData.value, formatDate);
      }
    }

    method ResetForm()
      modifies this`form
      ensures form == EmptyAdForm
    {
      form := EmptyAdForm;
    }

    /** The popup's close: closed, reset, and no ad under edit. */
    method Close()
      modifies this`form, this`updateData, this`isOpen
      ensures form == EmptyAdForm && updateData == None && !isOpen
    {
      isOpen := false;
      ResetForm();
      updateData := None;
    }

    method HandleFileChange(files: seq<FileId>)
      modifies this`form
      ensures form == WithFiles(old(form), files)
    {
      form := WithFiles(form, files);
    }

    /** `handleChange` on a date input. */
    method HandleDateChange(isStart: bool, value: string)
      modifies this`form
      ensures isStart ==> form == old(form).(startDate := value)
      ensures !isStart ==> form == old(form).(endDate := value)
    {
      if isStart {
        form := form.(startDate := value);
      } else {
        form := form.(endDate := value);
      }
    }

    /** `handleChange` on the active checkbox. */
    method HandleActiveChange(checked: bool)
      modifies this`form
      ensures form == old(form).(isActive := checked)
    {
      form := form.(isActive := checked);
    }

    /** Removing an image; `threw` when the handler throws, which leaves the form as it was. */
    method RemoveImage(index: int) returns (threw: bool)
      modifies this`form
      ensures threw <==> RemoveAdImage(old(form), index).RemoveThrew?
      ensures threw ==> form == old(form)
      ensures !threw ==> form == RemoveAdImage(old(form), index).form
    {
      match RemoveAdImage(form, index)
      case RemoveThrew => threw := true;
      case RemovedAd(f) =>
        threw := false;
        form := f;
    }

    method HandleSubmit() returns (out: AdSubmit)
      modifies this`alerts
      ensures out == SubmitAd(form, if updateData.Some? then Some(updateData.value.id) else None)
      ensures out.AdRefused? ==> alerts == old(alerts) + [Failure(out.message)]
      ensures !out.AdRefused? ==> alerts == old(alerts)
    {
      out := SubmitAd(form, if updateData.Some? then Some(updateData.value.id) else None);
      if out.AdRefused? {
        alerts := alerts + [Failure(out.message)];
      }
    }
  }
}
