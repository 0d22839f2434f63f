/**
 * The "Add/Update Parent Category" modal: the slug follows the name as it
 * is typed, and the picked images are sent as `categoryImage` entries.
 */
module CreateParentCategoryForm {
  import opened Options
  import opened Text
  import opened Wire
  import opened Validation
  import opened FormCommon
  import opened PairedImages

  datatype CategoryForm = CategoryForm(
    name: string, slug: string, description: string, categoryImage: seq<FileId>, imagePreview: seq<Preview>)

  const EmptyCategoryForm := CategoryForm("", "", "", [], [])

  datatype StoredCategory = StoredCategory(
    id: string, name: Option<string>, slug: Option<string>, description: Option<string>, image: Option<string>)

  /** The hydration effect's new form: the stored texts, the stored image as the preview, and no file. */
  function HydratedCategory(c: StoredCategory): (r: CategoryForm)
    ensures r.name == TextOr(c.name, "") && r.slug == TextOr(c.slug, "") && r.description == TextOr(c.description, "")
    ensures r.categoryImage == []
    ensures r.imagePreview == if c.image.Some? && c.image.value != "" then [Remote(c.image.value)] else []
  {
    CategoryForm(TextOr(c.name, ""), TextOr(c.slug, ""), TextOr(c.description, ""), [],
      if c.image.Some? && c.image.value != "" then [Remote(c.image.value)] else [])
  }

  /**
   * `replace(/\s+/g, "-")`: each run of white space becomes one dash, and
   * every other character is kept.
   */
  function DashRuns(s: string): (r: string)
    ensures |r| <= |s|
    ensures forall k :: 0 <= k < |r| ==> !IsSpace(r[k])
    ensures forall k :: 0 <= k < |r| ==> r[k] == '-' || r[k] in s
    decreases |s|
  {
    if s == [] then []
    else if IsSpace(s[0]) then
      var rest := TrimStart(s[1..]);
      assert forall c :: c in rest ==> c in s;
      "-" + DashRuns(rest)
    else
      assert forall c :: c in s[1..] ==> c in s;
      [s[0]] + DashRuns(s[1..])
  }

  /** A text with no white space has no run to replace. */
  lemma {:induction false} DashRunsKeepsWord(s: string)
    requires forall k :: 0 <= k < |s| ==> !IsSpace(s[k])
    ensures DashRuns(s) == s
  {
    if s != [] {
      DashRunsKeepsWord(s[1..]);
    }
  }

  /** `s` has no white space in it: a word. */
  predicate NoSpace(s: string) {
    forall k :: 0 <= k < |s| ==> !IsSpace(s[k])
  }

  /** `s` is empty or starts with a character that is not white space. */
  predicate StartsWord(s: string) {
    s == [] || !IsSpace(s[0])
  }

  /** Skipping a whole run of white space lands on the text after it. */
  lemma {:induction false} TrimStartRun(sp: string, t: string)
    requires IsBlank(sp) && StartsWord(t)
    ensures TrimStart(sp + t) == t
  {
    if sp != [] {
      assert (sp + t)[1..] == sp[1..] + t;
      TrimStartRun(sp[1..], t);
    } else {
      assert sp + t == t;
    }
  }

  /**
   * Every string is a word, then possibly a maximal run of white space and
   * the rest: the word is kept, the whole run becomes one dash, and the rest
   * is handled the same way. With `DashRunsKeepsWord` this pins `DashRuns`
   * down on every input.
   */
  lemma {:induction false} DashRunsWordThenRun(w: string, sp: string, t: string)
    requires NoSpace(w) && sp != [] && IsBlank(sp) && StartsWord(t)
    ensures DashRuns(w + sp + t) == w + "-" + DashRuns(t)
  {
    if w == [] {
      assert w + sp + t == sp + t;
      DashRunsRun(sp, t);
    } else {
      ConsAppend(w, sp, t);
      DashRunsKeepsHead(w[0], w[1..] + sp + t);
      DashRunsWordThenRun(w[1..], sp, t);
      ConsAppend(w, "-", DashRuns(t));
    }
  }

  /** A whole run of white space in front of a word becomes one dash. */
  lemma DashRunsRun(sp: string, t: string)
    requires sp != [] && IsBlank(sp) && StartsWord(t)
    ensures DashRuns(sp + t) == "-" + DashRuns(t)
  {
    assert (sp + t)[0] == sp[0];
    assert (sp + t)[1..] == sp[1..] + t;
    TrimStartRun(sp[1..], t);
  }

  /** `w + a + b` split after the first character of `w`. */
  lemma ConsAppend(w: string, a: string, b: string)
    requires w != []
    ensures w + a + b == [w[0]] + (w[1..] + a + b)
  {
    assert w == [w[0]] + w[1..];
  }

  /** A first character that is not white space is kept, and the rest is handled alone. */
  lemma DashRunsKeepsHead(c: char, u: string)
    requires !IsSpace(c)
    ensures DashRuns([c] + u) == [c] + DashRuns(u)
  {
    assert ([c] + u)[0] == c && ([c] + u)[1..] == u;
  }

  /** The slug `handleChange` derives from a typed name. */
  function Slug(name: string): (r: string)
    ensures |r| <= |name|
    ensures forall k :: 0 <= k < |r| ==> !IsSpace(r[k]) && LowerChar(r[k]) == r[k]
  {
    var lowered := ToLower(name);
    var r := DashRuns(lowered);
    assert forall k :: 0 <= k < |r| ==> r[k] == '-' || r[k] in lowered;
    r
  }

  /** A name without white space gives its own lower case; a slug is its own slug. */
  lemma SlugOfSlug(name: string)
    ensures (forall k :: 0 <= k < |name| ==> !IsSpace(name[k])) ==> Slug(name) == ToLower(name)
    ensures Slug(Slug(name)) == Slug(name)
  {
    var lowered := ToLower(name);
    if forall k :: 0 <= k < |name| ==> !IsSpace(name[k]) {
      DashRunsKeepsWord(lowered);
    }
    var s := Slug(name);
    assert ToLower(s) == s;
    DashRunsKeepsWord(s);
  }

  /**
   * The slug of a word, a run of white space and the rest is the word in
   * lower case, one dash, and the slug of the rest; with `SlugOfSlug` (a word
   * is its own lower case) this says what the slug of any name is.
   */
  lemma SlugWordThenRun(w: string, sp: string, t: string)
    requires NoSpace(w) && sp != [] && IsBlank(sp) && StartsWord(t)
    ensures Slug(w + sp + t) == ToLower(w) + "-" + Slug(t)
  {
    assert ToLower(w + sp + t) == ToLower(w) + ToLower(sp) + ToLower(t);
    assert ToLower(sp) == sp;
    DashRunsWordThenRun(ToLower(w), sp, ToLower(t));
  }

  datatype CategoryInput = NameInput | DescriptionInput

  function CategorySingles(f: CategoryForm): seq<Field> {
    [Field(Name("name"), Str(f.name)), Field(Name("slug"), Str(f.slug)), Field(Name("description"), Str(f.description))]
  }

  /** The payload: name, slug and description, then one `categoryImage` per picked file. */
  function CategoryBody(f: CategoryForm): seq<Field> {
    CategorySingles(f) + Repeated(Name("categoryImage"), Blobs(f.categoryImage)) + []
  }

  /** `handleSubmit`: only an empty name is refused; a name of spaces is sent. */
  function SubmitCategory(f: CategoryForm, editing: Option<string>): (r: Outcome<Request>)
    ensures r.Warned? <==> f.name == ""
    ensures r.Warned? ==> r.message == "Name is required"
    ensures r.Dispatched? ==> r.request == CreateOrUpdate(editing, CategoryBody(f))
  {
    Submit([Check(f.name != "", "Name is required")], CreateOrUpdate(editing, CategoryBody(f)))
  }

  lemma CategoryPayloadReadsBack(f: CategoryForm)
    ensures var body := CategoryBody(f);
      ValuesOf(body, Name("categoryImage")) == Blobs(f.categoryImage)
      && ValuesOf(body, Name("name")) == [Str(f.name)]
      && ValuesOf(body, Name("slug")) == [Str(f.slug)]
      && ValuesOf(body, Name("description")) == [Str(f.description)]
  {
    var s := CategorySingles(f);
    assert s + [] == s;
    assert DistinctKeys(s + []);
    SinglesThenFiles(s, Name("categoryImage"), f.categoryImage, []);
    assert s[0].key == Name("name") && s[1].key == Name("slug") && s[2].key == Name("description");
  }

  class CategoryModal {
    var form: CategoryForm
    var updateData: Option<StoredCategory>
    var isOpen: bool
    var alerts: seq<Alert>

    constructor (isOpen: bool, updateData: Option<StoredCategory>)
      ensures form == EmptyCategoryForm && this.updateData == updateData && this.isOpen == isOpen && alerts == []
    {
      form, this.updateData, this.isOpen, alerts := EmptyCategoryForm, updateData, isOpen, [];
    }

    method HydrationEffect()
      modifies this`form
      ensures updateData.Some? ==> form == HydratedCategory(updateData.value)
      ensures updateData.None? ==> form == EmptyCategoryForm
    {
      if updateData.Some? {
        form := HydratedCategory(updateData.value);
      } else {
        form := EmptyCategoryForm;
      }
    }

    /** Typing a name rewrites the slug from it; the description is kept as typed. */
    method HandleChange(input: CategoryInput, value: string)
      modifies this`form
      ensures input == NameInput ==> form == old(form).(name := value, slug := Slug(value))
      ensures input == DescriptionInput ==> form == old(form).(description := value)
    {
      match input
      case NameInput => form := form.(name := value, slug := Slug(value));
      case DescriptionInput => form := form.(description := value);
    }

    /** `handleFileChange`: the new selection replaces the files and their previews. */
    method HandleFileChange(files: seq<FileId>)
      modifies this`form
      ensures form == old(form).(categoryImage := files, imagePreview := ObjectUrls(files))
    {
      form := form.(categoryImage := files, imagePreview := ObjectUrls(files));
    }

    method HandleSubmit() returns (out: Outcome<Request>)
      modifies this`alerts
      ensures out == SubmitCategory(form, if updateData.Some? then Some(updateData.value.id) else None)
      ensures out.Warned? ==> alerts == old(alerts) + [Warning("Name is required")]
      ensures out.Dispatched? ==> alerts == old(alerts)
    {
      out := SubmitCategory(form, if updateData.Some? then Some(updateData.value.id) else None);
      if out.Warned? {
        alerts := alerts + [Warning(out.message)];
      }
    }

    /** The popup's own close button only hides it. */
    method Close()
      modifies this`isOpen
      ensures !isOpen
    {
      isOpen := false;
    }

    /** Cancel also drops the record under edit. */
    method Cancel()
      modifies this`isOpen, this`updateData
      ensures !isOpen && updateData == None
    {
      updateData := None;
      isOpen := false;
    }
  }
}

/**
 * The "Add/Update Subcategory" modal: a name, a parent category, a
 * description, an active status and one image.
 */
module CreateSubCategoryForm {
  import opened Options
  import opened Wire
  import opened Validation
  import opened FormCommon

  datatype SubForm = SubForm(
    name: string, description: string, category: string, subCategory: Option<FileId>,
    imagePreview: Option<Preview>, status: int)

  const EmptySubForm := SubForm("", "", "", None, None, 1)

  datatype StoredSub = StoredSub(
    slug: string, name: Option<string>, description: Option<string>, categoryId: Option<string>,
    image: Option<string>, status: Option<int>)

  /** The hydration effect's new form: `status ?? 1` keeps a stored 0. */
  function HydratedSub(d: StoredSub): (r: SubForm)
    ensures r.name == TextOr(d.name, "") && r.description == TextOr(d.description, "")
    ensures r.category == TextOr(d.categoryId, "") && r.subCategory.None?
    ensures r.imagePreview == if d.image.Some? && d.image.value != "" then Some(Remote(d.image.value)) else None
    ensures d.status.Some? ==> r.status == d.status.value
    ensures d.status.None? ==> r.status == 1
  {
    SubForm(TextOr(d.name, ""), TextOr(d.description, ""), TextOr(d.categoryId, ""), None,
      if d.image.Some? && d.image.value != "" then Some(Remote(d.image.value)) else None,
      if d.status.Some? then d.status.value else 1)
  }

  datatype SubInput = NameInput | CategoryInput | DescriptionInput

  function SubChecks(f: SubForm): seq<Check> {
    [Check(f.name != "", "Name is required"), Check(f.category != "", "Parent category is required")]
  }

  /** The payload: name, description, category and status, then the image only when one was picked. */
  function SubBody(f: SubForm): seq<Field> {
    [Field(Name("name"), Str(f.name)), Field(Name("description"), Str(f.description)),
     Field(Name("category"), Str(f.category)), Field(Name("status"), Num(f.status as real))]
    + (if f.subCategory.Some? then [Field(Name("subCategory"), Blob(f.subCategory.value))] else [])
  }

  /** `handleSubmit`: the name, then the parent category, must be non-empty (untrimmed). */
  function SubmitSub(f: SubForm, editing: Option<string>): (r: Outcome<Request>)
    ensures r.Dispatched? <==> f.name != "" && f.category != ""
    ensures f.name == "" ==> r == Warned("Name is required")
    ensures f.name != "" && f.category == "" ==> r == Warned("Parent category is required")
    ensures r.Dispatched? ==> r.request == CreateOrUpdate(editing, SubBody(f))
  {
    var cs := SubChecks(f);
    if f.name == "" then
      FirstFailureIs(cs, 0);
      Submit(cs, CreateOrUpdate(editing, SubBody(f)))
    else if f.category == "" then
      FirstFailureIs(cs, 1);
      Submit(cs, CreateOrUpdate(editing, SubBody(f)))
    else
      Submit(cs, CreateOrUpdate(editing, SubBody(f)))
  }

  /** The image entry is sent exactly when a file was picked, and the status always. */
  lemma SubPayloadReadsBack(f: SubForm)
    ensures ValuesOf(SubBody(f), Name("subCategory")) == if f.subCategory.Some? then [Blob(f.subCategory.value)] else []
    ensures ValuesOf(SubBody(f), Name("status")) == [Num(f.status as real)]
    ensures ValuesOf(SubBody(f), Name("category")) == [Str(f.category)]
  {
    var s := SubBody(f)[..4];
    var extra := SubBody(f)[4..];
    assert SubBody(f) == s + extra;
    ValuesOfConcat(s, extra, Name("subCategory"));
    ValuesOfConcat(s, extra, Name("status"));
    ValuesOfConcat(s, extra, Name("category"));
    ValuesOfAbsent(s, Name("subCategory"));
    if f.subCategory.Some? {
      ValuesOfSingle(extra[0], Name("subCategory"));
      ValuesOfSingle(extra[0], Name("status"));
      ValuesOfSingle(extra[0], Name("category"));
      assert extra == [extra[0]];
    } else {
      assert extra == [];
    }
    assert s == [s[0], s[1], s[2]] + [s[3]];
    ValuesOfConcat([s[0], s[1], s[2]], [s[3]], Name("status"));
    ValuesOfConcat([s[0], s[1], s[2]], [s[3]], Name("category"));
    ValuesOfThreeSingles(s[0], s[1], s[2], Name("status"));
    ValuesOfThreeSingles(s[0], s[1], s[2], Name("category"));
    ValuesOfSingle(s[3], Name("status"));
    ValuesOfSingle(s[3], Name("category"));
  }

  /** Three entries read under one name. */
  lemma ValuesOfThreeSingles(a: Field, b: Field, c: Field, k: Key)
    ensures ValuesOf([a, b, c], k) == ValuesOf([a], k) + ValuesOf([b], k) + ValuesOf([c], k)
  {
    assert [a, b, c] == [a] + [b] + [c];
    ValuesOfThree([a], [b], [c], k);
  }

  class SubCategoryModal {
    var form: SubForm
    var updateData: Option<StoredSub>
    var isOpen: bool
    var alerts: seq<Alert>

    constructor (isOpen: bool, updateData: Option<StoredSub>)
      ensures form == EmptySubForm && this.updateData == updateData && this.isOpen == isOpen && alerts == []
    {
      form, this.updateData, this.isOpen, alerts := EmptySubForm, updateData, isOpen, [];
    }

    method HydrationEffect()
      modifies this`form
      ensures updateData.Some? ==> form == HydratedSub(updateData.value)
      ensures updateData.None? ==> form == EmptySubForm
    {
      if updateData.Some? {
        form := HydratedSub(updateData.value);
      } else {
        form := EmptySubForm;
      }
    }

    method HandleChange(input: SubInput, value: string)
      modifies this`form
      ensures input == NameInput ==> form == old(form).(name := value)
      ensures input == CategoryInput ==> form == old(form).(category := value)
      ensures input == DescriptionInput ==> form == old(form).(description := value)
    {
      match input
      case NameInput => form := form.(name := value);
      case CategoryInput => form := form.(category := value);
      case DescriptionInput => form := form.(description := value);
    }

    method HandleStatusToggle()
      modifies this`form
      ensures form == old(form).(status := ToggleOneZero(old(form.status)))
    {
      form := form.(status := ToggleOneZero(form.status));
    }

    /** `handleImageChange`: the first picked file, if any, with its preview. */
    method HandleImageChange(files: seq<FileId>)
      modifies this`form
      ensures files == [] ==> form == old(form)
      ensures files != [] ==> form == old(form).(subCategory := Some(files[0]), imagePreview := Some(ObjectUrl(files[0])))
    {
      match FirstFile(files)
      case None =>
      case Some(file) => form := form.(subCategory := Some(file), imagePreview := Some(ObjectUrl(file)));
    }

    /** The preview's remove button drops the picked file and the preview. */
    method RemoveImage()
      modifies this`form
      ensures form == old(form).(subCategory := None, imagePreview := None)
    {
      form := form.(subCategory := None, imagePreview := None);
    }

    /** An edit is sent under the record's slug. */
    method HandleSubmit() returns (out: Outcome<Request>)
      modifies this`alerts
      ensures out == SubmitSub(form, if updateData.Some? then Some(updateData.value.slug) else None)
      ensures out.Warned? ==> alerts == old(alerts) + [Warning(out.message)]
      ensures out.Dispatched? ==> alerts == old(alerts)
    {
      out := SubmitSub(form, if updateData.Some? then Some(updateData.value.slug) else None);
      if out.Warned? {
        alerts := alerts + [Warning(out.message)];
      }
    }

    method HandleClose()
      modifies this`form, this`updateData, this`isOpen
      ensures form == EmptySubForm && updateData == None && !isOpen
    {
      isOpen := false;
      form := EmptySubForm;
      updateData := None;
    }
  }
}

/**
 * The "Create/Update Brand" modal: a name, a description, a status and a
 * logo. The status is sent as its decimal text.
 */
module CreateBrandForm {
  import opened Options
  import opened Text
  import opened Wire
  import opened Validation
  import opened AsyncOp
  import opened FormCommon

  datatype BrandForm = BrandForm(
    name: string, description: string, status: int, brandLogo: Option<FileId>, previewBrandLogo: Option<Preview>)

  const EmptyBrandForm := BrandForm("", "", 1, None, None)

  datatype StoredBrand = StoredBrand(
    slug: string, name: Option<string>, description: Option<string>, status: Option<int>,
    logo: Option<string>, brandLogo: Option<string>)

  /** The hydration effect's new form: a stored status is kept, even 0; the preview is `logo || brandLogo`. */
  function HydratedBrand(b: StoredBrand): (r: BrandForm)
    ensures r.name == TextOr(b.name, "") && r.description == TextOr(b.description, "")
    ensures r.status == if b.status.Some? then b.status.value else 1
    ensures r.brandLogo.None?
    ensures Truthy(b.logo) ==> r.previewBrandLogo == Some(Remote(b.logo.value))
    ensures !Truthy(b.logo) && Truthy(b.brandLogo) ==> r.previewBrandLogo == Some(Remote(b.brandLogo.value))
    ensures !Truthy(b.logo) && !Truthy(b.brandLogo) ==> r.previewBrandLogo.None?
  {
    BrandForm(TextOr(b.name, ""), TextOr(b.description, ""), if b.status.Some? then b.status.value else 1, None,
      if Truthy(b.logo) then Some(Remote(b.logo.value))
      else if Truthy(b.brandLogo) then Some(Remote(b.brandLogo.value))
      else None)
  }

  function DigitChar(d: int): char
    requires 0 <= d < 10
  {
    ('0' as int + d) as char
  }

  /** The decimal digits of `n`, with no leading zero. */
  function NatText(n: nat): (r: string)
    ensures r != [] && forall k :: 0 <= k < |r| ==> '0' <= r[k] <= '9'
    ensures |r| > 1 ==> r[0] != '0'
    decreases n
  {
    if n < 10 then [DigitChar(n)] else NatText(n / 10) + [DigitChar(n % 10)]
  }

  /** The number a string of decimal digits denotes, read left to right. */
  function NatValue(s: string): int {
    if s == [] then 0 else NatValue(s[..|s| - 1]) * 10 + (s[|s| - 1] as int - '0' as int)
  }

  lemma {:induction false} NatTextReadsBack(n: nat)
    ensures NatValue(NatText(n)) == n
  {
    if n >= 10 {
      var t := NatText(n);
      assert t[..|t| - 1] == NatText(n / 10);
      NatTextReadsBack(n / 10);
    }
  }

  /** `String(status)`. */
  function StatusText(status: int): (r: string)
    ensures r != []
    ensures r[0] == '-' <==> status < 0
    ensures status >= 0 ==> NatValue(r) == status
    ensures status < 0 ==> NatValue(r[1..]) == -status
  {
    NatTextReadsBack(if status < 0 then -status else status);
    if status < 0 then "-" + NatText(-status) else NatText(status)
  }

  /** Different statuses are sent as different texts; a toggled status as "0" or "1". */
  lemma StatusTextDistinguishes(a: int, b: int)
    ensures StatusText(a) == StatusText(b) ==> a == b
    ensures StatusText(0) == "0" && StatusText(1) == "1"
  {
    if StatusText(a) == StatusText(b) && a < 0 {
      assert StatusText(a)[1..] == StatusText(b)[1..];
    }
  }

  datatype BrandInput = NameInput | DescriptionInput

  /** The logo field is the only image the handlers act on. */
  datatype ImageField = BrandLogoField | CoverImageField

  function BrandChecks(f: BrandForm): seq<Check> {
    [Check(!IsBlank(f.name), "Name is required"), Check(!IsBlank(f.description), "Description is required")]
  }

  /**
   * The payload: name and description as typed, the status text, then the
   * logo when one was picked. Unlike the sub-category and type-value bodies,
   * which append the number and leave `FormData` to turn it into text (`Num`),
   * this handler converts it itself with `String(form.status)`, so the entry
   * is kept as that string.
   */
  function BrandBody(f: BrandForm): seq<Field> {
    [Field(Name("name"), Str(f.name)), Field(Name("description"), Str(f.description)),
     Field(Name("status"), Str(StatusText(f.status)))]
    + (if f.brandLogo.Some? then [Field(Name("brandLogo"), Blob(f.brandLogo.value))] else [])
  }

  /** `handleSubmit`: the name, then the description, must hold more than white space. */
  function SubmitBrand(f: BrandForm, editing: Option<string>): (r: Outcome<Request>)
    ensures r.Dispatched? <==> !IsBlank(f.name) && !IsBlank(f.description)
    ensures IsBlank(f.name) ==> r == Warned("Name is required")
    ensures !IsBlank(f.name) && IsBlank(f.description) ==> r == Warned("Description is required")
    ensures r.Dispatched? ==> r.request == CreateOrUpdate(editing, BrandBody(f))
  {
    var cs := BrandChecks(f);
    if IsBlank(f.name) then
      FirstFailureIs(cs, 0);
      Submit(cs, CreateOrUpdate(editing, BrandBody(f)))
    else if IsBlank(f.description) then
      FirstFailureIs(cs, 1);
      Submit(cs, CreateOrUpdate(editing, BrandBody(f)))
    else
      Submit(cs, CreateOrUpdate(editing, BrandBody(f)))
  }

  /** The logo entry is sent exactly when a logo was picked; the status as its text. */
  lemma BrandPayloadReadsBack(f: BrandForm)
    ensures ValuesOf(BrandBody(f), Name("brandLogo")) == if f.brandLogo.Some? then [Blob(f.brandLogo.value)] else []
    ensures ValuesOf(BrandBody(f), Name("status")) == [Str(StatusText(f.status))]
  {
    var body := BrandBody(f);
    var s := body[..3];
    var extra := body[3..];
    assert body == s + extra;
    ValuesOfConcat(s, extra, Name("brandLogo"));
    ValuesOfConcat(s, extra, Name("status"));
    ValuesOfAbsent(s, Name("brandLogo"));
    if f.brandLogo.Some? {
      ValuesOfSingle(extra[0], Name("brandLogo"));
      ValuesOfSingle(extra[0], Name("status"));
      assert extra == [extra[0]];
    } else {
      assert extra == [];
    }
    assert s == [s[0], s[1]] + [s[2]];
    ValuesOfConcat([s[0], s[1]], [s[2]], Name("status"));
    ValuesOfAbsent([s[0], s[1]], Name("status"));
    ValuesOfSingle(s[2], Name("status"));
  }

  class BrandModal {
    var form: BrandForm
    var updateData: Option<StoredBrand>
    var isOpen: bool
    var alerts: seq<Alert>

    constructor (isOpen: bool, updateData: Option<StoredBrand>)
      ensures form == EmptyBrandForm && this.updateData == updateData && this.isOpen == isOpen && alerts == []
    {
      form, this.updateData, this.isOpen, alerts := EmptyBrandForm, updateData, isOpen, [];
    }

    /** `resetForm`: the initial form, and no brand under edit. */
    method ResetForm()
      modifies this`form, this`updateData
      ensures form == EmptyBrandForm && updateData == None
    {
      form := EmptyBrandForm;
      updateData := None;
    }

    method HydrationEffect()
      modifies this`form, this`updateData
      ensures old(updateData).Some? ==> form == HydratedBrand(old(updateData).value) && updateData == old(updateData)
      ensures old(updateData).None? ==> form == EmptyBrandForm && updateData == None
    {
      if updateData.Some? {
        form := HydratedBrand(updateData.value);
      } else {
        ResetForm();
      }
    }

    method HandleClose()
      modifies this`form, this`updateData, this`isOpen
      ensures form == EmptyBrandForm && updateData == None && !isOpen
    {
      isOpen := false;
      ResetForm();
    }

    method HandleChange(input: BrandInput, value: string)
      modifies this`form
      ensures input == NameInput ==> form == old(form).(name := value)
      ensures input == DescriptionInput ==> form == old(form).(description := value)
    {
      match input
      case NameInput => form := form.(name := value);
      case DescriptionInput => form := form.(description := value);
    }

    method HandleStatusToggle()
      modifies this`form
      ensures form == old(form).(status := ToggleOneZero(old(form.status)))
    {
      form := form.(status := ToggleOneZero(form.status));
    }

    /** `handleFileChange`: the first picked file becomes the logo; nothing else changes anything. */
    method HandleFileChange(files: seq<FileId>, field: ImageField)
      modifies this`form
      ensures files != [] && field == BrandLogoField ==>
        form == old(form).(brandLogo := Some(files[0]), previewBrandLogo := Some(ObjectUrl(files[0])))
      ensures files == [] || field != BrandLogoField ==> form == old(form)
    {
      match FirstFile(files)
      case None =>
      case Some(file) =>
        if field == BrandLogoField {
          form := form.(brandLogo := Some(file), previewBrandLogo := Some(ObjectUrl(file)));
        }
    }

    method RemovePreview(field: ImageField)
      modifies this`form
      ensures field == BrandLogoField ==> form == old(form).(brandLogo := None, previewBrandLogo := None)
      ensures field != BrandLogoField ==> form == old(form)
    {
      if field == BrandLogoField {
        form := form.(brandLogo := None, previewBrandLogo := None);
      }
    }

    /** An edit is sent under the brand's slug. */
    method HandleSubmit() returns (out: Outcome<Request>)
      modifies this`alerts
      ensures out == SubmitBrand(form, if updateData.Some? then Some(updateData.value.slug) else None)
      ensures out.Warned? ==> alerts == old(alerts) + [Warning(out.message)]
      ensures out.Dispatched? ==> alerts == old(alerts)
    {
      out := SubmitBrand(form, if updateData.Some? then Some(updateData.value.slug) else None);
      if out.Warned? {
        alerts := alerts + [Warning(out.message)];
      }
    }
  }
}

/**
 * How the editors default a stored status: the offer editor's `status || 1`
 * turns a stored 0 into 1, while the sub-category (`?? 1`) and brand
 * (`typeof … !== "undefined"`) editors keep it.
 */
module StatusDefaults {
  import opened Options
  import CreateOfferForm
  import CreateSubCategoryForm
  import CreateBrandForm

  lemma InactiveStatusSurvivesEditing(o: CreateOfferForm.StoredOffer, s: CreateSubCategoryForm.StoredSub, b: CreateBrandForm.StoredBrand)
    requires o.status == Some(0) && s.status == Some(0) && b.status == Some(0)
    ensures CreateOfferForm.HydratedOffer(o).status == 1
    ensures CreateSubCategoryForm.HydratedSub(s).status == 0
    ensures CreateBrandForm.HydratedBrand(b).status == 0
  {
  }
}
