/**
 * The values the product editor works on: the product draft, its variants,
 * the "add variant" draft, the attribute values offered for a variant type,
 * and the pure rules its handlers apply to them.
 */
module ProductDraft {
  import opened Options
  import opened Text
  import opened Seqs
  import opened Wire
  import opened Validation
  import ColorName

  /** An image slot: a URL already stored on the server, or a `File` picked in this session. */
  datatype Img = Persisted(url: string) | Staged(file: FileId)

  /**
   * One variant row. `name` holds the attribute value (the hydrated `type`),
   * `variantName` the variant's own name; `typeRef` and `typeNameId` are kept
   * but never sent.
   */
  datatype Variant = Variant(
    variantId: string, variantName: string, name: string, typeRef: string, typeNameId: string,
    price: string, offerPrice: string, stock: string, weight: string, images: seq<Img>)

  /** The `form` state; numeric inputs hold the text typed into them. */
  datatype Draft = Draft(
    name: string, description: string, price: string, offerPrice: string, weight: string,
    stock: string, category: string, brand: string, tags: seq<string>, images: seq<Img>,
    isBestSeller: bool, isNewArrival: bool, variants: seq<Variant>, metaTitle: string,
    metaDescription: string, keywords: seq<string>, canonicalTag: string, slug: string)

  const EmptyDraft := Draft("", "", "", "", "", "", "", "", [], [], false, false, [], "", "", [], "", "")

  /** The `variantInput` state: the variant being composed; its images are all freshly picked. */
  datatype VariantInput = VariantInput(
    variantName: string, name: string, price: string, offerPrice: string, stock: string,
    images: seq<FileId>, typeId: string, weight: string, typeNameId: string)

  const EmptyVariantInput := VariantInput("", "", "", "", "", [], "", "", "")

  /** The stored URLs of a list of slots, in order (`filter(img => typeof img === "string")`). */
  function PersistedUrls(imgs: seq<Img>): (r: seq<string>)
    ensures |r| <= |imgs|
  {
    if imgs == [] then []
    else PersistedUrls(imgs[..|imgs| - 1]) + (if imgs[|imgs| - 1].Persisted? then [imgs[|imgs| - 1].url] else [])
  }

  /** The picked files of a list of slots, in order (`filter(img => img instanceof File)`). */
  function StagedFiles(imgs: seq<Img>): (r: seq<FileId>)
    ensures |r| <= |imgs|
  {
    if imgs == [] then []
    else StagedFiles(imgs[..|imgs| - 1]) + (if imgs[|imgs| - 1].Staged? then [imgs[|imgs| - 1].file] else [])
  }

  function PersistedImgs(urls: seq<string>): (r: seq<Img>)
    ensures |r| == |urls| && forall k :: 0 <= k < |urls| ==> r[k] == Persisted(urls[k])
  {
    seq(|urls|, k requires 0 <= k < |urls| => Persisted(urls[k]))
  }

  function StagedImgs(files: seq<FileId>): (r: seq<Img>)
    ensures |r| == |files| && forall k :: 0 <= k < |files| ==> r[k] == Staged(files[k])
  {
    seq(|files|, k requires 0 <= k < |files| => Staged(files[k]))
  }

  /** Splitting a list of slots by kind distributes over concatenation. */
  lemma {:induction false} SlotsConcat(a: seq<Img>, b: seq<Img>)
    ensures PersistedUrls(a + b) == PersistedUrls(a) + PersistedUrls(b)
    ensures StagedFiles(a + b) == StagedFiles(a) + StagedFiles(b)
  {
    if b != [] {
      assert (a + b)[..|a + b| - 1] == a + b[..|b| - 1];
      SlotsConcat(a, b[..|b| - 1]);
    } else {
      assert a + b == a;
    }
  }

  lemma {:induction false} PersistedImgsSlots(urls: seq<string>)
    ensures PersistedUrls(PersistedImgs(urls)) == urls && StagedFiles(PersistedImgs(urls)) == []
  {
    if urls != [] {
      var n := |urls| - 1;
      assert PersistedImgs(urls)[..n] == PersistedImgs(urls[..n]);
      PersistedImgsSlots(urls[..n]);
      assert urls == urls[..n] + [urls[n]];
    }
  }

  lemma {:induction false} StagedImgsSlots(files: seq<FileId>)
    ensures StagedFiles(StagedImgs(files)) == files && PersistedUrls(StagedImgs(files)) == []
  {
    if files != [] {
      var n := |files| - 1;
      assert StagedImgs(files)[..n] == StagedImgs(files[..n]);
      StagedImgsSlots(files[..n]);
      assert files == files[..n] + [files[n]];
    }
  }

  /** The image cap every upload box of the editor enforces on freshly picked files. */
  const MaxImages := 5

  /**
   * Adding picked files to an image list (main images, or those of an
   * existing variant): the stored URLs stay, in order, in front; the files
   * picked earlier are dropped; of the new files only the first
   * `5 - earlier count` are kept.
   */
  function AddStaged(images: seq<Img>, files: seq<FileId>): (r: seq<Img>)
    ensures PersistedUrls(r) == PersistedUrls(images)
    ensures StagedFiles(r) == Take(files, MaxImages - |StagedFiles(images)|)
    ensures forall i, j :: 0 <= i < j < |r| && r[i].Staged? ==> r[j].Staged?
    ensures |StagedFiles(images)| <= MaxImages ==> |StagedFiles(r)| <= MaxImages
  {
    var kept := PersistedImgs(PersistedUrls(images));
    var added := StagedImgs(Take(files, MaxImages - |StagedFiles(images)|));
    AddStagedParts(kept, added, PersistedUrls(images), Take(files, MaxImages - |StagedFiles(images)|));
    kept + added
  }

  lemma AddStagedParts(kept: seq<Img>, added: seq<Img>, urls: seq<string>, files: seq<FileId>)
    requires kept == PersistedImgs(urls) && added == StagedImgs(files)
    ensures PersistedUrls(kept + added) == urls && StagedFiles(kept + added) == files
    ensures forall i, j :: 0 <= i < j < |kept + added| && (kept + added)[i].Staged? ==> (kept + added)[j].Staged?
  {
    SlotsConcat(kept, added);
    PersistedImgsSlots(urls);
    StagedImgsSlots(files);
    StoredBeforePicked(kept, added, urls, files);
  }

  lemma StoredBeforePicked(kept: seq<Img>, added: seq<Img>, urls: seq<string>, files: seq<FileId>)
    requires kept == PersistedImgs(urls) && added == StagedImgs(files)
    ensures forall i, j :: 0 <= i < j < |kept + added| && (kept + added)[i].Staged? ==> (kept + added)[j].Staged?
  {
    var r := kept + added;
    assert forall i :: 0 <= i < |kept| ==> r[i] == kept[i] && r[i].Persisted?;
    assert forall j :: |kept| <= j < |r| ==> r[j] == added[j - |kept|] && r[j].Staged?;
  }

  /** The "Only N more images allowed." warning fires exactly when some picked files were cut. */
  function CapWarning(current: nat, files: seq<FileId>): (r: Option<int>)
    ensures r.Some? <==> |Take(files, MaxImages - current)| < |files|
    ensures r.Some? ==> r.value == MaxImages - current
  {
    if |Take(files, MaxImages - current)| < |files| then Some(MaxImages - current) else None
  }

  /** Keywords that are trimmed, non-empty and pairwise distinct. */
  predicate CleanKeywords(ks: seq<string>) {
    NoDup(ks) && forall k :: 0 <= k < |ks| ==> ks[k] != "" && Trim(ks[k]) == ks[k]
  }

  /**
   * `handleAddKeyword`: the trimmed input is appended when it is not blank
   * and not already a keyword; otherwise nothing is added.
   */
  function AddKeyword(keywords: seq<string>, input: string): (r: Option<seq<string>>)
    ensures r.Some? <==> !IsBlank(input) && Trim(input) !in keywords
    ensures r.Some? ==> r.value == keywords + [Trim(input)]
  {
    var k := Trim(input);
    if k != "" && k !in keywords then Some(keywords + [k]) else None
  }

  /** A trimmed, non-empty, new keyword at the end keeps a clean list clean. */
  lemma SnocKeepsKeywordsClean(keywords: seq<string>, k: string)
    requires CleanKeywords(keywords) && k != "" && Trim(k) == k && k !in keywords
    ensures CleanKeywords(keywords + [k])
  {
    var ks := keywords + [k];
    forall i | 0 <= i < |ks| ensures ks[i] != "" && Trim(ks[i]) == ks[i] {
      if i < |keywords| { assert ks[i] == keywords[i]; } else { assert ks[i] == k; }
    }
    forall i, j | 0 <= i < j < |ks| ensures ks[i] != ks[j] {
      assert ks[i] == keywords[i];
      if j == |keywords| { assert ks[j] == k; } else { assert ks[j] == keywords[j]; }
    }
  }

  /** Adding a keyword keeps the list clean: trimmed, non-empty, no repeats. */
  lemma AddKeepsKeywordsClean(keywords: seq<string>, input: string)
    requires CleanKeywords(keywords)
    ensures AddKeyword(keywords, input).Some? ==> CleanKeywords(AddKeyword(keywords, input).value)
  {
    var k := Trim(input);
    if k != "" && k !in keywords {
      TrimIdempotent(input);
      SnocKeepsKeywordsClean(keywords, k);
    }
  }

  /** Removing a keyword keeps the list clean. */
  lemma RemoveKeepsKeywordsClean(keywords: seq<string>, gone: string)
    requires CleanKeywords(keywords)
    ensures CleanKeywords(Without(keywords, gone))
  {
    var w := Without(keywords, gone);
    forall k | 0 <= k < |w| ensures w[k] != "" && Trim(w[k]) == w[k] {
      assert w[k] in keywords;
      var j :| 0 <= j < |keywords| && keywords[j] == w[k];
    }
  }

  /** Adding a keyword and removing it again gives back the list it started from. */
  lemma AddThenRemoveKeyword(keywords: seq<string>, input: string)
    requires AddKeyword(keywords, input).Some?
    ensures Without(AddKeyword(keywords, input).value, Trim(input)) == keywords
  {
    var k := Trim(input);
    assert AddKeyword(keywords, input).value == keywords + [k];
    FilterConcat(keywords, [k], v => v != k);
    WithoutAbsent(keywords, k);
  }

  /** One attribute value of a variant type, as the store lists it; absent parts are `""`. */
  datatype TypeName = TypeName(id: string, name: string, colorCode: string, unit: string)

  function TypeNameId(tn: TypeName): string { tn.id }

  /** The result of choosing in the value dropdown. */
  datatype ValueChoice = OpenCreatePanel | Chosen(typeNameId: string, name: string) | Ignored

  /**
   * `handleTypeNameSelect`: "add-new" opens the panel; a listed id is taken
   * together with its name; any other value changes nothing.
   */
  function ChooseValue(value: string, typeNames: seq<TypeName>): (r: ValueChoice)
    ensures value == "add-new" ==> r == OpenCreatePanel
    ensures value != "add-new" && (forall j :: 0 <= j < |typeNames| ==> typeNames[j].id != value) ==> r == Ignored
    ensures r.Chosen? ==> r.typeNameId == value && exists j :: FirstWithKey(typeNames, TypeNameId, value, j) && typeNames[j].name == r.name
  {
    if value == "add-new" then OpenCreatePanel
    else match Find(typeNames, TypeNameId, value)
      case Some(tn) => Chosen(value, tn.name)
      case None => Ignored
  }

  /** An entry of the "create value" request. */
  datatype NameEntry = NameEntry(name: string, colorCode: string, unit: string)

  datatype TypeNamePayload = TypeNamePayload(typeId: string, names: seq<NameEntry>)

  /** How the panel treats the selected type, read off its `displayType`. */
  datatype ValueKind = ColourValue | UnitValue | PlainValue

  function KindOf(displayType: Option<string>): (k: ValueKind)
    ensures k == ColourValue <==> displayType == Some("color")
    ensures k == UnitValue <==> displayType == Some("unit")
  {
    if displayType == Some("color") then ColourValue
    else if displayType == Some("unit") then UnitValue
    else PlainValue
  }

  /**
   * `handleCreateTypeName` up to the dispatch. The kind is read off the
   * selected type's `displayType`. A colour type sends its
   * trimmed hex code as both name and colour code; a unit type needs a name
   * and a unit; any other type needs a name.
   */
  function CreateValueRequest(kind: ValueKind, typeId: string, value: string, colorCode: string, unit: string)
    : (r: Outcome<TypeNamePayload>)
    ensures kind.ColourValue? ==>
      r == Dispatched(TypeNamePayload(typeId, [NameEntry(Trim(colorCode), Trim(colorCode), "")]))
    ensures !kind.ColourValue? && IsBlank(value) ==> r == Warned("Name is required!")
    ensures kind.UnitValue? && !IsBlank(value) && IsBlank(unit) ==> r == Warned("Unit is required!")
    ensures kind.UnitValue? && !IsBlank(value) && !IsBlank(unit) ==>
      r == Dispatched(TypeNamePayload(typeId, [NameEntry(Trim(value), "", Trim(unit))]))
    ensures kind.PlainValue? && !IsBlank(value) ==>
      r == Dispatched(TypeNamePayload(typeId, [NameEntry(Trim(value), "", "")]))
    ensures !kind.ColourValue? && r.Dispatched? ==>
      r.request.typeId == typeId && |r.request.names| == 1 && r.request.names[0].colorCode == ""
      && r.request.names[0].name == Trim(value) && r.request.names[0].name != ""
      && (kind.UnitValue? <==> r.request.names[0].unit != "")
      && r.request.names[0].unit == (if kind.UnitValue? then Trim(unit) else "")
  {
    match kind
    case ColourValue => Dispatched(TypeNamePayload(typeId, [NameEntry(Trim(colorCode), Trim(colorCode), "")]))
    case UnitValue =>
      if IsBlank(value) then Warned("Name is required!")
      else if IsBlank(unit) then Warned("Unit is required!")
      else Dispatched(TypeNamePayload(typeId, [NameEntry(Trim(value), "", Trim(unit))]))
    case PlainValue =>
      if IsBlank(value) then Warned("Name is required!")
      else Dispatched(TypeNamePayload(typeId, [NameEntry(Trim(value), "", "")]))
  }

  /**
   * `handleAddVariant` up to the state update: type, value and a non-blank
   * price are required, checked in that order; the new row takes the trimmed
   * variant name, or the value name when that is blank.
   */
  function NewVariant(vi: VariantInput): (r: Outcome<Variant>)
    ensures vi.typeId == "" ==> r == Warned("Please select a variant type!")
    ensures vi.typeId != "" && vi.typeNameId == "" ==> r == Warned("Please select or create a variant value!")
    ensures vi.typeId != "" && vi.typeNameId != "" && IsBlank(vi.price) ==> r == Warned("Price is required!")
    ensures r.Dispatched? <==> vi.typeId != "" && vi.typeNameId != "" && !IsBlank(vi.price)
    ensures r.Dispatched? ==>
      && r.request.variantName == (if IsBlank(vi.variantName) then vi.name else Trim(vi.variantName))
      && r.request.name == vi.name && r.request.typeRef == vi.typeId && r.request.typeNameId == vi.typeNameId
      && r.request.price == vi.price && r.request.offerPrice == vi.offerPrice
      && r.request.stock == vi.stock && r.request.weight == vi.weight
      && r.request.variantId == ""
      && StagedFiles(r.request.images) == vi.images && PersistedUrls(r.request.images) == []
  {
    var checks := [
      Check(vi.typeId != "", "Please select a variant type!"),
      Check(vi.typeNameId != "", "Please select or create a variant value!"),
      Check(!IsBlank(vi.price), "Price is required!")
    ];
    StagedImgsSlots(vi.images);
    if !checks[0].passes then
      FirstFailureIs(checks, 0);
      Warned(checks[0].message)
    else if !checks[1].passes then
      FirstFailureIs(checks, 1);
      Warned(checks[1].message)
    else if !checks[2].passes then
      FirstFailureIs(checks, 2);
      Warned(checks[2].message)
    else
      var trimmed := Trim(vi.variantName);
      Submit(checks, Variant("", if trimmed != "" then trimmed else vi.name, vi.name, vi.typeId, vi.typeNameId,
        vi.price, vi.offerPrice, vi.stock, vi.weight, StagedImgs(vi.images)))
  }

  /** `/^#[0-9A-F]{6}$/i.test(s)`. */
  predicate IsHexColor(s: string) {
    |s| == 7 && s[0] == '#' && forall k :: 1 <= k < 7 ==> ColorName.IsHexDigit(s[k])
  }

  /** How one value is shown in the value dropdown: colour swatch or not, and the text. */
  datatype OptionView = OptionView(isColor: bool, color: Option<string>, text: string)

  /** `` `${name} ${unit ? `(${unit})` : ''}`.trim() `` */
  function OptionText(tn: TypeName): string {
    Trim(tn.name + " " + (if tn.unit != "" then "(" + tn.unit + ")" else ""))
  }

  /**
   * The option label: a value is a colour when it has a colour code, or when
   * it has no unit and its trimmed name is a six-digit hex code; colours get a
   * bullet in front.
   */
  function OptionLabel(tn: TypeName): (r: OptionView)
    ensures r.isColor <==> tn.colorCode != "" || (tn.unit == "" && IsHexColor(Trim(tn.name)))
    ensures r.color.Some? <==> r.isColor
    ensures tn.colorCode != "" ==> r.color == Some(tn.colorCode)
    ensures r.isColor ==> r.text == "● " + OptionText(tn)
    ensures !r.isColor ==> r.text == OptionText(tn)
  {
    var isColor := tn.colorCode != "" || (tn.unit == "" && IsHexColor(Trim(tn.name)));
    var color := if tn.colorCode != "" then Some(tn.colorCode) else if isColor then Some(Trim(tn.name)) else None;
    OptionView(isColor, color, if isColor then "● " + OptionText(tn) else OptionText(tn))
  }

  /** The entry a created value is stored as, once the store lists it under `id`. */
  function Listed(id: string, e: NameEntry): TypeName {
    TypeName(id, e.name, e.colorCode, e.unit)
  }

  /** A colour entry whose name is its own trimmed code shows that code with a bullet. */
  lemma ColourEntryLabel(id: string, c: string)
    requires c != "" && Trim(c) == c
    ensures OptionLabel(TypeName(id, c, c, "")) == OptionView(true, Some(c), "● " + c)
  {
    TrimDropsTrailingSpace(c);
    assert c + " " + "" == c + " ";
  }

  /** A unit entry shows "name (unit)" when both parts are trimmed and present. */
  lemma UnitEntryLabel(id: string, n: string, u: string)
    requires n != "" && Trim(n) == n && u != ""
    ensures OptionLabel(TypeName(id, n, "", u)) == OptionView(false, None, n + " (" + u + ")")
  {
    var s := n + " " + ("(" + u + ")");
    assert s[0] == n[0] && s[|s| - 1] == ')';
    TrimNoOp(s);
    assert s == n + " (" + u + ")";
  }

  /** A colour created in the panel is listed with a bullet and its own code as swatch and text. */
  lemma CreatedColourLabel(typeId: string, value: string, colorCode: string, unit: string, id: string)
    requires !IsBlank(colorCode)
    ensures var e := CreateValueRequest(ColourValue, typeId, value, colorCode, unit).request.names[0];
      OptionLabel(Listed(id, e)) == OptionView(true, Some(e.colorCode), "● " + e.name)
  {
    var c := Trim(colorCode);
    BlankIffAllSpace(colorCode);
    TrimIdempotent(colorCode);
    assert CreateValueRequest(ColourValue, typeId, value, colorCode, unit).request.names[0] == NameEntry(c, c, "");
    ColourEntryLabel(id, c);
  }

  /** A value created for a unit type is listed as "name (unit)", with no swatch. */
  lemma CreatedUnitLabel(typeId: string, value: string, colorCode: string, unit: string, id: string)
    requires CreateValueRequest(UnitValue, typeId, value, colorCode, unit).Dispatched?
    ensures var e := CreateValueRequest(UnitValue, typeId, value, colorCode, unit).request.names[0];
      OptionLabel(Listed(id, e)) == OptionView(false, None, e.name + " (" + e.unit + ")")
  {
    var n := Trim(value);
    var u := Trim(unit);
    assert CreateValueRequest(UnitValue, typeId, value, colorCode, unit).request.names[0] == NameEntry(n, "", u);
    TrimIdempotent(value);
    UnitEntryLabel(id, n, u);
  }

  /** A value created for any other type is listed under its trimmed name. */
  lemma CreatedPlainLabel(typeId: string, value: string, colorCode: string, unit: string, id: string)
    requires CreateValueRequest(PlainValue, typeId, value, colorCode, unit).Dispatched?
    ensures var e := CreateValueRequest(PlainValue, typeId, value, colorCode, unit).request.names[0];
      OptionText(Listed(id, e)) == e.name
  {
    var n := Trim(value);
    var e := CreateValueRequest(PlainValue, typeId, value, colorCode, unit).request.names[0];
    assert e == NameEntry(n, "", "");
    var tn := Listed(id, e);
    assert tn.name + " " + (if tn.unit != "" then "(" + tn.unit + ")" else "") == n + " ";
    TrimIdempotent(value);
    TrimDropsTrailingSpace(n);
  }

  /** Where the stored product keeps its keywords: an array, a comma-separated string, or something else. */
  datatype StoredKeywords = KeywordArray(list: seq<string>) | KeywordText(text: string) | NoKeywords

  function TrimAll(parts: seq<string>): (r: seq<string>)
    ensures |r| == |parts| && forall k :: 0 <= k < |parts| ==> r[k] == Trim(parts[k])
  {
    seq(|parts|, k requires 0 <= k < |parts| => Trim(parts[k]))
  }

  /** The keywords the editor starts from: `split(",").map(trim).filter(Boolean)` for a string. */
  function HydrateKeywords(stored: StoredKeywords): (r: seq<string>)
    ensures stored.KeywordArray? ==> r == stored.list
    ensures stored.NoKeywords? ==> r == []
    ensures stored.KeywordText? ==> forall k :: 0 <= k < |r| ==> r[k] != "" && Trim(r[k]) == r[k] && ',' !in r[k]
  {
    match stored
    case KeywordArray(list) => list
    case NoKeywords => []
    case KeywordText(text) =>
      var parts := TrimAll(Split(text, ','));
      var keep := (k: string) => k != "";
      var r := Filter(parts, keep);
      FilterMembers(parts, keep);
      forall k | 0 <= k < |r| ensures r[k] != "" && Trim(r[k]) == r[k] && ',' !in r[k] {
        SplitPartClean(text, r[k]);
      }
      r
  }

  lemma SplitPartClean(text: string, x: string)
    requires x in TrimAll(Split(text, ','))
    ensures Trim(x) == x && ',' !in x
  {
    var parts := Split(text, ',');
    var j :| 0 <= j < |parts| && TrimAll(parts)[j] == x;
    TrimIdempotent(parts[j]);
    TrimKeepsOut(parts[j], ',');
  }

  /** A variant as the API returns it; absent strings are `""`, numbers arrive as their text. */
  datatype StoredVariant = StoredVariant(
    id: string, name: string, variantType: string, price: string, offerPrice: string,
    stock: string, variantImages: seq<string>, weight: string)

  /** A product as the API returns it to the editor; absent strings are `""`, numbers arrive as their text. */
  datatype StoredProduct = StoredProduct(
    name: string, description: string, price: string, offerPrice: string, stock: string,
    categoryId: string, brandId: string, slug: string, weight: string, tags: seq<string>,
    productImages: seq<string>, isBestSeller: bool, isNewArrival: bool, variants: seq<StoredVariant>,
    metaTitle: string, metaDescription: string, canonicalTag: string, keywords: StoredKeywords)

  /**
   * One hydrated variant row: the stored `type` becomes `name`, the stored
   * `name` becomes `variantName`. Price, offer price and stock go through
   * `toString()`, which keeps a 0. The weight is kept raw and meets its
   * `|| ""` only when it is sent, so a stored 0 is held here as the `""`
   * it will be sent as.
   */
  function HydrateVariant(v: StoredVariant): (r: Variant)
    ensures r.variantId == v.id && r.variantName == v.name && r.name == v.variantType
    ensures r.typeRef == v.variantType && r.typeNameId == ""
    ensures r.price == v.price && r.offerPrice == v.offerPrice && r.stock == v.stock
    ensures r.weight == NumberOrEmpty(v.weight)
    ensures PersistedUrls(r.images) == v.variantImages && StagedFiles(r.images) == []
  {
    PersistedImgsSlots(v.variantImages);
    Variant(v.id, v.name, v.variantType, v.variantType, "", v.price, v.offerPrice, v.stock,
      NumberOrEmpty(v.weight), PersistedImgs(v.variantImages))
  }

  /**
   * `formData?.price || ""` and the like on a stored number, and a variant's
   * raw stored weight meeting `|| ""` when it is sent. Numbers arrive as
   * their decimal text, and the number 0 is falsy, so a stored 0 opens as an
   * empty field; every other number keeps its text.
   */
  function NumberOrEmpty(t: string): (r: string)
    ensures t == "0" ==> r == ""
    ensures t != "0" ==> r == t
  {
    if t == "0" then "" else t
  }

  /**
   * The hydration effect's `setForm`: the stored product as an editable draft
   * with nothing picked yet. The product-level numbers go through `|| ""`;
   * the variants are hydrated one by one by `HydrateVariant`.
   */
  function Hydrate(p: StoredProduct): (r: Draft)
    ensures |r.variants| == |p.variants|
    ensures forall i :: 0 <= i < |p.variants| ==> r.variants[i] == HydrateVariant(p.variants[i])
    ensures PersistedUrls(r.images) == p.productImages && StagedFiles(r.images) == []
    ensures r.keywords == HydrateKeywords(p.keywords)
    ensures r.name == p.name && r.description == p.description && r.slug == p.slug
    ensures r.price == NumberOrEmpty(p.price) && r.offerPrice == NumberOrEmpty(p.offerPrice)
    ensures r.stock == NumberOrEmpty(p.stock) && r.weight == NumberOrEmpty(p.weight)
    ensures r.category == p.categoryId && r.brand == p.brandId && r.tags == p.tags
    ensures r.isBestSeller == p.isBestSeller && r.isNewArrival == p.isNewArrival
    ensures r.metaTitle == p.metaTitle && r.metaDescription == p.metaDescription
    ensures r.canonicalTag == p.canonicalTag
  {
    PersistedImgsSlots(p.productImages);
    Draft(p.name, p.description, NumberOrEmpty(p.price), NumberOrEmpty(p.offerPrice),
      NumberOrEmpty(p.weight), NumberOrEmpty(p.stock), p.categoryId, p.brandId,
      p.tags, PersistedImgs(p.productImages), p.isBestSeller, p.isNewArrival,
      seq(|p.variants|, i requires 0 <= i < |p.variants| => HydrateVariant(p.variants[i])),
      p.metaTitle, p.metaDescription, HydrateKeywords(p.keywords), p.canonicalTag, p.slug)
  }

  /**
   * The "add variant" upload box: the new files are appended after those
   * already picked, up to `5 - already picked` of them.
   */
  function AppendPicked(picked: seq<FileId>, files: seq<FileId>): (r: seq<FileId>)
    ensures |picked| <= |r| && r[..|picked|] == picked
    ensures r[|picked|..] == Take(files, MaxImages - |picked|)
    ensures |picked| <= MaxImages ==> |r| == (if |picked| + |files| < MaxImages then |picked| + |files| else MaxImages)
  {
    var r := picked + Take(files, MaxImages - |picked|);
    assert r[..|picked|] == picked && r[|picked|..] == Take(files, MaxImages - |picked|);
    r
  }

  /** The inputs of the form that write one text property through `handleChange` or a dropdown. */
  datatype TextInput = Description | Price | OfferPrice | Weight | Stock | MetaTitle | MetaDescription
                     | CanonicalTag | Category | Brand

  function TextOf(d: Draft, t: TextInput): string {
    match t
    case Description => d.description
    case Price => d.price
    case OfferPrice => d.offerPrice
    case Weight => d.weight
    case Stock => d.stock
    case MetaTitle => d.metaTitle
    case MetaDescription => d.metaDescription
    case CanonicalTag => d.canonicalTag
    case Category => d.category
    case Brand => d.brand
  }

  /** `setForm(prev => ({ ...prev, [name]: value }))` for a text input. */
  function SetText(d: Draft, t: TextInput, value: string): (r: Draft)
    ensures TextOf(r, t) == value
    ensures forall u :: u != t ==> TextOf(r, u) == TextOf(d, u)
    ensures r.name == d.name && r.slug == d.slug && r.tags == d.tags && r.images == d.images
    ensures r.keywords == d.keywords && r.variants == d.variants
    ensures r.isBestSeller == d.isBestSeller && r.isNewArrival == d.isNewArrival
  {
    match t
    case Description => d.(description := value)
    case Price => d.(price := value)
    case OfferPrice => d.(offerPrice := value)
    case Weight => d.(weight := value)
    case Stock => d.(stock := value)
    case MetaTitle => d.(metaTitle := value)
    case MetaDescription => d.(metaDescription := value)
    case CanonicalTag => d.(canonicalTag := value)
    case Category => d.(category := value)
    case Brand => d.(brand := value)
  }

  /** The two checkboxes that go through `handleChange`. */
  datatype FlagInput = BestSeller | NewArrival

  /** `setForm(prev => ({ ...prev, [name]: checked }))` for a checkbox. */
  function SetFlag(d: Draft, f: FlagInput, checked: bool): (r: Draft)
    ensures f == BestSeller ==> r.isBestSeller == checked && r.isNewArrival == d.isNewArrival
    ensures f == NewArrival ==> r.isNewArrival == checked && r.isBestSeller == d.isBestSeller
    ensures forall u :: TextOf(r, u) == TextOf(d, u)
    ensures r.name == d.name && r.slug == d.slug && r.tags == d.tags && r.images == d.images
    ensures r.keywords == d.keywords && r.variants == d.variants
  {
    match f
    case BestSeller => d.(isBestSeller := checked)
    case NewArrival => d.(isNewArrival := checked)
  }

  /** The inputs of a variant row that `handleVariantChange` writes. */
  datatype VariantText = VariantPrice | VariantOfferPrice | VariantStock | VariantWeight

  function VariantTextOf(v: Variant, t: VariantText): string {
    match t
    case VariantPrice => v.price
    case VariantOfferPrice => v.offerPrice
    case VariantStock => v.stock
    case VariantWeight => v.weight
  }

  /** `{ ...v, [field]: value }` on one variant row. */
  function SetVariantText(v: Variant, t: VariantText, value: string): (r: Variant)
    ensures VariantTextOf(r, t) == value
    ensures forall u :: u != t ==> VariantTextOf(r, u) == VariantTextOf(v, u)
    ensures r.variantName == v.variantName && r.name == v.name && r.images == v.images
    ensures r.variantId == v.variantId && r.typeRef == v.typeRef && r.typeNameId == v.typeNameId
  {
    match t
    case VariantPrice => v.(price := value)
    case VariantOfferPrice => v.(offerPrice := value)
    case VariantStock => v.(stock := value)
    case VariantWeight => v.(weight := value)
  }
}
