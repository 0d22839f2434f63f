/**
 * The product editor component: its React state as fields, and one method per
 * handler. Every method states the new state in terms of the pure rules of
 * `ProductDraft`; `HandleSubmit` builds the multipart body append by append
 * and is proved to build `ProductSubmit.Encode` of the state.
 */
module ProductFormState {
  import opened Options
  import opened Text
  import opened Seqs
  import opened Wire
  import opened Validation
  import opened ProductDraft
  import opened ProductSubmit

  const DefaultColorCode := "#ff69b4"

  class ProductForm {
    var form: Draft
    var variantInput: VariantInput
    var isShowVariant: bool
    var showCreateTypeName: bool
    var newTypeNameValue: string
    var newColorCode: string
    var newUnit: string
    var keywordInput: string
    /** The toasts shown so far, oldest first. */
    var alerts: seq<Alert>
    /** The `slugify` helper and `Number(x) || 0`, neither of which is part of this model. */
    const slugify: string -> string
    const toNumber: string -> real

    constructor (slugify: string -> string, toNumber: string -> real)
      ensures form == EmptyDraft && variantInput == EmptyVariantInput
      ensures !isShowVariant && !showCreateTypeName
      ensures newTypeNameValue == "" && newColorCode == DefaultColorCode && newUnit == "" && keywordInput == ""
      ensures alerts == []
      ensures this.slugify == slugify && this.toNumber == toNumber
    {
      form := EmptyDraft;
      variantInput := EmptyVariantInput;
      isShowVariant := false;
      showCreateTypeName := false;
      newTypeNameValue := "";
      newColorCode := DefaultColorCode;
      newUnit := "";
      keywordInput := "";
      alerts := [];
      this.slugify := slugify;
      this.toNumber := toNumber;
    }

    /** The hydration effect: the stored product replaces the draft; variant mode is switched on when it has variants. */
    method Load(p: StoredProduct)
      modifies this`form, this`isShowVariant
      ensures form == Hydrate(p)
      ensures isShowVariant == (old(isShowVariant) || |p.variants| > 0)
    {
      form := Hydrate(p);
      if |p.variants| > 0 {
        isShowVariant := true;
      }
    }

    /** `handleChange` on a text input, and the category and brand dropdowns. */
    method HandleChange(t: TextInput, value: string)
      modifies this`form
      ensures form == SetText(old(form), t, value)
    {
      form := SetText(form, t, value);
    }

    /** `handleChange` on one of the two checkboxes. */
    method HandleCheck(f: FlagInput, checked: bool)
      modifies this`form
      ensures form == SetFlag(old(form), f, checked)
    {
      form := SetFlag(form, f, checked);
    }

    /** Typing the name also rewrites the slug from it. */
    method HandleNameChange(value: string)
      modifies this`form
      ensures form == old(form).(name := value, slug := slugify(value))
    {
      form := form.(name := value, slug := slugify(value));
    }

    method HandleSlugChange(value: string)
      modifies this`form
      ensures form == old(form).(slug := slugify(value))
    {
      form := form.(slug := slugify(value));
    }

    method HandleToggleVariant()
      modifies this`isShowVariant
      ensures isShowVariant == !old(isShowVariant)
    {
      isShowVariant := !isShowVariant;
    }

    method HandleKeywordInput(value: string)
      modifies this`keywordInput
      ensures keywordInput == value
    {
      keywordInput := value;
    }

    /** The typed keyword is added, and the input cleared, only when it is new and not blank. */
    method HandleAddKeyword()
      modifies this`form, this`keywordInput
      ensures AddKeyword(old(form.keywords), old(keywordInput)).Some? ==>
        form == old(form).(keywords := old(form.keywords) + [Trim(old(keywordInput))]) && keywordInput == ""
      ensures AddKeyword(old(form.keywords), old(keywordInput)).None? ==>
        form == old(form) && keywordInput == old(keywordInput)
    {
      match AddKeyword(form.keywords, keywordInput)
      case Some(ks) =>
        form := form.(keywords := ks);
        keywordInput := "";
      case None =>
    }

    method HandleRemoveKeyword(keyword: string)
      modifies this`form
      ensures form == old(form).(keywords := Without(old(form.keywords), keyword))
    {
      form := form.(keywords := Without(form.keywords, keyword));
    }

    /** New main images: the cap counts the files already picked; the stored URLs stay in front. */
    method HandleMainImageChange(files: seq<FileId>)
      modifies this`form, this`alerts
      ensures form == old(form).(images := AddStaged(old(form.images), files))
      ensures alerts == old(alerts) + CapAlert(|StagedFiles(old(form.images))|, files)
    {
      alerts := alerts + CapAlert(|StagedFiles(form.images)|, files);
      form := form.(images := AddStaged(form.images, files));
    }

    method HandleRemoveMainImage(index: int)
      modifies this`form
      ensures form == old(form).(images := RemoveAt(old(form.images), index))
    {
      form := form.(images := RemoveAt(form.images, index));
    }

    /** New images for the variant being composed: the cap counts every image it already has. */
    method HandleVariantInputImageChange(files: seq<FileId>)
      modifies this`variantInput, this`alerts
      ensures variantInput == old(variantInput).(images := AppendPicked(old(variantInput.images), files))
      ensures alerts == old(alerts) + CapAlert(|old(variantInput.images)|, files)
    {
      alerts := alerts + CapAlert(|variantInput.images|, files);
      variantInput := variantInput.(images := AppendPicked(variantInput.images, files));
    }

    method HandleRemoveVariantInputImage(index: int)
      modifies this`variantInput
      ensures variantInput == old(variantInput).(images := RemoveAt(old(variantInput.images), index))
    {
      variantInput := variantInput.(images := RemoveAt(variantInput.images, index));
    }

    /** New images for an added variant; the handler reads `form.variants[variantIndex]`, so the row must exist. */
    method HandleExistingVariantImageChange(files: seq<FileId>, variantIndex: nat)
      requires variantIndex < |form.variants|
      modifies this`form, this`alerts
      ensures form == old(form).(variants := MapAt(old(form.variants), variantIndex,
        (v: Variant) => v.(images := AddStaged(v.images, files))))
      ensures alerts == old(alerts) + CapAlert(|StagedFiles(old(form.variants[variantIndex].images))|, files)
    {
      alerts := alerts + CapAlert(|StagedFiles(form.variants[variantIndex].images)|, files);
      form := form.(variants := MapAt(form.variants, variantIndex, (v: Variant) => v.(images := AddStaged(v.images, files))));
    }

    method HandleRemoveExistingVariantImage(variantIndex: int, imgIndex: int)
      modifies this`form
      ensures form == old(form).(variants := MapAt(old(form.variants), variantIndex,
        (v: Variant) => v.(images := RemoveAt(v.images, imgIndex))))
    {
      form := form.(variants := MapAt(form.variants, variantIndex, (v: Variant) => v.(images := RemoveAt(v.images, imgIndex))));
    }

    /** Choosing a variant type forgets the chosen value and the picked images. */
    method HandleTypeChange(typeId: string)
      modifies this`variantInput
      ensures variantInput == old(variantInput).(typeId := typeId, typeNameId := "", name := "", images := [])
    {
      variantInput := variantInput.(typeId := typeId, typeNameId := "", name := "", images := []);
    }

    /** The value dropdown, over the values listed for the selected type. */
    method HandleTypeNameSelect(value: string, typeNames: seq<TypeName>)
      modifies this`variantInput, this`showCreateTypeName
      ensures ChooseValue(value, typeNames) == OpenCreatePanel ==>
        showCreateTypeName && variantInput == old(variantInput)
      ensures ChooseValue(value, typeNames).Chosen? ==>
        showCreateTypeName == old(showCreateTypeName)
        && variantInput == old(variantInput).(typeNameId := value, name := ChooseValue(value, typeNames).name)
      ensures ChooseValue(value, typeNames) == Ignored ==>
        showCreateTypeName == old(showCreateTypeName) && variantInput == old(variantInput)
    {
      match ChooseValue(value, typeNames)
      case OpenCreatePanel => showCreateTypeName := true;
      case Chosen(id, name) => variantInput := variantInput.(typeNameId := id, name := name);
      case Ignored =>
    }

    method HandleNewValueInput(value: string, colorCode: string, unit: string)
      modifies this`newTypeNameValue, this`newColorCode, this`newUnit
      ensures newTypeNameValue == value && newColorCode == colorCode && newUnit == unit
    {
      newTypeNameValue, newColorCode, newUnit := value, colorCode, unit;
    }

    /**
     * `handleCreateTypeName`. `displayType` is that of the selected type;
     * `succeeded` is how the dispatched request settled, which the caller
     * supplies. A request that succeeds resets the panel and closes it.
     */
    method HandleCreateTypeName(displayType: Option<string>, succeeded: bool) returns (request: Option<TypeNamePayload>)
      modifies this`alerts, this`newTypeNameValue, this`newColorCode, this`newUnit, this`showCreateTypeName
      ensures var out := CreateValueRequest(KindOf(displayType), old(variantInput.typeId), old(newTypeNameValue), old(newColorCode), old(newUnit));
        && (out.Warned? ==> (request == None && alerts == old(alerts) + [Warning(out.message)]))
        && (out.Dispatched? ==> (request == Some(out.request) && alerts == old(alerts)))
        && (out.Dispatched? && succeeded ==>
              (newTypeNameValue == "" && newColorCode == DefaultColorCode && newUnit == "" && !showCreateTypeName))
        && (out.Warned? || !succeeded ==>
              (newTypeNameValue == old(newTypeNameValue) && newColorCode == old(newColorCode)
               && newUnit == old(newUnit) && showCreateTypeName == old(showCreateTypeName)))
    {
      var out := CreateValueRequest(KindOf(displayType), variantInput.typeId, newTypeNameValue, newColorCode, newUnit);
      request := SettleValueRequest(out, succeeded);
    }

    /** What follows the check: the warning, or the request and, once it succeeds, the panel reset. */
    method SettleValueRequest(out: Outcome<TypeNamePayload>, succeeded: bool) returns (request: Option<TypeNamePayload>)
      modifies this`alerts, this`newTypeNameValue, this`newColorCode, this`newUnit, this`showCreateTypeName
      ensures out.Warned? ==> (request == None && alerts == old(alerts) + [Warning(out.message)])
      ensures out.Dispatched? ==> (request == Some(out.request) && alerts == old(alerts))
      ensures out.Dispatched? && succeeded ==>
        (newTypeNameValue == "" && newColorCode == DefaultColorCode && newUnit == "" && !showCreateTypeName)
      ensures out.Warned? || !succeeded ==>
        (newTypeNameValue == old(newTypeNameValue) && newColorCode == old(newColorCode)
         && newUnit == old(newUnit) && showCreateTypeName == old(showCreateTypeName))
    {
      match out
      case Warned(message) =>
        alerts := alerts + [Warning(message)];
        request := None;
      case Dispatched(payload) =>
        request := Some(payload);
        if succeeded {
          newTypeNameValue, newColorCode, newUnit := "", DefaultColorCode, "";
          showCreateTypeName := false;
        }
    }

    /** The "add variant" draft's text inputs. */
    method HandleVariantInput(variantName: string, price: string, offerPrice: string, stock: string, weight: string)
      modifies this`variantInput
      ensures variantInput == old(variantInput).(variantName := variantName, price := price,
        offerPrice := offerPrice, stock := stock, weight := weight)
    {
      variantInput := variantInput.(variantName := variantName, price := price, offerPrice := offerPrice,
        stock := stock, weight := weight);
    }

    /**
     * `handleAddVariant`: on a failed check only the warning is shown; else
     * the row is appended, the draft cleared except for its type, and a
     * success toast shown.
     */
    method HandleAddVariant()
      modifies this`form, this`variantInput, this`alerts
      ensures NewVariant(old(variantInput)).Warned? ==>
        form == old(form) && variantInput == old(variantInput)
        && alerts == old(alerts) + [Warning(NewVariant(old(variantInput)).message)]
      ensures NewVariant(old(variantInput)).Dispatched? ==>
        form == old(form).(variants := old(form.variants) + [NewVariant(old(variantInput)).request])
        && variantInput == EmptyVariantInput.(typeId := old(variantInput.typeId))
        && alerts == old(alerts) + [Success("Variant added successfully!")]
    {
      match NewVariant(variantInput)
      case Warned(message) =>
        alerts := alerts + [Warning(message)];
      case Dispatched(v) =>
        form := form.(variants := form.variants + [v]);
        variantInput := EmptyVariantInput.(typeId := variantInput.typeId);
        alerts := alerts + [Success("Variant added successfully!")];
    }

    method HandleVariantChange(index: int, t: VariantText, value: string)
      modifies this`form
      ensures form == old(form).(variants := MapAt(old(form.variants), index, v => SetVariantText(v, t, value)))
    {
      form := form.(variants := MapAt(form.variants, index, v => SetVariantText(v, t, value)));
    }

    method HandleRemoveVariant(index: int)
      modifies this`form
      ensures form == old(form).(variants := RemoveAt(old(form.variants), index))
    {
      form := form.(variants := RemoveAt(form.variants, index));
    }

    method HandleRemoveTag(tag: string)
      modifies this`form
      ensures form == old(form).(tags := Without(old(form.tags), tag))
    {
      form := form.(tags := Without(form.tags, tag));
    }

    /** `handleSubmit`: the multipart body handed to `onSubmit`, appended entry by entry. */
    method HandleSubmit() returns (body: seq<Field>)
      ensures body == Encode(form, isShowVariant, toNumber)
    {
      var d := form;
      body := ScalarFields(d, isShowVariant, toNumber);
      body := AppendEach(body, Name("keywords[]"), d.keywords);
      body := AppendEach(body, Name("tags[]"), d.tags);
      body := AppendImages(body, d.images);
      body := AppendVariants(body, d.variants, toNumber);
    }
  }

  /** `list.forEach(x => fd.append(k, x))`. */
  method AppendEach(body0: seq<Field>, k: Key, ss: seq<string>) returns (body: seq<Field>)
    ensures body == body0 + Repeated(k, Strs(ss))
  {
    body := body0;
    var i := 0;
    while i < |ss|
      invariant 0 <= i <= |ss|
      invariant body == body0 + Repeated(k, Strs(ss[..i]))
    {
      RepeatedStrsSnoc(k, ss, i);
      body := body + [Field(k, Str(ss[i]))];
      i := i + 1;
    }
    assert ss[..i] == ss;
  }

  /** The main images' `forEach`: a picked file as `productImages`, a stored URL as `existingImages`. */
  method AppendImages(body0: seq<Field>, imgs: seq<Img>) returns (body: seq<Field>)
    ensures body == body0 + ImageFields(imgs)
  {
    body := body0;
    var i := 0;
    while i < |imgs|
      invariant 0 <= i <= |imgs|
      invariant body == body0 + ImageFields(imgs[..i])
    {
      assert imgs[..i + 1][..i] == imgs[..i];
      match imgs[i] {
        case Staged(f) => body := body + [Field(Name("productImages"), Blob(f))];
        case Persisted(u) => body := body + [Field(Name("existingImages"), Str(u))];
      }
      i := i + 1;
    }
    assert imgs[..i] == imgs;
  }

  /** A variant's images' `forEach`, under `variants[i][...]`. */
  method AppendVariantImages(body0: seq<Field>, i: nat, imgs: seq<Img>) returns (body: seq<Field>)
    ensures body == body0 + VariantImageFields(i, imgs)
  {
    body := body0;
    var j := 0;
    while j < |imgs|
      invariant 0 <= j <= |imgs|
      invariant body == body0 + VariantImageFields(i, imgs[..j])
    {
      assert imgs[..j + 1][..j] == imgs[..j];
      match imgs[j] {
        case Staged(f) => body := body + [Field(VariantKey(i, VariantImagesKey), Blob(f))];
        case Persisted(u) => body := body + [Field(VariantKey(i, ExistingVariantImagesKey), Str(u))];
      }
      j := j + 1;
    }
    assert imgs[..j] == imgs;
  }

  /** One row of the variants' `forEach`: its images, then its seven single entries. */
  method AppendVariant(body0: seq<Field>, i: nat, v: Variant, toNumber: string -> real) returns (body: seq<Field>)
    ensures body == body0 + VariantFields(i, v, toNumber)
  {
    body := AppendVariantImages(body0, i, v.images);
    body := body + VariantScalarFields(i, v, toNumber);
  }

  lemma VariantsUpToNext(body0: seq<Field>, body: seq<Field>, vs: seq<Variant>, i: nat, toNumber: string -> real)
    requires i < |vs| && body == body0 + VariantsUpTo(vs, i, toNumber)
    ensures body + VariantFields(i, vs[i], toNumber) == body0 + VariantsUpTo(vs, i + 1, toNumber)
  {
    var row := VariantFields(i, vs[i], toNumber);
    assert VariantsUpTo(vs, i + 1, toNumber) == VariantsUpTo(vs, i, toNumber) + row;
  }

  /** The variants' `forEach`, row by row. */
  method AppendVariants(body0: seq<Field>, vs: seq<Variant>, toNumber: string -> real) returns (body: seq<Field>)
    ensures body == body0 + VariantsUpTo(vs, |vs|, toNumber)
  {
    body := body0;
    var i := 0;
    while i < |vs|
      invariant 0 <= i <= |vs|
      invariant body == body0 + VariantsUpTo(vs, i, toNumber)
    {
      VariantsUpToNext(body0, body, vs, i, toNumber);
      body := AppendVariant(body, i, vs[i], toNumber);
      i := i + 1;
    }
  }

  /** The cap warning, as a toast, when some picked files were cut. */
  function CapAlert(current: nat, files: seq<FileId>): (r: seq<Alert>)
    ensures |r| <= 1
    ensures r != [] <==> |Take(files, MaxImages - current)| < |files|
    ensures r != [] ==> r == [ImagesCapped(MaxImages - current)]
  {
    match CapWarning(current, files)
    case Some(n) => [ImagesCapped(n)]
    case None => []
  }
}
