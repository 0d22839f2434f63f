/**
 * The product editor's `handleSubmit` body as a specification: the ordered
 * multipart entries it appends, section by section, and what a server
 * reading them back by name receives.
 */
module ProductSubmit {
  import opened Wire
  import opened PricePercentage
  import opened ProductDraft

  /** `getPricePayload(Number(price) || 0, Number(offerPrice) || 0).offerPercentage`; `toNumber` is `Number(x) || 0`. */
  function Discount(price: string, offerPrice: string, toNumber: string -> real): real {
    GetPricePayload(toNumber(price), toNumber(offerPrice)).offerPercentage
  }

  /** The fifteen single entries appended first, in order. In variant mode both prices go out as 0. */
  function ScalarFields(d: Draft, isShowVariant: bool, toNumber: string -> real): seq<Field> {
    [ Field(Name("name"), Str(d.name)),
      Field(Name("description"), Str(d.description)),
      Field(Name("price"), if isShowVariant then Num(0.0) else Str(d.price)),
      Field(Name("slug"), Str(d.slug)),
      Field(Name("offerPrice"), if isShowVariant then Num(0.0) else Str(d.offerPrice)),
      Field(Name("discount"), Num(Discount(d.price, d.offerPrice, toNumber))),
      Field(Name("stock"), Str(d.stock)),
      Field(Name("weight"), Str(d.weight)),
      Field(Name("category"), Str(d.category)),
      Field(Name("brand"), Str(d.brand)),
      Field(Name("isBestSeller"), Flag(d.isBestSeller)),
      Field(Name("isNewArrival"), Flag(d.isNewArrival)),
      Field(Name("metaTitle"), Str(d.metaTitle)),
      Field(Name("metaDescription"), Str(d.metaDescription)),
      Field(Name("canonicalTag"), Str(d.canonicalTag)) ]
  }

  /** A picked file goes out under `fileKey`, a stored URL under `urlKey`. */
  function ImageUnder(fileKey: Key, urlKey: Key, img: Img): Field {
    match img
    case Staged(f) => Field(fileKey, Blob(f))
    case Persisted(u) => Field(urlKey, Str(u))
  }

  /** The entries of an image list's `forEach`, in list order. */
  function ImagesUnder(fileKey: Key, urlKey: Key, imgs: seq<Img>): (r: seq<Field>)
    ensures |r| == |imgs|
  {
    if imgs == [] then [] else ImagesUnder(fileKey, urlKey, imgs[..|imgs| - 1]) + [ImageUnder(fileKey, urlKey, imgs[|imgs| - 1])]
  }

  /** The main images: `productImages` and `existingImages`. */
  function ImageFields(imgs: seq<Img>): (r: seq<Field>)
    ensures |r| == |imgs|
  {
    ImagesUnder(Name("productImages"), Name("existingImages"), imgs)
  }

  /** The images of variant `i`, under `variants[i][...]`. */
  function VariantImageFields(i: nat, imgs: seq<Img>): (r: seq<Field>)
    ensures |r| == |imgs|
  {
    ImagesUnder(VariantKey(i, VariantImagesKey), VariantKey(i, ExistingVariantImagesKey), imgs)
  }

  /** Under the file name: the picked files, in list order. */
  lemma {:induction false} ImagesUnderFiles(fileKey: Key, urlKey: Key, imgs: seq<Img>)
    requires fileKey != urlKey
    ensures ValuesOf(ImagesUnder(fileKey, urlKey, imgs), fileKey) == Blobs(StagedFiles(imgs))
  {
    if imgs != [] {
      var n := |imgs| - 1;
      var init, last := imgs[..n], imgs[n];
      ImagesUnderFiles(fileKey, urlKey, init);
      ValuesOfConcat(ImagesUnder(fileKey, urlKey, init), [ImageUnder(fileKey, urlKey, last)], fileKey);
      ValuesOfSingle(ImageUnder(fileKey, urlKey, last), fileKey);
      if last.Staged? {
        assert StagedFiles(imgs) == StagedFiles(init) + [last.file];
        assert Blobs([last.file]) == [Blob(last.file)];
        BlobsConcat(StagedFiles(init), [last.file]);
      } else {
        assert StagedFiles(imgs) == StagedFiles(init);
      }
    }
  }

  /** Under the URL name: the stored URLs, in list order. */
  lemma {:induction false} ImagesUnderUrls(fileKey: Key, urlKey: Key, imgs: seq<Img>)
    requires fileKey != urlKey
    ensures ValuesOf(ImagesUnder(fileKey, urlKey, imgs), urlKey) == Strs(PersistedUrls(imgs))
  {
    if imgs != [] {
      var n := |imgs| - 1;
      var init, last := imgs[..n], imgs[n];
      ImagesUnderUrls(fileKey, urlKey, init);
      ValuesOfConcat(ImagesUnder(fileKey, urlKey, init), [ImageUnder(fileKey, urlKey, last)], urlKey);
      ValuesOfSingle(ImageUnder(fileKey, urlKey, last), urlKey);
      if last.Persisted? {
        assert PersistedUrls(imgs) == PersistedUrls(init) + [last.url];
        assert Strs([last.url]) == [Str(last.url)];
        StrsConcat(PersistedUrls(init), [last.url]);
      } else {
        assert PersistedUrls(imgs) == PersistedUrls(init);
      }
    }
  }

  /** Under any other name: nothing. */
  lemma {:induction false} ImagesUnderOther(fileKey: Key, urlKey: Key, imgs: seq<Img>, k: Key)
    requires k != fileKey && k != urlKey
    ensures ValuesOf(ImagesUnder(fileKey, urlKey, imgs), k) == []
  {
    if imgs != [] {
      var n := |imgs| - 1;
      ImagesUnderOther(fileKey, urlKey, imgs[..n], k);
      ValuesOfConcat(ImagesUnder(fileKey, urlKey, imgs[..n]), [ImageUnder(fileKey, urlKey, imgs[n])], k);
      ValuesOfSingle(ImageUnder(fileKey, urlKey, imgs[n]), k);
    }
  }

  /** The seven single entries of variant `i`: its `variantName` goes out as `name`, its `name` as `type`. */
  function VariantScalarFields(i: nat, v: Variant, toNumber: string -> real): seq<Field> {
    [ Field(VariantKey(i, NameKey), Str(v.variantName)),
      Field(VariantKey(i, TypeKey), Str(v.name)),
      Field(VariantKey(i, PriceKey), Str(v.price)),
      Field(VariantKey(i, OfferPriceKey), Str(v.offerPrice)),
      Field(VariantKey(i, DiscountKey), Num(Discount(v.price, v.offerPrice, toNumber))),
      Field(VariantKey(i, StockKey), Str(v.stock)),
      Field(VariantKey(i, WeightKey), Str(v.weight)) ]
  }

  function VariantFields(i: nat, v: Variant, toNumber: string -> real): seq<Field> {
    VariantImageFields(i, v.images) + VariantScalarFields(i, v, toNumber)
  }

  /** The entries of the first `n` variants. */
  function VariantsUpTo(vs: seq<Variant>, n: nat, toNumber: string -> real): seq<Field>
    requires n <= |vs|
  {
    if n == 0 then [] else VariantsUpTo(vs, n - 1, toNumber) + VariantFields(n - 1, vs[n - 1], toNumber)
  }

  /** Everything `handleSubmit` appends, in order. */
  function Encode(d: Draft, isShowVariant: bool, toNumber: string -> real): seq<Field> {
    ScalarFields(d, isShowVariant, toNumber)
    + Repeated(Name("keywords[]"), Strs(d.keywords))
    + Repeated(Name("tags[]"), Strs(d.tags))
    + ImageFields(d.images)
    + VariantsUpTo(d.variants, |d.variants|, toNumber)
  }

  /** What variant `v` holds under `variants[i][field]`. */
  function VariantValues(v: Variant, field: VariantField, toNumber: string -> real): seq<Value> {
    match field
    case VariantImagesKey => Blobs(StagedFiles(v.images))
    case ExistingVariantImagesKey => Strs(PersistedUrls(v.images))
    case NameKey => [Str(v.variantName)]
    case TypeKey => [Str(v.name)]
    case PriceKey => [Str(v.price)]
    case OfferPriceKey => [Str(v.offerPrice)]
    case DiscountKey => [Num(Discount(v.price, v.offerPrice, toNumber))]
    case StockKey => [Str(v.stock)]
    case WeightKey => [Str(v.weight)]
  }


  lemma ScalarKeysDistinct(d: Draft, isShowVariant: bool, toNumber: string -> real)
    ensures var fs := ScalarFields(d, isShowVariant, toNumber);
      forall i, j :: 0 <= i < |fs| && 0 <= j < |fs| && i != j ==> fs[i].key != fs[j].key
  {
    var fs := ScalarFields(d, isShowVariant, toNumber);
    forall i, j | 0 <= i < |fs| && 0 <= j < |fs| && i != j ensures fs[i].key != fs[j].key {
    }
  }

  lemma ImageFieldsValues(imgs: seq<Img>, k: Key)
    ensures ValuesOf(ImageFields(imgs), k) ==
      if k == Name("productImages") then Blobs(StagedFiles(imgs))
      else if k == Name("existingImages") then Strs(PersistedUrls(imgs))
      else []
  {
    var fk, uk := Name("productImages"), Name("existingImages");
    if k == fk {
      ImagesUnderFiles(fk, uk, imgs);
    } else if k == uk {
      ImagesUnderUrls(fk, uk, imgs);
    } else {
      ImagesUnderOther(fk, uk, imgs, k);
    }
  }

  lemma VariantImageFieldsValues(i: nat, imgs: seq<Img>, k: Key)
    ensures ValuesOf(VariantImageFields(i, imgs), k) ==
      if k == VariantKey(i, VariantImagesKey) then Blobs(StagedFiles(imgs))
      else if k == VariantKey(i, ExistingVariantImagesKey) then Strs(PersistedUrls(imgs))
      else []
  {
    var fk, uk := VariantKey(i, VariantImagesKey), VariantKey(i, ExistingVariantImagesKey);
    if k == fk {
      ImagesUnderFiles(fk, uk, imgs);
    } else if k == uk {
      ImagesUnderUrls(fk, uk, imgs);
    } else {
      ImagesUnderOther(fk, uk, imgs, k);
    }
  }

  lemma VariantScalarKeysDistinct(i: nat, v: Variant, toNumber: string -> real)
    ensures var fs := VariantScalarFields(i, v, toNumber);
      forall a, b :: 0 <= a < |fs| && 0 <= b < |fs| && a != b ==> fs[a].key != fs[b].key
  {
    var fs := VariantScalarFields(i, v, toNumber);
    forall a, b | 0 <= a < |fs| && 0 <= b < |fs| && a != b ensures fs[a].key != fs[b].key {
    }
  }

  /** The two variant fields that carry images rather than one single value. */
  predicate IsImageField(field: VariantField) {
    field.VariantImagesKey? || field.ExistingVariantImagesKey?
  }

  lemma VariantScalarValues(i: nat, v: Variant, toNumber: string -> real, k: Key)
    ensures ValuesOf(VariantScalarFields(i, v, toNumber), k) ==
      if k.VariantKey? && k.index == i && !IsImageField(k.field) then VariantValues(v, k.field, toNumber) else []
  {
    var fs := VariantScalarFields(i, v, toNumber);
    if k.VariantKey? && k.index == i && !IsImageField(k.field) {
      VariantScalarKeysDistinct(i, v, toNumber);
      var j := match k.field
        case NameKey => 0 case TypeKey => 1 case PriceKey => 2 case OfferPriceKey => 3
        case DiscountKey => 4 case StockKey => 5 case _ => 6;
      assert fs[j].key == k;
      ValuesOfUnique(fs, j);
    } else {
      assert forall j :: 0 <= j < |fs| ==> fs[j].key.VariantKey? && fs[j].key.index == i && !IsImageField(fs[j].key.field);
      ValuesOfAbsent(fs, k);
    }
  }

  /** Variant `i`'s entries hold exactly its own values, and nothing under any other name. */
  lemma VariantFieldsValues(i: nat, v: Variant, toNumber: string -> real, k: Key)
    ensures ValuesOf(VariantFields(i, v, toNumber), k) ==
      if k.VariantKey? && k.index == i then VariantValues(v, k.field, toNumber) else []
  {
    var a := VariantImageFields(i, v.images);
    var b := VariantScalarFields(i, v, toNumber);
    assert VariantFields(i, v, toNumber) == a + b;
    ValuesOfConcat(a, b, k);
    VariantImageFieldsValues(i, v.images, k);
    VariantScalarValues(i, v, toNumber, k);
    if k.VariantKey? && k.index == i {
      if IsImageField(k.field) {
        assert ValuesOf(b, k) == [];
        assert ValuesOf(a, k) == VariantValues(v, k.field, toNumber);
      } else {
        assert ValuesOf(a, k) == [];
      }
    } else {
      assert ValuesOf(a, k) == [] && ValuesOf(b, k) == [];
    }
  }

  lemma {:induction false} VariantsUpToValues(vs: seq<Variant>, n: nat, toNumber: string -> real, k: Key)
    requires n <= |vs|
    ensures ValuesOf(VariantsUpTo(vs, n, toNumber), k) ==
      if k.VariantKey? && k.index < n then VariantValues(vs[k.index], k.field, toNumber) else []
  {
    if n > 0 {
      var m := n - 1;
      var init, last := VariantsUpTo(vs, m, toNumber), VariantFields(m, vs[m], toNumber);
      assert VariantsUpTo(vs, n, toNumber) == init + last;
      VariantsUpToValues(vs, m, toNumber, k);
      ValuesOfConcat(init, last, k);
      VariantFieldsValues(m, vs[m], toNumber, k);
      if k.VariantKey? && k.index == m {
        assert ValuesOf(init, k) == [];
      } else if k.VariantKey? && k.index < m {
        assert ValuesOf(last, k) == [];
      } else {
        assert ValuesOf(init, k) == [] && ValuesOf(last, k) == [];
      }
    }
  }

  lemma ValuesOfFive(a: seq<Field>, b: seq<Field>, c: seq<Field>, d: seq<Field>, e: seq<Field>, k: Key)
    ensures ValuesOf(a + b + c + d + e, k) == ValuesOf(a, k) + ValuesOf(b, k) + ValuesOf(c, k) + ValuesOf(d, k) + ValuesOf(e, k)
  {
    ValuesOfConcat(a + b + c + d, e, k);
    ValuesOfConcat(a + b + c, d, k);
    ValuesOfConcat(a + b, c, k);
    ValuesOfConcat(a, b, k);
  }

  /** `formData.getAll(k)` on the submitted body, section by section. */
  lemma EncodeValues(d: Draft, isShowVariant: bool, toNumber: string -> real, k: Key)
    ensures ValuesOf(Encode(d, isShowVariant, toNumber), k) ==
      ValuesOf(ScalarFields(d, isShowVariant, toNumber), k)
      + (if k == Name("keywords[]") then Strs(d.keywords) else [])
      + (if k == Name("tags[]") then Strs(d.tags) else [])
      + (if k == Name("productImages") then Blobs(StagedFiles(d.images))
         else if k == Name("existingImages") then Strs(PersistedUrls(d.images)) else [])
      + (if k.VariantKey? && k.index < |d.variants| then VariantValues(d.variants[k.index], k.field, toNumber) else [])
  {
    var s := ScalarFields(d, isShowVariant, toNumber);
    var kw := Repeated(Name("keywords[]"), Strs(d.keywords));
    var tg := Repeated(Name("tags[]"), Strs(d.tags));
    var im := ImageFields(d.images);
    var vr := VariantsUpTo(d.variants, |d.variants|, toNumber);
    assert Encode(d, isShowVariant, toNumber) == s + kw + tg + im + vr;
    ValuesOfFive(s, kw, tg, im, vr, k);
    ValuesOfRepeated(Name("keywords[]"), Strs(d.keywords), k);
    ValuesOfRepeated(Name("tags[]"), Strs(d.tags), k);
    ImageFieldsValues(d.images, k);
    VariantsUpToValues(d.variants, |d.variants|, toNumber, k);
    var vkw := if k == Name("keywords[]") then Strs(d.keywords) else [];
    var vtg := if k == Name("tags[]") then Strs(d.tags) else [];
    var vim := if k == Name("productImages") then Blobs(StagedFiles(d.images))
      else if k == Name("existingImages") then Strs(PersistedUrls(d.images)) else [];
    var vvr := if k.VariantKey? && k.index < |d.variants| then VariantValues(d.variants[k.index], k.field, toNumber) else [];
    assert ValuesOf(kw, k) == vkw && ValuesOf(tg, k) == vtg;
    assert ValuesOf(im, k) == vim && ValuesOf(vr, k) == vvr;
  }

  lemma ScalarValue(d: Draft, isShowVariant: bool, toNumber: string -> real, j: nat)
    requires j < 15
    ensures var fs := ScalarFields(d, isShowVariant, toNumber);
      ValuesOf(Encode(d, isShowVariant, toNumber), fs[j].key) == [fs[j].value]
  {
    var fs := ScalarFields(d, isShowVariant, toNumber);
    ScalarKeysDistinct(d, isShowVariant, toNumber);
    ValuesOfUnique(fs, j);
    EncodeValues(d, isShowVariant, toNumber, fs[j].key);
  }

  /**
   * In variant mode `price` and `offerPrice` go out as 0, yet the `discount`
   * is still computed from the product-level prices typed in the form; in
   * simple mode the typed prices go out as they are.
   */
  lemma SubmitPrices(d: Draft, isShowVariant: bool, toNumber: string -> real)
    ensures ValuesOf(Encode(d, isShowVariant, toNumber), Name("price")) == [if isShowVariant then Num(0.0) else Str(d.price)]
    ensures ValuesOf(Encode(d, isShowVariant, toNumber), Name("offerPrice")) == [if isShowVariant then Num(0.0) else Str(d.offerPrice)]
    ensures ValuesOf(Encode(d, isShowVariant, toNumber), Name("discount"))
      == [Num(GetPricePayload(toNumber(d.price), toNumber(d.offerPrice)).offerPercentage)]
  {
    ScalarValue(d, isShowVariant, toNumber, 2);
    ScalarValue(d, isShowVariant, toNumber, 4);
    ScalarValue(d, isShowVariant, toNumber, 5);
  }

  /** Each text field goes out once, under its own name, as typed. */
  lemma SubmitScalars(d: Draft, isShowVariant: bool, toNumber: string -> real)
    ensures ValuesOf(Encode(d, isShowVariant, toNumber), Name("name")) == [Str(d.name)]
    ensures ValuesOf(Encode(d, isShowVariant, toNumber), Name("description")) == [Str(d.description)]
    ensures ValuesOf(Encode(d, isShowVariant, toNumber), Name("slug")) == [Str(d.slug)]
    ensures ValuesOf(Encode(d, isShowVariant, toNumber), Name("stock")) == [Str(d.stock)]
    ensures ValuesOf(Encode(d, isShowVariant, toNumber), Name("weight")) == [Str(d.weight)]
    ensures ValuesOf(Encode(d, isShowVariant, toNumber), Name("canonicalTag")) == [Str(d.canonicalTag)]
  {
    ScalarValue(d, isShowVariant, toNumber, 0);
    ScalarValue(d, isShowVariant, toNumber, 1);
    ScalarValue(d, isShowVariant, toNumber, 3);
    ScalarValue(d, isShowVariant, toNumber, 6);
    ScalarValue(d, isShowVariant, toNumber, 7);
    ScalarValue(d, isShowVariant, toNumber, 14);
  }

  /** The category and brand ids, the two flags (as booleans) and the meta texts each go out once, under their own names. */
  lemma SubmitListingFields(d: Draft, isShowVariant: bool, toNumber: string -> real)
    ensures ValuesOf(Encode(d, isShowVariant, toNumber), Name("category")) == [Str(d.category)]
    ensures ValuesOf(Encode(d, isShowVariant, toNumber), Name("brand")) == [Str(d.brand)]
    ensures ValuesOf(Encode(d, isShowVariant, toNumber), Name("isBestSeller")) == [Flag(d.isBestSeller)]
    ensures ValuesOf(Encode(d, isShowVariant, toNumber), Name("isNewArrival")) == [Flag(d.isNewArrival)]
    ensures ValuesOf(Encode(d, isShowVariant, toNumber), Name("metaTitle")) == [Str(d.metaTitle)]
    ensures ValuesOf(Encode(d, isShowVariant, toNumber), Name("metaDescription")) == [Str(d.metaDescription)]
  {
    ScalarValue(d, isShowVariant, toNumber, 8);
    ScalarValue(d, isShowVariant, toNumber, 9);
    ScalarValue(d, isShowVariant, toNumber, 10);
    ScalarValue(d, isShowVariant, toNumber, 11);
    ScalarValue(d, isShowVariant, toNumber, 12);
    ScalarValue(d, isShowVariant, toNumber, 13);
  }

  lemma NotAScalar(d: Draft, isShowVariant: bool, toNumber: string -> real, k: Key)
    requires k.VariantKey? || k in {Name("keywords[]"), Name("tags[]"), Name("productImages"), Name("existingImages")}
    ensures ValuesOf(ScalarFields(d, isShowVariant, toNumber), k) == []
  {
    ValuesOfAbsent(ScalarFields(d, isShowVariant, toNumber), k);
  }

  /** Keywords and tags go out as repeated `keywords[]` and `tags[]` entries, in list order. */
  lemma SubmitKeywordsAndTags(d: Draft, isShowVariant: bool, toNumber: string -> real)
    ensures ValuesOf(Encode(d, isShowVariant, toNumber), Name("keywords[]")) == Strs(d.keywords)
    ensures ValuesOf(Encode(d, isShowVariant, toNumber), Name("tags[]")) == Strs(d.tags)
  {
    NotAScalar(d, isShowVariant, toNumber, Name("keywords[]"));
    EncodeValues(d, isShowVariant, toNumber, Name("keywords[]"));
    NotAScalar(d, isShowVariant, toNumber, Name("tags[]"));
    EncodeValues(d, isShowVariant, toNumber, Name("tags[]"));
  }

  /** Picked files go out as `productImages` and stored URLs as `existingImages`, each in list order. */
  lemma SubmitImages(d: Draft, isShowVariant: bool, toNumber: string -> real)
    ensures ValuesOf(Encode(d, isShowVariant, toNumber), Name("productImages")) == Blobs(StagedFiles(d.images))
    ensures ValuesOf(Encode(d, isShowVariant, toNumber), Name("existingImages")) == Strs(PersistedUrls(d.images))
  {
    NotAScalar(d, isShowVariant, toNumber, Name("productImages"));
    EncodeValues(d, isShowVariant, toNumber, Name("productImages"));
    NotAScalar(d, isShowVariant, toNumber, Name("existingImages"));
    EncodeValues(d, isShowVariant, toNumber, Name("existingImages"));
  }

  /**
   * Variant `i` is read back under `variants[i][...]` with its own values
   * only: its picked files, its stored URLs, and one entry for each of name,
   * type, price, offer price, discount, stock and weight. An index past the
   * last variant holds nothing.
   */
  lemma SubmitVariant(d: Draft, isShowVariant: bool, toNumber: string -> real, i: nat, field: VariantField)
    ensures i < |d.variants| ==>
      ValuesOf(Encode(d, isShowVariant, toNumber), VariantKey(i, field)) == VariantValues(d.variants[i], field, toNumber)
    ensures i >= |d.variants| ==> ValuesOf(Encode(d, isShowVariant, toNumber), VariantKey(i, field)) == []
  {
    NotAScalar(d, isShowVariant, toNumber, VariantKey(i, field));
    EncodeValues(d, isShowVariant, toNumber, VariantKey(i, field));
  }

  /**
   * Opening a stored product and saving it unchanged sends each variant's
   * name and type back under the names they were read from, and every stored
   * image back as an existing image; no file is uploaded.
   */
  lemma HydrateThenSubmit(p: StoredProduct, isShowVariant: bool, toNumber: string -> real, i: nat)
    requires i < |p.variants|
    ensures var fs := Encode(Hydrate(p), isShowVariant, toNumber);
      && ValuesOf(fs, VariantKey(i, NameKey)) == [Str(p.variants[i].name)]
      && ValuesOf(fs, VariantKey(i, TypeKey)) == [Str(p.variants[i].variantType)]
      && ValuesOf(fs, VariantKey(i, ExistingVariantImagesKey)) == Strs(p.variants[i].variantImages)
      && ValuesOf(fs, VariantKey(i, VariantImagesKey)) == []
      && ValuesOf(fs, Name("existingImages")) == Strs(p.productImages)
      && ValuesOf(fs, Name("productImages")) == []
  {
    var d := Hydrate(p);
    SubmitVariant(d, isShowVariant, toNumber, i, NameKey);
    SubmitVariant(d, isShowVariant, toNumber, i, TypeKey);
    SubmitVariant(d, isShowVariant, toNumber, i, ExistingVariantImagesKey);
    SubmitVariant(d, isShowVariant, toNumber, i, VariantImagesKey);
    SubmitImages(d, isShowVariant, toNumber);
  }

  /**
   * Opening a stored product and saving it unchanged sends each variant's
   * price, offer price and stock back as stored, a 0 included, and its
   * weight through `|| ""`, so a stored weight of 0 goes out empty.
   */
  lemma HydrateThenSubmitVariantNumbers(p: StoredProduct, isShowVariant: bool, toNumber: string -> real, i: nat)
    requires i < |p.variants|
    ensures var fs := Encode(Hydrate(p), isShowVariant, toNumber);
      && ValuesOf(fs, VariantKey(i, PriceKey)) == [Str(p.variants[i].price)]
      && ValuesOf(fs, VariantKey(i, OfferPriceKey)) == [Str(p.variants[i].offerPrice)]
      && ValuesOf(fs, VariantKey(i, StockKey)) == [Str(p.variants[i].stock)]
      && ValuesOf(fs, VariantKey(i, WeightKey)) == [Str(NumberOrEmpty(p.variants[i].weight))]
    ensures p.variants[i].weight == "0" ==>
      ValuesOf(Encode(Hydrate(p), isShowVariant, toNumber), VariantKey(i, WeightKey)) == [Str("")]
  {
    var d := Hydrate(p);
    SubmitVariant(d, isShowVariant, toNumber, i, PriceKey);
    SubmitVariant(d, isShowVariant, toNumber, i, OfferPriceKey);
    SubmitVariant(d, isShowVariant, toNumber, i, StockKey);
    SubmitVariant(d, isShowVariant, toNumber, i, WeightKey);
  }

  /**
   * Saving an opened product unchanged in simple mode sends its scalar fields
   * back as they were stored, except that a stored 0 in a product-level
   * number goes out as an empty string; a variant's 0 price goes out as "0".
   */
  lemma HydrateThenSubmitScalars(p: StoredProduct, toNumber: string -> real)
    ensures var fs := Encode(Hydrate(p), false, toNumber);
      && ValuesOf(fs, Name("name")) == [Str(p.name)]
      && ValuesOf(fs, Name("description")) == [Str(p.description)]
      && ValuesOf(fs, Name("price")) == [Str(NumberOrEmpty(p.price))]
      && ValuesOf(fs, Name("slug")) == [Str(p.slug)]
      && ValuesOf(fs, Name("offerPrice")) == [Str(NumberOrEmpty(p.offerPrice))]
      && ValuesOf(fs, Name("stock")) == [Str(NumberOrEmpty(p.stock))]
      && ValuesOf(fs, Name("weight")) == [Str(NumberOrEmpty(p.weight))]
      && ValuesOf(fs, Name("category")) == [Str(p.categoryId)]
      && ValuesOf(fs, Name("brand")) == [Str(p.brandId)]
      && ValuesOf(fs, Name("isBestSeller")) == [Flag(p.isBestSeller)]
      && ValuesOf(fs, Name("isNewArrival")) == [Flag(p.isNewArrival)]
      && ValuesOf(fs, Name("metaTitle")) == [Str(p.metaTitle)]
      && ValuesOf(fs, Name("metaDescription")) == [Str(p.metaDescription)]
      && ValuesOf(fs, Name("canonicalTag")) == [Str(p.canonicalTag)]
  {
    SubmitScalars(Hydrate(p), false, toNumber);
    SubmitListingFields(Hydrate(p), false, toNumber);
    SubmitPrices(Hydrate(p), false, toNumber);
  }

  /** A stored 0 price opens as an empty field and goes out empty, while a variant's 0 price goes out as "0". */
  lemma StoredZeroPrice(p: StoredProduct, toNumber: string -> real, i: nat)
    requires p.price == "0" && i < |p.variants| && p.variants[i].price == "0"
    ensures Hydrate(p).price == ""
    ensures ValuesOf(Encode(Hydrate(p), false, toNumber), Name("price")) == [Str("")]
    ensures ValuesOf(Encode(Hydrate(p), false, toNumber), VariantKey(i, PriceKey)) == [Str("0")]
  {
    SubmitPrices(Hydrate(p), false, toNumber);
    SubmitVariant(Hydrate(p), false, toNumber, i, PriceKey);
  }

  /** One more element of a repeated list is one more entry at the end. */
  lemma RepeatedStrsSnoc(k: Key, ss: seq<string>, i: nat)
    requires i < |ss|
    ensures Repeated(k, Strs(ss[..i + 1])) == Repeated(k, Strs(ss[..i])) + [Field(k, Str(ss[i]))]
  {
    assert Repeated(k, Strs(ss[..i + 1]))[i] == Field(k, Str(ss[i]));
  }
}
