# Jwala Beauty Center admin panel — a verified model of its editing logic

The admin panel manages a beauty shop's catalogue: products with variants, attribute types and their values, deals, offers, banners, ad banners, categories and brands. It also lists orders, users and sales reports. This project models, in Dafny, the logic behind those screens. Rendering, the network and the browser are left out.

- **The product editor** (`ProductDraft`, `ProductFormState`, `ProductSubmit`). Its state is a product draft: scalars, tags, keywords, main images, variants and the variant-mode switch. Beside it sit an "add variant" draft and a panel for creating attribute values. The class `ProductFormState.ProductForm` carries that state, and each handler is a method whose contract is a function on the draft. `handleSubmit` flattens the draft into an ordered list of multipart entries. The list is built by loops proved equal to the function `ProductSubmit.Encode`. Lemmas read each field back out of that list, and hydrating a stored product and then submitting it keeps every variant's name and type.
- **Shared rules** (`Text`, `Options`, `Seqs`, `Catalog`, `Wire`, `Validation`, `AsyncOp`, `FormCommon`, `PairedImages`):
  - trimming, lower-casing and substring tests;
  - the multipart entry list and what it holds under a name;
  - the ordered "warn and stop" checks every submit handler opens with;
  - the loading and message status a Redux slice keeps per request;
  - file lists kept beside their preview lists.
- **Small utilities**:
  - the discount percentage;
  - hex colour normalisation;
  - image URL resolution;
  - order and payment badges;
  - the capped image-upload box;
  - the multi-select dropdown.
- **Listing pages**: products, product details, orders with pagination, users with sorting and selection, and sales reports.
- **Redux slices** for products, types, orders and reports, each a class whose reducer cases update its fields.
- **Entity editors** for types, values, deals, offers, banners, ad banners, parent categories, sub-categories and brands, each a class over its form.

Requests, toasts and the results of server calls are values: a handler returns the request it would dispatch and appends the toasts it shows to an `alerts` log. Where the outcome of a request matters, it is an input.

## Model

| member | source | states |
|---|---|---|
| PricePercentage.Round2 | src/utils/getPricePercentage.js:11 | `Number(x.toFixed(2))` lands within 0.005 of `x` on a whole number of cents, keeps the sign of `x`, and at an exact half cent moves away from zero |
| PricePercentage.Round2Exact | src/utils/getPricePercentage.js:11 | a value that already has two decimals comes back unchanged from the rounding |
| PricePercentage.GetPricePayload | src/utils/getPricePercentage.js:1-13 | both prices are returned as given; a non-positive price gives 0 with no division; otherwise the percentage is `(price - offer) / price * 100` rounded to cents |
| PricePercentage.SamePriceNoDiscount | src/utils/getPricePercentage.js:6 | an offer price equal to the price gives 0% |
| PricePercentage.FreeOfferIsFullDiscount | src/utils/getPricePercentage.js:6 | an offer price of 0 against a positive price gives exactly 100% |
| PricePercentage.MarkupIsNotDiscount | src/utils/getPricePercentage.js:6 | an offer above the price is not clamped: the percentage is at most 0 |
| PricePercentage.DiscountInRange | src/utils/getPricePercentage.js:6-11 | an offer between 0 and a positive price gives a percentage between 0 and 100 |
| ColorName.Digits | src/utils/getColorName.js:11 | `replace("#", "")` drops exactly the leading `#` when there is one |
| ColorName.Doubled | src/utils/getColorName.js:12-14 | every character appears twice, in place, so the result is twice as long |
| ColorName.NormaliseHex | src/utils/getColorName.js:7-23 | a 3-digit code becomes `#` plus its doubled digits; a 4-digit code becomes `#` plus its first three digits doubled and lower-cased; anything else is unchanged |
| ColorName.GetColorName | src/utils/getColorName.js:3-26 | an empty code gives ""; any other code is trimmed, normalised and handed to the namer, whose answer is returned |
| ColorName.DoubledHex | src/utils/getColorName.js:12-14 | doubling hex digits gives hex digits |
| ColorName.ShortFormsBecomeSixDigits | src/utils/getColorName.js:7-23 | both short forms come out as `#` plus six hex digits, each source digit doubled (lower-cased for the 4-digit form) |
| ColorName.NormaliseIdempotent | src/utils/getColorName.js:7-23 | normalising a normalised code changes nothing |
| ImageSrc.Resolve | src/common/Image.jsx:1-6 | a non-string src and a string starting with `http` or `blob:` pass unchanged; every other string, "" included, gets the base URL in front |
| ImageSrc.ResolveStable | src/common/Image.jsx:3-6 | with a base starting with `http`, a resolved string is absolute and resolving it again changes nothing |
| PaymentBadge.Fallback | src/utils/paymentBadge.js:8 | grey badge captioned with the status itself, or "Unknown" for an empty status |
| PaymentBadge.StatusBadge | src/utils/paymentBadge.js:1-9 | one clause per test in source order: "processing" gives Processing; otherwise "ship" gives Shipping; then "deliv" Delivered, "cancel" Cancelled, "confirmed" Confirmed; the grey fallback is given exactly when none of the five keywords occurs in the lower-cased status |
| PaymentBadge.FirstMatch | src/utils/paymentBadge.js:3-7 | a keyword table yields no badge exactly when none of its keywords occurs |
| PaymentBadge.StatusBadgeIsTableLookup | src/utils/paymentBadge.js:1-9 | the order badge equals a first-match lookup of the lower-cased status in the table of the five keywords in source order, with the grey fallback when nothing matches |
| PaymentBadge.PaymentStatusBadge | src/utils/paymentBadge.js:11-16 | a status containing "paid" in any case is Paid; otherwise the grey fallback |
| PaymentBadge.UnpaidIncludesPaid | src/utils/paymentBadge.js:13-14 | every string containing "unpaid" contains "paid" |
| PaymentBadge.UnpaidShownAsPaid | src/utils/paymentBadge.js:13-14 | an "unpaid" status is shown as Paid and the red Unpaid badge is never produced |
| PaymentBadge.ShippingTestRedundant | src/utils/paymentBadge.js:4 | a status containing "shipping" already contains "ship" |
| PaymentBadge.StatusBadgeIgnoresCase | src/utils/paymentBadge.js:2 | a status and its lower-case spelling get the same coloured order badge and the same payment badge colours |
| ImageUploadBox.Room | src/common/ImageUploadBox.jsx:14 | the number of files still accepted: the gap to `maxImages`, never negative |
| ImageUploadBox.HandleImageUpload | src/common/ImageUploadBox.jsx:9-22 | the loop keeps the entries already in the box and appends, in picking order, previews of the first files that fit |
| ImageUploadBox.UploadRespectsCap | src/common/ImageUploadBox.jsx:13-20 | an upload keeps the old entries in front, never takes the box past `maxImages`, fills it when enough files are picked, and changes nothing on a full box |
| ImageUploadBox.RemoveImage | src/common/ImageUploadBox.jsx:24-27 | an index in range removes exactly that entry, the entries before and after it keeping their order; any other index leaves the list as it was |
| ImageUploadBox.RemoveReopensFullBox | src/common/ImageUploadBox.jsx:34 | a full box hides the upload control and removing any entry shows it again |
| ImageUploadBox.SrcOf | src/common/ImageUploadBox.jsx:50 | a picked file shows its preview, a stored entry its own URL |
| MultiSelectDropdown.FilteredOptions | src/common/MultiSelectDropdown.jsx:16-21 | an option is listed exactly when it is an option whose id contains the search or whose lower-cased name contains the lower-cased search |
| MultiSelectDropdown.FilteredOptionsKeepsOrder | src/common/MultiSelectDropdown.jsx:16-21 | the search keeps the options in their order: filtering a concatenation filters each part, and a single option stays exactly when it matches |
| MultiSelectDropdown.EmptySearchListsAll | src/common/MultiSelectDropdown.jsx:17-19 | an empty search lists every option in order |
| MultiSelectDropdown.ToggleValue | src/common/MultiSelectDropdown.jsx:23-37 | in multiple mode an unselected option is appended at the end and a selected one is removed wherever it occurs, every other selected value being kept; in single mode the selection is that option alone |
| MultiSelectDropdown.ToggleTwiceRestores | src/common/MultiSelectDropdown.jsx:26-31 | toggling the same option twice gives back the same set of selected values: the identical list when it was not selected, and otherwise the list without any copy of it followed by one copy at the end |
| MultiSelectDropdown.Dropdown.constructor | src/common/MultiSelectDropdown.jsx:12-13 | the list starts closed with an empty search |
| MultiSelectDropdown.Dropdown.ToggleOpen | src/common/MultiSelectDropdown.jsx:44 | clicking the header flips the open state and nothing else |
| MultiSelectDropdown.Dropdown.SetSearch | src/common/MultiSelectDropdown.jsx:13 | the search box holds what was typed |
| MultiSelectDropdown.Dropdown.Pick | src/common/MultiSelectDropdown.jsx:23-37 | hands the toggled selection to `onChange`; a single-mode pick closes the list, a multiple-mode pick leaves it as it was |
| ProductDraft.SlotsConcat | src/component/Container/ProductsSection/CreateProducts.jsx:146 | splitting image slots into stored URLs and picked files distributes over concatenation |
| ProductDraft.PersistedImgsSlots | src/component/Container/ProductsSection/CreateProducts.jsx:75 | a list made of stored URLs splits back into exactly those URLs and no files |
| ProductDraft.StagedImgsSlots | src/component/Container/ProductsSection/CreateProducts.jsx:264 | a list made of picked files splits back into exactly those files and no URLs |
| ProductDraft.AddStaged | src/component/Container/ProductsSection/CreateProducts.jsx:139-148 | after an upload the stored URLs are those kept before, in order; the picked files are the first `5 - earlier picked count` new ones, earlier picked files dropped; every stored URL precedes every picked file; the picked count stays within 5 |
| ProductDraft.AddStagedParts | src/component/Container/ProductsSection/CreateProducts.jsx:146 | stored URLs followed by picked files split back into the same two lists, stored ones first |
| ProductDraft.StoredBeforePicked | src/component/Container/ProductsSection/CreateProducts.jsx:146 | in the rebuilt list no picked file comes before a stored URL |
| ProductDraft.CapWarning | src/component/Container/ProductsSection/CreateProducts.jsx:142-143 | the "Only N more images allowed." warning is raised exactly when files were cut, with N the remaining room |
| ProductDraft.AddKeyword | src/component/Container/ProductsSection/CreateProducts.jsx:129-134 | a keyword is added exactly when the trimmed input is non-blank and not yet present, and then it is appended as trimmed |
| ProductDraft.SnocKeepsKeywordsClean | src/component/Container/ProductsSection/CreateProducts.jsx:131 | appending a trimmed, non-empty, new keyword keeps the list trimmed, non-empty and free of repeats |
| ProductDraft.AddKeepsKeywordsClean | src/component/Container/ProductsSection/CreateProducts.jsx:129-134 | adding a keyword keeps the list trimmed, non-empty and free of repeats |
| ProductDraft.RemoveKeepsKeywordsClean | src/component/Container/ProductsSection/CreateProducts.jsx:136-138 | removing a keyword keeps the list trimmed, non-empty and free of repeats |
| ProductDraft.AddThenRemoveKeyword | src/component/Container/ProductsSection/CreateProducts.jsx:129-138 | removing the keyword just added gives back the previous list |
| ProductDraft.ChooseValue | src/component/Container/ProductsSection/CreateProducts.jsx:204-218 | "add-new" opens the create panel; an id that is not listed changes nothing; a chosen value carries the id and the name of the first listed entry with that id |
| ProductDraft.KindOf | src/component/Container/ProductsSection/CreateProducts.jsx:221-234 | a type counts as a colour type exactly when its `displayType` is "color", as a unit type exactly when it is "unit"; a missing type is neither |
| ProductDraft.CreateValueRequest | src/component/Container/ProductsSection/CreateProducts.jsx:220-239 | a colour type sends its trimmed code as name and colour code with no name check; otherwise a blank name warns "Name is required!", a unit type with a blank unit warns "Unit is required!", and the single entry sent carries the trimmed, non-empty name and a unit exactly for unit types; a unit value with a name and a unit is dispatched as the trimmed name and unit, and any other value with a name as the trimmed name alone |
| ProductDraft.NewVariant | src/component/Container/ProductsSection/CreateProducts.jsx:251-265 | the three checks warn in source order and a row is built exactly when all pass; the row's variant name is the trimmed one or the value name when blank, prices, stock and weight are copied, and its images are exactly the picked files |
| ProductDraft.OptionLabel | src/component/Container/ProductsSection/CreateProducts.jsx:558-561 | a value shows as a colour exactly when it has a colour code, or has no unit and a six-digit hex name; colours get a swatch and a bullet in front of the label |
| ProductDraft.ColourEntryLabel | src/component/Container/ProductsSection/CreateProducts.jsx:558-561 | a colour entry named by its own trimmed code shows that code as swatch and, after a bullet, as text |
| ProductDraft.UnitEntryLabel | src/component/Container/ProductsSection/CreateProducts.jsx:560 | a unit entry shows "name (unit)" with no swatch |
| ProductDraft.CreatedColourLabel | src/component/Container/ProductsSection/CreateProducts.jsx:225-227 | a colour created in the panel is later listed as a colour, with its code as swatch and text |
| ProductDraft.CreatedUnitLabel | src/component/Container/ProductsSection/CreateProducts.jsx:228-231 | a value created for a unit type is later listed as "name (unit)", not as a colour |
| ProductDraft.CreatedPlainLabel | src/component/Container/ProductsSection/CreateProducts.jsx:232-234 | a value created for any other type is later listed under exactly its trimmed name |
| ProductDraft.TrimAll | src/component/Container/ProductsSection/CreateProducts.jsx:97 | each part is trimmed in place |
| ProductDraft.HydrateKeywords | src/component/Container/ProductsSection/CreateProducts.jsx:94-98 | stored arrays are taken as they are, a missing value gives none, and a comma-separated string gives trimmed, non-empty keywords without commas |
| ProductDraft.SplitPartClean | src/component/Container/ProductsSection/CreateProducts.jsx:97 | a trimmed part of a comma split is its own trim and has no comma |
| ProductDraft.HydrateVariant | src/component/Container/ProductsSection/CreateProducts.jsx:79-89 | the stored id is kept; the stored `name` becomes the variant name and the stored `type` both the value and the type reference, with no value id; price, offer price and stock keep their stored text, a 0 included; the weight is held as the text it will be sent as, so a stored 0 becomes empty; the stored images become stored URLs with nothing picked |
| ProductDraft.Hydrate | src/component/Container/ProductsSection/CreateProducts.jsx:62-99 | every field of the draft: the texts, category, brand, tags, flags, meta fields and canonical tag as stored; price, offer price, stock and weight through `|| ""`, so a stored 0 opens empty; each stored variant hydrated; the stored product images as URLs with nothing picked; the hydrated keywords |
| ProductDraft.NumberOrEmpty | src/component/Container/ProductsSection/CreateProducts.jsx:67-69 | a stored number 0 becomes the empty field; every other stored number keeps its text |
| ProductDraft.AppendPicked | src/component/Container/ProductsSection/CreateProducts.jsx:154-159 | earlier picked files stay in front and at most `5 - earlier count` new ones follow, so the box fills up to 5 |
| ProductDraft.SetText | src/component/Container/ProductsSection/CreateProducts.jsx:105-108 | the named text input takes the value and every other input, list and flag is unchanged |
| ProductDraft.SetFlag | src/component/Container/ProductsSection/CreateProducts.jsx:105-108 | the named checkbox takes the checked state and every other field is unchanged |
| ProductDraft.SetVariantText | src/component/Container/ProductsSection/CreateProducts.jsx:286-291 | the named field of the variant row takes the value and the row's other fields are unchanged |
| ProductFormState.ProductForm.constructor | src/component/Container/ProductsSection/CreateProducts.jsx:21-47 | the editor starts with an empty draft, an empty variant draft, variant mode off, the create panel closed and the colour input at #ff69b4 |
| ProductFormState.ProductForm.Load | src/component/Container/ProductsSection/CreateProducts.jsx:62-103 | the draft becomes the hydrated stored product; variant mode is switched on when the product has variants and never switched off here |
| ProductFormState.ProductForm.HandleChange | src/component/Container/ProductsSection/CreateProducts.jsx:105-108 | the draft changes as `ProductDraft.SetText` says: one input, nothing else |
| ProductFormState.ProductForm.HandleCheck | src/component/Container/ProductsSection/CreateProducts.jsx:105-108 | the draft changes as `ProductDraft.SetFlag` says: one checkbox, nothing else |
| ProductFormState.ProductForm.HandleNameChange | src/component/Container/ProductsSection/CreateProducts.jsx:110-118 | the name takes the typed value and the slug is rewritten from it; nothing else changes |
| ProductFormState.ProductForm.HandleSlugChange | src/component/Container/ProductsSection/CreateProducts.jsx:120-126 | only the slug changes, to the slugified input |
| ProductFormState.ProductForm.HandleToggleVariant | src/component/Container/ProductsSection/CreateProducts.jsx:127 | variant mode flips |
| ProductFormState.ProductForm.HandleKeywordInput | src/component/Container/ProductsSection/CreateProducts.jsx:38 | the keyword input holds what was typed |
| ProductFormState.ProductForm.HandleAddKeyword | src/component/Container/ProductsSection/CreateProducts.jsx:129-134 | a new, non-blank keyword is appended trimmed and the input cleared; otherwise neither the draft nor the input changes |
| ProductFormState.ProductForm.HandleRemoveKeyword | src/component/Container/ProductsSection/CreateProducts.jsx:136-138 | every copy of the keyword leaves the list and nothing else changes |
| ProductFormState.ProductForm.HandleMainImageChange | src/component/Container/ProductsSection/CreateProducts.jsx:139-148 | the main images become `ProductDraft.AddStaged` of the old ones and the cap toast is raised exactly when files were cut |
| ProductFormState.ProductForm.HandleRemoveMainImage | src/component/Container/ProductsSection/CreateProducts.jsx:150-152 | the main image at the index is removed and nothing else changes |
| ProductFormState.ProductForm.HandleVariantInputImageChange | src/component/Container/ProductsSection/CreateProducts.jsx:154-159 | the picked files of the variant draft are extended as `ProductDraft.AppendPicked` says, with the cap toast exactly when files were cut |
| ProductFormState.ProductForm.HandleRemoveVariantInputImage | src/component/Container/ProductsSection/CreateProducts.jsx:161-163 | the variant draft loses the picked file at the index |
| ProductFormState.ProductForm.HandleExistingVariantImageChange | src/component/Container/ProductsSection/CreateProducts.jsx:165-178 | only the indexed row's images change, as `ProductDraft.AddStaged` says, counting that row's picked files for the cap |
| ProductFormState.ProductForm.HandleRemoveExistingVariantImage | src/component/Container/ProductsSection/CreateProducts.jsx:180-187 | only the indexed row loses the image at the inner index |
| ProductFormState.ProductForm.HandleTypeChange | src/component/Container/ProductsSection/CreateProducts.jsx:189-198 | choosing a type clears the chosen value, its name and the picked images, keeping the other draft inputs |
| ProductFormState.ProductForm.HandleTypeNameSelect | src/component/Container/ProductsSection/CreateProducts.jsx:204-218 | "add-new" opens the panel and leaves the draft alone; a listed value sets the id and name; anything else changes nothing |
| ProductFormState.ProductForm.HandleNewValueInput | src/component/Container/ProductsSection/CreateProducts.jsx:35-37 | the panel's inputs hold what was typed |
| ProductFormState.ProductForm.HandleCreateTypeName | src/component/Container/ProductsSection/CreateProducts.jsx:220-249 | a failed check only raises its warning; a passing one dispatches `ProductDraft.CreateValueRequest` for the selected type's kind, and only a successful request resets the inputs to their defaults and closes the panel |
| ProductFormState.ProductForm.SettleValueRequest | src/component/Container/ProductsSection/CreateProducts.jsx:221-248 | a warning is shown with nothing dispatched; a request is dispatched without a toast and resets and closes the panel exactly when it succeeds |
| ProductFormState.ProductForm.HandleVariantInput | src/component/Container/ProductsSection/CreateProducts.jsx:23-32 | the variant draft's text inputs hold what was typed |
| ProductFormState.ProductForm.HandleAddVariant | src/component/Container/ProductsSection/CreateProducts.jsx:251-284 | a failed check leaves form and draft alone and shows its warning; a passing one appends the built row, clears the draft except its type, and shows the success toast |
| ProductFormState.ProductForm.HandleVariantChange | src/component/Container/ProductsSection/CreateProducts.jsx:286-291 | only the indexed row changes, as `ProductDraft.SetVariantText` says |
| ProductFormState.ProductForm.HandleRemoveVariant | src/component/Container/ProductsSection/CreateProducts.jsx:293-295 | the indexed row is removed and the others keep their order |
| ProductFormState.ProductForm.HandleRemoveTag | src/component/Container/ProductsSection/CreateProducts.jsx:297-299 | every copy of the tag leaves the list |
| ProductFormState.ProductForm.HandleSubmit | src/component/Container/ProductsSection/CreateProducts.jsx:303-372 | the body built append by append is exactly `ProductSubmit.Encode` of the draft and variant mode |
| ProductFormState.AppendEach | src/component/Container/ProductsSection/CreateProducts.jsx:331-337 | one entry per list element under the same key, in list order, after what was there |
| ProductFormState.AppendImages | src/component/Container/ProductsSection/CreateProducts.jsx:339-347 | each picked file goes under `productImages` and each stored URL under `existingImages`, in slot order |
| ProductFormState.AppendVariantImages | src/component/Container/ProductsSection/CreateProducts.jsx:355-362 | each picked file goes under `variants[i][variantImages]` and each stored URL under `variants[i][existingVariantImages]`, in slot order |
| ProductFormState.AppendVariant | src/component/Container/ProductsSection/CreateProducts.jsx:349-370 | one row contributes its image entries and then its seven single entries |
| ProductFormState.VariantsUpToNext | src/component/Container/ProductsSection/CreateProducts.jsx:349 | appending row i to the entries of rows before i gives the entries of rows up to i |
| ProductFormState.AppendVariants | src/component/Container/ProductsSection/CreateProducts.jsx:349-370 | the loop appends the entries of every row, in row order |
| ProductFormState.CapAlert | src/component/Container/ProductsSection/CreateProducts.jsx:143 | at most one toast, raised exactly when files were cut and naming the remaining room |
| ProductSubmit.ImagesUnderFiles | src/component/Container/ProductsSection/CreateProducts.jsx:339-347 | read back under the file name, an image list gives exactly its picked files, in order |
| ProductSubmit.ImagesUnderUrls | src/component/Container/ProductsSection/CreateProducts.jsx:339-347 | read back under the URL name, an image list gives exactly its stored URLs, in order |
| ProductSubmit.ImagesUnderOther | src/component/Container/ProductsSection/CreateProducts.jsx:339-347 | an image list puts nothing under any other name |
| ProductSubmit.ScalarKeysDistinct | src/component/Container/ProductsSection/CreateProducts.jsx:310-330 | the fifteen single entries of the product use fifteen different names |
| ProductSubmit.ImageFieldsValues | src/component/Container/ProductsSection/CreateProducts.jsx:339-347 | the main images' entries hold the picked files under `productImages`, the stored URLs under `existingImages` and nothing elsewhere |
| ProductSubmit.VariantImageFieldsValues | src/component/Container/ProductsSection/CreateProducts.jsx:355-362 | variant i's image entries hold its picked files and stored URLs under its two image names and nothing elsewhere |
| ProductSubmit.VariantScalarKeysDistinct | src/component/Container/ProductsSection/CreateProducts.jsx:363-369 | the seven single entries of a variant use seven different names |
| ProductSubmit.VariantScalarValues | src/component/Container/ProductsSection/CreateProducts.jsx:363-369 | variant i's single entries give each of its seven non-image names exactly its own value, and nothing under any other name |
| ProductSubmit.VariantFieldsValues | src/component/Container/ProductsSection/CreateProducts.jsx:349-370 | all of variant i's entries give each `variants[i][...]` name exactly that variant's values, and nothing under any other name |
| ProductSubmit.VariantsUpToValues | src/component/Container/ProductsSection/CreateProducts.jsx:349-370 | the entries of the first n variants give `variants[i][...]` the values of variant i for i < n, and nothing for any other name |
| ProductSubmit.ValuesOfFive | src/component/Container/ProductsSection/CreateProducts.jsx:309-371 | reading a name back from five consecutive groups of entries reads it from each group in turn |
| ProductSubmit.EncodeValues | src/component/Container/ProductsSection/CreateProducts.jsx:303-372 | what the whole body holds under any name: its single entry, the keywords, the tags, the main images split by kind, or the indexed variant's values |
| ProductSubmit.Encode | src/component/Container/ProductsSection/CreateProducts.jsx:303-372 | the entries `handleSubmit` appends, in order: the fifteen single fields, the keywords, the tags, the main images, then every variant, in either mode; what it holds under each name is `EncodeValues` |
| ProductSubmit.ScalarValue | src/component/Container/ProductsSection/CreateProducts.jsx:310-330 | each single entry of the product is the only value under its name in the whole body |
| ProductSubmit.SubmitPrices | src/component/Container/ProductsSection/CreateProducts.jsx:305-321 | in variant mode price and offer price go out as 0 while the discount is still computed from the typed product prices; otherwise the typed prices go out |
| ProductSubmit.SubmitScalars | src/component/Container/ProductsSection/CreateProducts.jsx:310-330 | name, description, slug, stock, weight and canonical tag each go out exactly once, under their own names, with the draft's text, in either mode |
| ProductSubmit.SubmitListingFields | src/component/Container/ProductsSection/CreateProducts.jsx:310-330 | category and brand ids, both flags as booleans, meta title and meta description each go out exactly once with the draft's value, in either mode |
| ProductSubmit.NotAScalar | src/component/Container/ProductsSection/CreateProducts.jsx:310-330 | no single entry uses a list, image or variant name |
| ProductSubmit.SubmitKeywordsAndTags | src/component/Container/ProductsSection/CreateProducts.jsx:331-337 | the keywords and the tags go out as repeated entries, all of them, in order |
| ProductSubmit.SubmitImages | src/component/Container/ProductsSection/CreateProducts.jsx:339-347 | picked main images go out as `productImages` and stored ones as `existingImages`, each in order |
| ProductSubmit.SubmitVariant | src/component/Container/ProductsSection/CreateProducts.jsx:349-370 | variant i is read back under `variants[i][...]` with exactly its own values; an index past the last variant holds nothing |
| ProductSubmit.HydrateThenSubmit | src/component/Container/ProductsSection/CreateProducts.jsx:62-99 | a stored product opened and saved unchanged sends each variant's name and type back under the names they were read from, every stored image as an existing image, and no file |
| ProductSubmit.HydrateThenSubmitScalars | src/component/Container/ProductsSection/CreateProducts.jsx:62-99 | a stored product opened and saved unchanged in simple mode sends each scalar back under its own name as stored, except that a product-level number 0 goes out as an empty string |
| ProductSubmit.HydrateThenSubmitVariantNumbers | src/component/Container/ProductsSection/CreateProducts.jsx:82-88 | opening a stored product and saving it unchanged sends each variant's price, offer price and stock back as stored, a 0 included, and its weight through `|| ""` (line 369), so a stored weight of 0 goes out empty |
| ProductSubmit.StoredZeroPrice | src/component/Container/ProductsSection/CreateProducts.jsx:67 | a stored product price of 0 opens as "" and is sent as "", while a variant price of 0 is sent as "0" |
| ProductSubmit.RepeatedStrsSnoc | src/component/Container/ProductsSection/CreateProducts.jsx:331-337 | one more list element is one more entry at the end |
| ProductsSection.FilteredProducts | src/component/Container/ProductsSection/ProductsSection.jsx:149-152 | a product is listed exactly when its name or SKU contains the search ignoring case, and the list is never longer than the products |
| ProductsSection.FilteredProductsKeepsOrder | src/component/Container/ProductsSection/ProductsSection.jsx:149-152 | the filter keeps list order: filtering a concatenation filters each part, and a single product stays exactly when its name or SKU matches |
| ProductsSection.EmptySearchNeedsNameOrSku | src/component/Container/ProductsSection/ProductsSection.jsx:149-152 | with an empty search a product is listed exactly when it has a name or a SKU |
| ProductsSection.ProductImage | src/component/Container/ProductsSection/ProductsSection.jsx:154-162 | the thumbnail is the first product image, else the first image of the first variant, and there is none exactly when neither exists |
| ProductsSection.SubmitRequests | src/component/Container/ProductsSection/ProductsSection.jsx:107-121 | the product list is always refetched last; before it, add mode creates with the form body, and update mode updates by the edited product's slug only when that product has an id |
| ProductsSection.ProductsPage.constructor | src/component/Container/ProductsSection/ProductsSection.jsx:33-35 | the popup starts closed, in add mode, with no product being edited |
| ProductsSection.ProductsPage.HandleAdd | src/component/Container/ProductsSection/ProductsSection.jsx:95-99 | opens the popup in add mode with no product being edited |
| ProductsSection.ProductsPage.HandleUpdate | src/component/Container/ProductsSection/ProductsSection.jsx:101-105 | opens the popup in update mode on the given product |
| ProductsSection.ProductsPage.HandleSubmit | src/component/Container/ProductsSection/ProductsSection.jsx:107-121 | dispatches exactly the requests `ProductsSection.SubmitRequests` lists for the current mode and product |
| ProductsSection.ModeDecidesRequest | src/component/Container/ProductsSection/ProductsSection.jsx:95-121 | after "add" a submit creates; after "update" on a stored product it updates that product by slug; update mode with no product only refetches |
| ProductDetails.CurrentVariant | src/component/Container/ProductsDetailsSection/ProductsDetailsSection.jsx:26 | the selected variant exists exactly when the product has variants and the index is in range, and it is the indexed one |
| ProductDetails.ShownImages | src/component/Container/ProductsDetailsSection/ProductsDetailsSection.jsx:28-31 | the gallery shows the variant's images when it has some, else the product's images, else none |
| ProductDetails.DisplayName | src/component/Container/ProductsDetailsSection/ProductsDetailsSection.jsx:33-35 | "product \| variant" exactly when the variant has a non-empty name, else the product name |
| ProductDetails.Coalesce | src/component/Container/ProductsDetailsSection/ProductsDetailsSection.jsx:38 | the first operand when present, else the second |
| ProductDetails.DisplayPrice | src/component/Container/ProductsDetailsSection/ProductsDetailsSection.jsx:37-38 | the `??` chain in order: the variant offer price, else the variant price, else the product offer price, else the product price; no price exactly when all four are absent |
| ProductDetails.NoOfferShowsOriginal | src/component/Container/ProductsDetailsSection/ProductsDetailsSection.jsx:37-41 | without an offer price on the variant or the product, the shown price is the struck-through one and the discount badge shows 0 |
| ProductDetails.OriginalPrice | src/component/Container/ProductsDetailsSection/ProductsDetailsSection.jsx:39 | the variant's price when present, else the product's |
| ProductDetails.Round | src/component/Container/ProductsDetailsSection/ProductsDetailsSection.jsx:41 | `Math.round` lands within one half of its argument, half-way cases going up |
| ProductDetails.DiscountPercent | src/component/Container/ProductsDetailsSection/ProductsDetailsSection.jsx:40-41 | 0 unless the shown price is below the original; otherwise the rounded percentage off |
| ProductDetails.DiscountInRange | src/component/Container/ProductsDetailsSection/ProductsDetailsSection.jsx:40-41 | with prices 0 <= shown < original the badge is between 0 and 100, and a free item shows 100 |
| ProductDetails.CurrentStock | src/component/Container/ProductsDetailsSection/ProductsDetailsSection.jsx:42 | the variant's stock when present, else the product's |
| ProductDetails.DetailsView.constructor | src/component/Container/ProductsDetailsSection/ProductsDetailsSection.jsx:12-13 | the first variant and the first image are selected |
| ProductDetails.DetailsView.HandleVariantSelect | src/component/Container/ProductsDetailsSection/ProductsDetailsSection.jsx:44-47 | selecting a variant also goes back to its first image |
| ProductDetails.DetailsView.HandleImageSelect | src/component/Container/ProductsDetailsSection/ProductsDetailsSection.jsx:92 | selects the clicked image and keeps the variant |
| ProductDetails.DetailsView.OnProductLoaded | src/component/Container/ProductsDetailsSection/ProductsDetailsSection.jsx:21-24 | a loaded product resets the image, and the variant too when the product has variants |
| OrderSection.FilteredOrders | src/component/Container/OrderSection/OrderSection.jsx:34-45 | no orders unless the store holds a list; every order for a blank search; otherwise exactly the stored orders whose order id, name, email or id contains the lower-cased search |
| OrderSection.FilteredOrdersKeepsOrder | src/component/Container/OrderSection/OrderSection.jsx:34-45 | for a non-blank search the filter keeps store order: filtering a concatenation filters each part, and a single order stays exactly when one of its fields matches |
| OrderSection.StatusUpdateEmptiesTable | src/store/slice/OrderSlice.js:86-91 | after a status update the store holds the response object rather than a list, so the table is empty whatever the search |
| OrderSection.CeilDiv | src/component/Container/OrderSection/OrderSection.jsx:48 | the ceiling of the quotient: the least number of pages that cover the count |
| OrderSection.TotalPages | src/component/Container/OrderSection/OrderSection.jsx:48 | at least one page, exactly one when there are no orders, enough pages of ten for every order, and no page more than needed |
| OrderSection.Slice | src/component/Container/OrderSection/OrderSection.jsx:50 | `slice` returns the range when it lies in the list and nothing when it starts past the end |
| OrderSection.Paginated | src/component/Container/OrderSection/OrderSection.jsx:49-50 | a page holds at most ten orders, each the order at its offset from the page start |
| OrderSection.StalePageShowsNothing | src/component/Container/OrderSection/OrderSection.jsx:49-50 | a page that starts past the end of the narrowed list shows nothing, since searching does not reset the page |
| OrderSection.OrderOnItsPage | src/component/Container/OrderSection/OrderSection.jsx:48-50 | every order is shown on page `k / 10 + 1`, a real page, at position `k % 10` |
| OrderSection.ItemsCount | src/component/Container/OrderSection/OrderSection.jsx:52-54 | the sum of the item quantities, a missing quantity counting as 0, and 0 when the order has no items |
| OrderSection.SumQuantitiesConcat | src/component/Container/OrderSection/OrderSection.jsx:53 | the count of two item lists together is the sum of their counts |
| OrderSection.CountCoversEachItem | src/component/Container/OrderSection/OrderSection.jsx:53 | with no negative quantities the count is at least each single quantity |
| OrderSection.NonNegativeSum | src/component/Container/OrderSection/OrderSection.jsx:53 | with no negative quantities the count is not negative |
| OrderSection.ClampPage | src/component/Container/OrderSection/OrderSection.jsx:71-73 | the page moved to is always a real page: the request when valid, else the nearest end |
| OrderSection.Range | src/component/Container/OrderSection/OrderSection.jsx:92 | the consecutive pages from lo to hi, empty when hi < lo |
| OrderSection.PageButtons | src/component/Container/OrderSection/OrderSection.jsx:81-105 | no buttons for a single page; otherwise the loop yields the consecutive pages of the computed window |
| OrderSection.RangeSnoc | src/component/Container/OrderSection/OrderSection.jsx:92 | a range ending at hi is the range ending at hi - 1 followed by hi |
| OrderSection.WindowShowsCurrentPage | src/component/Container/OrderSection/OrderSection.jsx:81-105 | on a valid page the window holds five consecutive real pages, fewer only when there are fewer pages, and the current page is among them |
| OrderSection.ShowingRange | src/component/Container/OrderSection/OrderSection.jsx:110 | the caption starts at the page's first order and ends at the page's tenth slot or at the last order, whichever comes first |
| OrderSection.ShowingRangeMatchesPage | src/component/Container/OrderSection/OrderSection.jsx:110 | on a page that shows orders the caption counts exactly the orders on the page and starts at the first of them |
| OrderSection.OrdersPage.constructor | src/component/Container/OrderSection/OrderSection.jsx:13-16 | empty search, page 1, no order selected, detail closed |
| OrderSection.OrdersPage.HandleSearch | src/component/Container/OrderSection/OrderSection.jsx:239 | the search takes the typed text and the page is not reset |
| OrderSection.OrdersPage.HandlePageChange | src/component/Container/OrderSection/OrderSection.jsx:71-73 | the page becomes the request clamped into 1 to the page count |
| OrderSection.OrdersPage.HandleViewOrder | src/component/Container/OrderSection/OrderSection.jsx:66-69 | selects the order and opens the detail popup |
| OrderSection.OrdersPage.CloseDetail | src/component/Container/OrderSection/OrderSection.jsx:141 | closes the detail popup and keeps the selection |
| UserSection.FilteredUsers | src/component/Container/UserSection/UserSection.jsx:30-43 | no users loaded gives an empty table; otherwise a user is shown exactly when the search matches (name and e-mail ignoring case, mobile as typed) and the status filter admits them |
| UserSection.FilteredUsersKeepsOrder | src/component/Container/UserSection/UserSection.jsx:30-43 | the filters keep list order: filtering a concatenation filters each part, and a single user stays exactly when both filters let them through |
| UserSection.EmptySearchFiltersByStatusOnly | src/component/Container/UserSection/UserSection.jsx:30-43 | with an empty search only the status filter decides, and under "all" every user is shown |
| UserSection.Insert | src/component/Container/UserSection/UserSection.jsx:45-56 | inserting one user into the sorted prefix lengthens it by one |
| UserSection.InsertPermutes | src/component/Container/UserSection/UserSection.jsx:45-56 | inserting adds exactly that user and keeps everyone else |
| UserSection.SortUsers | src/component/Container/UserSection/UserSection.jsx:45-56 | sorting keeps the number of users; that the result is sorted, a permutation and stable is stated by `SortUsersSorted`, `SortUsersPermutes` and `SortUsersStable` |
| UserSection.InsertBounded | src/component/Container/UserSection/UserSection.jsx:45-56 | inserting under a bound every key respects keeps every key under it |
| UserSection.InsertSorted | src/component/Container/UserSection/UserSection.jsx:45-56 | inserting into a list ordered by the comparator key keeps it ordered |
| UserSection.SortUsersSorted | src/component/Container/UserSection/UserSection.jsx:45-56 | the sorted users are ordered by the chosen key: newest, oldest, by name, or unchanged |
| UserSection.SortUsersPermutes | src/component/Container/UserSection/UserSection.jsx:45-56 | sorting drops and duplicates nobody |
| UserSection.InsertKeepsKeyGroups | src/component/Container/UserSection/UserSection.jsx:45-56 | inserting a user puts them after every user with the same key and keeps those users in their order |
| UserSection.SortUsersStable | src/component/Container/UserSection/UserSection.jsx:45-56 | the sort is stable: for every key, the users with that key appear in the result in their input order |
| UserSection.InsertAtEnd | src/component/Container/UserSection/UserSection.jsx:45-56 | a user whose key is not below the last key goes to the end, so equal keys keep their order |
| UserSection.EqualKeysKeepOrder | src/component/Container/UserSection/UserSection.jsx:45-56 | when every key is equal the order is kept, as the stable sort does |
| UserSection.UnsortedKeepsOrder | src/component/Container/UserSection/UserSection.jsx:53-54 | an unknown sort option keeps the filtered order |
| UserSection.NewestFirst | src/component/Container/UserSection/UserSection.jsx:47-48 | under "newest" sign-up times never increase down the table |
| UserSection.Ids | src/component/Container/UserSection/UserSection.jsx:79 | the ids of the rows, in row order |
| UserSection.SelectAll | src/component/Container/UserSection/UserSection.jsx:75-81 | a selection as long as the table is cleared; any other is replaced by the ids of every row |
| UserSection.SelectAllComparesLengths | src/component/Container/UserSection/UserSection.jsx:76 | the test compares lengths only: a stale id counts as a full selection and is cleared, while an empty one is completed |
| UserSection.UsersPage.constructor | src/component/Container/UserSection/UserSection.jsx:21-24 | empty search, filter "all", sort "newest", nothing selected |
| UserSection.UsersPage.HandleSearch | src/component/Container/UserSection/UserSection.jsx:104 | the search takes the typed text |
| UserSection.UsersPage.HandleFilterStatus | src/component/Container/UserSection/UserSection.jsx:113 | the status filter takes the chosen option |
| UserSection.UsersPage.HandleSortBy | src/component/Container/UserSection/UserSection.jsx:123 | the sort takes the chosen option |
| UserSection.UsersPage.SortedUsers | src/component/Container/UserSection/UserSection.jsx:30-56 | the rows are exactly the filtered users, each once, ordered by the chosen key |
| UserSection.UsersPage.HandleSelectUser | src/component/Container/UserSection/UserSection.jsx:67-73 | the clicked id flips in or out, every other id keeps its state, and a selection without repeats stays without repeats |
| UserSection.UsersPage.HandleSelectAll | src/component/Container/UserSection/UserSection.jsx:75-81 | the selection becomes `UserSection.SelectAll` of the old selection and the rows |
| ReportSection.Payload | src/component/Container/ReportsSection/ReportSection.jsx:68-71 | the payload is the period followed by the six filters, seven keys in all |
| ReportSection.CleanPayload | src/component/Container/ReportsSection/ReportSection.jsx:72-76 | the cleanup loop keeps exactly the entries that are neither empty text nor `false`, in key order |
| ReportSection.FilterSingle | src/component/Container/ReportsSection/ReportSection.jsx:73 | one entry survives the cleanup exactly when it is kept |
| ReportSection.CleanedUnfold | src/component/Container/ReportsSection/ReportSection.jsx:67-76 | the cleaned payload is the cleanup of each of the seven keys in turn |
| ReportSection.NoFiltersQuery | src/component/Container/ReportsSection/ReportSection.jsx:67-78 | with no filter set the report is requested with the period alone |
| ReportSection.Last30Cleaned | src/component/Container/ReportsSection/ReportSection.jsx:67-76 | ticking "Last 30 Days" alone leaves exactly the period and `last30: true` |
| ReportSection.Last30Query | src/store/slice/reportSlice.js:9-18 | ticking "Last 30 Days" alone sends `last30=true` twice: once from the payload and once from the thunk |
| ReportSection.CleanedAllAppended | src/store/slice/reportSlice.js:10-14 | no entry left by the cleanup is one the thunk would skip |
| ReportSection.TotalSold | src/component/Container/ReportsSection/ReportSection.jsx:157-161 | no best sellers gives 0; when every count is present the total is their sum |
| ReportSection.MissingCountZeroesTotal | src/component/Container/ReportsSection/ReportSection.jsx:157-161 | one best seller without a count turns the sum into NaN, and the total shown is 0 |
| ReportSection.MissingCountPoisons | src/component/Container/ReportsSection/ReportSection.jsx:158-160 | one missing count makes the running sum undefined, whatever the others are |
| ReportSection.RowName | src/component/Container/ReportsSection/ReportSection.jsx:167-176 | "name (variant)" exactly when the product is a variant product whose first variant has a non-empty name, else the product name or "N/A"; never empty |
| ReportSection.PlainProductShowsName | src/component/Container/ReportsSection/ReportSection.jsx:169-172 | a product flagged as not a variant product shows its bare name, whatever variants it carries |
| ReportSection.Row | src/component/Container/ReportsSection/ReportSection.jsx:167-182 | a table row: the title `RowName`, the sold count or 0 when it is missing, and the revenue or 0 when it is missing |
| ReportSection.TableRows | src/component/Container/ReportsSection/ReportSection.jsx:167 | no best sellers gives no rows; otherwise one row per best seller, in order |
| ReportSection.TotalIsSoldColumn | src/component/Container/ReportsSection/ReportSection.jsx:157-161 | when every best seller has a count, "Total Products Sold" equals the sum of the table's "Sold" column |
| ReportSection.ProductImage | src/component/Container/ReportsSection/ReportSection.jsx:203-211 | the first product image when there is one; `undefined` exactly when the first variant has an empty image list |
| ReportSection.SameThumbnailAsProductsPage | src/component/Container/ReportsSection/ReportSection.jsx:203-211 | apart from `undefined` against `null`, the thumbnail is the same as on the products page |
| ReportSection.BrandColour | src/component/Container/ReportsSection/ReportSection.jsx:219-223 | the brand at an index takes the palette colour at index mod 4 |
| ReportSection.BrandColoursCycle | src/component/Container/ReportsSection/ReportSection.jsx:222 | four neighbouring brands get four different colours, and the fifth repeats the first |
| ReportSection.WithFilter | src/component/Container/ReportsSection/ReportSection.jsx:80-85 | the chosen text filter takes the value and every other filter, the toggle included, is unchanged |
| ReportSection.ReportPage.constructor | src/component/Container/ReportsSection/ReportSection.jsx:46-55 | the period is "month", the panel hidden and no filter set |
| ReportSection.ReportPage.SetFilterType | src/component/Container/ReportsSection/ReportSection.jsx:266 | the period takes the chosen option |
| ReportSection.ReportPage.ToggleFilters | src/component/Container/ReportsSection/ReportSection.jsx:274 | the filter panel flips between shown and hidden |
| ReportSection.ReportPage.HandleFilterChange | src/component/Container/ReportsSection/ReportSection.jsx:80-85 | the filters change as `ReportSection.WithFilter` says |
| ReportSection.ReportPage.ToggleLast30 | src/component/Container/ReportsSection/ReportSection.jsx:332 | the "Last 30 Days" toggle flips and nothing else changes |
| ReportSection.ReportPage.LastSevenDays | src/component/Container/ReportsSection/ReportSection.jsx:338-344 | the date range becomes last week to today and the 30-day toggle goes off |
| ReportSection.ReportPage.ResetFilters | src/component/Container/ReportsSection/ReportSection.jsx:87-96 | every filter is cleared, so the report is requested by period alone |
| ReportSection.ReportPage.CurrentQuery | src/component/Container/ReportsSection/ReportSection.jsx:67-78 | the query sent is the cleaned payload as the thunk turns it into parameters |
| ReportSection.Query | src/component/Container/ReportsSection/ReportSection.jsx:67-78 | the query of a filter state: its cleaned payload turned into parameters (a definition, read through `CurrentQuery`, `NoFiltersQuery` and `Last30Query`) |
| ProductSlice.ProductStore.constructor | src/store/slice/productSlice.js:95-108 | every product request starts idle, with no products and no single product |
| ProductSlice.ProductStore.SetStatus | src/store/slice/productSlice.js:123-190 | one request's status takes the new value and the other two requests keep theirs |
| ProductSlice.ProductStore.ClearMsg | src/store/slice/productSlice.js:110-121 | clears both messages of that request only |
| ProductSlice.ProductStore.OpPending | src/store/slice/productSlice.js:125-129 | the request is loading with both of its messages cleared; the other requests are untouched |
| ProductSlice.ProductStore.OpFulfilled | src/store/slice/productSlice.js:130-134 | the request stops loading and reports the server's message or its fixed success text; the other requests are untouched |
| ProductSlice.ProductStore.OpRejected | src/store/slice/productSlice.js:135-138 | the request stops loading and reports the payload or its fixed failure text; the other requests are untouched |
| ProductSlice.ProductStore.GetPending | src/store/slice/productSlice.js:140-142 | the list fetch and the single fetch both raise the shared loading flag |
| ProductSlice.ProductStore.GetProductsFulfilled | src/store/slice/productSlice.js:143-146 | loading stops and the list is the payload's products, or empty |
| ProductSlice.ProductStore.GetSingleFulfilled | src/store/slice/productSlice.js:154-157 | loading stops and the single product is the payload's |
| ProductSlice.ProductStore.GetRejected | src/store/slice/productSlice.js:147-149 | a failed fetch only stops loading |
| ProductSlice.CreateThenFailedDelete | src/store/slice/productSlice.js:125-190 | a create that succeeds followed by a delete that fails reports both messages, and the update status is untouched |
| TypeSlice.RejectedAsIs | src/store/slice/typeSlice.js:154-157 | a rejected create stops loading, keeps the success message and stores the payload itself as the error |
| TypeSlice.SilentRejection | src/store/slice/typeSlice.js:154-157 | a create rejected without a payload leaves no message at all, unlike the product slice, which falls back to a fixed text |
| TypeSlice.TypeStore.constructor | src/store/slice/typeSlice.js:120-134 | no types, no single type, no values, no value group, idle |
| TypeSlice.TypeStore.ClearTypeMessage | src/store/slice/typeSlice.js:137-140 | both messages are cleared |
| TypeSlice.TypeStore.CreatePending | src/store/slice/typeSlice.js:145-149 | loading with both messages cleared |
| TypeSlice.TypeStore.CreateFulfilled | src/store/slice/typeSlice.js:150-153 | loading stops and the success message is the server's or "Type created!" / "Type name created!" |
| TypeSlice.TypeStore.CreateRejected | src/store/slice/typeSlice.js:190-193 | loading stops and the error is the payload as it is |
| TypeSlice.TypeStore.FetchPending | src/store/slice/typeSlice.js:159-161 | a fetch raises loading and keeps both messages |
| TypeSlice.TypeStore.FetchRejected | src/store/slice/typeSlice.js:166-168 | a failed fetch only stops loading |
| TypeSlice.TypeStore.GetTypesFulfilled | src/store/slice/typeSlice.js:162-165 | loading stops and the types are the payload's, or empty |
| TypeSlice.TypeStore.GetTypeByIdFulfilled | src/store/slice/typeSlice.js:173-176 | loading stops and the single type is the payload's |
| TypeSlice.TypeStore.GetTypeNamesFulfilled | src/store/slice/typeSlice.js:198-201 | loading stops and the values are the payload's, or empty |
| TypeSlice.TypeStore.GetTypeNamesByTypeIdFulfilled | src/store/slice/typeSlice.js:209-212 | loading stops and the value group is the payload's, or the empty array |
| OrderSlice.UpdateMessage | src/store/slice/OrderSlice.js:89-90 | the response's message when it has a non-empty one, else "Orders fetched successfully!" |
| OrderSlice.OrderStore.constructor | src/store/slice/OrderSlice.js:50-55 | an empty order list, not loading, no messages |
| OrderSlice.OrderStore.ClearAdminOrderError | src/store/slice/OrderSlice.js:58-60 | the error is cleared |
| OrderSlice.OrderStore.ClearAdminOrderMessage | src/store/slice/OrderSlice.js:61-63 | the success message is cleared |
| OrderSlice.OrderStore.Pending | src/store/slice/OrderSlice.js:68-72 | loading with both messages cleared |
| OrderSlice.OrderStore.GetFulfilled | src/store/slice/OrderSlice.js:73-76 | loading stops and the orders are the response's list, or empty |
| OrderSlice.OrderStore.UpdateFulfilled | src/store/slice/OrderSlice.js:86-91 | loading stops, the orders are replaced by the response's data whatever it is, and the success message is set |
| OrderSlice.OrderStore.Rejected | src/store/slice/OrderSlice.js:77-80 | loading stops and the error is the payload or "Failed to fetch admin orders" |
| ReportSlice.EntryParams | src/store/slice/reportSlice.js:10-14 | never more parameters than entries |
| ReportSlice.ReportParams | src/store/slice/reportSlice.js:9-18 | the parameters of a payload: its entries that are neither undefined, null nor empty, in order (so `false` and `0` are sent), then `last30=true` once more when `last30` is truthy (read through `BuildParams` and `Last30SentTwice`) |
| ReportSlice.BuildParams | src/store/slice/reportSlice.js:9-18 | the loop appends each entry that is neither undefined, null nor empty, in order, and then `last30=true` once more when the payload's `last30` is truthy |
| ReportSlice.EntryParamsSound | src/store/slice/reportSlice.js:10-14 | every parameter comes from an appended entry, under that entry's key |
| ReportSlice.EntryParamsComplete | src/store/slice/reportSlice.js:10-14 | every appended entry appears in the query |
| ReportSlice.CountKeyConcat | src/store/slice/reportSlice.js:10-18 | the count of a key in two parameter lists together is the sum of the counts |
| ReportSlice.EntryParamsKeyAbsent | src/store/slice/reportSlice.js:10-14 | entries under other keys add no parameter under a given key |
| ReportSlice.Last30SentTwice | src/store/slice/reportSlice.js:10-18 | a payload with `last30: true` sends the `last30` parameter exactly twice |
| ReportSlice.EntryParamsConcat | src/store/slice/reportSlice.js:10-14 | the parameters of two entry lists together are the parameters of each in turn |
| ReportSlice.ReportStore.constructor | src/store/slice/reportSlice.js:36-40 | no report, not loading, no error |
| ReportSlice.ReportStore.ClearReportError | src/store/slice/reportSlice.js:42-44 | the error is cleared |
| ReportSlice.ReportStore.FetchPending | src/store/slice/reportSlice.js:48-50 | a new request raises loading and keeps the previous error |
| ReportSlice.ReportStore.FetchFulfilled | src/store/slice/reportSlice.js:51-54 | loading stops and the report is the payload |
| ReportSlice.ReportStore.FetchRejected | src/store/slice/reportSlice.js:55-58 | loading stops and the error is the payload or "Failed to load report" |
| ReportSlice.StaleErrorSurvives | src/store/slice/reportSlice.js:48-58 | a failure followed by a success still shows the failure's error next to the new report |
| Validation.FirstFailure | src/component/Container/DealsSection/CreateDeals.jsx:161-167 | no warning exactly when every guard passes; otherwise the warning of a guard that fails with all earlier guards passing |
| Validation.FirstFailureIs | src/component/Container/DealsSection/CreateDeals.jsx:161-167 | the first failing guard decides the warning whatever the later guards say |
| Validation.Submit | src/component/Container/ProductsSection/CreateProducts.jsx:252-254 | the request goes out exactly when every guard passes, and unchanged; otherwise the warning of the first failing guard |
| AsyncOp.OrDefault | src/store/slice/productSlice.js:132-133 | a non-empty payload message wins; an absent or empty one gives the fixed fallback |
| AsyncOp.Pending | src/store/slice/productSlice.js:125-129 | loading, with both messages cleared |
| AsyncOp.Fulfilled | src/store/slice/productSlice.js:130-134 | not loading; a success message that is the payload's when it is non-empty and the fixed text otherwise; the error message is kept |
| AsyncOp.Rejected | src/store/slice/productSlice.js:135-138 | not loading; an error message that is the payload's when it is non-empty and the fixed text otherwise; the success message is kept |
| AsyncOp.Cleared | src/store/slice/productSlice.js:110-113 | both messages cleared, the loading flag untouched |
| AsyncOp.SettledHasOneMessage | src/store/slice/productSlice.js:125-138 | a request that starts and settles leaves a success message exactly when it succeeded and an error message exactly when it failed |
| FormCommon.FirstFile | src/component/Container/BrandsSection/CreateBrands.jsx:82 | absent exactly when no file was picked, otherwise the first picked file |
| FormCommon.CreateOrUpdate | src/component/Container/DealsSection/CreateDeals.jsx:178-182 | an update of the edited record exactly when one is being edited, a create otherwise, with the same body either way |
| FormCommon.ToggleOneTwo | src/component/Container/TypeSection/CreateType.jsx:42 | the result is 1 or 2, and 2 exactly when the status was 1 |
| FormCommon.ToggleOneZero | src/component/Container/BrandsSection/CreateBrands.jsx:78 | the result is 0 or 1, and 0 exactly when the status was 1 |
| FormCommon.TogglesUndoThemselves | src/component/Container/SubcategoriesSection/AddSubCategori.jsx:68 | two clicks restore a status on the toggle's own two codes; one click turns any other code into active |
| FormCommon.NumOr | src/component/Container/DealsSection/CreateDeals.jsx:66 | a stored non-zero number is kept; an absent or zero one gives the default |
| FormCommon.SinglesThenFiles | src/component/Container/DealsSection/CreateDeals.jsx:169-176 | in a body of single entries, then one entry per file, then more single entries, the files read back in pick order and each single entry reads back alone |
| FormCommon.AppendFiles | src/component/Container/DealsSection/CreateDeals.jsx:172 | the body gains one entry per file under the one name, in pick order, after what it held |
| FormCommon.TextOr | src/component/Container/DealsSection/CreateDeals.jsx:57-58 | a stored non-empty text is kept; an absent or empty one gives the fallback |
| FormCommon.DateInput | src/component/Container/DealsSection/CreateDeals.jsx:63-64 | at most ten characters, a prefix of the stored timestamp, exactly its first ten when it has them, empty when there is none |
| PairedImages.Remotes | src/component/Container/DealsSection/CreateDeals.jsx:69 | one stored-image preview per stored url, in order |
| PairedImages.ObjectUrls | src/component/Container/DealsSection/CreateDeals.jsx:137 | one object-url preview per picked file, in order |
| PairedImages.Hydrated | src/component/Container/DealsSection/CreateDeals.jsx:68-69 | an edited record shows all its stored images, with nothing to upload, and the lists are aligned |
| PairedImages.Appended | src/component/Container/DealsSection/CreateDeals.jsx:139-143 | both lists keep their entries and grow by the picks in pick order, the previews as object urls of the files |
| PairedImages.AppendedStaysAligned | src/component/Container/DealsSection/CreateDeals.jsx:133-144 | picking files keeps every preview paired with its file and the stored images in front |
| PairedImages.SpliceAndFilterAgree | src/component/Container/BannerSection/CreateBanner.jsx:86-92 | for a shown preview, splicing copies of both lists and filtering both lists by index remove the same entries |
| PairedImages.SplicedBoth | src/component/Container/DealsSection/CreateDeals.jsx:146-156 | the deal and offer removal as written: `splice(index, 1)` on copies of the files and of the previews (a definition; its consequences are `RemovalMisalignsAfterHydration` and `SplicedFreshStaysAligned`) |
| PairedImages.FilteredBoth | src/component/Container/BannerSection/CreateBanner.jsx:86-92 | the banner removal as written: the same position filtered out of the files and the previews (a definition; see `SpliceAndFilterAgree`) |
| PairedImages.SplicedFreshStaysAligned | src/component/Container/DealsSection/CreateDeals.jsx:146-156 | with no stored image on screen the splice removal keeps every preview with its file |
| PairedImages.FreshListsStayAligned | src/component/Container/AdBanner/CreateAdBanner.jsx:65-71 | with no stored image on screen, the removal as written keeps the lists aligned |
| PairedImages.RemovalMisalignsAfterHydration | src/component/Container/DealsSection/CreateDeals.jsx:146-156 | after loading a record with one stored image and picking one file, removing either preview leaves the lists misaligned |
| PairedImages.Removed | src/component/Container/DealsSection/CreateDeals.jsx:146-156 | the preview at the index goes; the file it shows goes with it, found by counting past the stored images; a stored image's removal keeps every file; an index off screen changes nothing |
| PairedImages.RemovedStaysAligned | src/component/Container/DealsSection/CreateDeals.jsx:146-156 | the intended removal keeps the lists aligned, with one stored image fewer exactly when a stored image was removed |
| PairedImages.RemovedAgreesWhenNothingStored | src/component/Container/BannerSection/CreateBanner.jsx:86-92 | where nothing stored is on screen, the intended removal is the one the code performs |
| CreateDealForm.HydratedDeal | src/component/Container/DealsSection/CreateDeals.jsx:50-70 | title and description default to empty; the three prices and the maximum quantity keep a non-zero stored number and are otherwise empty text; both dates keep the first ten characters of the stored timestamp; the deal's product is kept only when it is among the loaded products, and otherwise cleared; priority falls back to 1 and is never falsy; featured only when stored as true; the stored banners become aligned previews with no file to upload |
| CreateDealForm.SetInput | src/component/Container/DealsSection/CreateDeals.jsx:125-131 | the typed input's own field takes the text, every other input's field stays, and the images and the featured flag are left alone |
| CreateDealForm.DealChecks | src/component/Container/DealsSection/CreateDeals.jsx:161-167 | the seven checks of `handleSubmit` with their warnings, in source order (a definition read through `SubmitDeal` and `DealWarnsInOrder`) |
| CreateDealForm.DealBody | src/component/Container/DealsSection/CreateDeals.jsx:169-176 | the body: every form key once in declaration order, one `dealBanner` entry per file, then the preview list (a definition read through `DealPayloadReadsBack`) |
| CreateDealForm.SubmitDeal | src/component/Container/DealsSection/CreateDeals.jsx:158-183 | the request goes out exactly when the trimmed title and product, both prices, the percentage and both dates are filled; otherwise the warning of the first missing one; a sent request is a create, or an update of the edited deal, of the encoded body |
| CreateDealForm.DealWarnsInOrder | src/component/Container/DealsSection/CreateDeals.jsx:161-162 | a blank title is reported before anything else, and a blank product next |
| CreateDealForm.DealChecksPass | src/component/Container/DealsSection/CreateDeals.jsx:161-167 | the seven guards all pass exactly when the seven required fields are filled |
| CreateDealForm.DealPayloadReadsBack | src/component/Container/DealsSection/CreateDeals.jsx:169-176 | the body holds every form key once with its value, the banner files one entry each in pick order, and the preview list once |
| CreateDealForm.DealModal.constructor | src/component/Container/DealsSection/CreateDeals.jsx:31-45 | the modal opens on the initial form |
| CreateDealForm.DealModal.HydrationEffect | src/component/Container/DealsSection/CreateDeals.jsx:50-72 | with a deal to edit and products loaded, the form becomes that deal's; otherwise it stays as it was |
| CreateDealForm.DealModal.ResetForm | src/component/Container/DealsSection/CreateDeals.jsx:101-118 | the initial form, and no deal under edit |
| CreateDealForm.DealModal.HandleClose | src/component/Container/DealsSection/CreateDeals.jsx:120-123 | the initial form, no deal under edit, and the modal closed |
| CreateDealForm.DealModal.HandleChange | src/component/Container/DealsSection/CreateDeals.jsx:125-131 | only the named field takes the typed text |
| CreateDealForm.DealModal.HandleFeaturedChange | src/component/Container/DealsSection/CreateDeals.jsx:129 | the checkbox sets the featured flag and nothing else |
| CreateDealForm.DealModal.HandleImageUpload | src/component/Container/DealsSection/CreateDeals.jsx:133-144 | no pick changes nothing; otherwise files and previews grow by the picks together, and aligned lists stay aligned |
| CreateDealForm.DealModal.RemoveImage | src/component/Container/DealsSection/CreateDeals.jsx:146-156 | as written: the same position is spliced out of the files and the previews; lists with no stored image stay aligned |
| CreateDealForm.DealModal.RemoveImageIntended | src/component/Container/DealsSection/CreateDeals.jsx:146-156 | the corrected removal (see Findings): the preview goes with the file it shows, and aligned lists stay aligned |
| CreateDealForm.DealModal.HandleSubmit | src/component/Container/DealsSection/CreateDeals.jsx:158-183 | either one warning toast and nothing sent, or the submitted request with no toast |
| CreateOfferForm.HydratedOffer | src/component/Container/OfferSection/CreateOffer.jsx:38-47 | a missing or zero status becomes 1, so the status is never 0; title and description default to empty; the percentage keeps a non-zero stored number and is otherwise empty text; dates keep their first ten characters, and the stored photos become aligned previews with no file to upload |
| CreateOfferForm.SetInput | src/component/Container/OfferSection/CreateOffer.jsx:84-87 | the typed input's own field takes the text, every other input's field stays, and the images and the status are left alone |
| CreateOfferForm.OfferChecks | src/component/Container/OfferSection/CreateOffer.jsx:124-127 | the four checks of `handleSubmit` with their warnings, in source order (a definition read through `SubmitOffer`) |
| CreateOfferForm.OfferBody | src/component/Container/OfferSection/CreateOffer.jsx:129-137 | the body of the offer request (a definition read through `OfferPayloadReadsBack`) |
| CreateOfferForm.SubmitOffer | src/component/Container/OfferSection/CreateOffer.jsx:121-144 | the request goes out exactly when the trimmed title, the percentage and both dates are filled; each missing one is reported in that order; a sent request is a create, or an update of the edited offer, of the encoded body |
| CreateOfferForm.OfferPayloadReadsBack | src/component/Container/OfferSection/CreateOffer.jsx:129-137 | the body holds each of the six fields once with its value, and the new photos one entry each in pick order |
| CreateOfferForm.OfferModal.constructor | src/component/Container/OfferSection/CreateOffer.jsx:23-32 | the modal opens on the initial form |
| CreateOfferForm.OfferModal.HydrationEffect | src/component/Container/OfferSection/CreateOffer.jsx:34-49 | with an offer to edit the form becomes that offer's; without one the form is reset |
| CreateOfferForm.OfferModal.ResetForm | src/component/Container/OfferSection/CreateOffer.jsx:65-77 | the initial form, and no offer under edit |
| CreateOfferForm.OfferModal.HandleClose | src/component/Container/OfferSection/CreateOffer.jsx:79-82 | the initial form, no offer under edit, and the modal closed |
| CreateOfferForm.OfferModal.HandleChange | src/component/Container/OfferSection/CreateOffer.jsx:84-87 | only the named field takes the typed text |
| CreateOfferForm.OfferModal.HandleStatusToggle | src/component/Container/OfferSection/CreateOffer.jsx:89-94 | the status flips between 1 and 2, and any other code becomes 1 |
| CreateOfferForm.OfferModal.HandleImageUpload | src/component/Container/OfferSection/CreateOffer.jsx:96-107 | no pick changes nothing; otherwise files and previews grow by the picks together, and aligned lists stay aligned |
| CreateOfferForm.OfferModal.RemoveImage | src/component/Container/OfferSection/CreateOffer.jsx:109-119 | as written: the same position is spliced out of the files and the previews; lists with no stored image stay aligned |
| CreateOfferForm.OfferModal.RemoveImageIntended | src/component/Container/OfferSection/CreateOffer.jsx:109-119 | the corrected removal (see Findings): the preview goes with the file it shows, and aligned lists stay aligned |
| CreateOfferForm.OfferModal.HandleSubmit | src/component/Container/OfferSection/CreateOffer.jsx:121-144 | either one warning toast and nothing sent, or the submitted request with no toast |
| CreateBannerForm.StoredUrls | src/component/Container/BannerSection/CreateBanner.jsx:27-31 | a stored array is shown as it is, a single non-empty URL as a one-image list, and a missing or empty one as no image |
| CreateBannerForm.HydratedBanner | src/component/Container/BannerSection/CreateBanner.jsx:21-33 | header and colour fall back to empty and white, a stored inactive flag survives while a missing one means active, and the stored images become aligned previews with no file to upload |
| CreateBannerForm.BannerPayloadReadsBack | src/component/Container/BannerSection/CreateBanner.jsx:94-100 | the body holds header, active flag and colour once each, and the new files one entry each in pick order |
| CreateBannerForm.BannerBody | src/component/Container/BannerSection/CreateBanner.jsx:94-100 | header, active flag and colour, then one `bannerImage` per new file (a definition read through `BannerPayloadReadsBack`) |
| CreateBannerForm.BannerModal.constructor | src/component/Container/BannerSection/CreateBanner.jsx:14-20 | the modal opens on the initial form, with a white colour and active |
| CreateBannerForm.BannerModal.HydrationEffect | src/component/Container/BannerSection/CreateBanner.jsx:21-43 | the edited banner's form, or the initial form when none is edited |
| CreateBannerForm.BannerModal.HandleChange | src/component/Container/BannerSection/CreateBanner.jsx:68-71 | the header and colour text inputs set only their own field; the colour picker leaves the form as it was |
| CreateBannerForm.Swatch | src/component/Container/BannerSection/CreateBanner.jsx:132 | the picker shows the colour code, or white when it is empty |
| CreateBannerForm.WithInput | src/component/Container/BannerSection/CreateBanner.jsx:68-71 | the header input sets the header, the colour text input sets the colour, the picker (whose name `colorCode` is not a field of the form) sets neither; images and the active flag are kept |
| CreateBannerForm.WithInputIntended | src/component/Container/BannerSection/CreateBanner.jsx:129-135 | the picker as evidently intended: it sets the colour code, like the text input |
| CreateBannerForm.PickedColourIsLost | src/component/Container/BannerSection/CreateBanner.jsx:129-135 | picking a colour changes neither the body sent nor the swatch; picking red on a new banner still shows and sends white |
| CreateBannerForm.PickedColourIsSent | src/component/Container/BannerSection/CreateBanner.jsx:99 | with the intended picker, a picked colour is what the swatch shows and the only `colourCode` value sent |
| CreateBannerForm.BannerModal.HandleStatusToggle | src/component/Container/BannerSection/CreateBanner.jsx:73-75 | the active flag is negated and nothing else changes |
| CreateBannerForm.BannerModal.HandleImageChange | src/component/Container/BannerSection/CreateBanner.jsx:77-84 | files and previews grow by the picks together, and aligned lists stay aligned |
| CreateBannerForm.BannerModal.RemoveImage | src/component/Container/BannerSection/CreateBanner.jsx:86-92 | as written: the same position is filtered out of the files and the previews; lists with no stored image stay aligned |
| CreateBannerForm.BannerModal.RemoveImageIntended | src/component/Container/BannerSection/CreateBanner.jsx:86-92 | the corrected removal (see Findings): the preview goes with the file it shows, and aligned lists stay aligned |
| CreateBannerForm.BannerModal.HandleSubmit | src/component/Container/BannerSection/CreateBanner.jsx:94-106 | every form is sent, with no check: an update of the edited banner or a create, carrying the encoded body |
| CreateBannerForm.BannerModal.HandleClose | src/component/Container/BannerSection/CreateBanner.jsx:108-118 | closed, no banner under edit, and the form with an empty colour |
| CreateAdBannerForm.HydratedAd | src/component/Container/AdBanner/CreateAdBanner.jsx:107-117 | the stored URL becomes the ad image and, when non-empty, its one preview; active exactly when the stored status is 1; both dates formatted |
| CreateAdBannerForm.WithFiles | src/component/Container/AdBanner/CreateAdBanner.jsx:48-55 | the new selection replaces both the files and the previews, which then show exactly the picks in order; dates and the active flag are kept |
| CreateAdBannerForm.RemoveAdImage | src/component/Container/AdBanner/CreateAdBanner.jsx:65-71 | on picked files, both lists lose the same position and the previews still show exactly the picks; on a stored URL, which has no filter, the handler throws |
| CreateAdBannerForm.SubmitAd | src/component/Container/AdBanner/CreateAdBanner.jsx:73-105 | a missing date is refused first; a new ad with no picks is refused next; a new ad with both dates and at least one pick is sent, carrying the dates, the status and every picked file; an edited ad with both dates is always sent as an update of its id whose body is the dates, the status and then the stored URL or the picked list as one value; a new ad holding a stored URL is refused when the URL is empty and throws otherwise, and only such an ad throws |
| CreateAdBannerForm.UpdateUploadsNoFile | src/component/Container/AdBanner/CreateAdBanner.jsx:96-104 | an update carries at most one image entry and no file at all: files picked while editing become the text of the list |
| CreateAdBannerForm.CreateUploadsEveryFile | src/component/Container/AdBanner/CreateAdBanner.jsx:89-94 | a created ad sends every picked file, in pick order |
| CreateAdBannerForm.AdBannerModal.constructor | src/component/Container/AdBanner/CreateAdBanner.jsx:30-36 | the modal opens on the initial form |
| CreateAdBannerForm.AdBannerModal.HydrationEffect | src/component/Container/AdBanner/CreateAdBanner.jsx:107-117 | the edited ad's form when an ad is edited; otherwise the form stays |
| CreateAdBannerForm.AdBannerModal.ResetForm | src/component/Container/AdBanner/CreateAdBanner.jsx:38-46 | the initial form |
| CreateAdBannerForm.AdBannerModal.Close | src/component/Container/AdBanner/CreateAdBanner.jsx:148-152 | closed, the initial form, and no ad under edit |
| CreateAdBannerForm.AdBannerModal.HandleFileChange | src/component/Container/AdBanner/CreateAdBanner.jsx:48-55 | the form takes the new selection as its files and previews |
| CreateAdBannerForm.AdBannerModal.HandleDateChange | src/component/Container/AdBanner/CreateAdBanner.jsx:57-63 | only the named date takes the typed value |
| CreateAdBannerForm.AdBannerModal.HandleActiveChange | src/component/Container/AdBanner/CreateAdBanner.jsx:57-63 | the checkbox sets the active flag and nothing else |
| CreateAdBannerForm.AdBannerModal.RemoveImage | src/component/Container/AdBanner/CreateAdBanner.jsx:65-71 | the form is left as it was exactly when the handler throws, and otherwise takes the removal |
| CreateAdBannerForm.AdBannerModal.HandleSubmit | src/component/Container/AdBanner/CreateAdBanner.jsx:73-105 | a refusal shows one error toast; a sent or thrown submit shows none |
| CreateParentCategoryForm.HydratedCategory | src/component/Container/ParentCategoriesSection/AddParentCategori.jsx:26-34 | name, slug and description fall back to empty, no file is picked, and a non-empty stored image is the one preview |
| CreateParentCategoryForm.DashRuns | src/component/Container/ParentCategoriesSection/AddParentCategori.jsx:69 | never longer than the text, free of white space, and made only of the text's own characters and dashes; `DashRunsWordThenRun` and `DashRunsKeepsWord` give its value on every text |
| CreateParentCategoryForm.DashRunsKeepsWord | src/component/Container/ParentCategoriesSection/AddParentCategori.jsx:69 | a text without white space comes back unchanged |
| CreateParentCategoryForm.TrimStartRun | src/component/Container/ParentCategoriesSection/AddParentCategori.jsx:69 | skipping a whole run of white space lands on the text after it |
| CreateParentCategoryForm.DashRunsWordThenRun | src/component/Container/ParentCategoriesSection/AddParentCategori.jsx:69 | a word, a maximal run of white space and the rest become the word, one dash, and the rest handled the same way |
| CreateParentCategoryForm.Slug | src/component/Container/ParentCategoriesSection/AddParentCategori.jsx:62-70 | the slug is no longer than the name, lower case and free of white space; `SlugWordThenRun` and `SlugOfSlug` give its value |
| CreateParentCategoryForm.SlugWordThenRun | src/component/Container/ParentCategoriesSection/AddParentCategori.jsx:69 | the slug of a word, a run of white space and the rest is the lower-cased word, one dash and the slug of the rest |
| CreateParentCategoryForm.SlugOfSlug | src/component/Container/ParentCategoriesSection/AddParentCategori.jsx:62-70 | a name without white space gives its own lower case, and a slug is its own slug |
| CreateParentCategoryForm.SubmitCategory | src/component/Container/ParentCategoriesSection/AddParentCategori.jsx:77-99 | only an empty name is refused, with "Name is required", so a name of spaces is sent; a sent request is a create, or an update of the edited category, of the encoded body |
| CreateParentCategoryForm.CategoryPayloadReadsBack | src/component/Container/ParentCategoriesSection/AddParentCategori.jsx:80-89 | the body holds name, slug and description once each, and the picked images one entry each in pick order |
| CreateParentCategoryForm.CategoryBody | src/component/Container/ParentCategoriesSection/AddParentCategori.jsx:80-89 | name, slug and description, then one `categoryImage` per picked file (a definition read through `CategoryPayloadReadsBack`) |
| CreateParentCategoryForm.CategoryModal.constructor | src/component/Container/ParentCategoriesSection/AddParentCategori.jsx:17-23 | the modal opens on the empty form |
| CreateParentCategoryForm.CategoryModal.HydrationEffect | src/component/Container/ParentCategoriesSection/AddParentCategori.jsx:26-38 | the edited category's form, or the empty form when none is edited |
| CreateParentCategoryForm.CategoryModal.HandleChange | src/component/Container/ParentCategoriesSection/AddParentCategori.jsx:62-74 | typing a name rewrites the slug from it; the description is kept as typed |
| CreateParentCategoryForm.CategoryModal.HandleFileChange | src/component/Container/ParentCategoriesSection/AddParentCategori.jsx:53-60 | the new selection replaces the files and their previews |
| CreateParentCategoryForm.CategoryModal.HandleSubmit | src/component/Container/ParentCategoriesSection/AddParentCategori.jsx:77-99 | a refusal shows the one warning; a sent request shows none |
| CreateParentCategoryForm.CategoryModal.Close | src/component/Container/ParentCategoriesSection/AddParentCategori.jsx:105 | the popup's close only hides it |
| CreateParentCategoryForm.CategoryModal.Cancel | src/component/Container/ParentCategoriesSection/AddParentCategori.jsx:185-188 | hidden, and no category under edit |
| CreateSubCategoryForm.HydratedSub | src/component/Container/SubcategoriesSection/AddSubCategori.jsx:32-41 | texts fall back to empty, no file is picked, a non-empty stored image is the preview, and a stored status is kept, even 0, while a missing one becomes 1 |
| CreateSubCategoryForm.SubmitSub | src/component/Container/SubcategoriesSection/AddSubCategori.jsx:82-101 | the request goes out exactly when the name and the parent category are non-empty; a missing name is reported first, then a missing parent; a sent request is a create, or an update under the slug, of the encoded body |
| CreateSubCategoryForm.SubPayloadReadsBack | src/component/Container/SubcategoriesSection/AddSubCategori.jsx:87-95 | the image entry is sent exactly when a file was picked, the status and the parent category always, once each |
| CreateSubCategoryForm.SubChecks | src/component/Container/SubcategoriesSection/AddSubCategori.jsx:84-85 | the name check, then the parent-category check (a definition read through `SubmitSub`) |
| CreateSubCategoryForm.SubBody | src/component/Container/SubcategoriesSection/AddSubCategori.jsx:87-95 | the sub-category body (a definition read through `SubPayloadReadsBack`) |
| CreateSubCategoryForm.SubCategoryModal.constructor | src/component/Container/SubcategoriesSection/AddSubCategori.jsx:17-24 | the modal opens on the empty form, active |
| CreateSubCategoryForm.SubCategoryModal.HydrationEffect | src/component/Container/SubcategoriesSection/AddSubCategori.jsx:32-45 | the edited sub-category's form, or the empty form when none is edited |
| CreateSubCategoryForm.SubCategoryModal.HandleChange | src/component/Container/SubcategoriesSection/AddSubCategori.jsx:62-65 | only the named field takes the typed text |
| CreateSubCategoryForm.SubCategoryModal.HandleStatusToggle | src/component/Container/SubcategoriesSection/AddSubCategori.jsx:67-69 | the status flips between 1 and 0, and any other code becomes 1 |
| CreateSubCategoryForm.SubCategoryModal.HandleImageChange | src/component/Container/SubcategoriesSection/AddSubCategori.jsx:71-80 | no pick changes nothing; otherwise the first picked file and its preview |
| CreateSubCategoryForm.SubCategoryModal.RemoveImage | src/component/Container/SubcategoriesSection/AddSubCategori.jsx:188-190 | the picked file and the preview are both dropped, nothing else changes |
| CreateSubCategoryForm.SubCategoryModal.HandleSubmit | src/component/Container/SubcategoriesSection/AddSubCategori.jsx:82-101 | a refusal shows one warning; a sent request shows none |
| CreateSubCategoryForm.SubCategoryModal.HandleClose | src/component/Container/SubcategoriesSection/AddSubCategori.jsx:105-109 | closed, the empty form, and no sub-category under edit |
| CreateBrandForm.HydratedBrand | src/component/Container/BrandsSection/CreateBrands.jsx:27-36 | texts fall back to empty, a stored status is kept, even 0, no logo is picked, and the preview is the stored logo, else the stored brand logo, else none |
| CreateBrandForm.NatText | src/component/Container/BrandsSection/CreateBrands.jsx:105 | non-empty decimal digits with no leading zero |
| CreateBrandForm.NatTextReadsBack | src/component/Container/BrandsSection/CreateBrands.jsx:105 | the digits read back as the number |
| CreateBrandForm.StatusText | src/component/Container/BrandsSection/CreateBrands.jsx:105 | a minus sign exactly for a negative status, followed by the digits of its magnitude |
| CreateBrandForm.StatusTextDistinguishes | src/component/Container/BrandsSection/CreateBrands.jsx:105 | different statuses are sent as different texts, and 0 and 1 as "0" and "1" |
| CreateBrandForm.SubmitBrand | src/component/Container/BrandsSection/CreateBrands.jsx:96-114 | the request goes out exactly when the name and the description hold more than white space; the name is reported first; a sent request is a create, or an update under the slug, of the encoded body |
| CreateBrandForm.BrandPayloadReadsBack | src/component/Container/BrandsSection/CreateBrands.jsx:102-107 | the logo entry is sent exactly when a logo was picked, and the status once, as its text |
| CreateBrandForm.BrandChecks | src/component/Container/BrandsSection/CreateBrands.jsx:99-100 | the trimmed name check, then the trimmed description check (a definition read through `SubmitBrand`) |
| CreateBrandForm.BrandBody | src/component/Container/BrandsSection/CreateBrands.jsx:102-107 | the brand body (a definition read through `BrandPayloadReadsBack`) |
| CreateBrandForm.BrandModal.constructor | src/component/Container/BrandsSection/CreateBrands.jsx:18-25 | the modal opens on the empty form, active |
| CreateBrandForm.BrandModal.ResetForm | src/component/Container/BrandsSection/CreateBrands.jsx:55-65 | the empty form, and no brand under edit |
| CreateBrandForm.BrandModal.HydrationEffect | src/component/Container/BrandsSection/CreateBrands.jsx:27-40 | the edited brand's form, or a reset when none is edited |
| CreateBrandForm.BrandModal.HandleClose | src/component/Container/BrandsSection/CreateBrands.jsx:67-70 | closed, the empty form, and no brand under edit |
| CreateBrandForm.BrandModal.HandleChange | src/component/Container/BrandsSection/CreateBrands.jsx:72-75 | only the named field takes the typed text |
| CreateBrandForm.BrandModal.HandleStatusToggle | src/component/Container/BrandsSection/CreateBrands.jsx:77-79 | the status flips between 1 and 0, and any other code becomes 1 |
| CreateBrandForm.BrandModal.HandleFileChange | src/component/Container/BrandsSection/CreateBrands.jsx:81-88 | a picked file for the logo field becomes the logo with its preview; no pick, or another field, changes nothing |
| CreateBrandForm.BrandModal.RemovePreview | src/component/Container/BrandsSection/CreateBrands.jsx:90-94 | the logo field drops the logo and its preview; another field changes nothing |
| CreateBrandForm.BrandModal.HandleSubmit | src/component/Container/BrandsSection/CreateBrands.jsx:96-114 | a refusal shows one warning; a sent request shows none |
| StatusDefaults.InactiveStatusSurvivesEditing | src/component/Container/OfferSection/CreateOffer.jsx:44 | a stored inactive status 0 is turned into active by the offer editor, and kept by the sub-category and brand editors |
| CreateTypeForm.SetInput | src/component/Container/TypeSection/CreateType.jsx:36-39 | only the named field takes the value |
| CreateTypeForm.SubmitType | src/component/Container/TypeSection/CreateType.jsx:44-50 | the form is sent exactly when the trimmed name is non-empty and a display type is chosen; the name is reported first; the form goes out as it stands, name untrimmed |
| CreateTypeForm.TypeChecks | src/component/Container/TypeSection/CreateType.jsx:47-48 | the trimmed name check, then the display-type check (a definition read through `SubmitType`) |
| CreateTypeForm.NoOfferedTypeAsksForUnit | src/component/Container/TypeSection/CreateType.jsx:71-74 | no display type this dropdown offers is the unit kind, so the product editor sends any non-blank value of such a type |
| CreateTypeForm.React | src/component/Container/TypeSection/CreateType.jsx:19-29 | a success is shown first and closes the modal, an error is shown last, and the messages are cleared exactly when either is present |
| CreateTypeForm.TypeModalIgnoresStore | src/component/Container/TypeSection/CreateType.jsx:11 | as written, a created or failed type leaves a message in the slice, yet the modal shows nothing, stays open and clears nothing |
| CreateTypeForm.SelectedAsWritten | src/component/Container/TypeSection/CreateType.jsx:11 | the messages the modal reads as written: both absent whatever the slice holds |
| CreateTypeForm.Selected | src/store/slice/typeSlice.js:130-131 | the messages the slice keeps, under their own names |
| CreateTypeForm.TypeModalFollowsStore | src/component/Container/TypeSection/CreateType.jsx:19-29 | read under the slice's names, a created type is announced with the slice's message and closes the modal, and a failure is reported and leaves it open |
| CreateTypeForm.TypeModal.constructor | src/component/Container/TypeSection/CreateType.jsx:13-17 | the modal opens on the empty form, active |
| CreateTypeForm.TypeModal.HandleChange | src/component/Container/TypeSection/CreateType.jsx:36-39 | only the named field takes the value |
| CreateTypeForm.TypeModal.HandleStatusToggle | src/component/Container/TypeSection/CreateType.jsx:41-42 | the status flips between 1 and 2, and any other code becomes 1 |
| CreateTypeForm.TypeModal.HandleClose | src/component/Container/TypeSection/CreateType.jsx:31-34 | the empty form, and the modal closed |
| CreateTypeForm.TypeModal.HandleSubmit | src/component/Container/TypeSection/CreateType.jsx:44-50 | either one warning and nothing sent, or the form sent with no toast |
| CreateTypeForm.TypeModal.OnTypeMessages | src/component/Container/TypeSection/CreateType.jsx:11-29 | as written: no toast is shown, the modal and its form stay as they are, and the slice's messages are never cleared |
| CreateTypeForm.TypeModal.OnTypeMessagesIntended | src/component/Container/TypeSection/CreateType.jsx:19-29 | the corrected effect (see Findings): the toasts of the reaction to the slice's messages are shown, a success closes the modal on the empty form, anything else leaves the form and the open state alone |
| CreateTypeNameForm.SetInput | src/component/Container/TypeSection/CreateTypeName.jsx:52-60 | only the named field takes the value |
| CreateTypeNameForm.SubmitTypeName | src/component/Container/TypeSection/CreateTypeName.jsx:65-79 | sent exactly when a type is chosen, the trimmed name is non-empty and an image is picked; each missing one is reported in that order |
| CreateTypeNameForm.TypeNamePayloadReadsBack | src/component/Container/TypeSection/CreateTypeName.jsx:72-76 | a sent body is typeId, name, status and image, in that order and once each, with the name untrimmed |
| CreateTypeNameForm.NameChecks | src/component/Container/TypeSection/CreateTypeName.jsx:68-70 | the type, trimmed name and image checks in source order (a definition read through `SubmitTypeName`) |
| CreateTypeNameForm.NameBody | src/component/Container/TypeSection/CreateTypeName.jsx:72-76 | the type-name body (a definition read through `TypeNamePayloadReadsBack`) |
| CreateTypeNameForm.TypeNameModal.constructor | src/component/Container/TypeSection/CreateTypeName.jsx:19-24 | the modal opens on the empty form, active |
| CreateTypeNameForm.TypeNameModal.HandleChange | src/component/Container/TypeSection/CreateTypeName.jsx:52-60 | only the named field takes the value |
| CreateTypeNameForm.TypeNameModal.HandleImageChange | src/component/Container/TypeSection/CreateTypeName.jsx:55-56 | the image becomes the first picked file, or none when nothing is picked |
| CreateTypeNameForm.TypeNameModal.HandleStatusToggle | src/component/Container/TypeSection/CreateTypeName.jsx:62-63 | the status flips between 1 and 2, and any other code becomes 1 |
| CreateTypeNameForm.TypeNameModal.HandleClose | src/component/Container/TypeSection/CreateTypeName.jsx:42-50 | the empty form, and the modal closed |
| CreateTypeNameForm.TypeNameModal.HandleSubmit | src/component/Container/TypeSection/CreateTypeName.jsx:65-79 | either one warning and nothing sent, or the encoded body sent with no toast |
| CreateTypeNameForm.TypeNameModal.OnTypeMessages | src/component/Container/TypeSection/CreateTypeName.jsx:30-40 | the toasts of the reaction are shown, a success closes the modal on the empty form, and anything else leaves the form and the open state alone |

## Left out

- Network I/O. Thunk bodies, `FetchApi`, `dispatch` and the awaited results are not part of this model. A handler returns the request it would send, and the success or failure of a request is a parameter: `succeeded`, or the `Status` a slice holds.
- Slices other than products, types, orders and reports (deals, offers, banners, ad banners, categories, sub-categories, brands, users, dashboard). They wrap thunks in the pattern `AsyncOp` already models. As a result, the message effects of the deal, offer, banner, ad-banner, category, sub-category and brand editors are not modelled: the success or error toast, the refetch and the close on success. The type editors' effects are modelled.
- Login, token refresh, routing, the dashboard's demo data and its chart maths, the profile page, the list pages with delete modals, the drawing of the report page's charts and the layout of its PDF export (fonts, positions, table styling), and the pop-up, button, input and layout components. None of them has a rule to state beyond display. The PDF export's computed content is modelled: the "Total Products Sold" figure and the best-sellers table rows (`ReportSection.TotalSold`, `ReportSection.Row`, `ReportSection.TableRows`).
- Foreign functions are parameters, uninterpreted:
  - `slugify`;
  - `Number(x) \|\| 0` (as `toNumber`);
  - the colour namer;
  - `formatDate`;
  - `localeCompare` (as an integer key `collate`).
  `URL.createObjectURL` is the constructor `ObjectUrl` of a preview. Previews are never revoked in the source, and release is not modelled.
- `alertService` is not part of this model. A toast is an entry of the `alerts` log.
- Floating point. Prices are exact reals. `toFixed(2)` and `Math.round` are defined on reals, half-way cases rounded as JavaScript does, without IEEE error.
- `UserSection.SortUsers`: sign-up dates are integer timestamps and the name order is an integer key. An unparseable date, which gives `NaN` in the comparator, is not modelled.
- `Text.IsSpace` and `Text.ToLower`: white space is the common Unicode spaces only, and lower-casing is ASCII only.
- URL query encoding and multipart byte framing. Both are ordered lists of (name, value) entries. `variants[i][field]` names are the structured key `VariantKey(i, field)`.
- React rendering, CSS and effect scheduling. Each handler and each effect is one atomic method, called explicitly.
- `CreateBrandForm.BrandModal.HandleFileChange`: the brand's `coverImage` field is only a tag here. No handler stores a cover image, so the form holds none.
- `CreateParentCategoryForm.HydratedCategory`: the stored image is a one-entry preview list rather than a single URL.
- `null` and `undefined`: an absent field of a stored record is one `None`, for both. The model does not tell them apart where JavaScript does. One example is `null < x`, which is true for a positive `x` and would make `ProductDetails.HasDiscount` hold where the model says it does not. Another is a brand `status` stored as `null`.
- `ProductDraft.HydrateVariant`: the source keeps a variant's stored weight raw and applies `|| ""` only when sending. The model applies it when the product is opened. What is sent is the same, but an untouched stored weight of 0 shows as an empty weight input rather than `0`.
- `ProductDraft.Hydrate`: stored numbers are given by their decimal text, so `|| ""` is modelled as turning the text `"0"` into `""`. A number stored as a string `"0"`, which JavaScript keeps, is not told apart from the number 0.

## Findings

| source | as written | input that shows it | evidently intended | confidence | as-written member | corrected member |
|---|---|---|---|---|---|---|
| src/component/Container/TypeSection/CreateType.jsx:11 | the "Create Type" modal reads `successMsg` and `errorMsg`, but the type slice names its messages `successMessage` and `errorMessage` (src/store/slice/typeSlice.js:130-131) | create a type that the server accepts: the slice holds a success message, yet the modal shows no toast, stays open on the old form and never clears the message; a rejected request is not reported either | read the slice's messages under their own names, as the "Create Type Name" modal does | not executed | CreateTypeForm.TypeModalIgnoresStore | CreateTypeForm.TypeModalFollowsStore |
| src/component/Container/DealsSection/CreateDeals.jsx:146-156 | `removeImage` removes the same index from the file list and the preview list, but after loading a stored deal (or offer or banner) the previews start with the stored images while the file list starts empty | edit a deal with one stored banner and pick one file, then remove the new file's preview (index 1): the preview goes, the file stays and is uploaded; removing the stored one (index 0) drops the new file while its preview stays | remove the preview at the index and, when it shows a picked file, that file, found by counting past the stored images | not executed | PairedImages.RemovalMisalignsAfterHydration | PairedImages.Removed |
| src/component/Container/BannerSection/CreateBanner.jsx:131 | the colour picker is named `colorCode`, so `handleChange` stores the pick under a key the modal never reads; the swatch and the submit read `colourCode` (lines 99 and 132) | open "Add Banner" and pick red: the swatch stays white and the banner is sent with `colourCode` `#ffffff` | name the picker `colourCode`, as the text input beside it is | not executed | CreateBannerForm.PickedColourIsLost | CreateBannerForm.PickedColourIsSent |
