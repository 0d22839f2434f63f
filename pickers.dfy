/**
 * The shared upload box: picked files become previews until the box holds
 * `maxImages` of them, and a preview can be removed by position.
 */
module ImageUploadBox {
  import opened Wire
  import opened Seqs

  /** An entry of the box: a picked file with its preview, or a stored URL shown as it is. */
  datatype Shown = Picked(file: FileId, preview: Preview) | Stored(url: string)

  /** How many more files the box takes. */
  function Room(count: nat, maxImages: int): (r: nat)
    ensures count < maxImages ==> r == maxImages - count
    ensures count >= maxImages ==> r == 0
  {
    if count < maxImages then maxImages - count else 0
  }

  function Picks(files: seq<FileId>): (r: seq<Shown>)
    ensures |r| == |files|
    ensures forall k :: 0 <= k < |r| ==> r[k] == Picked(files[k], ObjectUrl(files[k]))
  {
    seq(|files|, k requires 0 <= k < |files| => Picked(files[k], ObjectUrl(files[k])))
  }

  /** The box after an upload: the first files that fit, after the entries already there. */
  function Uploaded(images: seq<Shown>, files: seq<FileId>, maxImages: int): seq<Shown> {
    images + Picks(Take(files, Room(|images|, maxImages)))
  }

  /** `handleImageUpload`: each file is pushed while the box has room. */
  method HandleImageUpload(images: seq<Shown>, files: seq<FileId>, maxImages: int) returns (newImages: seq<Shown>)
    ensures newImages == Uploaded(images, files, maxImages)
  {
    newImages := images;
    var i := 0;
    while i < |files|
      invariant 0 <= i <= |files|
      invariant newImages == Uploaded(images, files[..i], maxImages)
    {
      assert files[..i + 1][..i] == files[..i];
      if |newImages| < maxImages {
        newImages := newImages + [Picked(files[i], ObjectUrl(files[i]))];
      }
      i := i + 1;
    }
    assert files[..i] == files;
  }

  /**
   * The box never grows past `maxImages` through an upload, keeps what it
   * held in front, and fills up whenever enough files are picked.
   */
  lemma UploadRespectsCap(images: seq<Shown>, files: seq<FileId>, maxImages: int)
    ensures var r := Uploaded(images, files, maxImages);
      r[..|images|] == images
      && (|images| <= maxImages ==>
            |r| == if |images| + |files| < maxImages then |images| + |files| else maxImages)
      && (|images| >= maxImages ==> r == images)
  {
    var r := Uploaded(images, files, maxImages);
    assert r[..|images|] == images;
    if |images| >= maxImages {
      assert Take(files, 0) == [];
    }
  }

  /** `removeImage`: drops the entry at the given position, the others keep their order. */
  function RemoveImage(images: seq<Shown>, index: int): (r: seq<Shown>)
    ensures 0 <= index < |images| ==> |r| == |images| - 1
    ensures 0 <= index < |images| ==> r == images[..index] + images[index + 1..]
    ensures !(0 <= index < |images|) ==> r == images
  {
    RemoveAt(images, index)
  }

  /** The upload control shows while the box has room. */
  predicate ShowsUploadControl(images: seq<Shown>, maxImages: int) {
    |images| < maxImages
  }

  /** A full box hides the control; removing an entry from it brings the control back. */
  lemma RemoveReopensFullBox(images: seq<Shown>, maxImages: int, index: int)
    requires |images| == maxImages && 0 <= index < |images|
    ensures !ShowsUploadControl(images, maxImages)
    ensures ShowsUploadControl(RemoveImage(images, index), maxImages)
  {
  }

  /** The `src` of an entry: its preview, or the entry itself when it is a URL. */
  function SrcOf(img: Shown): (r: Preview)
    ensures img.Picked? ==> r == img.preview
    ensures img.Stored? ==> r == Remote(img.url)
  {
    match img
    case Picked(_, p) => p
    case Stored(url) => Remote(url)
  }
}

/**
 * The shared multi-select: a search over the options, and toggling an
 * option in or out of the selection.
 */
module MultiSelectDropdown {
  import opened Text
  import opened Seqs

  datatype Choice = Choice(id: string, name: string)

  /** The id matches the search as typed, the name ignoring case. */
  predicate OptionMatches(opt: Choice, search: string) {
    Contains(opt.id, search) || Contains(ToLower(opt.name), ToLower(search))
  }

  /** The filter effect: the options matching the search, in option order. */
  function FilteredOptions(options: seq<Choice>, search: string): (r: seq<Choice>)
    ensures |r| <= |options|
    ensures forall o :: o in r <==> o in options && OptionMatches(o, search)
  {
    var keep := o => OptionMatches(o, search);
    FilterMembers(options, keep);
    Filter(options, keep)
  }

  /**
   * The search keeps the options in their order: a list of options is
   * filtered part by part, and one option stays exactly when it matches.
   */
  lemma FilteredOptionsKeepsOrder(a: seq<Choice>, b: seq<Choice>, o: Choice, search: string)
    ensures FilteredOptions(a + b, search) == FilteredOptions(a, search) + FilteredOptions(b, search)
    ensures FilteredOptions([o], search) == if OptionMatches(o, search) then [o] else []
  {
    FilterConcat(a, b, c => OptionMatches(c, search));
    FilterSingle(o, c => OptionMatches(c, search));
  }

  /** An empty search lists every option. */
  lemma EmptySearchListsAll(options: seq<Choice>)
    ensures FilteredOptions(options, "") == options
  {
    forall k | 0 <= k < |options|
      ensures OptionMatches(options[k], "")
    {
      ContainsEmpty(options[k].id);
    }
    FilterAll(options, o => OptionMatches(o, ""));
  }

  /**
   * `toggleValue`: with `multiple` the option is added or removed; without
   * it the selection becomes that option alone.
   */
  function ToggleValue(selected: seq<string>, id: string, multiple: bool): (r: seq<string>)
    ensures multiple ==> (id in r <==> id !in selected)
    ensures multiple ==> forall x :: x != id ==> (x in r <==> x in selected)
    ensures multiple && id !in selected ==> r == selected + [id]
    ensures multiple && id in selected ==> r == Without(selected, id)
    ensures !multiple ==> r == [id]
  {
    if multiple then Toggle(selected, id) else [id]
  }

  /**
   * Picking the same option twice in a multi-select gives back the selection
   * it started from: exactly when the option was not selected; when it was,
   * the same options with every copy of it dropped and one put back last.
   */
  lemma ToggleTwiceRestores(selected: seq<string>, id: string)
    ensures id !in selected ==> ToggleValue(ToggleValue(selected, id, true), id, true) == selected
    ensures id in selected ==> ToggleValue(ToggleValue(selected, id, true), id, true) == Without(selected, id) + [id]
    ensures forall x :: x in ToggleValue(ToggleValue(selected, id, true), id, true) <==> x in selected
  {
    if id !in selected {
      ToggleTwiceAbsent(selected, id);
    } else {
      ToggleTwicePresent(selected, id);
    }
  }

  /** The open state and the search box of the dropdown. */
  class Dropdown {
    var open: bool
    var search: string

    constructor ()
      ensures !open && search == ""
    {
      open, search := false, "";
    }

    method ToggleOpen()
      modifies this`open
      ensures open == !old(open)
    {
      open := !open;
    }

    method SetSearch(value: string)
      modifies this`search
      ensures search == value
    {
      search := value;
    }

    /** Picking in single mode closes the list; the new selection goes to `onChange`. */
    method Pick(selected: seq<string>, id: string, multiple: bool) returns (updated: seq<string>)
      modifies this`open
      ensures updated == ToggleValue(selected, id, multiple)
      ensures open == (old(open) && multiple)
    {
      if multiple {
        updated := Toggle(selected, id);
      } else {
        updated := [id];
        open := false;
      }
    }
  }
}
