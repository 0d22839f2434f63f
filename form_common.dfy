/**
 * What the entity editors (types, deals, offers, banners, categories,
 * brands) share: the create-or-update request, the two status toggles, and
 * the file list kept beside its preview list.
 */
module FormCommon {
  import opened Options
  import opened Wire

  /** The thunk a submit handler dispatches: a new record, or an update of the record with this id. */
  datatype Request = Create(body: seq<Field>) | Update(id: string, body: seq<Field>)

  /** `files[0]`: the first picked file, absent when none was picked. */
  function FirstFile(files: seq<FileId>): (r: Option<FileId>)
    ensures r.None? <==> files == []
    ensures r.Some? ==> r.value == files[0]
  {
    if files == [] then None else Some(files[0])
  }

  /** `editing ? update({ id, formData }) : create(formData)`: the same body either way. */
  function CreateOrUpdate(editing: Option<string>, body: seq<Field>): (r: Request)
    ensures r.Create? <==> editing.None?
    ensures r.body == body
    ensures r.Update? ==> r.id == editing.value
  {
    match editing
    case None => Create(body)
    case Some(id) => Update(id, body)
  }

  /** `status === 1 ? 2 : 1`, the toggle of the type, value and offer editors (2 is inactive). */
  function ToggleOneTwo(status: int): (r: int)
    ensures r == 1 || r == 2
    ensures r == 2 <==> status == 1
  {
    if status == 1 then 2 else 1
  }

  /** `status === 1 ? 0 : 1`, the toggle of the sub-category and brand editors (0 is inactive). */
  function ToggleOneZero(status: int): (r: int)
    ensures r == 0 || r == 1
    ensures r == 0 <==> status == 1
  {
    if status == 1 then 0 else 1
  }

  /**
   * Each toggle undoes itself on its own two codes; any other stored code is
   * turned into "active" by the first click.
   */
  lemma TogglesUndoThemselves(status: int)
    ensures (status == 1 || status == 2) ==> ToggleOneTwo(ToggleOneTwo(status)) == status
    ensures (status == 1 || status == 0) ==> ToggleOneZero(ToggleOneZero(status)) == status
    ensures status != 1 ==> ToggleOneTwo(status) == 1 && ToggleOneZero(status) == 1
  {
  }

  /** JavaScript truthiness of an entry value: empty text and zero are falsy; files, previews and arrays never are. */
  predicate Filled(v: Value) {
    match v
    case Str(t) => t != ""
    case Num(x) => x != 0.0
    case Flag(b) => b
    case Blob(_) => true
    case Link(_) => true
    case Listed(_) => true
  }

  /** `x || fallback` on an optional number of a stored record, kept as the number it is. */
  function NumOr(x: Option<real>, fallback: Value): (r: Value)
    ensures x.Some? && x.value != 0.0 ==> r == Num(x.value)
    ensures x.None? || x.value == 0.0 ==> r == fallback
  {
    if x.Some? && x.value != 0.0 then Num(x.value) else fallback
  }

  /** No two entries share a name. */
  predicate DistinctKeys(fs: seq<Field>) {
    forall a, b :: 0 <= a < b < |fs| ==> fs[a].key != fs[b].key
  }

  /** What a body of three parts holds under one name. */
  lemma ValuesOfThree(a: seq<Field>, b: seq<Field>, c: seq<Field>, key: Key)
    ensures ValuesOf(a + b + c, key) == ValuesOf(a, key) + ValuesOf(b, key) + ValuesOf(c, key)
  {
    ValuesOfConcat(a + b, c, key);
    ValuesOfConcat(a, b, key);
  }

  /**
   * The layout of the editors' bodies: single entries, then one entry per
   * file under one more name, then possibly more single entries. Each single
   * entry is read back alone, and the files in pick order.
   */
  lemma SinglesThenFiles(singles: seq<Field>, k: Key, files: seq<FileId>, tail: seq<Field>)
    requires DistinctKeys(singles + tail)
    requires forall j :: 0 <= j < |singles + tail| ==> (singles + tail)[j].key != k
    ensures var body := singles + Repeated(k, Blobs(files)) + tail;
      ValuesOf(body, k) == Blobs(files)
      && (forall j :: 0 <= j < |singles| ==> ValuesOf(body, singles[j].key) == [singles[j].value])
      && (forall j :: 0 <= j < |tail| ==> ValuesOf(body, tail[j].key) == [tail[j].value])
  {
    var rep := Repeated(k, Blobs(files));
    var body := singles + rep + tail;
    ValuesOfThree(singles, rep, tail, k);
    ValuesOfRepeated(k, Blobs(files), k);
    FilesKeyAbsent(singles, tail, k);
    forall j | 0 <= j < |singles|
      ensures ValuesOf(body, singles[j].key) == [singles[j].value]
    {
      SingleReadBack(singles, k, files, tail, j);
    }
    forall j | 0 <= j < |tail|
      ensures ValuesOf(body, tail[j].key) == [tail[j].value]
    {
      TailReadBack(singles, k, files, tail, j);
    }
  }

  lemma FilesKeyAbsent(singles: seq<Field>, tail: seq<Field>, k: Key)
    requires forall j :: 0 <= j < |singles + tail| ==> (singles + tail)[j].key != k
    ensures ValuesOf(singles, k) == [] && ValuesOf(tail, k) == []
  {
    assert forall j :: 0 <= j < |singles| ==> singles[j] == (singles + tail)[j];
    assert forall j :: 0 <= j < |tail| ==> tail[j] == (singles + tail)[|singles| + j];
    ValuesOfAbsent(singles, k);
    ValuesOfAbsent(tail, k);
  }

  /** Distinct names in `singles + tail` are distinct within each part and across the two. */
  lemma SplitDistinct(singles: seq<Field>, tail: seq<Field>)
    requires DistinctKeys(singles + tail)
    ensures DistinctKeys(singles) && DistinctKeys(tail)
    ensures forall a, b :: 0 <= a < |singles| && 0 <= b < |tail| ==> singles[a].key != tail[b].key
  {
    var st := singles + tail;
    assert forall i :: 0 <= i < |singles| ==> singles[i] == st[i];
    assert forall i :: 0 <= i < |tail| ==> tail[i] == st[|singles| + i];
  }

  lemma SingleReadBack(singles: seq<Field>, k: Key, files: seq<FileId>, tail: seq<Field>, j: int)
    requires DistinctKeys(singles + tail)
    requires forall i :: 0 <= i < |singles + tail| ==> (singles + tail)[i].key != k
    requires 0 <= j < |singles|
    ensures ValuesOf(singles + Repeated(k, Blobs(files)) + tail, singles[j].key) == [singles[j].value]
  {
    var key := singles[j].key;
    assert (singles + tail)[j] == singles[j];
    SplitDistinct(singles, tail);
    ValuesOfThree(singles, Repeated(k, Blobs(files)), tail, key);
    ValuesOfRepeated(k, Blobs(files), key);
    ValuesOfUnique(singles, j);
    ValuesOfAbsent(tail, key);
  }

  lemma TailReadBack(singles: seq<Field>, k: Key, files: seq<FileId>, tail: seq<Field>, j: int)
    requires DistinctKeys(singles + tail)
    requires forall i :: 0 <= i < |singles + tail| ==> (singles + tail)[i].key != k
    requires 0 <= j < |tail|
    ensures ValuesOf(singles + Repeated(k, Blobs(files)) + tail, tail[j].key) == [tail[j].value]
  {
    var key := tail[j].key;
    assert (singles + tail)[|singles| + j] == tail[j];
    SplitDistinct(singles, tail);
    ValuesOfThree(singles, Repeated(k, Blobs(files)), tail, key);
    ValuesOfRepeated(k, Blobs(files), key);
    ValuesOfAbsent(singles, key);
    ValuesOfUnique(tail, j);
  }

  /** `files.forEach(f => fd.append(k, f))`. */
  method AppendFiles(body0: seq<Field>, k: Key, files: seq<FileId>) returns (body: seq<Field>)
    ensures body == body0 + Repeated(k, Blobs(files))
  {
    body := body0;
    var i := 0;
    while i < |files|
      invariant 0 <= i <= |files|
      invariant body == body0 + Repeated(k, Blobs(files[..i]))
    {
      assert Repeated(k, Blobs(files[..i + 1])) == Repeated(k, Blobs(files[..i])) + [Field(k, Blob(files[i]))];
      body := body + [Field(k, Blob(files[i]))];
      i := i + 1;
    }
    assert files[..i] == files;
  }

  /** `a || ""` on an optional text field of a stored record. */
  function TextOr(a: Option<string>, fallback: string): (r: string)
    ensures a.Some? && a.value != "" ==> r == a.value
    ensures a.None? || a.value == "" ==> r == fallback
  {
    if a.Some? && a.value != "" then a.value else fallback
  }

  /** `date?.slice(0, 10) || ""`: the `yyyy-mm-dd` head of a stored timestamp. */
  function DateInput(date: Option<string>): (r: string)
    ensures |r| <= 10
    ensures date.Some? ==> |r| <= |date.value| && r == date.value[..|r|]
    ensures date.Some? && |date.value| >= 10 ==> r == date.value[..10]
    ensures date.None? ==> r == ""
  {
    if date.None? then ""
    else if |date.value| < 10 then date.value
    else date.value[..10]
  }
}

/**
 * The deal, offer and banner editors keep the files to upload in one list
 * and the previews on screen in another. Picking files appends to both;
 * the remove button of the preview at `index` removes position `index` of
 * both. When an existing record is loaded, its stored images become
 * previews while the file list starts empty, so from then on position
 * `index` of the previews and position `index` of the files are different
 * images.
 */
module PairedImages {
  import opened Wire
  import opened Seqs

  datatype Paired = Paired(files: seq<FileId>, previews: seq<Preview>)

  const NoImages := Paired([], [])

  function Remotes(urls: seq<string>): (r: seq<Preview>)
    ensures |r| == |urls|
    ensures forall k :: 0 <= k < |urls| ==> r[k] == Remote(urls[k])
  {
    seq(|urls|, k requires 0 <= k < |urls| => Remote(urls[k]))
  }

  /** `files.map(f => URL.createObjectURL(f))`. */
  function ObjectUrls(files: seq<FileId>): (r: seq<Preview>)
    ensures |r| == |files|
    ensures forall k :: 0 <= k < |files| ==> r[k] == ObjectUrl(files[k])
  {
    seq(|files|, k requires 0 <= k < |files| => ObjectUrl(files[k]))
  }

  /** How many previews in front show stored images rather than picked files. */
  function StoredCount(p: Paired): nat {
    if |p.files| <= |p.previews| then |p.previews| - |p.files| else 0
  }

  /**
   * What the screen promises: the previews are some stored images followed
   * by exactly one preview per file to be sent, in file order.
   */
  predicate Aligned(p: Paired) {
    |p.files| <= |p.previews|
    && (forall k :: 0 <= k < StoredCount(p) ==> p.previews[k].Remote?)
    && (forall k :: 0 <= k < |p.files| ==> p.previews[StoredCount(p) + k] == ObjectUrl(p.files[k]))
  }

  /** The editor of an existing record: its images shown, nothing to upload yet. */
  function Hydrated(urls: seq<string>): (r: Paired)
    ensures r.files == [] && |r.previews| == |urls| && StoredCount(r) == |urls|
    ensures Aligned(r)
  {
    Paired([], Remotes(urls))
  }

  /** Picking files: both lists grow by the same picks, in the same order. */
  function Appended(p: Paired, picked: seq<FileId>): (r: Paired)
    ensures |r.files| == |p.files| + |picked| && |r.previews| == |p.previews| + |picked|
    ensures r.files[..|p.files|] == p.files && r.previews[..|p.previews|] == p.previews
    ensures forall k :: 0 <= k < |picked| ==>
      r.files[|p.files| + k] == picked[k] && r.previews[|p.previews| + k] == ObjectUrl(picked[k])
  {
    Paired(p.files + picked, p.previews + ObjectUrls(picked))
  }

  /** Picking files keeps the lists aligned and the stored images where they were. */
  lemma AppendedStaysAligned(p: Paired, picked: seq<FileId>)
    requires Aligned(p)
    ensures Aligned(Appended(p, picked)) && StoredCount(Appended(p, picked)) == StoredCount(p)
  {
    var r := Appended(p, picked);
    var s := StoredCount(p);
    assert StoredCount(r) == s;
    forall k | 0 <= k < |r.files|
      ensures r.previews[s + k] == ObjectUrl(r.files[k])
    {
      if k < |p.files| {
        assert r.previews[s + k] == p.previews[s + k];
        assert r.files[k] == p.files[k];
      } else {
        assert s + k == |p.previews| + (k - |p.files|);
      }
    }
  }

  /** `splice(index, 1)` on copies of both lists: the removal the deal and offer editors apply. */
  function SplicedBoth(p: Paired, index: int): Paired {
    Paired(Splice1(p.files, index), Splice1(p.previews, index))
  }

  /** `filter((_, i) => i !== index)` on both lists: the removal the banner editors apply. */
  function FilteredBoth(p: Paired, index: int): Paired {
    Paired(RemoveAt(p.files, index), RemoveAt(p.previews, index))
  }

  /** For a preview the screen shows, the two spellings of the removal agree. */
  lemma SpliceAndFilterAgree(p: Paired, index: int)
    requires 0 <= index < |p.previews|
    ensures SplicedBoth(p, index) == FilteredBoth(p, index)
  {
    SpliceIsRemoveAt(p.files, index);
    SpliceIsRemoveAt(p.previews, index);
  }

  /** With no stored image on screen the removal as written keeps the lists aligned. */
  lemma FreshListsStayAligned(p: Paired, index: int)
    requires Aligned(p) && StoredCount(p) == 0
    ensures Aligned(FilteredBoth(p, index)) && StoredCount(FilteredBoth(p, index)) == 0
  {
    var r := FilteredBoth(p, index);
    assert |p.files| == |p.previews|;
    if 0 <= index < |p.files| {
      assert |r.files| == |r.previews| && StoredCount(r) == 0;
      forall k | 0 <= k < |r.files|
        ensures r.previews[k] == ObjectUrl(r.files[k])
      {
        if k < index {
          assert r.previews[k] == p.previews[k] && r.files[k] == p.files[k];
        } else {
          assert r.previews[k] == p.previews[k + 1] && r.files[k] == p.files[k + 1];
        }
      }
    } else {
      assert r == p;
    }
  }

  /** The splice spelling of the removal keeps fresh lists aligned too. */
  lemma SplicedFreshStaysAligned(p: Paired, index: int)
    requires Aligned(p) && StoredCount(p) == 0 && index >= 0
    ensures Aligned(SplicedBoth(p, index)) && StoredCount(SplicedBoth(p, index)) == 0
  {
    SpliceIsRemoveAt(p.files, index);
    SpliceIsRemoveAt(p.previews, index);
    FreshListsStayAligned(p, index);
  }

  /**
   * The removal as written, on an edited record with one stored image `url`
   * and one new pick `f`: removing the new image's preview (position 1)
   * keeps its file, which is still uploaded; removing the stored image
   * (position 0) drops the new file while its preview stays on screen.
   */
  lemma RemovalMisalignsAfterHydration(url: string, f: FileId)
    ensures var p := Appended(Hydrated([url]), [f]);
      Aligned(p)
      && FilteredBoth(p, 1) == Paired([f], [Remote(url)])
      && !Aligned(FilteredBoth(p, 1))
      && FilteredBoth(p, 0) == Paired([], [ObjectUrl(f)])
      && !Aligned(FilteredBoth(p, 0))
  {
    var h := Hydrated([url]);
    assert h.previews == [Remote(url)];
    var p := Appended(h, [f]);
    AppendedStaysAligned(h, [f]);
    assert p.files == [f] && p.previews == [Remote(url), ObjectUrl(f)];
    var one := FilteredBoth(p, 1);
    assert one.files == [f] && one.previews == [Remote(url)];
    assert StoredCount(one) == 0 && one.previews[0] != ObjectUrl(one.files[0]);
    var zero := FilteredBoth(p, 0);
    assert zero.files == [] && zero.previews == [ObjectUrl(f)];
    assert StoredCount(zero) == 1 && !zero.previews[0].Remote?;
  }

  /**
   * The removal the editors evidently intend: the preview at `index` goes;
   * when it shows a picked file, that file goes with it, found by counting
   * past the stored images.
   */
  function Removed(p: Paired, index: int): (r: Paired)
    ensures !(0 <= index < |p.previews|) ==> r == p
    ensures 0 <= index < |p.previews| ==> r.previews == RemoveAt(p.previews, index)
    ensures index < StoredCount(p) ==> r.files == p.files
    ensures StoredCount(p) <= index < |p.previews| ==> r.files == RemoveAt(p.files, index - StoredCount(p))
  {
    if !(0 <= index < |p.previews|) then p
    else Paired(RemoveAt(p.files, index - StoredCount(p)), RemoveAt(p.previews, index))
  }

  /** The intended removal keeps every preview paired with the file it shows. */
  lemma RemovedStaysAligned(p: Paired, index: int)
    requires Aligned(p)
    ensures Aligned(Removed(p, index))
    ensures 0 <= index < StoredCount(p) ==> StoredCount(Removed(p, index)) == StoredCount(p) - 1
    ensures StoredCount(p) <= index < |p.previews| ==> StoredCount(Removed(p, index)) == StoredCount(p)
  {
    var r := Removed(p, index);
    var s := StoredCount(p);
    if 0 <= index < |p.previews| {
      if index < s {
        assert StoredCount(r) == s - 1;
        forall k | 0 <= k < |r.files|
          ensures r.previews[StoredCount(r) + k] == ObjectUrl(r.files[k])
        {
          assert r.previews[s - 1 + k] == p.previews[s + k];
        }
      } else {
        assert StoredCount(r) == s;
        forall k | 0 <= k < |r.files|
          ensures r.previews[s + k] == ObjectUrl(r.files[k])
        {
          if s + k >= index {
            assert r.previews[s + k] == p.previews[s + k + 1];
            assert r.files[k] == p.files[k + 1];
          }
        }
      }
    }
  }

  /** Where nothing stored is on screen, the intended removal is the one the code performs. */
  lemma RemovedAgreesWhenNothingStored(p: Paired, index: int)
    requires Aligned(p) && StoredCount(p) == 0
    ensures Removed(p, index) == FilteredBoth(p, index)
  {
  }
}
