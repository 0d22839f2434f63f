/**
 * The request bodies the screens build: a `FormData` (or `URLSearchParams`)
 * is an ordered list of named entries, appended one at a time.
 */
module Wire {

  /** Identity of a `File` the user picked; two picks of the same file are the same id. */
  type FileId = nat

  /** What an image preview points at: a stored URL or a `blob:` URL made for a picked file. */
  datatype Preview = Remote(url: string) | ObjectUrl(file: FileId)

  /**
   * One appended value. `FormData.append` turns numbers, booleans and arrays
   * into their text; the model keeps the value the text is made from.
   */
  datatype Value =
    | Str(text: string)
    | Num(number: real)
    | Flag(flag: bool)
    | Blob(file: FileId)
    | Link(preview: Preview)
    | Listed(items: seq<Value>)

  /**
   * The bracketed part of a variant entry's name: `variantImages`,
   * `existingVariantImages`, `name`, `type`, `price`, `offerPrice`,
   * `discount`, `stock` and `weight`.
   */
  datatype VariantField =
    | VariantImagesKey | ExistingVariantImagesKey
    | NameKey | TypeKey | PriceKey | OfferPriceKey | DiscountKey | StockKey | WeightKey

  /** An entry name: a plain name, or `variants[index][field]`. */
  datatype Key = Name(name: string) | VariantKey(index: nat, field: VariantField)

  datatype Field = Field(key: Key, value: Value)

  /** `formData.getAll(k)`: the values appended under `k`, in append order. */
  function ValuesOf(fs: seq<Field>, k: Key): (r: seq<Value>)
    ensures |r| <= |fs|
  {
    if fs == [] then []
    else ValuesOf(fs[..|fs| - 1], k) + (if fs[|fs| - 1].key == k then [fs[|fs| - 1].value] else [])
  }

  /** `getAll(k)` returns exactly the values of the entries named `k`. */
  lemma {:induction false} ValuesOfMembers(fs: seq<Field>, k: Key)
    ensures forall v :: v in ValuesOf(fs, k) ==> Field(k, v) in fs
    ensures forall i :: 0 <= i < |fs| && fs[i].key == k ==> fs[i].value in ValuesOf(fs, k)
  {
    if fs != [] {
      ValuesOfMembers(fs[..|fs| - 1], k);
    }
  }

  /** A single entry holds its value under its own name only. */
  lemma ValuesOfSingle(f: Field, k: Key)
    ensures ValuesOf([f], k) == if f.key == k then [f.value] else []
  {
    assert [f][..0] == [];
  }

  /** Appending more entries never disturbs what earlier entries hold. */
  lemma {:induction false} ValuesOfConcat(a: seq<Field>, b: seq<Field>, k: Key)
    ensures ValuesOf(a + b, k) == ValuesOf(a, k) + ValuesOf(b, k)
  {
    if b == [] {
      assert a + b == a;
    } else {
      assert (a + b)[..|a + b| - 1] == a + b[..|b| - 1];
      ValuesOfConcat(a, b[..|b| - 1], k);
    }
  }

  /** A body with no entry named `k` has nothing under `k`. */
  lemma {:induction false} ValuesOfAbsent(fs: seq<Field>, k: Key)
    requires forall i :: 0 <= i < |fs| ==> fs[i].key != k
    ensures ValuesOf(fs, k) == []
  {
    if fs != [] {
      ValuesOfAbsent(fs[..|fs| - 1], k);
    }
  }

  /** One entry per element, all under the same name: the `forEach(x => fd.append(k, x))` idiom. */
  function Repeated(k: Key, vs: seq<Value>): (r: seq<Field>)
    ensures |r| == |vs|
    ensures forall i :: 0 <= i < |vs| ==> r[i] == Field(k, vs[i])
  {
    seq(|vs|, i requires 0 <= i < |vs| => Field(k, vs[i]))
  }

  /** Everything appended by the repeat idiom is read back under its name, in order. */
  lemma {:induction false} ValuesOfRepeated(k: Key, vs: seq<Value>, other: Key)
    ensures ValuesOf(Repeated(k, vs), k) == vs
    ensures other != k ==> ValuesOf(Repeated(k, vs), other) == []
  {
    if vs != [] {
      var n := |vs| - 1;
      var fs := Repeated(k, vs);
      assert fs[..n] == Repeated(k, vs[..n]);
      assert fs[n] == Field(k, vs[n]);
      ValuesOfRepeated(k, vs[..n], other);
      assert ValuesOf(fs, k) == ValuesOf(fs[..n], k) + [vs[n]];
      assert vs == vs[..n] + [vs[n]];
    }
  }

  /** The names of the entries, in order. */
  function Keys(fs: seq<Field>): (r: seq<Key>)
    ensures |r| == |fs|
    ensures forall i :: 0 <= i < |fs| ==> r[i] == fs[i].key
  {
    seq(|fs|, i requires 0 <= i < |fs| => fs[i].key)
  }

  /** An entry that no other entry shares a name with is read back alone. */
  lemma {:induction false} ValuesOfUnique(fs: seq<Field>, j: int)
    requires 0 <= j < |fs|
    requires forall i :: 0 <= i < |fs| && i != j ==> fs[i].key != fs[j].key
    ensures ValuesOf(fs, fs[j].key) == [fs[j].value]
  {
    var n := |fs| - 1;
    if j == n {
      ValuesOfAbsent(fs[..n], fs[j].key);
    } else {
      ValuesOfUnique(fs[..n], j);
    }
  }

  function Strs(ss: seq<string>): (r: seq<Value>)
    ensures |r| == |ss|
    ensures forall i :: 0 <= i < |ss| ==> r[i] == Str(ss[i])
  {
    seq(|ss|, i requires 0 <= i < |ss| => Str(ss[i]))
  }

  lemma StrsConcat(a: seq<string>, b: seq<string>)
    ensures Strs(a + b) == Strs(a) + Strs(b)
  {
    assert forall i :: 0 <= i < |a + b| ==> Strs(a + b)[i] == (Strs(a) + Strs(b))[i];
  }

  lemma BlobsConcat(a: seq<FileId>, b: seq<FileId>)
    ensures Blobs(a + b) == Blobs(a) + Blobs(b)
  {
    assert forall i :: 0 <= i < |a + b| ==> Blobs(a + b)[i] == (Blobs(a) + Blobs(b))[i];
  }

  /** Files are numbered by the order they were picked: a list of picks. */
  function Blobs(files: seq<FileId>): (r: seq<Value>)
    ensures |r| == |files|
    ensures forall i :: 0 <= i < |files| ==> r[i] == Blob(files[i])
  {
    seq(|files|, i requires 0 <= i < |files| => Blob(files[i]))
  }
}

/**
 * The ordered "if (!x) { warn; return }" chains every submit handler opens with.
 */
module Validation {
  import opened Options

  /** One guard: whether the form passes it, and the warning shown when it does not. */
  datatype Check = Check(passes: bool, message: string)

  /**
   * A toast shown by `warningAlert`, `successAlert` or `errorAlert`; the
   * image-cap warning carries its count.
   */
  datatype Alert = Warning(text: string) | ImagesCapped(allowed: int) | Success(text: string) | Failure(text: string)

  /** What a submit handler does: warn and stop, or send a request. */
  datatype Outcome<R> = Warned(message: string) | Dispatched(request: R)

  /** Check `i` is the first one that fails. */
  predicate FailsFirstAt(cs: seq<Check>, i: int) {
    0 <= i < |cs| && !cs[i].passes && forall j :: 0 <= j < i ==> cs[j].passes
  }

  /** The warning of the first failing guard, if any; later guards are never reached. */
  function FirstFailure(cs: seq<Check>): (r: Option<string>)
    ensures r.None? <==> forall i :: 0 <= i < |cs| ==> cs[i].passes
    ensures r.Some? ==> exists i :: FailsFirstAt(cs, i) && cs[i].message == r.value
  {
    if cs == [] then None
    else if !cs[0].passes then Some(cs[0].message)
    else
      var rest := FirstFailure(cs[1..]);
      if rest.Some? then
        var i :| FailsFirstAt(cs[1..], i) && cs[1..][i].message == rest.value;
        assert FailsFirstAt(cs, i + 1);
        rest
      else rest
  }

  /** The guard that fails first decides the warning, whatever the later guards say. */
  lemma FirstFailureIs(cs: seq<Check>, i: int)
    requires FailsFirstAt(cs, i)
    ensures FirstFailure(cs) == Some(cs[i].message)
  {
    var r := FirstFailure(cs);
    var j :| FailsFirstAt(cs, j) && cs[j].message == r.value;
    assert !(j < i) && !(i < j);
  }

  /** Run the chain, then build the request only when every guard passes. */
  function Submit<R>(cs: seq<Check>, request: R): (r: Outcome<R>)
    ensures r.Dispatched? <==> forall i :: 0 <= i < |cs| ==> cs[i].passes
    ensures r.Dispatched? ==> r.request == request
    ensures r.Warned? ==> exists i :: FailsFirstAt(cs, i) && cs[i].message == r.message
  {
    match FirstFailure(cs)
    case None => Dispatched(request)
    case Some(m) => Warned(m)
  }
}

/**
 * The status a Redux slice keeps for one async thunk: a loading flag and the
 * last success and error messages, with the transitions its `pending`,
 * `fulfilled` and `rejected` cases and its `clear*` reducer apply.
 */
module AsyncOp {
  import opened Options

  /** A message as the payload carries it: absent, or a string (possibly empty, hence falsy). */
  predicate Truthy(m: Option<string>) {
    m.Some? && m.value != ""
  }

  /** `m || fallback`. */
  function OrDefault(m: Option<string>, fallback: string): (r: string)
    ensures Truthy(m) ==> r == m.value
    ensures !Truthy(m) ==> r == fallback
  {
    if Truthy(m) then m.value else fallback
  }

  datatype Status = Status(loading: bool, success: Option<string>, error: Option<string>)

  const Idle := Status(false, None, None)

  /** `pending`: loading, and both messages cleared. */
  function Pending(s: Status): (r: Status)
    ensures r.loading && r.success.None? && r.error.None?
  {
    Status(true, None, None)
  }

  /** `fulfilled`: not loading, success message from the payload or the fixed default; the error is kept. */
  function Fulfilled(s: Status, message: Option<string>, fallback: string): (r: Status)
    ensures !r.loading && r.error == s.error
    ensures r.success.Some? && (Truthy(message) ==> r.success.value == message.value)
    ensures !Truthy(message) ==> r.success == Some(fallback)
  {
    Status(false, Some(OrDefault(message, fallback)), s.error)
  }

  /** `rejected`: not loading, error from the payload or the fixed default; the success message is kept. */
  function Rejected(s: Status, payload: Option<string>, fallback: string): (r: Status)
    ensures !r.loading && r.success == s.success
    ensures r.error.Some? && (Truthy(payload) ==> r.error.value == payload.value)
    ensures !Truthy(payload) ==> r.error == Some(fallback)
  {
    Status(false, s.success, Some(OrDefault(payload, fallback)))
  }

  /** `clear*Msg`: both messages null, loading untouched. */
  function Cleared(s: Status): (r: Status)
    ensures r.loading == s.loading && r.success.None? && r.error.None?
  {
    Status(s.loading, None, None)
  }

  /**
   * A request that settles leaves exactly one message: a success never sits
   * beside an error from an earlier request, and the other way round.
   */
  lemma SettledHasOneMessage(s: Status, m: Option<string>, fallback: string, ok: bool)
    ensures var t := if ok then Fulfilled(Pending(s), m, fallback) else Rejected(Pending(s), m, fallback);
      !t.loading && (t.success.Some? <==> ok) && (t.error.Some? <==> !ok)
  {
  }
}
