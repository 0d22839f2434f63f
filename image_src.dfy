/**
 * The `Image` component: which URL an `<img>` gets for the `src` it is given.
 */
module ImageSrc {
  import opened Text

  /** A `src` prop: a string, or some other value (a `File`, an object) passed straight through. */
  datatype Src = StrSrc(text: string) | NonString(token: nat)

  predicate IsAbsolute(s: string) {
    StartsWith(s, "http") || StartsWith(s, "blob:")
  }

  /**
   * A string not starting with `http` or `blob:` is a path on the image
   * server and gets the configured base (`""` when none is set) in front.
   */
  function Resolve(src: Src, imgUrl: string): (r: Src)
    ensures src.NonString? ==> r == src
    ensures src.StrSrc? && IsAbsolute(src.text) ==> r == src
    ensures src.StrSrc? && !IsAbsolute(src.text) ==> r == StrSrc(imgUrl + src.text)
  {
    if src.StrSrc? && !IsAbsolute(src.text) then StrSrc(imgUrl + src.text) else src
  }

  lemma StartsWithLonger(s: string, p: string, t: string)
    requires StartsWith(p, t)
    ensures StartsWith(p + s, t)
  {
    assert (p + s)[..|t|] == p[..|t|];
  }

  /**
   * With an absolute base (one starting with `http`) a resolved URL is
   * absolute, so resolving it again leaves it alone.
   */
  lemma ResolveStable(src: Src, imgUrl: string)
    requires StartsWith(imgUrl, "http")
    ensures Resolve(src, imgUrl).StrSrc? ==> IsAbsolute(Resolve(src, imgUrl).text)
    ensures Resolve(Resolve(src, imgUrl), imgUrl) == Resolve(src, imgUrl)
  {
    if src.StrSrc? && !IsAbsolute(src.text) {
      StartsWithLonger(src.text, imgUrl, "http");
    }
  }
}
