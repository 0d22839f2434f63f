/**
 * String helpers shared by every screen: the JavaScript `trim`, `toLowerCase`,
 * `includes` and `startsWith` the handlers call, over `seq<char>`.
 */
module Text {

  /** The white-space characters `String.prototype.trim` removes (the common ones). */
  predicate IsSpace(c: char) {
    c == ' ' || c == '\t' || c == '\n' || c == '\r' || c == '\U{0B}' || c == '\U{0C}'
    || c == '\U{A0}' || c == '\U{2028}' || c == '\U{2029}' || c == '\U{FEFF}'
  }

  /** Drops the leading white space. */
  function TrimStart(s: string): (r: string)
    ensures |r| <= |s| && r == s[|s| - |r|..]
    ensures forall k :: 0 <= k < |s| - |r| ==> IsSpace(s[k])
    ensures r != [] ==> !IsSpace(r[0])
  {
    if s != [] && IsSpace(s[0]) then TrimStart(s[1..]) else s
  }

  /** Drops the trailing white space. */
  function TrimEnd(s: string): (r: string)
    ensures |r| <= |s| && r == s[..|r|] && (r != [] ==> r[0] == s[0])
    ensures forall k :: |r| <= k < |s| ==> IsSpace(s[k])
    ensures r != [] ==> !IsSpace(r[|r| - 1])
  {
    if s != [] && IsSpace(s[|s| - 1]) then TrimEnd(s[..|s| - 1]) else s
  }

  /** `s.trim()`: the infix of `s` left after both ends lose their white space. */
  function Trim(s: string): (r: string)
    ensures OccursAt(s, r, |s| - |TrimStart(s)|)
    ensures r != [] ==> !IsSpace(r[0]) && !IsSpace(r[|r| - 1])
  {
    var t := TrimStart(s);
    var r := TrimEnd(t);
    assert s[|s| - |t|..|s| - |t| + |r|] == r;
    r
  }

  /** Nothing but white space: what `!s.trim()` tests (see `BlankIffAllSpace`). */
  predicate IsBlank(s: string) {
    forall k :: 0 <= k < |s| ==> IsSpace(s[k])
  }

  lemma {:induction false} TrimStartEmpty(s: string)
    ensures TrimStart(s) == "" <==> forall k :: 0 <= k < |s| ==> IsSpace(s[k])
  {
    if s != [] && IsSpace(s[0]) {
      TrimStartEmpty(s[1..]);
      assert forall k :: 1 <= k < |s| ==> s[k] == s[1..][k - 1];
    }
  }

  /** A string is blank exactly when trimming leaves nothing. */
  lemma BlankIffAllSpace(s: string)
    ensures IsBlank(s) <==> Trim(s) == ""
  {
    TrimStartEmpty(s);
  }

  /** Trimming twice changes nothing more. */
  lemma TrimIdempotent(s: string)
    ensures Trim(Trim(s)) == Trim(s)
  {
    var r := Trim(s);
    if r != [] {
      assert TrimStart(r) == r;
      assert TrimEnd(r) == r;
    }
  }

  /** A trailing blank does not survive the trim. */
  lemma {:induction false} TrimDropsTrailingSpace(s: string)
    ensures Trim(s + " ") == Trim(s)
  {
    TrimStartAppendSpace(s);
    var t := TrimStart(s);
    if TrimStart(s + " ") == t + " " {
      TrimEndAppendSpace(t);
    }
  }

  lemma TrimEndAppendSpace(t: string)
    ensures TrimEnd(t + " ") == TrimEnd(t)
  {
    assert (t + " ")[..|t + " "| - 1] == t;
  }

  lemma {:induction false} TrimStartAppendSpace(s: string)
    ensures TrimStart(s + " ") == TrimStart(s) + " " || (TrimStart(s) == "" && TrimStart(s + " ") == "")
  {
    if s == [] {
      assert TrimStart(" ") == TrimStart(" "[1..]);
    } else if IsSpace(s[0]) {
      assert (s + " ")[1..] == s[1..] + " ";
      TrimStartAppendSpace(s[1..]);
    } else {
    }
  }

  /** ASCII case folding of one character (`toLowerCase` on the Latin letters). */
  function LowerChar(c: char): (r: char)
    ensures 'A' <= c <= 'Z' ==> r as int == c as int + 32
    ensures !('A' <= c <= 'Z') ==> r == c
  {
    if 'A' <= c <= 'Z' then (c as int + 32) as char else c
  }

  /** `s.toLowerCase()`. */
  function ToLower(s: string): (r: string)
    ensures |r| == |s|
    ensures forall k :: 0 <= k < |s| ==> r[k] == LowerChar(s[k])
  {
    seq(|s|, k requires 0 <= k < |s| => LowerChar(s[k]))
  }

  /** `sub` occurs in `s` starting at index `i`. */
  predicate OccursAt(s: string, sub: string, i: int) {
    0 <= i <= |s| - |sub| && s[i..i + |sub|] == sub
  }

  /** `s.includes(sub)`. */
  predicate Contains(s: string, sub: string) {
    exists i | 0 <= i <= |s| - |sub| :: OccursAt(s, sub, i)
  }

  /** `s.startsWith(p)`. */
  predicate StartsWith(s: string, p: string) {
    |p| <= |s| && s[..|p|] == p
  }

  /** Every string includes the empty string, as `"abc".includes("")` is true. */
  lemma ContainsEmpty(s: string)
    ensures Contains(s, "")
  {
    assert OccursAt(s, "", 0);
  }

  /** A string that includes `a + b` includes `b`. */
  lemma ContainsSuffixOf(s: string, a: string, b: string)
    requires Contains(s, a + b)
    ensures Contains(s, b)
  {
    var ab := a + b;
    var i :| 0 <= i <= |s| - |ab| && OccursAt(s, ab, i);
    assert s[i..i + |ab|] == ab;
    assert s[i + |a|..i + |ab|] == s[i..i + |ab|][|a|..] == ab[|a|..] == b;
    assert OccursAt(s, b, i + |a|);
  }

  /** A string that includes `a + b` includes `a`. */
  lemma ContainsPrefixOf(s: string, a: string, b: string)
    requires Contains(s, a + b)
    ensures Contains(s, a)
  {
    var ab := a + b;
    var i :| 0 <= i <= |s| - |ab| && OccursAt(s, ab, i);
    assert s[i..i + |a|] == s[i..i + |ab|][..|a|] == ab[..|a|] == a;
    assert OccursAt(s, a, i);
  }

  /** A string with no white space at either end is its own trim. */
  lemma TrimNoOp(s: string)
    requires s == [] || (!IsSpace(s[0]) && !IsSpace(s[|s| - 1]))
    ensures Trim(s) == s
  {
  }

  /** `s.split(sep)` for a one-character separator: `"".split(",")` is `[""]`. */
  function Split(s: string, sep: char): (r: seq<string>)
    ensures |r| >= 1
    ensures forall k :: 0 <= k < |r| ==> sep !in r[k]
  {
    if s == [] then [""]
    else
      var rest := Split(s[1..], sep);
      if s[0] == sep then [""] + rest else [[s[0]] + rest[0]] + rest[1..]
  }

  /** `parts.join(sep)`. */
  function Join(parts: seq<string>, sep: char): string
    requires |parts| >= 1
  {
    if |parts| == 1 then parts[0] else parts[0] + [sep] + Join(parts[1..], sep)
  }

  /** Splitting and joining with the same separator gives the string back. */
  lemma {:induction false} JoinSplit(s: string, sep: char)
    ensures Join(Split(s, sep), sep) == s
  {
    if s != [] {
      var rest := Split(s[1..], sep);
      JoinSplit(s[1..], sep);
      if s[0] == sep {
        assert Split(s, sep) == [""] + rest;
        assert ([""] + rest)[1..] == rest;
      } else {
        var r := Split(s, sep);
        assert r == [[s[0]] + rest[0]] + rest[1..];
        if |rest| == 1 {
          assert Join(r, sep) == [s[0]] + rest[0];
        } else {
          assert r[1..] == rest[1..];
          assert Join(rest, sep) == rest[0] + [sep] + Join(rest[1..], sep);
        }
      }
    }
  }

  /** Trimming only removes characters. */
  lemma TrimKeepsOut(s: string, c: char)
    requires c !in s
    ensures c !in Trim(s)
  {
    var r := Trim(s);
    var i := |s| - |TrimStart(s)|;
    assert OccursAt(s, r, i);
    forall k | 0 <= k < |r| ensures r[k] != c {
      assert r[k] == s[i..i + |r|][k] == s[i + k];
    }
  }
}
