/**
 * `getColorName`: the hex code the colour picker produces is normalised to
 * six digits and handed to the colour-name library, whose first "ntc" name is
 * the answer.
 */
module ColorName {
  import opened Text

  predicate IsHexDigit(c: char) {
    '0' <= c <= '9' || 'a' <= c <= 'f' || 'A' <= c <= 'F'
  }

  predicate AllHex(s: string) {
    forall k :: 0 <= k < |s| ==> IsHexDigit(s[k])
  }

  /** `/^#?[0-9A-Fa-f]{n}$/.test(s)`. */
  predicate HexOfLength(s: string, n: nat) {
    (|s| == n && AllHex(s)) || (|s| == n + 1 && s[0] == '#' && AllHex(s[1..]))
  }

  /** `s.replace("#", "")` for a string with at most a leading `#`. */
  function Digits(s: string): (r: string)
    ensures s != [] && s[0] == '#' ==> s == "#" + r
    ensures (s == [] || s[0] != '#') ==> r == s
  {
    if s != [] && s[0] == '#' then s[1..] else s
  }

  /** Every character written twice: `split("").map(c => c + c).join("")`. */
  function Doubled(s: string): (r: string)
    ensures |r| == 2 * |s|
    ensures forall k :: 0 <= k < |s| ==> r[2 * k] == s[k] && r[2 * k + 1] == s[k]
  {
    if s == [] then [] else [s[0], s[0]] + Doubled(s[1..])
  }

  /** The hex code the namer receives. */
  function NormaliseHex(hex: string): (r: string)
    ensures HexOfLength(hex, 3) ==> r == "#" + Doubled(Digits(hex))
    ensures !HexOfLength(hex, 3) && HexOfLength(hex, 4) ==> r == "#" + Doubled(ToLower(Digits(hex)[..3]))
    ensures !HexOfLength(hex, 3) && !HexOfLength(hex, 4) ==> r == hex
  {
    var expanded := if HexOfLength(hex, 3) then "#" + Doubled(Digits(hex)) else hex;
    if HexOfLength(expanded, 4) then "#" + Doubled(ToLower(Digits(expanded)[..3])) else expanded
  }

  /** `getColorName(hexCode)` with the library call given as `namer`. */
  function GetColorName(hexCode: string, namer: string -> string): (r: string)
    ensures hexCode == "" ==> r == ""
    ensures hexCode != "" ==> r == namer(NormaliseHex(Trim(hexCode)))
  {
    if hexCode == "" then "" else namer(NormaliseHex(Trim(hexCode)))
  }

  lemma DoubledHex(s: string)
    requires AllHex(s)
    ensures AllHex(Doubled(s))
  {
    var d := Doubled(s);
    forall k | 0 <= k < |d| ensures IsHexDigit(d[k]) {
      assert d[k] == s[k / 2] by {
        if k % 2 == 0 {
          assert d[2 * (k / 2)] == s[k / 2];
        } else {
          assert d[2 * (k / 2) + 1] == s[k / 2];
        }
      }
    }
  }

  /**
   * The short forms come out as full `#rrggbb` codes: three digits with each
   * digit doubled in its own case, four digits with the alpha digit dropped
   * and the rest in lower case.
   */
  lemma ShortFormsBecomeSixDigits(hex: string)
    requires HexOfLength(hex, 3) || HexOfLength(hex, 4)
    ensures HexOfLength(NormaliseHex(hex), 6) && NormaliseHex(hex)[0] == '#'
    ensures HexOfLength(hex, 3) ==>
      forall k :: 0 <= k < 3 ==> NormaliseHex(hex)[2 * k + 1] == NormaliseHex(hex)[2 * k + 2] == Digits(hex)[k]
    ensures HexOfLength(hex, 4) ==>
      forall k :: 0 <= k < 3 ==> NormaliseHex(hex)[2 * k + 1] == NormaliseHex(hex)[2 * k + 2] == LowerChar(Digits(hex)[k])
  {
    var d := Digits(hex);
    if HexOfLength(hex, 3) {
      assert AllHex(d);
      DoubledHex(d);
      var r := NormaliseHex(hex);
      assert r[1..] == Doubled(d);
      forall k | 0 <= k < 3 ensures r[2 * k + 1] == r[2 * k + 2] == d[k] {
        assert r[2 * k + 1] == Doubled(d)[2 * k];
      }
    } else {
      var low := ToLower(d[..3]);
      assert AllHex(low);
      DoubledHex(low);
      var r := NormaliseHex(hex);
      assert r[1..] == Doubled(low);
      forall k | 0 <= k < 3 ensures r[2 * k + 1] == r[2 * k + 2] == LowerChar(d[k]) {
        assert r[2 * k + 1] == Doubled(low)[2 * k];
      }
    }
  }

  /** A code already in six-digit form is passed through untouched, so normalising twice changes nothing more. */
  lemma NormaliseIdempotent(hex: string)
    ensures NormaliseHex(NormaliseHex(hex)) == NormaliseHex(hex)
  {
    var r := NormaliseHex(hex);
    if HexOfLength(hex, 3) || HexOfLength(hex, 4) {
      ShortFormsBecomeSixDigits(hex);
      assert |r| == 7;
      assert !HexOfLength(r, 3) && !HexOfLength(r, 4);
    }
  }
}
