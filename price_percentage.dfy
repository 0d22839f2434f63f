/**
 * `getPricePayload`: the discount percentage of an offer price against a
 * price, rounded to two decimals as `Number(x.toFixed(2))` does.
 */
module PricePercentage {

  datatype PricePayload = PricePayload(price: real, offerPrice: real, offerPercentage: real)

  function Abs(x: real): real { if x < 0.0 then -x else x }

  /**
   * `toFixed(2)` read back as a number: the nearest multiple of 0.01, a tie
   * going away from zero (the digits are taken from the magnitude and the
   * sign put back).
   */
  function Round2(x: real): (r: real)
    ensures Abs(r - x) <= 0.005
    ensures (r * 100.0).Floor as real == r * 100.0
    ensures x >= 0.0 ==> r >= 0.0
    ensures x <= 0.0 ==> r <= 0.0
    ensures Abs(r - x) == 0.005 ==> Abs(r) == Abs(x) + 0.005
  {
    var y := x * 100.0;
    var a := if y < 0.0 then -y else y;
    var h := (a + 0.5).Floor;
    assert h as real <= a + 0.5 < h as real + 1.0;
    var m := h as real / 100.0;
    assert m * 100.0 == h as real;
    assert -0.5 <= m * 100.0 - a <= 0.5;
    if x < 0.0 then
      assert (-m) * 100.0 == (-h) as real && ((-h) as real).Floor == -h;
      assert (-m - x) * 100.0 == a - m * 100.0;
      -m
    else
      assert (h as real).Floor == h;
      assert (m - x) * 100.0 == m * 100.0 - a;
      m
  }

  /** A value that already has at most two decimals comes back unchanged. */
  lemma Round2Exact(n: int)
    ensures Round2(n as real / 100.0) == n as real / 100.0
  {
    var x := n as real / 100.0;
    assert x * 100.0 == n as real;
    var a := if n < 0 then -n else n;
    assert (a as real + 0.5).Floor == a;
  }

  /**
   * A price that is falsy or not positive gives a percentage of 0 without
   * dividing; otherwise the percentage is `round2((price - offer) / price * 100)`.
   * Both prices are handed back as they came in.
   */
  function GetPricePayload(price: real, offerPrice: real): (r: PricePayload)
    ensures r.price == price && r.offerPrice == offerPrice
    ensures price <= 0.0 ==> r.offerPercentage == 0.0
    ensures price > 0.0 ==> Abs(r.offerPercentage - (price - offerPrice) / price * 100.0) <= 0.005
    ensures (r.offerPercentage * 100.0).Floor as real == r.offerPercentage * 100.0
  {
    if price <= 0.0 then PricePayload(price, offerPrice, 0.0)
    else PricePayload(price, offerPrice, Round2((price - offerPrice) / price * 100.0))
  }

  /** No discount when the offer price equals the price. */
  lemma SamePriceNoDiscount(price: real)
    ensures GetPricePayload(price, price).offerPercentage == 0.0
  {
    if price > 0.0 {
      assert (price - price) / price * 100.0 == 0.0;
      Round2Exact(0);
    }
  }

  /** A free offer is a 100% discount. */
  lemma FreeOfferIsFullDiscount(price: real)
    requires price > 0.0
    ensures GetPricePayload(price, 0.0).offerPercentage == 100.0
  {
    assert (price - 0.0) / price * 100.0 == 10000 as real / 100.0;
    Round2Exact(10000);
  }

  /** An offer above the price is not clamped: the percentage is not positive. */
  lemma MarkupIsNotDiscount(price: real, offerPrice: real)
    requires price > 0.0 && offerPrice > price
    ensures GetPricePayload(price, offerPrice).offerPercentage <= 0.0
  {
    assert (price - offerPrice) / price * 100.0 < 0.0;
  }

  /** An offer below a positive price gives a percentage between 0 and 100. */
  lemma DiscountInRange(price: real, offerPrice: real)
    requires price > 0.0 && 0.0 <= offerPrice <= price
    ensures 0.0 <= GetPricePayload(price, offerPrice).offerPercentage <= 100.0
  {
    var raw := (price - offerPrice) / price * 100.0;
    assert raw <= 100.0 by {
      assert (price - offerPrice) / price <= 1.0;
    }
    var r := GetPricePayload(price, offerPrice).offerPercentage;
    var h := (raw * 100.0 + 0.5).Floor;
    assert raw * 100.0 + 0.5 < 10001.0;
    assert h <= 10000;
  }
}
