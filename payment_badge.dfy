/**
 * The order and payment status badges: a label and its colour classes chosen
 * by substring matches on the lower-cased status.
 */
module PaymentBadge {
  import opened Text
  import opened Options

  datatype Badge = Badge(caption: string, classes: string)

  const Gray := "bg-gray-100 text-gray-700"

  /** `status || "Unknown"` with the grey classes. */
  function Fallback(status: string): (r: Badge)
    ensures r.classes == Gray
    ensures status != "" ==> r.caption == status
    ensures status == "" ==> r.caption == "Unknown"
  {
    Badge(if status == "" then "Unknown" else status, Gray)
  }

  /** Whether the lower-cased status holds any of the keywords the order badge looks for. */
  predicate HasOrderKeyword(s: string) {
    Contains(s, "processing") || Contains(s, "ship") || Contains(s, "deliv")
    || Contains(s, "cancel") || Contains(s, "confirmed")
  }

  const ProcessingBadge := Badge("Processing", "bg-purple-100 text-purple-700")
  const ShippingBadge := Badge("Shipping", "bg-amber-100 text-amber-700")
  const DeliveredBadge := Badge("Delivered", "bg-emerald-100 text-emerald-700")
  const CancelledBadge := Badge("Cancelled", "bg-red-100 text-red-700")
  const ConfirmedBadge := Badge("Confirmed", "bg-blue-100 text-blue-700")

  /**
   * `statusBadge(status)`; an absent status is `""`. The first keyword found
   * decides; a status with none of them gets the grey fallback.
   */
  function StatusBadge(status: string): (r: Badge)
    ensures Contains(ToLower(status), "processing") ==> r == ProcessingBadge
    ensures (!Contains(ToLower(status), "processing") && Contains(ToLower(status), "ship"))
      ==> r == ShippingBadge
    ensures (!Contains(ToLower(status), "processing") && !Contains(ToLower(status), "ship")
             && Contains(ToLower(status), "deliv"))
      ==> r == DeliveredBadge
    ensures (!Contains(ToLower(status), "processing") && !Contains(ToLower(status), "ship")
             && !Contains(ToLower(status), "deliv") && Contains(ToLower(status), "cancel"))
      ==> r == CancelledBadge
    ensures (!Contains(ToLower(status), "processing") && !Contains(ToLower(status), "ship")
             && !Contains(ToLower(status), "deliv") && !Contains(ToLower(status), "cancel")
             && Contains(ToLower(status), "confirmed"))
      ==> r == ConfirmedBadge
    ensures r.classes == Gray <==> !HasOrderKeyword(ToLower(status))
    ensures r.classes == Gray ==> r == Fallback(status)
  {
    var s := ToLower(status);
    if Contains(s, "processing") then ProcessingBadge
    else if Contains(s, "ship") || Contains(s, "shipping") then
      ShippingTestRedundant(s);
      ShippingBadge
    else if Contains(s, "deliv") then DeliveredBadge
    else if Contains(s, "cancel") then CancelledBadge
    else if Contains(s, "confirmed") then ConfirmedBadge
    else Fallback(status)
  }

  /** The order badge's keywords with their badges, in the order they are tried. */
  const OrderBadges: seq<(string, Badge)> := [
    ("processing", ProcessingBadge), ("ship", ShippingBadge), ("deliv", DeliveredBadge),
    ("cancel", CancelledBadge), ("confirmed", ConfirmedBadge)]

  /** The badge of the first entry whose keyword occurs in `s`. */
  function FirstMatch(table: seq<(string, Badge)>, s: string): (r: Option<Badge>)
    ensures r.None? <==> forall k :: 0 <= k < |table| ==> !Contains(s, table[k].0)
  {
    if table == [] then None
    else if Contains(s, table[0].0) then Some(table[0].1)
    else FirstMatch(table[1..], s)
  }

  /**
   * The badge is a first-match lookup in the keyword table over the
   * lower-cased status, with the grey fallback when no keyword occurs.
   */
  lemma StatusBadgeIsTableLookup(status: string)
    ensures StatusBadge(status) == match FirstMatch(OrderBadges, ToLower(status))
      case Some(b) => b
      case None => Fallback(status)
  {
    var s := ToLower(status);
    var t4 := [("confirmed", ConfirmedBadge)];
    var t3 := [("cancel", CancelledBadge)] + t4;
    var t2 := [("deliv", DeliveredBadge)] + t3;
    var t1 := [("ship", ShippingBadge)] + t2;
    assert OrderBadges == [("processing", ProcessingBadge)] + t1;
    assert OrderBadges[1..] == t1 && t1[1..] == t2 && t2[1..] == t3 && t3[1..] == t4 && t4[1..] == [];
    assert FirstMatch(t4[1..], s) == None;
    assert FirstMatch(t4, s) == if Contains(s, "confirmed") then Some(ConfirmedBadge) else None;
    assert FirstMatch(t3, s) == if Contains(s, "cancel") then Some(CancelledBadge) else FirstMatch(t4, s);
    assert FirstMatch(t2, s) == if Contains(s, "deliv") then Some(DeliveredBadge) else FirstMatch(t3, s);
    assert FirstMatch(t1, s) == if Contains(s, "ship") then Some(ShippingBadge) else FirstMatch(t2, s);
    ShippingTestRedundant(s);
  }

  /** `paymentStatusBadge(status)`. */
  function PaymentStatusBadge(status: string): (r: Badge)
    ensures Contains(ToLower(status), "paid") ==> r == Badge("Paid", "bg-emerald-100 text-emerald-700")
    ensures !Contains(ToLower(status), "paid") ==> r == Fallback(status)
  {
    var s := ToLower(status);
    if Contains(s, "paid") then Badge("Paid", "bg-emerald-100 text-emerald-700")
    else if Contains(s, "unpaid") then
      UnpaidIncludesPaid(s);
      Badge("Unpaid", "bg-red-100 text-red-700")
    else Fallback(status)
  }

  lemma UnpaidIncludesPaid(s: string)
    ensures Contains(s, "unpaid") ==> Contains(s, "paid")
  {
    if Contains(s, "unpaid") {
      assert "un" + "paid" == "unpaid";
      ContainsSuffixOf(s, "un", "paid");
    }
  }

  /**
   * "unpaid" includes "paid", so every unpaid order is shown as Paid and the
   * red Unpaid badge is never produced.
   */
  lemma UnpaidShownAsPaid(status: string)
    ensures Contains(ToLower(status), "unpaid") ==> PaymentStatusBadge(status).caption == "Paid"
    ensures PaymentStatusBadge(status).classes != "bg-red-100 text-red-700"
  {
    UnpaidIncludesPaid(ToLower(status));
  }

  /** A status that reads "shipping" already matched "ship": the second test is never decisive. */
  lemma ShippingTestRedundant(s: string)
    ensures Contains(s, "shipping") ==> Contains(s, "ship")
  {
    if Contains(s, "shipping") {
      assert "ship" + "ping" == "shipping";
      ContainsPrefixOf(s, "ship", "ping");
    }
  }

  lemma ToLowerIdempotent(s: string)
    ensures ToLower(ToLower(s)) == ToLower(s)
  {
  }

  /** The match ignores case: a status and its lower-case spelling get the same coloured badge. */
  lemma StatusBadgeIgnoresCase(status: string)
    ensures StatusBadge(status).classes != Gray ==> StatusBadge(ToLower(status)) == StatusBadge(status)
    ensures PaymentStatusBadge(ToLower(status)).classes == PaymentStatusBadge(status).classes
  {
    ToLowerIdempotent(status);
  }
}
