/** The order history table: the badge colour of an order's status and the
    label of its id. */
module OrderTable {
  import opened Text
  import opened Decimal

  const SuccessClasses: string := "bg-success-100 text-success-800"
  const WarningClasses: string := "bg-warning-100 text-warning-800"
  const DangerClasses: string := "bg-danger-100 text-danger-800"
  const GrayClasses: string := "bg-gray-100 text-gray-800"

  /** `getStatusBadgeClass`: the status is compared lower-cased; completed is
      green, pending amber, rejected and failed red, anything else gray. */
  function StatusBadgeClass(status: string): (c: string)
    ensures c == SuccessClasses <==> ToLower(status) == "completed"
    ensures c == WarningClasses <==> ToLower(status) == "pending"
    ensures c == DangerClasses <==> ToLower(status) == "rejected" || ToLower(status) == "failed"
    ensures c == GrayClasses <==> ToLower(status) !in {"completed", "pending", "rejected", "failed"}
  {
    var lower := ToLower(status);
    if lower == "completed" then SuccessClasses
    else if lower == "pending" then WarningClasses
    else if lower == "rejected" || lower == "failed" then DangerClasses
    else GrayClasses
  }

  /** The badge depends on the status only through its lower-case form. */
  lemma BadgeIgnoresCase(status: string, other: string)
    requires ToLower(status) == ToLower(other)
    ensures StatusBadgeClass(status) == StatusBadgeClass(other)
  {
  }

  /** Lower-casing the status first does not change its badge. */
  lemma BadgeOfLowerCase(status: string)
    ensures StatusBadgeClass(ToLower(status)) == StatusBadgeClass(status)
  {
    ToLowerIdempotent(status);
  }

  /** `#${id.toString().padStart(5, "0")}`. */
  function OrderIdLabel(id: int): (text: string)
    ensures |text| >= 6 && text[0] == '#'
    ensures |text| == 1 + (if |IntToString(id)| < 5 then 5 else |IntToString(id)|)
  {
    "#" + PadStart(IntToString(id), 5, '0')
  }

  /** The label of an order id reads back as the id: zeros in front only, and
      a long id is never cut. */
  lemma {:induction false} OrderIdLabelRoundTrip(id: nat)
    ensures var text := OrderIdLabel(id);
            AllDigits(text[1..]) && DigitsValue(text[1..]) == id
    ensures var text := OrderIdLabel(id);
            text[|text| - |NatToString(id)|..] == NatToString(id)
  {
    var digits := NatToString(id);
    var padded := PadStart(digits, 5, '0');
    var zeros := Repeat('0', |padded| - |digits|);
    assert padded == zeros + digits;
    var text := OrderIdLabel(id);
    assert text == "#" + padded by {
      assert IntToString(id) == digits;
    }
    var prefix := "#" + zeros;
    assert text == prefix + digits;
    assert text[|prefix|..] == digits;
    assert text[1..] == zeros + digits;
    LeadingZerosIgnored(|zeros|, digits);
    NatToStringRoundTrip(id);
  }
}
