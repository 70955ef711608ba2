/**
 * The older copy of the utilities at the repository root. Its
 * `formatPhoneNumber` is written out again here, as that file has its own.
 */
module LegacyUtils {
  import opened Js
  import Utils

  function FormatPhoneNumber(phone: string): (r: string)
    ensures !StartsWith(phone, "254") ==> r == phone
    ensures StartsWith(phone, "254") ==> |r| == |phone| + 4 && r[0] == '+' && r[1..4] == "254"
  {
    if StartsWith(phone, "254") then
      "+" + Slice(phone, 0, 3) + " " + Slice(phone, 3, 6) + " " + Slice(phone, 6, 9) + " " + SliceFrom(phone, 9)
    else
      phone
  }

  /** The two copies format every input the same way. */
  lemma AgreesWithDashboard(phone: string)
    ensures FormatPhoneNumber(phone) == Utils.FormatPhoneNumber(phone)
  {
  }

  /** The example in the comment: `254712345678` becomes `+254 712 345 678`. */
  lemma DocumentedExample()
    ensures FormatPhoneNumber("254712345678") == "+254 712 345 678"
  {
    var p := "254712345678";
    assert StartsWith(p, "254");
    assert Slice(p, 0, 3) == "254";
    assert Slice(p, 3, 6) == "712";
    assert Slice(p, 6, 9) == "345";
    assert SliceFrom(p, 9) == "678";
  }

  /** The bare prefix does not fail: its three missing groups are empty. */
  lemma BarePrefix()
    ensures FormatPhoneNumber("254") == "+254   "
  {
    var p := "254";
    assert StartsWith(p, "254");
    assert Slice(p, 0, 3) == "254";
    assert Slice(p, 3, 6) == "";
    assert Slice(p, 6, 9) == "";
    assert SliceFrom(p, 9) == "";
  }

  /** Text that does not start with `254` is returned unchanged. */
  lemma FormatOther(phone: string)
    requires !StartsWith(phone, "254")
    ensures FormatPhoneNumber(phone) == phone
  {
  }

  /** Formatting is idempotent, and removing `+` and the separators gives back a `254...` number. */
  lemma {:induction false} FormatRoundTrip(phone: string)
    ensures FormatPhoneNumber(FormatPhoneNumber(phone)) == FormatPhoneNumber(phone)
    ensures StartsWith(phone, "254") ==>
      |FormatPhoneNumber(phone)| == |phone| + 4 && Utils.Ungroup(FormatPhoneNumber(phone)) == phone
  {
    AgreesWithDashboard(phone);
    AgreesWithDashboard(FormatPhoneNumber(phone));
    Utils.FormatIdempotent(phone);
    if StartsWith(phone, "254") {
      Utils.UngroupFormat(phone);
    }
  }
}
