/**
 * The dashboard's phone-number formatting and relative-time labels.
 * The current time is not read: `TimeAgo` takes the elapsed time
 * (now minus the timestamp) in milliseconds.
 */
module Utils {
  import opened Js

  /**
   * `formatPhoneNumber`: a number in the Kenyan `254...` form is shown as
   * `+254 712 345 678`; any other text is shown as it is.
   */
  function FormatPhoneNumber(phone: string): (r: string)
    ensures !StartsWith(phone, "254") ==> r == phone
    ensures StartsWith(phone, "254") ==> |r| == |phone| + 4 && r[0] == '+' && r[1..4] == "254"
  {
    if StartsWith(phone, "254") then
      "+" + Slice(phone, 0, 3) + " " + Slice(phone, 3, 6) + " " + Slice(phone, 6, 9) + " " + SliceFrom(phone, 9)
    else
      phone
  }

  /**
   * Removes what formatting inserted: the leading `+` and the three
   * separating spaces, whose places follow from the length alone.
   */
  function Ungroup(r: string): string
    requires |r| >= 7
  {
    var n := |r| - 4;
    var b := Min(3, n - 3);
    var c := if n <= 6 then 0 else Min(3, n - 6);
    r[1..4] + r[5..5 + b] + r[6 + b..6 + b + c] + r[7 + b + c..]
  }

  /** Text that does not start with `254` is returned unchanged. */
  lemma FormatOther(phone: string)
    requires !StartsWith(phone, "254")
    ensures FormatPhoneNumber(phone) == phone
  {
  }

  /**
   * A `254...` number is `+`, then the groups [0,3), [3,6), [6,9) and
   * [9,end) separated by single spaces; groups past the end are empty, so
   * short input never fails.
   */
  lemma {:induction false} FormatGroups(phone: string)
    requires StartsWith(phone, "254")
    ensures var r := FormatPhoneNumber(phone);
      var n := |phone|;
      var b := Min(3, n - 3);
      var c := if n <= 6 then 0 else Min(3, n - 6);
      && |r| == n + 4
      && r[0] == '+' && r[4] == ' ' && r[5 + b] == ' ' && r[6 + b + c] == ' '
      && r[1..4] == phone[..3]
      && r[5..5 + b] == phone[3..3 + b]
      && r[6 + b..6 + b + c] == phone[3 + b..3 + b + c]
      && r[7 + b + c..] == phone[3 + b + c..]
  {
    var n := |phone|;
    var b := Min(3, n - 3);
    var c := if n <= 6 then 0 else Min(3, n - 6);
    assert 3 + b == Min(6, n) && 3 + b + c == Min(9, n);
    var g1, g2, g3, g4 := Slice(phone, 0, 3), Slice(phone, 3, 6), Slice(phone, 6, 9), SliceFrom(phone, 9);
    assert g1 == phone[..3];
    assert g2 == phone[3..3 + b];
    assert g3 == phone[3 + b..3 + b + c];
    assert g4 == phone[3 + b + c..];
    assert FormatPhoneNumber(phone) == "+" + g1 + " " + g2 + " " + g3 + " " + g4;
    Layout(g1, g2, g3, g4);
  }

  /** Where the groups and the separators sit in `+g1 g2 g3 g4`. */
  lemma Layout(g1: string, g2: string, g3: string, g4: string)
    ensures var r := "+" + g1 + " " + g2 + " " + g3 + " " + g4;
      var x, y, z := 1 + |g1|, 2 + |g1| + |g2|, 3 + |g1| + |g2| + |g3|;
      && |r| == |g1| + |g2| + |g3| + |g4| + 4
      && r[0] == '+' && r[x] == ' ' && r[y] == ' ' && r[z] == ' '
      && r[1..x] == g1 && r[x + 1..y] == g2 && r[y + 1..z] == g3 && r[z + 1..] == g4
  {
  }

  /** Deleting the `+` and the inserted spaces gives back the number. */
  lemma {:induction false} UngroupFormat(phone: string)
    requires StartsWith(phone, "254")
    ensures |FormatPhoneNumber(phone)| == |phone| + 4
    ensures Ungroup(FormatPhoneNumber(phone)) == phone
  {
    FormatGroups(phone);
    UngroupGroups(phone, FormatPhoneNumber(phone));
  }

  /** `Ungroup` takes apart any text laid out as formatting lays out `phone`. */
  lemma UngroupGroups(phone: string, r: string)
    requires |phone| >= 3
    requires var n := |phone|;
      var b := Min(3, n - 3);
      var c := if n <= 6 then 0 else Min(3, n - 6);
      && |r| == n + 4
      && r[1..4] == phone[..3]
      && r[5..5 + b] == phone[3..3 + b]
      && r[6 + b..6 + b + c] == phone[3 + b..3 + b + c]
      && r[7 + b + c..] == phone[3 + b + c..]
    ensures Ungroup(r) == phone
  {
    var n := |phone|;
    var b := Min(3, n - 3);
    var c := if n <= 6 then 0 else Min(3, n - 6);
    assert Ungroup(r) == phone[..3] + phone[3..3 + b] + phone[3 + b..3 + b + c] + phone[3 + b + c..];
    SplitFour(phone, 3, 3 + b, 3 + b + c);
  }

  /** A sequence is the concatenation of its pieces between three cut points. */
  lemma SplitFour(s: string, i: nat, j: nat, k: nat)
    requires i <= j <= k <= |s|
    ensures s == s[..i] + s[i..j] + s[j..k] + s[k..]
  {
    assert s[..i] + s[i..j] == s[..j];
    assert s[..j] + s[j..k] == s[..k];
  }

  /** Formatting twice is formatting once: the output starts with `+`, not `254`. */
  lemma FormatIdempotent(phone: string)
    ensures FormatPhoneNumber(FormatPhoneNumber(phone)) == FormatPhoneNumber(phone)
  {
    var r := FormatPhoneNumber(phone);
    if StartsWith(phone, "254") {
      assert r[0] == '+';
      assert !StartsWith(r, "254");
    }
  }

  // ------------------------------------------------------------------ timeAgo

  /** The label `timeAgo` produces: a relative phrase, or the `formatDate` rendering of the timestamp. */
  datatype Label = Text(text: string) | FormattedDate

  /** `N unit ago`, with the unit in the plural unless N is 1. */
  function Phrase(n: int, unit: string): (r: string)
    ensures |r| >= |IntToString(n)| + |unit| + 5 && r[..|IntToString(n)|] == IntToString(n) && r[|r| - 4..] == " ago"
    ensures n == 1 <==> |r| == |IntToString(n)| + |unit| + 5
  {
    IntToString(n) + " " + unit + (if n == 1 then "" else "s") + " ago"
  }

  /** `timeAgo`, given the elapsed milliseconds; each step floors as `Math.floor` does. */
  function TimeAgo(elapsedMs: int): (r: Label)
    ensures elapsedMs < 60_000 ==> r == Text("just now")
    ensures r == FormattedDate <==> elapsedMs >= 604_800_000
  {
    var seconds := elapsedMs / 1000;
    if seconds < 60 then Text("just now")
    else
      var minutes := seconds / 60;
      if minutes < 60 then Text(Phrase(minutes, "min"))
      else
        var hours := minutes / 60;
        if hours < 24 then Text(Phrase(hours, "hour"))
        else
          var days := hours / 24;
          if days < 7 then Text(Phrase(days, "day"))
          else FormattedDate
  }

  /** The unit a label is counted in. */
  datatype Bucket = JustNow | Minutes(n: int) | Hours(n: int) | Days(n: int) | Older

  /** Reference bucketing straight from the milliseconds, with one division per unit. */
  function BucketOf(elapsedMs: int): Bucket
  {
    if elapsedMs < 60_000 then JustNow
    else if elapsedMs < 3_600_000 then Minutes(elapsedMs / 60_000)
    else if elapsedMs < 86_400_000 then Hours(elapsedMs / 3_600_000)
    else if elapsedMs < 604_800_000 then Days(elapsedMs / 86_400_000)
    else Older
  }

  function Render(b: Bucket): Label
  {
    match b
    case JustNow => Text("just now")
    case Minutes(n) => Text(Phrase(n, "min"))
    case Hours(n) => Text(Phrase(n, "hour"))
    case Days(n) => Text(Phrase(n, "day"))
    case Older => FormattedDate
  }

  /** Flooring twice is flooring once by the product: floor(floor(a/b)/c) == floor(a/(b*c)). */
  lemma {:induction false} FloorDivDiv(a: int, b: int, c: int)
    requires b > 0 && c > 0
    ensures (a / b) / c == a / (b * c)
  {
    var q := a / b;
    var r := a - q * b;
    var q2 := q / c;
    var r2 := q - q2 * c;
    assert 0 <= r < b && 0 <= r2 < c;
    assert a == q2 * (b * c) + (r2 * b + r) by {
      assert q == q2 * c + r2;
      calc {
        a;
        q * b + r;
        (q2 * c + r2) * b + r;
        { assert (q2 * c + r2) * b == q2 * (b * c) + r2 * b; }
        q2 * (b * c) + (r2 * b + r);
      }
    }
    assert 0 <= r2 * b + r < b * c by {
      assert r2 * b <= (c - 1) * b;
      assert (c - 1) * b == b * c - b;
    }
    DivUnique(a, b * c, q2, r2 * b + r);
  }

  lemma DivUnique(a: int, d: int, q: int, r: int)
    requires d > 0 && 0 <= r < d && a == q * d + r
    ensures a / d == q
  {
    var q', r' := a / d, a % d;
    assert a == q' * d + r';
    if q' < q {
      MulAtLeast(q - q', d);
    } else if q' > q {
      MulAtLeast(q' - q, d);
    }
  }

  lemma MulAtLeast(k: int, d: int)
    requires k >= 1 && d > 0
    ensures k * d >= d
  {
  }

  /**
   * `timeAgo` agrees with the reference bucketing: "just now" under a minute
   * (future timestamps included), then whole minutes, hours and days,
   * singular exactly at 1, and the formatted date from seven days on.
   */
  lemma {:induction false} TimeAgoBuckets(elapsedMs: int)
    ensures TimeAgo(elapsedMs) == Render(BucketOf(elapsedMs))
  {
    var seconds := elapsedMs / 1000;
    FloorDivDiv(elapsedMs, 1000, 60);
    FloorDivDiv(elapsedMs, 60_000, 60);
    FloorDivDiv(elapsedMs, 3_600_000, 24);
    var minutes := seconds / 60;
    var hours := minutes / 60;
    assert seconds < 60 <==> elapsedMs < 60_000;
    assert minutes < 60 <==> elapsedMs < 3_600_000;
    assert hours < 24 <==> elapsedMs < 86_400_000;
    assert hours / 24 < 7 <==> elapsedMs < 604_800_000;
  }

  /** Each relative count is at least 1, so "0 mins ago" is never shown. */
  lemma BucketCountsPositive(elapsedMs: int)
    ensures match BucketOf(elapsedMs)
      case Minutes(n) => 1 <= n < 60
      case Hours(n) => 1 <= n < 24
      case Days(n) => 1 <= n < 7
      case _ => true
  {
  }
}
