/**
 * The helpers of the activity log panel: the relative age of a record ("3 hours ago") and
 * the badge variant and colour for a record's status. The age is computed from the
 * difference, in milliseconds, between now and the record's timestamp; with a positive
 * divisor, Dafny's `/` on `int` is the floor division of `Math.floor(diff / unit)`.
 */
module ActivityLog {
  import opened Text

  const MinuteMs := 60000
  const HourMs := 3600000
  const DayMs := 86400000

  /** "`n` `unit`s ago", with the plural `s` exactly when `n` exceeds 1. */
  function Phrase(n: nat, unit: string): string {
    NatToDecimal(n) + " " + unit + (if n > 1 then "s" else "") + " ago"
  }

  /** `formatTimeAgo` for the difference `diff` (negative when the timestamp is in the future). */
  function FormatTimeAgo(diff: int): (r: string)
    ensures diff < MinuteMs ==> r == "Just now"
    ensures diff >= DayMs ==> r == Phrase(diff / DayMs, "day")
    ensures HourMs <= diff < DayMs ==> r == Phrase(diff / HourMs, "hour")
    ensures MinuteMs <= diff < HourMs ==> r == Phrase(diff / MinuteMs, "minute")
  {
    var minutes := diff / 60000;
    var hours := diff / 3600000;
    var days := diff / 86400000;
    if days > 0 then NatToDecimal(days) + " day" + (if days > 1 then "s" else "") + " ago"
    else if hours > 0 then NatToDecimal(hours) + " hour" + (if hours > 1 then "s" else "") + " ago"
    else if minutes > 0 then NatToDecimal(minutes) + " minute" + (if minutes > 1 then "s" else "") + " ago"
    else "Just now"
  }

  /**
   * The reported count is the floored number of whole units and at least 1; hours stay
   * below a day and minutes below an hour, so the largest unit with a positive count is used.
   */
  lemma CountInRange(diff: int)
    ensures diff >= DayMs ==> diff / DayMs >= 1
    ensures HourMs <= diff < DayMs ==> 1 <= diff / HourMs < 24
    ensures MinuteMs <= diff < HourMs ==> 1 <= diff / MinuteMs < 60
  {
  }

  /**
   * A phrase starts with the count in decimal, which reads back as the count, and ends in
   * "s ago" exactly when the count exceeds 1 (no unit word ends in `s`).
   */
  lemma PhraseReadsBack(n: nat, unit: string)
    requires unit != [] && unit[|unit| - 1] != 's'
    ensures var p := Phrase(n, unit); var d := NatToDecimal(n);
            |d| < |p| && p[..|d|] == d && p[|d|] == ' ' && ParseDecimal(p[..|d|]) == n
    ensures var p := Phrase(n, unit); |p| >= 5 && (p[|p| - 5..] == "s ago" <==> n > 1)
  {
    var p := Phrase(n, unit);
    var d := NatToDecimal(n);
    ParseNatToDecimal(n);
    assert p == d + (" " + unit + (if n > 1 then "s" else "") + " ago");
    assert p[..|d|] == d;
    var w := d + " " + unit;
    if n > 1 {
      assert p == w + "s ago";
      assert p[|p| - 5..] == "s ago";
    } else {
      assert p == w + " ago";
      assert p[|p| - 5] == w[|w| - 1] == unit[|unit| - 1];
    }
  }

  /** `getStatusVariant`. */
  function GetStatusVariant(status: string): (v: string)
    ensures status == "connected" <==> v == "default"
    ensures status == "failed" <==> v == "destructive"
    ensures status == "disconnected" <==> v == "secondary"
    ensures v == "outline" <==> status != "connected" && status != "failed" && status != "disconnected"
  {
    match status
    case "connected" => "default"
    case "failed" => "destructive"
    case "disconnected" => "secondary"
    case _ => "outline"
  }

  /** `getStatusColor`. */
  function GetStatusColor(status: string): (c: string)
    ensures status == "connected" <==> c == "bg-green-500"
    ensures status == "failed" <==> c == "bg-red-500"
    ensures status == "disconnected" <==> c == "bg-yellow-500"
    ensures c == "bg-gray-500" <==> status != "connected" && status != "failed" && status != "disconnected"
  {
    match status
    case "connected" => "bg-green-500"
    case "failed" => "bg-red-500"
    case "disconnected" => "bg-yellow-500"
    case _ => "bg-gray-500"
  }

  /** The badge and the dot always agree: two statuses share a colour exactly when they share a variant. */
  lemma VariantAndColourAgree(s: string, t: string)
    ensures GetStatusVariant(s) == GetStatusVariant(t) <==> GetStatusColor(s) == GetStatusColor(t)
  {
  }
}
