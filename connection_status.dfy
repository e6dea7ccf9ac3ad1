/**
 * The uptime shown by the connection status panel: a number of seconds rendered as hours,
 * minutes and seconds, leaving out leading zero units.
 */
module ConnectionStatus {
  import opened Wrappers
  import opened Text

  /** Hours, minutes under 60 and seconds under 60 that add back up to `seconds`. */
  function Clock(seconds: nat): (r: (nat, nat, nat))
    ensures r.1 < 60 && r.2 < 60
    ensures 3600 * r.0 + 60 * r.1 + r.2 == seconds
  {
    (seconds / 3600, (seconds % 3600) / 60, seconds % 60)
  }

  /** `formatUptime(seconds)`. */
  function FormatUptime(seconds: nat): (r: string)
    ensures var (h, m, s) := Clock(seconds);
            (h > 0 ==> r == NatToDecimal(h) + "h " + NatToDecimal(m) + "m " + NatToDecimal(s) + "s")
            && (h == 0 && m > 0 ==> r == NatToDecimal(m) + "m " + NatToDecimal(s) + "s")
            && (h == 0 && m == 0 ==> r == NatToDecimal(s) + "s")
  {
    var hours := seconds / 3600;
    var minutes := (seconds % 3600) / 60;
    var secs := seconds % 60;
    if hours > 0 then NatToDecimal(hours) + "h " + NatToDecimal(minutes) + "m " + NatToDecimal(secs) + "s"
    else if minutes > 0 then NatToDecimal(minutes) + "m " + NatToDecimal(secs) + "s"
    else NatToDecimal(secs) + "s"
  }

  /** The hours part is present from one hour on, the minutes part from one minute on. */
  lemma UnitsShown(seconds: nat)
    ensures Clock(seconds).0 > 0 <==> seconds >= 3600
    ensures Clock(seconds).0 == 0 && Clock(seconds).1 > 0 <==> 60 <= seconds < 3600
  {
  }

  /** `status?.uptime ? formatUptime(status.uptime) : 'N/A'`: an absent or zero uptime is not formatted. */
  function UptimeText(uptime: Option<nat>): (r: string)
    ensures uptime.None? || uptime == Some(0) ==> r == "N/A"
    ensures uptime.Some? && uptime.value > 0 ==> r == FormatUptime(uptime.value)
  {
    if uptime.Some? && uptime.value != 0 then FormatUptime(uptime.value) else "N/A"
  }

  // ------------------------------------------------------------- reading a rendering back

  /** The length of the longest prefix of `s` made of decimal digits. */
  function DigitPrefix(s: string): (n: nat)
    ensures n <= |s| && AllDigits(s[..n])
    ensures n < |s| ==> !IsDigit(s[n])
  {
    if s == [] || !IsDigit(s[0]) then 0
    else
      var m := DigitPrefix(s[1..]);
      assert s[..m + 1] == [s[0]] + s[1..][..m];
      m + 1
  }

  lemma DigitPrefixOf(d: string, rest: string)
    requires AllDigits(d)
    requires rest != [] && !IsDigit(rest[0])
    ensures DigitPrefix(d + rest) == |d|
    decreases |d|
  {
    if d == [] {
      assert d + rest == rest;
    } else {
      DigitPrefixOf(d[1..], rest);
      assert (d + rest)[1..] == d[1..] + rest;
    }
  }

  /** A digit string followed by a non-digit is determined by the text, and so is what follows it. */
  lemma SplitDigits(da: string, db: string, x: string, y: string)
    requires AllDigits(da) && AllDigits(db)
    requires x != [] && y != [] && !IsDigit(x[0]) && !IsDigit(y[0])
    requires da + x == db + y
    ensures da == db && x == y
  {
    DigitPrefixOf(da, x);
    DigitPrefixOf(db, y);
    assert da == (da + x)[..|da|] && db == (db + y)[..|db|];
    assert x == (da + x)[|da|..] && y == (db + y)[|db|..];
  }

  lemma DecimalInjective(a: nat, b: nat)
    requires NatToDecimal(a) == NatToDecimal(b)
    ensures a == b
  {
    ParseNatToDecimal(a);
    ParseNatToDecimal(b);
  }

  /** No digit string holds a letter used as a unit mark. */
  lemma NoMarkIn(n: nat, c: char)
    requires !IsDigit(c)
    ensures c !in NatToDecimal(n)
  {
    var d := NatToDecimal(n);
    forall i | 0 <= i < |d|
      ensures d[i] != c
    {
      assert IsDigit(d[i]);
    }
  }

  lemma TwoParts(dm1: string, ds1: string, dm2: string, ds2: string)
    requires AllDigits(dm1) && AllDigits(ds1) && AllDigits(dm2) && AllDigits(ds2)
    requires dm1 + "m " + ds1 + "s" == dm2 + "m " + ds2 + "s"
    ensures dm1 == dm2 && ds1 == ds2
  {
    var x1, x2 := "m " + ds1 + "s", "m " + ds2 + "s";
    assert dm1 + "m " + ds1 + "s" == dm1 + x1;
    assert dm2 + "m " + ds2 + "s" == dm2 + x2;
    SplitDigits(dm1, dm2, x1, x2);
    assert x1 == "m " + (ds1 + "s") && x2 == "m " + (ds2 + "s");
    assert x1[2..] == ds1 + "s" && x2[2..] == ds2 + "s";
    SplitDigits(ds1, ds2, "s", "s");
  }

  lemma ThreeParts(dh1: string, dm1: string, ds1: string, dh2: string, dm2: string, ds2: string)
    requires AllDigits(dh1) && AllDigits(dm1) && AllDigits(ds1)
    requires AllDigits(dh2) && AllDigits(dm2) && AllDigits(ds2)
    requires dh1 + "h " + dm1 + "m " + ds1 + "s" == dh2 + "h " + dm2 + "m " + ds2 + "s"
    ensures dh1 == dh2 && dm1 == dm2 && ds1 == ds2
  {
    var y1, y2 := dm1 + "m " + ds1 + "s", dm2 + "m " + ds2 + "s";
    assert dh1 + "h " + dm1 + "m " + ds1 + "s" == dh1 + ("h " + y1);
    assert dh2 + "h " + dm2 + "m " + ds2 + "s" == dh2 + ("h " + y2);
    SplitDigits(dh1, dh2, "h " + y1, "h " + y2);
    assert ("h " + y1)[2..] == y1 && ("h " + y2)[2..] == y2;
    TwoParts(dm1, ds1, dm2, ds2);
  }

  /** Different uptimes are shown differently: the rendering loses nothing. */
  lemma FormatUptimeInjective(a: nat, b: nat)
    requires FormatUptime(a) == FormatUptime(b)
    ensures a == b
  {
    var (h1, m1, s1) := Clock(a);
    var (h2, m2, s2) := Clock(b);
    HasMarks(a);
    HasMarks(b);
    var dh1, dm1, ds1 := NatToDecimal(h1), NatToDecimal(m1), NatToDecimal(s1);
    var dh2, dm2, ds2 := NatToDecimal(h2), NatToDecimal(m2), NatToDecimal(s2);
    if h1 > 0 {
      ThreeParts(dh1, dm1, ds1, dh2, dm2, ds2);
      DecimalInjective(h1, h2);
      DecimalInjective(m1, m2);
    } else if m1 > 0 {
      TwoParts(dm1, ds1, dm2, ds2);
      DecimalInjective(m1, m2);
    } else {
      SplitDigits(ds1, ds2, "s", "s");
    }
    DecimalInjective(s1, s2);
  }

  /** Which unit marks a rendering contains tells which form it has. */
  lemma HasMarks(n: nat)
    ensures var (h, m, s) := Clock(n);
            ('h' in FormatUptime(n) <==> h > 0) && ('m' in FormatUptime(n) <==> h > 0 || m > 0)
  {
    var (h, m, s) := Clock(n);
    NoMarkIn(h, 'h'); NoMarkIn(m, 'h'); NoMarkIn(s, 'h');
    NoMarkIn(h, 'm'); NoMarkIn(m, 'm'); NoMarkIn(s, 'm');
    var dh, dm, ds := NatToDecimal(h), NatToDecimal(m), NatToDecimal(s);
    if h > 0 {
      assert FormatUptime(n)[|dh|] == 'h';
      assert FormatUptime(n)[|dh| + 2 + |dm|] == 'm';
    } else if m > 0 {
      assert FormatUptime(n)[|dm|] == 'm';
      assert forall c :: c in FormatUptime(n) ==> c in dm || c in ds || c == 'm' || c == ' ' || c == 's';
    } else {
      assert forall c :: c in FormatUptime(n) ==> c in ds || c == 's';
    }
  }
}
