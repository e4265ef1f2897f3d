/** The two numeric display helpers that app/page.tsx and the student dashboard
    each define, word for word: the vote percentage and the `mm:ss` countdown. */
module Display {
  import opened Text

  /** `total === 0 ? 0 : Math.round((votes / total) * 100)`, with `Math.round`
      taken as exact rounding half up: floor(100 * votes / total + 1/2). */
  function Percentage(votes: nat, total: nat): (r: int)
    ensures total == 0 ==> r == 0
    ensures votes == 0 ==> r == 0
    ensures 0 <= r
    ensures votes <= total ==> r <= 100
    ensures 0 < total == votes ==> r == 100
  {
    if total == 0 then 0
    else
      PercentageBounds(votes, total);
      (200 * votes + total) / (2 * total)
  }

  lemma PercentageBounds(votes: nat, total: nat)
    requires total > 0
    ensures 0 <= (200 * votes + total) / (2 * total)
    ensures votes == 0 ==> (200 * votes + total) / (2 * total) == 0
    ensures votes <= total ==> (200 * votes + total) / (2 * total) <= 100
    ensures votes == total ==> (200 * votes + total) / (2 * total) == 100
  {
    var n, d := 200 * votes + total, 2 * total;
    var q := n / d;
    DivBounds(n, d);
    if votes == 0 {
      if q >= 1 { MulLe(1, q, d); }
    }
    if votes <= total {
      if q >= 101 { MulLe(101, q, d); }
    }
    if votes == total {
      if q <= 99 { MulLe(q + 1, 100, d); }
    }
  }

  lemma DivBounds(n: nat, d: nat)
    requires d > 0
    ensures (n / d) * d <= n < (n / d) * d + d
  {
  }

  lemma MulLe(a: int, b: int, c: nat)
    requires a <= b
    ensures a * c <= b * c
  {
    assert b * c - a * c == (b - a) * c;
  }

  /** A larger tally never shows a smaller percentage. */
  lemma {:induction false} PercentageMonotone(v1: nat, v2: nat, total: nat)
    requires v1 <= v2
    ensures Percentage(v1, total) <= Percentage(v2, total)
  {
    if total > 0 {
      var d := 2 * total;
      var n1, n2 := 200 * v1 + total, 200 * v2 + total;
      var q1, q2 := n1 / d, n2 / d;
      DivBounds(n1, d);
      DivBounds(n2, d);
      if q1 > q2 { MulLe(q2 + 1, q1, d); }
    }
  }

  /** The `mm:ss` text for a minutes and a seconds field. */
  function Clock(mins: nat, secs: nat): (r: string)
    requires secs < 60
    ensures |r| >= 5
    ensures mins < 100 <==> |r| == 5
    ensures r[|r| - 3] == ':'
    ensures r[..|r| - 3] == PadStart2(Decimal(mins)) && r[|r| - 2..] == PadStart2(Decimal(secs))
    ensures AllDigits(r[..|r| - 3]) && AllDigits(r[|r| - 2..])
  {
    var m, s := PadStart2(Decimal(mins)), PadStart2(Decimal(secs));
    DecimalLength(mins);
    DecimalLength(secs);
    Joined(m, s);
    m + ":" + s
  }

  /** The pieces of `m + ":" + s` for a two-character `s`. */
  lemma Joined(m: string, s: string)
    requires |s| == 2
    ensures var r := m + ":" + s;
            |r| == |m| + 3 && r[|r| - 3] == ':' && r[..|r| - 3] == m && r[|r| - 2..] == s
  {
    var r := m + ":" + s;
    assert r[..|m|] == m;
    assert r[|m| + 1..] == s;
  }

  /** `formatTime(seconds)`: minutes `Math.floor(seconds / 60)` and seconds
      `seconds % 60`, each rendered with `padStart(2, "0")`, joined by a colon. */
  function FormatTime(seconds: nat): (r: string)
    ensures r == Clock(seconds / 60, seconds % 60)
    ensures |r| >= 5
    ensures seconds < 6000 <==> |r| == 5
    ensures AllDigits(r[..|r| - 3]) && AllDigits(r[|r| - 2..])
    ensures r[|r| - 3] == ':'
  {
    var mins, secs := seconds / 60, seconds % 60;
    MinutesBelow100(seconds);
    assert mins < 100 <==> seconds < 6000;
    Clock(mins, secs)
  }

  lemma MinutesBelow100(seconds: nat)
    ensures seconds < 6000 <==> seconds / 60 < 100
  {
    var q, m := seconds / 60, seconds % 60;
    assert seconds == q * 60 + m && 0 <= m < 60;
  }

  /** The inverse of FormatTime: the digits before the colon are minutes and
      the two after it are seconds. */
  function ParseTime(t: string): int
    requires |t| >= 3
  {
    ParseDecimal(t[..|t| - 3]) * 60 + ParseDecimal(t[|t| - 2..])
  }

  /** What FormatTime shows is exactly the time it was given, with the
      seconds field below 60. */
  lemma FormatTimeRoundTrip(seconds: nat)
    ensures ParseTime(FormatTime(seconds)) == seconds
    ensures ParseDecimal(FormatTime(seconds)[|FormatTime(seconds)| - 2..]) < 60
  {
    var mins, secs := seconds / 60, seconds % 60;
    assert FormatTime(seconds) == Clock(mins, secs);
    ClockRoundTrip(mins, secs);
  }

  /** A colon-joined text reads back as its two fields, whatever they hold. */
  lemma JoinedRoundTrip(m: string, s: string)
    requires |s| == 2
    ensures var t := m + ":" + s;
            ParseTime(t) == ParseDecimal(m) * 60 + ParseDecimal(s) && ParseDecimal(t[|t| - 2..]) == ParseDecimal(s)
  {
    Joined(m, s);
  }

  /** The two fields of a clock text read back as the numbers rendered. */
  lemma ClockRoundTrip(mins: nat, secs: nat)
    requires secs < 60
    ensures ParseTime(Clock(mins, secs)) == mins * 60 + secs
    ensures ParseDecimal(Clock(mins, secs)[|Clock(mins, secs)| - 2..]) == secs
  {
    var m, s := PadStart2(Decimal(mins)), PadStart2(Decimal(secs));
    assert Clock(mins, secs) == m + ":" + s;
    JoinedRoundTrip(m, s);
    PaddedDecimalRoundTrip(mins);
    PaddedDecimalRoundTrip(secs);
  }
}
