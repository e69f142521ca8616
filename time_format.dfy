/**
 * The page's two time helpers. Both read the clock on the page; here the caller
 * passes the difference in milliseconds (an integer, as `Date.getTime()` differences are).
 */
module TimeFormat {
  import opened Decimal

  const MsPerMinute: nat := 1000 * 60
  const MsPerHour: nat := 1000 * 60 * 60

  /** The next update is scheduled two hours after "now". */
  const UpdateIntervalMs: nat := 2 * MsPerHour

  /** `Math.floor(a / b)` for a positive divisor: the greatest `q` with `q * b <= a`. */
  function FloorDiv(a: int, b: int): (q: int)
    requires b > 0
    ensures q * b <= a < q * b + b
  {
    a / b
  }

  /** The quotient named by `FloorDiv`'s contract is the only one. */
  lemma FloorDivUnique(a: int, b: int, q: int)
    requires b > 0 && q * b <= a < q * b + b
    ensures FloorDiv(a, b) == q
  {
    var r := FloorDiv(a, b);
    if r < q {
      assert (q - r) * b >= b by { MulAtLeast(q - r, b); }
      assert false;
    } else if r > q {
      assert (r - q) * b >= b by { MulAtLeast(r - q, b); }
      assert false;
    }
  }

  lemma MulAtLeast(k: int, b: int)
    requires k >= 1 && b > 0
    ensures k * b >= b
  {
  }

  /**
   * JavaScript's `%` on integers: the remainder takes the sign of the dividend, so
   * that it differs from Dafny's (Euclidean) `%` on negative dividends.
   */
  function JsRemainder(a: int, b: int): (r: int)
    requires b > 0
    ensures -b < r < b
    ensures a >= 0 ==> r == a % b
    ensures a < 0 ==> r <= 0 && -r == (-a) % b
  {
    if a >= 0 then a % b else -((-a) % b)
  }

  /** A count followed by a unit, with an `s` when the count is above one. */
  function Counted(n: nat, unit: string): string {
    NatToString(n) + " " + unit + (if n > 1 then "s" else "")
  }

  /**
   * formatTimeAgo: whole hours if at least one, else whole minutes if at least one,
   * else "just now"; `diffMs` is how long ago the last update was.
   */
  function FormatTimeAgo(diffMs: int): (text: string)
    ensures text == "just now" <==> diffMs < MsPerMinute
  {
    var hours := FloorDiv(diffMs, MsPerHour);
    var minutes := FloorDiv(diffMs, MsPerMinute);
    if hours > 0 then
      Counted(hours, "hour") + " ago"
    else if minutes > 0 then
      Counted(minutes, "minute") + " ago"
    else
      "just now"
  }

  /** A difference of `h >= 1` hours, `m < 60` minutes and `ms` spare milliseconds reads as `h` hour(s); the minutes are dropped. */
  lemma FormatTimeAgoHours(h: nat, m: nat, ms: nat)
    requires h >= 1 && m < 60 && ms < MsPerMinute
    ensures FormatTimeAgo(h * MsPerHour + m * MsPerMinute + ms)
         == NatToString(h) + (if h == 1 then " hour ago" else " hours ago")
  {
    SplitDuration(h, m, ms);
  }

  /** The whole hours and whole minutes of `h` hours, `m < 60` minutes and `ms` spare milliseconds. */
  lemma SplitDuration(h: nat, m: nat, ms: nat)
    requires m < 60 && ms < MsPerMinute
    ensures FloorDiv(h * MsPerHour + m * MsPerMinute + ms, MsPerHour) == h
    ensures FloorDiv(h * MsPerHour + m * MsPerMinute + ms, MsPerMinute) == h * 60 + m
  {
    var d := h * MsPerHour + m * MsPerMinute + ms;
    assert m * MsPerMinute + ms < MsPerHour;
    FloorDivUnique(d, MsPerHour, h);
    assert d == (h * 60 + m) * MsPerMinute + ms;
    FloorDivUnique(d, MsPerMinute, h * 60 + m);
  }

  /** A difference of `1 <= m < 60` minutes and `ms` spare milliseconds reads as `m` minute(s). */
  lemma FormatTimeAgoMinutes(m: nat, ms: nat)
    requires 1 <= m < 60 && ms < MsPerMinute
    ensures FormatTimeAgo(m * MsPerMinute + ms)
         == NatToString(m) + (if m == 1 then " minute ago" else " minutes ago")
  {
    FloorDivUnique(m * MsPerMinute + ms, MsPerHour, 0);
    FloorDivUnique(m * MsPerMinute + ms, MsPerMinute, m);
  }

  /** The minute part of the countdown: `Math.floor(diffMs / 60000) % 60`. */
  function CountdownMinutes(diffMs: int): (m: int)
    ensures diffMs >= 0 ==> 0 <= m < 60
    ensures diffMs < 0 ==> -60 < m <= 0
  {
    JsRemainder(FloorDiv(diffMs, MsPerMinute), 60)
  }

  /** getNextUpdateTime, given the difference between the next update and now. */
  function NextUpdateTime(diffMs: int): (text: string)
    ensures |text| >= 2 && text[|text| - 1] == 'm'
  {
    var hours := FloorDiv(diffMs, MsPerHour);
    var minutes := CountdownMinutes(diffMs);
    if hours > 0 then
      NatToString(hours) + "h " + IntToString(minutes) + "m"
    else
      IntToString(minutes) + "m"
  }

  /** `h` hours, `m < 60` minutes and `ms` spare milliseconds read as "{h}h {m}m", or "{m}m" when `h` is 0. */
  lemma NextUpdateTimeShape(h: nat, m: nat, ms: nat)
    requires m < 60 && ms < MsPerMinute
    ensures NextUpdateTime(h * MsPerHour + m * MsPerMinute + ms)
         == if h > 0 then NatToString(h) + "h " + NatToString(m) + "m" else NatToString(m) + "m"
  {
    var d := h * MsPerHour + m * MsPerMinute + ms;
    SplitDuration(h, m, ms);
    MinuteOfHour(h, m);
    assert FloorDiv(d, MsPerMinute) == h * 60 + m;
    assert CountdownMinutes(d) == JsRemainder(h * 60 + m, 60) == m;
    assert FloorDiv(d, MsPerHour) == h;
    assert IntToString(m) == NatToString(m);
  }

  lemma MinuteOfHour(h: nat, m: nat)
    requires m < 60
    ensures JsRemainder(h * 60 + m, 60) == m
  {
    FloorDivUnique(h * 60 + m, 60, h);
    assert (h * 60 + m) / 60 == h;
  }

  /** For the two-hour interval the countdown is "2h 0m". */
  lemma NextUpdateTimeNominal()
    ensures NextUpdateTime(UpdateIntervalMs) == "2h 0m"
  {
    NextUpdateTimeShape(2, 0, 0);
    assert NatToString(2) == "2";
    assert NatToString(0) == "0";
  }
}
