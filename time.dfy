/** `formatTime` (src/lib/time/time.ts): milliseconds as "<m>m,<s>s", each part
    present only when positive; whole hours are dropped. */
module TimeFormat {
  import opened Common

  // ----- JavaScript number operations -----

  /** `Math.trunc`: rounds toward zero. */
  function Trunc(x: real): (t: int)
    ensures 0.0 <= x ==> t == x.Floor
    ensures x < 0.0 ==> x <= t as real < x + 1.0
  {
    if x >= 0.0 then x.Floor else -((-x).Floor)
  }

  /** JavaScript `x % 60`: the remainder takes the sign of `x`. */
  function Rem60(x: real): (r: real)
    ensures 0.0 <= x ==> 0.0 <= r < 60.0
    ensures x < 0.0 ==> -60.0 < r <= 0.0
  {
    x - 60.0 * Trunc(x / 60.0) as real
  }

  /** `Math.floor((ms / 1000) % 60)`. */
  function Seconds(ms: int): int
  {
    Floor(Rem60(ms as real / 1000.0))
  }

  /** `Math.floor((ms / (1000 * 60)) % 60)`. */
  function Minutes(ms: int): int
  {
    Floor(Rem60(ms as real / 60000.0))
  }

  // ----- Decimal rendering of a number -----

  function DigitChar(d: int): (c: char)
    requires 0 <= d < 10
    ensures '0' <= c <= '9'
  {
    (48 + d) as char
  }

  /** The decimal digits of a natural number, as `String(n)` writes it. */
  function Decimal(n: nat): (s: string)
    ensures |s| >= 1
    ensures forall i :: 0 <= i < |s| ==> '0' <= s[i] <= '9'
  {
    if n < 10 then [DigitChar(n)] else Decimal(n / 10) + [DigitChar(n % 10)]
  }

  /** The number a string of decimal digits denotes. */
  function DecimalValue(s: string): int
  {
    if s == [] then 0 else DecimalValue(s[..|s| - 1]) * 10 + (s[|s| - 1] as int - 48)
  }

  lemma {:induction false} DecimalRoundTrip(n: nat)
    ensures DecimalValue(Decimal(n)) == n
  {
    if n >= 10 {
      var s := Decimal(n);
      assert s[..|s| - 1] == Decimal(n / 10);
      DecimalRoundTrip(n / 10);
    }
  }

  // ----- The formatted string -----

  /** The text `formatTime` builds from its minutes and seconds. */
  function TimeText(minutes: int, seconds: int): string
  {
    (if minutes > 0 then Decimal(minutes) + "m," else "")
    + (if seconds > 0 then Decimal(seconds) + "s" else "")
  }

  /** `formatTime`: the text is built with `+=`; the reassignments of `ms` after the
      minutes and seconds are computed take no part in it. */
  method FormatTime(ms: int) returns (time: string)
    ensures time == TimeText(Minutes(ms), Seconds(ms))
  {
    var rest := ms;
    var seconds := Floor(Rem60(rest as real / 1000.0));
    var minutes := Floor(Rem60(rest as real / 60000.0));
    time := "";
    if minutes > 0 {
      time := time + Decimal(minutes) + "m,";
      rest := rest - minutes * 60000;
    }
    if seconds > 0 {
      time := time + Decimal(seconds) + "s";
      rest := rest - seconds * 1000;
    }
  }

  // ----- Reading the text back -----

  /** The index of the first `c` in `s`, or `|s|` when there is none. */
  function IndexOf(s: string, c: char): (i: nat)
    ensures i <= |s|
    ensures i < |s| ==> s[i] == c
    ensures forall j :: 0 <= j < i ==> s[j] != c
  {
    if s == [] then 0 else if s[0] == c then 0 else 1 + IndexOf(s[1..], c)
  }

  /** The seconds part "<s>s" read back; anything else reads as 0. */
  function ParseSeconds(t: string): int
  {
    if t != [] && t[|t| - 1] == 's' then DecimalValue(t[..|t| - 1]) else 0
  }

  /** Reads "<m>m,<s>s" back into (minutes, seconds); an absent part reads as 0. */
  function ParseTime(t: string): (int, int)
  {
    var i := IndexOf(t, 'm');
    if i < |t| then (DecimalValue(t[..i]), ParseSeconds(if i + 2 <= |t| then t[i + 2..] else []))
    else (0, ParseSeconds(t))
  }

  /** The seconds part reads back as the positive part of the seconds. */
  lemma SecondsPartRoundTrip(seconds: int)
    ensures ParseSeconds(if seconds > 0 then Decimal(seconds) + "s" else "") == Max(seconds, 0)
  {
    if seconds > 0 {
      var sp := Decimal(seconds) + "s";
      assert sp[..|sp| - 1] == Decimal(seconds);
      DecimalRoundTrip(seconds);
    }
  }

  /** A text with no minutes part has no 'm' in it. */
  lemma NoMinutesMarker(seconds: int)
    ensures var sp := if seconds > 0 then Decimal(seconds) + "s" else "";
            IndexOf(sp, 'm') == |sp|
  {
    var sp := if seconds > 0 then Decimal(seconds) + "s" else "";
  }

  /** In "<m>m,<rest>" the first 'm' follows the digits. */
  lemma MinutesMarker(d: string, rest: string)
    requires forall i :: 0 <= i < |d| ==> '0' <= d[i] <= '9'
    ensures var t := d + "m," + rest;
            && IndexOf(t, 'm') == |d| && t[..|d|] == d && t[|d| + 2..] == rest
  {
    var t := d + "m," + rest;
    var i := IndexOf(t, 'm');
    assert t[|d|] == 'm';
    assert t[..|d|] == d;
    assert t[|d| + 2..] == rest;
  }

  /** The text always reads back as the positive parts of its minutes and seconds. */
  lemma TimeTextRoundTrip(minutes: int, seconds: int)
    ensures ParseTime(TimeText(minutes, seconds)) == (Max(minutes, 0), Max(seconds, 0))
  {
    var sp := if seconds > 0 then Decimal(seconds) + "s" else "";
    SecondsPartRoundTrip(seconds);
    if minutes > 0 {
      var d := Decimal(minutes);
      DecimalRoundTrip(minutes);
      MinutesMarker(d, sp);
      assert TimeText(minutes, seconds) == d + "m," + sp;
    } else {
      NoMinutesMarker(seconds);
      assert TimeText(minutes, seconds) == sp;
    }
  }

  // ----- Properties of the number parts -----

  /** `Math.floor(n / d)` on reals is integer division for a positive divisor. */
  lemma FloorOfQuotient(n: int, d: int)
    requires d > 0
    ensures (n as real / d as real).Floor == n / d
  {
    var q, r := n / d, n % d;
    assert n == q * d + r && 0 <= r < d;
    assert n as real / d as real == q as real + r as real / d as real;
  }

  /** Quotient and remainder are the only pair with a remainder in range. */
  lemma DivUnique(n: int, d: int, q: int, r: int)
    requires d > 0 && n == q * d + r && 0 <= r < d
    ensures n / d == q && n % d == r
  {
    var q0, r0 := n / d, n % d;
    var k := q0 - q;
    assert k * d == r - r0;
  }

  lemma DivDiv(n: int, a: int, b: int)
    requires n >= 0 && a > 0 && b > 0
    ensures n / a / b == n / (a * b)
  {
    var q1, r1 := n / a, n % a;
    var q2, r2 := q1 / b, q1 % b;
    assert n == q1 * a + r1;
    assert q1 == q2 * b + r2;
    Distribute(q2 * b, r2, a);
    assert q1 * a == q2 * b * a + r2 * a;
    assert q2 * b * a == q2 * (a * b);
    MulLeInt(r2, b - 1, a);
    assert (b - 1) * a == a * b - a;
    DivUnique(n, a * b, q2, r2 * a + r1);
  }

  lemma Distribute(x: int, y: int, a: int)
    ensures (x + y) * a == x * a + y * a
  {
  }

  lemma MulLeInt(x: int, y: int, a: int)
    requires x <= y && a > 0
    ensures x * a <= y * a
  {
  }

  /** `Math.floor((n / d) % 60)` for a non-negative `n` is `(n div d) mod 60`. */
  lemma PartOfNonNegative(n: int, d: int)
    requires n >= 0 && d > 0
    ensures Floor(Rem60(n as real / d as real)) == (n / d) % 60
  {
    var x := n as real / d as real;
    FloorOfQuotient(n, d);
    FloorOfQuotient(n, d * 60);
    assert x / 60.0 == n as real / (d * 60) as real;
    var q := n / (d * 60);
    assert Trunc(x / 60.0) == q;
    assert Rem60(x) == x - 60.0 * q as real;
    assert Floor(x - 60.0 * q as real) == n / d - 60 * q;
    DivDiv(n, d, 60);
  }

  /** For a non-negative duration the parts are the whole seconds and whole minutes
      within the current minute and hour. */
  lemma PartsOfNonNegative(ms: int)
    requires ms >= 0
    ensures Seconds(ms) == (ms / 1000) % 60
    ensures Minutes(ms) == (ms / 60000) % 60
  {
    PartOfNonNegative(ms, 1000);
    PartOfNonNegative(ms, 60000);
  }

  /** A negative duration has no positive part. */
  lemma PartsOfNegative(ms: int)
    requires ms < 0
    ensures Seconds(ms) <= 0 && Minutes(ms) <= 0
  {
  }

  /** Less than one second formats as the empty string. */
  lemma BelowOneSecondIsEmpty(ms: int)
    requires ms < 1000
    ensures TimeText(Minutes(ms), Seconds(ms)) == ""
  {
    if ms >= 0 {
      PartsOfNonNegative(ms);
    }
  }

  /** Adding whole multiples of `m * d` leaves `(n div d) mod m` unchanged. */
  lemma PartPeriodic(k: int, r: int, d: int, m: int)
    requires k >= 0 && r >= 0 && d > 0 && m > 0
    ensures ((k * (m * d) + r) / d) % m == (r / d) % m
  {
    DivUnique(k * (m * d) + r, d, k * m + r / d, r % d);
    var x := r / d;
    DivUnique(k * m + x, m, k + x / m, x % m);
  }

  /** Whole hours are dropped: a duration formats as its remainder within the hour. */
  lemma HoursDropped(ms: int)
    requires ms >= 0
    ensures Seconds(ms) == Seconds(ms % 3600000) && Minutes(ms) == Minutes(ms % 3600000)
  {
    var k, r := ms / 3600000, ms % 3600000;
    assert ms == k * 3600000 + r && 0 <= r;
    PartsOfNonNegative(ms);
    PartsOfNonNegative(r);
    PartPeriodic(k, r, 1000, 3600);
    assert (ms / 1000) % 3600 == (r / 1000) % 3600;
    PartPeriodic(k, r, 60000, 60);
    assert (ms / 1000) % 60 == (r / 1000) % 60 by {
      var a, b := ms / 1000, r / 1000;
      DivUnique(a, 3600, a / 3600, a % 3600);
      DivUnique(b, 3600, b / 3600, b % 3600);
      ModOfMod(a, 60, 60);
      ModOfMod(b, 60, 60);
    }
  }

  /** `(a mod (m * n)) mod m == a mod m`. */
  lemma ModOfMod(a: int, m: int, n: int)
    requires a >= 0 && m > 0 && n > 0
    ensures (a % (m * n)) % m == a % m
  {
    var q, r := a / (m * n), a % (m * n);
    assert a == q * (m * n) + r;
    DivUnique(a, m, q * n + r / m, r % m);
  }

  /** The formatted text of a non-negative duration reads back as its minutes within
      the hour and seconds within the minute. */
  lemma FormatRoundTrip(ms: int)
    requires ms >= 0
    ensures ParseTime(TimeText(Minutes(ms), Seconds(ms))) == ((ms / 60000) % 60, (ms / 1000) % 60)
  {
    PartsOfNonNegative(ms);
    TimeTextRoundTrip(Minutes(ms), Seconds(ms));
  }
}
