/** ISO-8601 stamps as the database compares them: as text.

    `datetime.isoformat()` drops the fractional part when the microsecond field is zero, so
    "…:05Z" and "…:05.250000Z" are both written, and SQLite orders the column as text.
    The nineteen characters of the calendar part are fixed-width and order like the second
    they denote; what follows them is rendered here character by character. */
module Timestamps {

  const SECOND := 1_000_000
  const MINUTE := 60 * SECOND
  const HOUR := 60 * MINUTE
  const DAY := 24 * HOUR

  /** An aware datetime: the instant in microseconds and the zone's offset from UTC. */
  datatype Stamp = Stamp(instant: int, offset: int) {
    function Local(): int { instant + offset }
  }

  function Utc(t: int): Stamp { Stamp(t, 0) }

  function Midnight(t: int): int { t - t % DAY }

  function Digit(n: nat): char
    requires n < 10
  {
    '0' + n as char
  }

  /** The lowest `width` decimal digits of `n`, most significant first. */
  function Digits(n: nat, width: nat): (s: string)
    ensures |s| == width
  {
    if width == 0 then "" else Digits(n / 10, width - 1) + [Digit(n % 10)]
  }

  function Fraction(micros: nat): string {
    if micros == 0 then "" else "." + Digits(micros, 6)
  }

  /** "Z" for UTC, else a sign and the offset in minutes (a zone of the datetime library). */
  function Zone(offset: int): string {
    if offset == 0 then "Z"
    else if offset > 0 then "+" + Digits(offset / MINUTE, 4)
    else "-" + Digits(-offset / MINUTE, 4)
  }

  /** What the rendered stamp carries after its calendar part. */
  function Tail(s: Stamp): string {
    Fraction(s.Local() % SECOND) + Zone(s.offset)
  }

  /** SQLite's order on text: the first differing character decides, a prefix comes first. */
  predicate TextLess(a: string, b: string) {
    |b| > 0 && (|a| == 0 || a[0] < b[0] || (a[0] == b[0] && TextLess(a[1..], b[1..])))
  }

  predicate Before(a: Stamp, b: Stamp) {
    var x, y := a.Local() / SECOND, b.Local() / SECOND;
    x < y || (x == y && TextLess(Tail(a), Tail(b)))
  }

  /** `column <= ?` on two stamps. */
  predicate AtMost(a: Stamp, b: Stamp) { !Before(b, a) }

  /** Where a UTC stamp falls in the text order: a whole second comes after its own fractions. */
  function Rank(t: int): (r: int)
    ensures t <= r <= t + SECOND
    ensures t % SECOND != 0 ==> r == t
  {
    if t % SECOND == 0 then t + SECOND else t
  }

  lemma {:induction false} DigitsOrder(m: nat, n: nat, width: nat, x: string, y: string)
    requires m < Pow10(width) && n < Pow10(width)
    ensures m < n ==> TextLess(Digits(m, width) + x, Digits(n, width) + y)
    ensures m == n ==> (TextLess(Digits(m, width) + x, Digits(n, width) + y) <==> TextLess(x, y))
    decreases width
  {
    if width == 0 {
      assert Digits(m, 0) + x == x && Digits(n, 0) + y == y;
    } else {
      var a, b := [Digit(m % 10)] + x, [Digit(n % 10)] + y;
      assert Digits(m, width) + x == Digits(m / 10, width - 1) + a;
      assert Digits(n, width) + y == Digits(n / 10, width - 1) + b;
      assert a[1..] == x && b[1..] == y;
      DigitsOrder(m / 10, n / 10, width - 1, a, b);
    }
  }

  function Pow10(width: nat): (p: nat)
    ensures p > 0
  {
    if width == 0 then 1 else 10 * Pow10(width - 1)
  }

  /** `column <= ?` between two UTC stamps. */
  predicate UtcAtMost(a: int, b: int) { Rank(a) <= Rank(b) }

  /** That is the order of the texts. */
  lemma TextOrderIsRankOrder(a: int, b: int)
    ensures Before(Utc(a), Utc(b)) <==> Rank(a) < Rank(b)
    ensures AtMost(Utc(a), Utc(b)) <==> UtcAtMost(a, b)
  {
    SecondOrder(a, b);
    SecondOrder(b, a);
  }

  lemma SecondOrder(a: int, b: int)
    ensures Before(Utc(a), Utc(b)) <==> Rank(a) < Rank(b)
  {
    var x, y := a / SECOND, b / SECOND;
    var m, n := a % SECOND, b % SECOND;
    assert a == SECOND * x + m && b == SECOND * y + n;
    if x == y { TailOrder(m, n, "Z"); }
  }

  lemma TailOrder(m: nat, n: nat, zone: string)
    requires m < SECOND && n < SECOND && |zone| > 0 && zone[0] != '.'
    ensures TextLess(Fraction(m) + zone, Fraction(n) + "Z") <==>
            if m == 0 then (if n == 0 then TextLess(zone, "Z") else zone[0] < '.')
            else n == 0 || m < n || (m == n && TextLess(zone, "Z"))
  {
    FractionText(m, zone);
    FractionText(n, "Z");
    if m != 0 && n != 0 { FractionOrder(m, n, zone, "Z"); }
  }

  lemma FractionText(m: nat, zone: string)
    ensures m == 0 ==> Fraction(m) + zone == zone
    ensures m != 0 ==> var t := Fraction(m) + zone; t[0] == '.' && t[1..] == Digits(m, 6) + zone
  {
  }

  lemma FractionOrder(m: nat, n: nat, x: string, y: string)
    requires m < SECOND && n < SECOND
    ensures TextLess(Digits(m, 6) + x, Digits(n, 6) + y) <==> m < n || (m == n && TextLess(x, y))
  {
    assert Pow10(6) == SECOND by { assert Pow10(3) == 1000; }
    DigitsOrder(m, n, 6, x, y);
    if n < m {
      DigitsOrder(n, m, 6, y, x);
      Asymmetric(Digits(m, 6) + x, Digits(n, 6) + y);
    }
  }

  lemma {:induction false} Asymmetric(a: string, b: string)
    requires TextLess(b, a)
    ensures !TextLess(a, b)
  {
    if |b| > 0 && a[0] == b[0] { Asymmetric(a[1..], b[1..]); }
  }

  /** How far past its instant an expiry text still compares after the current time's text. */
  function Overrun(expiry: Stamp): (d: int)
    ensures d <= expiry.offset + SECOND
  {
    if expiry.offset == 0 && expiry.instant % SECOND == 0 then SECOND else expiry.offset
  }

  /** `expires_at > ?` for the current time. */
  predicate Outlasts(expiry: Stamp, now: int) {
    if expiry.offset == 0 then Rank(now) < Rank(expiry.instant)
    else Rank(now) < expiry.Local() || (now % SECOND == 0 && now + SECOND == expiry.Local())
  }

  /** That, too, is the order of the texts, whatever zone the expiry is written in. */
  lemma TextExpiryIsOutlasts(expiry: Stamp, now: int)
    ensures Before(Utc(now), expiry) <==> Outlasts(expiry, now)
  {
    var x, y := now / SECOND, expiry.Local() / SECOND;
    var m, n := now % SECOND, expiry.Local() % SECOND;
    assert now == SECOND * x + m && expiry.Local() == SECOND * y + n;
    if expiry.offset == 0 {
      SecondOrder(now, expiry.instant);
    } else if x == y {
      ForeignTail(m, n, Zone(expiry.offset));
    }
  }

  /** The last moment at which the expiry text compares after the current time's: the one before its
      local reading, or, as a whole second's text comes last in its second, the one before that; for a
      whole-second UTC expiry the last one of that second. */
  function LastLive(expiry: Stamp): int {
    if expiry.offset == 0 && expiry.instant % SECOND == 0 then expiry.instant + SECOND - 1
    else if (expiry.Local() - 1) % SECOND == 0 then expiry.Local() - 2
    else expiry.Local() - 1
  }

  /** A UTC expiry with a fraction is exact, a whole-second one lives a second longer, and one written
      in another zone is off by that zone's whole offset: by just that much it is live, and no longer. */
  lemma ExpiryOverrun(expiry: Stamp)
    ensures Outlasts(expiry, LastLive(expiry)) && forall now | Outlasts(expiry, now) :: now <= LastLive(expiry)
    ensures LastLive(expiry) < expiry.instant + Overrun(expiry) <= LastLive(expiry) + 2
  {
    var last := LastLive(expiry);
    assert last % SECOND != 0;
  }

  lemma ForeignTail(m: nat, n: nat, zone: string)
    requires m < SECOND && n < SECOND && |zone| > 0 && zone[0] < '.'
    ensures TextLess(Fraction(m) + "Z", Fraction(n) + zone) <==> 0 < m < n
  {
    FractionText(m, "Z");
    FractionText(n, zone);
    if m != 0 && n != 0 { FractionOrder(m, n, "Z", zone); }
  }
}
