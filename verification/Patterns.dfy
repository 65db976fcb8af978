/** Slugs of a pattern's windows (polytrader/market_discovery/patterns.py). */
module Patterns {
  import opened MarketViews

  function Digit(d: nat): char
    requires d < 10
  {
    "0123456789"[d]
  }

  function DigitValue(c: char): nat
    requires IsDigit(c)
  {
    (c - '0') as nat
  }

  /** str(n) for a timestamp n. */
  function Decimal(n: nat): (s: string)
    ensures s != "" && forall c :: c in s ==> IsDigit(c)
  {
    if n < 10 then [Digit(n)] else Decimal(n / 10) + [Digit(n % 10)]
  }

  /** int(s) for a string of digits. */
  function Value(s: string): nat
    requires forall c :: c in s ==> IsDigit(c)
  {
    if s == "" then 0 else 10 * Value(s[..|s| - 1]) + DigitValue(s[|s| - 1])
  }

  function GenerateSlug(pattern: string, start: nat): string {
    pattern + "-" + Decimal(start)
  }

  lemma DigitRoundTrip(d: nat)
    requires d < 10
    ensures IsDigit(Digit(d)) && DigitValue(Digit(d)) == d
  {
  }

  lemma {:induction false} DecimalRoundTrip(n: nat)
    ensures Value(Decimal(n)) == n
  {
    DigitRoundTrip(n % 10);
    if n >= 10 {
      DecimalRoundTrip(n / 10);
      assert Decimal(n)[..|Decimal(n)| - 1] == Decimal(n / 10);
    } else {
      assert Decimal(n)[..0] == "";
    }
  }

  /** The slug of a window determines the window: its number reads back as the window's start. */
  lemma SlugDeterminesWindow(pattern: string, a: nat, b: nat)
    requires GenerateSlug(pattern, a) == GenerateSlug(pattern, b)
    ensures a == b
  {
    assert Decimal(a) == GenerateSlug(pattern, a)[|pattern| + 1..];
    assert Decimal(b) == GenerateSlug(pattern, b)[|pattern| + 1..];
    DecimalRoundTrip(a);
    DecimalRoundTrip(b);
  }

  /** All windows of a pattern are filed under the pattern itself in the warm-start view, whatever
      slug the search for the current market settles on. */
  lemma WindowsShareHistory(pattern: string, start: nat)
    requires pattern != "" && '\n' !in pattern
    ensures SlugToPattern(GenerateSlug(pattern, start)) == pattern
  {
    StampedMapsToPattern(GenerateSlug(pattern, start), pattern, Decimal(start));
  }
}
