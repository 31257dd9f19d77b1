/**
 * Decimal renderings of numbers, as JavaScript's `String(n)` produces them,
 * their inverse, and `Array.prototype.join` with a one-character separator.
 */
module Numerals {

  predicate IsDigit(c: char) {
    '0' <= c <= '9'
  }

  predicate AllDigits(s: string) {
    forall i :: 0 <= i < |s| ==> IsDigit(s[i])
  }

  function DigitChar(d: nat): (c: char)
    requires d < 10
    ensures IsDigit(c) && c as int - '0' as int == d
  {
    ('0' as int + d) as char
  }

  function DigitValue(c: char): nat
    requires IsDigit(c)
  {
    c as int - '0' as int
  }

  /** `String(n)` for a non-negative integer: no sign, no leading zero. */
  function NatString(n: nat): (s: string)
    ensures |s| > 0 && AllDigits(s)
    ensures |s| > 1 ==> s[0] != '0'
    decreases n
  {
    if n < 10 then [DigitChar(n)] else NatString(n / 10) + [DigitChar(n % 10)]
  }

  /** `String(n)` for any integer. */
  function IntString(n: int): (s: string)
    ensures |s| > 0 && ',' !in s
  {
    if n < 0 then "-" + NatString(-n) else NatString(n)
  }

  /** The number a run of decimal digits denotes (leading zeros allowed, as `+"01"` is 1). */
  function ParseNat(s: string): nat
    requires AllDigits(s)
  {
    if s == [] then 0 else 10 * ParseNat(s[..|s| - 1]) + DigitValue(s[|s| - 1])
  }

  lemma {:induction false} ParseNatString(n: nat)
    ensures ParseNat(NatString(n)) == n
    decreases n
  {
    if n >= 10 {
      var s := NatString(n);
      assert s[..|s| - 1] == NatString(n / 10);
      ParseNatString(n / 10);
    }
  }

  lemma IntStringInjective(x: int, y: int)
    requires IntString(x) == IntString(y)
    ensures x == y
  {
    if x < 0 && y < 0 {
      assert NatString(-x) == IntString(x)[1..];
      ParseNatString(-x);
      ParseNatString(-y);
    } else if x >= 0 && y >= 0 {
      ParseNatString(x);
      ParseNatString(y);
    }
  }

  /** `parts.join(sep)`. */
  function Join(parts: seq<string>, sep: char): (s: string)
  {
    if parts == [] then ""
    else if |parts| == 1 then parts[0]
    else parts[0] + [sep] + Join(parts[1..], sep)
  }

  /** The decimal renderings of a list of integers, as `join` converts them. */
  function IntStrings(xs: seq<int>): (ss: seq<string>)
    ensures |ss| == |xs|
    ensures forall i :: 0 <= i < |xs| ==> ss[i] == IntString(xs[i])
  {
    if xs == [] then [] else [IntString(xs[0])] + IntStrings(xs[1..])
  }

  /** Splitting a joined list at its first separator recovers the first part. */
  lemma SplitAtSeparator(x: string, t: string, x': string, t': string, sep: char)
    requires sep !in x && sep !in x'
    requires t == [] || t[0] == sep
    requires t' == [] || t'[0] == sep
    requires x + t == x' + t'
    ensures x == x' && t == t'
  {
    assert x == (x + t)[..|x|];
    assert x' == (x' + t')[..|x'|];
  }

  /**
   * Comparing the comma-joined renderings of two integer lists is the same
   * as comparing the lists: no rendering is empty or contains a comma.
   */
  lemma {:induction false} JoinIntsInjective(xs: seq<int>, ys: seq<int>)
    requires Join(IntStrings(xs), ',') == Join(IntStrings(ys), ',')
    ensures xs == ys
    decreases |xs|
  {
    var a, b := IntStrings(xs), IntStrings(ys);
    if xs != [] && ys != [] {
      var t := if |xs| == 1 then "" else [','] + Join(a[1..], ',');
      var t' := if |ys| == 1 then "" else [','] + Join(b[1..], ',');
      assert Join(a, ',') == a[0] + t;
      assert Join(b, ',') == b[0] + t';
      SplitAtSeparator(a[0], t, b[0], t', ',');
      IntStringInjective(xs[0], ys[0]);
      if |xs| > 1 && |ys| > 1 {
        assert IntStrings(xs[1..]) == a[1..];
        assert IntStrings(ys[1..]) == b[1..];
        assert Join(a[1..], ',') == t[1..];
        JoinIntsInjective(xs[1..], ys[1..]);
        assert xs == [xs[0]] + xs[1..];
        assert ys == [ys[0]] + ys[1..];
      }
    }
  }
}
