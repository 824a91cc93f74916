/** How the JavaScript sources render numbers inside template strings and
    string concatenation (`${n}`, `uri + '/' + n`), restricted to naturals. */
module Decimal {

  function Digit(d: nat): (c: char)
    requires d < 10
    ensures '0' <= c <= '9'
    ensures c as int - '0' as int == d
  {
    (d + '0' as int) as char
  }

  predicate IsDigits(s: string) {
    forall i :: 0 <= i < |s| ==> '0' <= s[i] <= '9'
  }

  /** The decimal rendering of `n` without leading zeros. */
  function Show(n: nat): (s: string)
    ensures |s| >= 1 && IsDigits(s)
    ensures (n < 10) == (|s| == 1)
    decreases n
  {
    if n < 10 then [Digit(n)] else Show(n / 10) + [Digit(n % 10)]
  }

  /** Different naturals never render the same. */
  lemma {:induction false} ShowInjective(m: nat, n: nat)
    requires Show(m) == Show(n)
    ensures m == n
    decreases m
  {
    if m >= 10 && n >= 10 {
      var sm, sn := Show(m), Show(n);
      assert sm == Show(m / 10) + [Digit(m % 10)];
      assert sn == Show(n / 10) + [Digit(n % 10)];
      assert Digit(m % 10) == sm[|sm| - 1] == sn[|sn| - 1] == Digit(n % 10);
      assert Show(m / 10) == sm[..|sm| - 1] == sn[..|sn| - 1] == Show(n / 10);
      ShowInjective(m / 10, n / 10);
    }
  }

  /** The natural a string of decimal digits denotes (leading zeros allowed). */
  function DigitsValue(s: string): nat
    requires IsDigits(s)
  {
    if s == [] then 0 else DigitsValue(s[..|s| - 1]) * 10 + (s[|s| - 1] as int - '0' as int)
  }

  /** A digit string with no leading zero: the form `Show` produces. */
  predicate Canonical(s: string) {
    s != [] && IsDigits(s) && (s[0] != '0' || |s| == 1)
  }

  lemma {:induction false} LeadingDigitBound(s: string)
    requires IsDigits(s) && s != [] && s[0] != '0'
    ensures DigitsValue(s) >= 1
    ensures |s| > 1 ==> DigitsValue(s) >= 10
    decreases |s|
  {
    if |s| > 1 {
      LeadingDigitBound(s[..|s| - 1]);
    }
  }

  /** A canonical digit string is the rendering of the natural it denotes. */
  lemma {:induction false} ShowDigitsValue(s: string)
    requires Canonical(s)
    ensures Show(DigitsValue(s)) == s
    decreases |s|
  {
    if |s| > 1 {
      var p := s[..|s| - 1];
      LeadingDigitBound(s);
      assert Canonical(p);
      ShowDigitsValue(p);
      var n := DigitsValue(s);
      assert n / 10 == DigitsValue(p) && n % 10 == s[|s| - 1] as int - '0' as int;
      assert s == p + [s[|s| - 1]];
    }
  }

  /** The rendering of `n` is canonical and denotes `n`. */
  lemma {:induction false} ShowCanonical(n: nat)
    ensures Canonical(Show(n)) && DigitsValue(Show(n)) == n
    decreases n
  {
    if n >= 10 {
      ShowCanonical(n / 10);
      var s := Show(n);
      assert s == Show(n / 10) + [Digit(n % 10)];
      assert s[..|s| - 1] == Show(n / 10);
      assert s[0] == Show(n / 10)[0];
    }
  }

  /** `${stamp}_${counter}`: the local operation ids both clients build from
      `Date.now()` and their connection counter. */
  function LocalId(stamp: nat, counter: nat): string {
    Show(stamp) + "_" + Show(counter)
  }

  /** The position of the first '_' in `s`, or `|s|` when there is none. */
  function Underscore(s: string): (i: nat)
    ensures i <= |s|
  {
    if s == [] || s[0] == '_' then 0 else 1 + Underscore(s[1..])
  }

  lemma {:induction false} UnderscoreAfterDigits(a: string, c: string)
    requires IsDigits(a)
    ensures Underscore(a + "_" + c) == |a|
  {
    if a != [] {
      assert (a + "_" + c)[1..] == a[1..] + "_" + c;
      UnderscoreAfterDigits(a[1..], c);
    }
  }

  /** Two local ids are equal only when both the time stamp and the counter
      agree; in particular ids built from different counter values differ
      whatever the clock said. */
  lemma LocalIdInjective(stamp1: nat, counter1: nat, stamp2: nat, counter2: nat)
    requires LocalId(stamp1, counter1) == LocalId(stamp2, counter2)
    ensures stamp1 == stamp2 && counter1 == counter2
  {
    var a, b := Show(stamp1), Show(stamp2);
    var id := LocalId(stamp1, counter1);
    UnderscoreAfterDigits(a, Show(counter1));
    UnderscoreAfterDigits(b, Show(counter2));
    assert a == id[..|a|] == b;
    assert Show(counter1) == id[|a| + 1..] == Show(counter2);
    ShowInjective(stamp1, stamp2);
    ShowInjective(counter1, counter2);
  }
}
