/** Decimal numerals, string order and substring tests, as Python's str() and comparison give them. */
module Texts {

  function DigitOf(d: nat): char
    requires d < 10
  {
    "0123456789"[d]
  }

  function Digits(n: nat): string {
    if n < 10 then [DigitOf(n)] else Digits(n / 10) + [DigitOf(n % 10)]
  }

  /** int(text), for text made of digits. */
  function ValueOf(text: string): int {
    if text == "" then 0
    else 10 * ValueOf(text[..|text| - 1]) + (text[|text| - 1] as int - '0' as int)
  }

  /** Reading a numeral back gives the number; a numeral holds digits only, and no leading zero. */
  lemma {:induction false} DigitsRoundTrip(n: nat)
    ensures ValueOf(Digits(n)) == n
    ensures Digits(n) != "" && forall c | c in Digits(n) :: '0' <= c <= '9'
    ensures n > 0 ==> Digits(n)[0] != '0'
    ensures n == 0 ==> Digits(n) == "0"
  {
    if n >= 10 {
      DigitsRoundTrip(n / 10);
      var text := Digits(n);
      assert text[..|text| - 1] == Digits(n / 10);
    } else {
      assert Digits(n)[..0] == "";
    }
  }

  lemma DigitsInjective(m: nat, n: nat)
    requires Digits(m) == Digits(n)
    ensures m == n
  {
    DigitsRoundTrip(m);
    DigitsRoundTrip(n);
  }

  /** Lexicographic order of strings. */
  predicate AtMost(a: string, b: string) {
    a == "" || (b != "" && (a[0] < b[0] || (a[0] == b[0] && AtMost(a[1..], b[1..]))))
  }

  lemma {:induction false} AtMostTotal(a: string, b: string)
    ensures AtMost(a, b) || AtMost(b, a)
    ensures AtMost(a, b) && AtMost(b, a) ==> a == b
  {
    if a != "" && b != "" {
      AtMostTotal(a[1..], b[1..]);
      if a[0] == b[0] && a[1..] == b[1..] {
        assert a == [a[0]] + a[1..] && b == [b[0]] + b[1..];
      }
    }
  }

  /** They agree up to an index, where the first has the smaller character. */
  ghost predicate SmallerAt(a: string, b: string, k: nat) { k < |a| && k < |b| && a[..k] == b[..k] && a[k] < b[k] }

  /** A prefix, or smaller at the first character that differs. */
  ghost predicate InOrder(a: string, b: string) { a <= b || exists k :: SmallerAt(a, b, k) }

  lemma {:induction false} AtMostExact(a: string, b: string)
    ensures AtMost(a, b) <==> InOrder(a, b)
  {
    hide SmallerAt;
    if a != "" && b != "" {
      AtMostExact(a[1..], b[1..]);
      PrefixStep(a, b);
      forall k: nat
        ensures SmallerAt(a, b, k) <==> if k == 0 then a[0] < b[0] else a[0] == b[0] && var before: nat := k - 1; SmallerAt(a[1..], b[1..], before)
      {
        SmallerStep(a, b, k);
      }
      if InOrder(a[1..], b[1..]) && a[0] == b[0] && !(a[1..] <= b[1..]) {
        var k: nat :| SmallerAt(a[1..], b[1..], k);
        var next: nat := k + 1;
        assert SmallerAt(a, b, next);
      }
      if a[0] < b[0] {
        var none: nat := 0;
        assert SmallerAt(a, b, none);
      }
    } else {
      assert forall k: nat :: !SmallerAt(a, b, k) by { NoneSmaller(a, b); }
    }
  }

  lemma NoneSmaller(a: string, b: string)
    requires a == "" || b == ""
    ensures forall k: nat :: !SmallerAt(a, b, k)
  {
  }

  lemma PrefixStep(a: string, b: string)
    requires a != "" && b != ""
    ensures a <= b <==> a[0] == b[0] && a[1..] <= b[1..]
  {
    assert a == [a[0]] + a[1..] && b == [b[0]] + b[1..];
  }

  lemma SmallerStep(a: string, b: string, k: nat)
    requires a != "" && b != ""
    ensures SmallerAt(a, b, k) <==> if k == 0 then a[0] < b[0] else a[0] == b[0] && SmallerAt(a[1..], b[1..], k - 1)
  {
    if 0 < k < |a| && k < |b| {
      assert a[..k] == [a[0]] + a[1..][..k - 1] && b[..k] == [b[0]] + b[1..][..k - 1];
    }
  }

  lemma {:induction false} AtMostTransitive(a: string, b: string, c: string)
    requires AtMost(a, b) && AtMost(b, c)
    ensures AtMost(a, c)
  {
    if a != "" {
      if a[0] == b[0] && b[0] == c[0] {
        AtMostTransitive(a[1..], b[1..], c[1..]);
      }
    }
  }

  /** text.startswith(prefix) */
  predicate StartsWith(text: string, prefix: string) { prefix <= text }

  /** part in text */
  predicate Contains(text: string, part: string) {
    part <= text || (text != "" && Contains(text[1..], part))
  }
}
