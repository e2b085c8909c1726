/** Numbers as a fixed count of digits, most significant first, and digits as characters. */
module Numerals {
  import opened Wrappers

  function Power(base: nat, n: nat): nat {
    if n == 0 then 1 else Power(base, n - 1) * base
  }

  function Digits(n: nat, base: nat, width: nat): (ds: seq<nat>)
    requires 2 <= base
    ensures |ds| == width && forall i | 0 <= i < width :: ds[i] < base
    decreases width
  {
    if width == 0 then [] else Digits(n / base, base, width - 1) + [n % base]
  }

  function Value(ds: seq<nat>, base: nat): nat {
    if ds == [] then 0 else Value(ds[..|ds| - 1], base) * base + ds[|ds| - 1]
  }

  lemma QuotientAndRest(q: nat, r: nat, base: nat)
    requires r < base
    ensures (q * base + r) / base == q && (q * base + r) % base == r
  {
    var n := q * base + r;
    assert n == (n / base) * base + n % base;
    if n / base < q {
      assert (q - n / base) * base >= base by { Grows(q - n / base, base); }
    } else if n / base > q {
      assert (n / base - q) * base >= base by { Grows(n / base - q, base); }
    }
  }

  lemma Grows(k: nat, base: nat)
    requires k >= 1
    ensures k * base >= base
  {
  }

  lemma Recomposed(n: nat, base: nat)
    requires 2 <= base
    ensures (n / base) * base + n % base == n
  {
  }

  lemma AppendedBound(v: nat, d: nat, base: nat, bound: nat)
    requires v < bound && d < base
    ensures v * base + d < bound * base
  {
    Monotone(v + 1, bound, base);
    assert (v + 1) * base == v * base + base;
  }

  lemma SmallerQuotient(n: nat, base: nat, bound: nat)
    requires 2 <= base && n < bound * base
    ensures n / base < bound
  {
    Recomposed(n, base);
    if bound <= n / base {
      Monotone(bound, n / base, base);
    }
  }

  lemma Monotone(a: nat, b: nat, base: nat)
    requires a <= b
    ensures a * base <= b * base
  {
  }

  lemma ValueOfAppended(ds: seq<nat>, d: nat, base: nat)
    ensures Value(ds + [d], base) == Value(ds, base) * base + d
  {
    assert (ds + [d])[..|ds + [d]| - 1] == ds;
  }

  lemma DigitsOfAppended(v: nat, d: nat, base: nat, width: nat)
    requires 2 <= base && d < base
    ensures Digits(v * base + d, base, width + 1) == Digits(v, base, width) + [d]
  {
    QuotientAndRest(v, d, base);
  }

  lemma PowerStep(base: nat, n: nat)
    ensures Power(base, n + 1) == Power(base, n) * base
  {
  }

  lemma {:induction false} ValueOfDigits(n: nat, base: nat, width: nat)
    requires 2 <= base && n < Power(base, width)
    ensures Value(Digits(n, base, width), base) == n
    decreases width
  {
    if width > 0 {
      PowerStep(base, width - 1);
      SmallerQuotient(n, base, Power(base, width - 1));
      ValueOfDigits(n / base, base, width - 1);
      ValueOfAppended(Digits(n / base, base, width - 1), n % base, base);
      Recomposed(n, base);
    }
  }

  lemma {:induction false} DigitsOfValue(ds: seq<nat>, base: nat)
    requires 2 <= base && forall i | 0 <= i < |ds| :: ds[i] < base
    ensures Digits(Value(ds, base), base, |ds|) == ds && Value(ds, base) < Power(base, |ds|)
    decreases |ds|
  {
    if ds != [] {
      var init, last := ds[..|ds| - 1], ds[|ds| - 1];
      assert ds == init + [last];
      DigitsOfValue(init, base);
      ValueOfAppended(init, last, base);
      DigitsOfAppended(Value(init, base), last, base, |init|);
      AppendedBound(Value(init, base), last, base, Power(base, |init|));
      PowerStep(base, |init|);
    }
  }

  // -------------------------------------------------------------- characters

  function DigitChar(d: nat): char
    requires d < 16
  {
    if d < 10 then '0' + d as char else 'a' + (d - 10) as char
  }

  /** Upper-case letters count as well. */
  function DigitOf(c: char, base: nat): Option<nat> {
    var d := if '0' <= c <= '9' then (c - '0') as nat
             else if 'a' <= c <= 'f' then (c - 'a') as nat + 10
             else if 'A' <= c <= 'F' then (c - 'A') as nat + 10
             else base;
    if d < base then Some(d) else None
  }

  function Lower(c: char): char {
    if 'A' <= c <= 'Z' then c + 32 as char else c
  }

  lemma DigitCharIsDigit(d: nat, base: nat)
    requires d < base <= 16
    ensures DigitOf(DigitChar(d), base) == Some(d) && Lower(DigitChar(d)) == DigitChar(d)
  {
  }

  /** A character is read as digit d exactly if it is the digit's own, or that in upper case. */
  lemma DigitOfExactly(c: char, d: nat, base: nat)
    requires base <= 16
    ensures DigitOf(c, base) == Some(d) <==> d < base && Lower(c) == DigitChar(d)
  {
  }

  function Numeral(n: nat, base: nat, width: nat): (text: string)
    requires 2 <= base <= 16
    ensures |text| == width
  {
    seq(width, i requires 0 <= i < width => DigitChar(Digits(n, base, width)[i]))
  }

  function ReadNumeral(text: string, base: nat): Option<nat> {
    if forall c | c in text :: DigitOf(c, base).Some?
    then Some(Value(seq(|text|, i requires 0 <= i < |text| => DigitOf(text[i], base).GetOr(0)), base)) else None
  }

  function LowerAll(text: string): (lower: string)
    ensures |lower| == |text| && forall i | 0 <= i < |text| :: lower[i] == Lower(text[i])
  {
    seq(|text|, i requires 0 <= i < |text| => Lower(text[i]))
  }

  /** A text is read as n exactly if it is the numeral of n of its length, letters in either case. */
  lemma ReadsExactly(text: string, n: nat, base: nat)
    requires 2 <= base <= 16
    ensures ReadNumeral(text, base) == Some(n) <==>
             n < Power(base, |text|) && LowerAll(text) == Numeral(n, base, |text|)
  {
    var ds := seq(|text|, i requires 0 <= i < |text| => DigitOf(text[i], base).GetOr(0));
    if ReadNumeral(text, base) == Some(n) {
      forall i | 0 <= i < |text| ensures ds[i] < base && Lower(text[i]) == DigitChar(ds[i]) {
        assert text[i] in text;
        DigitOfExactly(text[i], ds[i], base);
      }
      DigitsOfValue(ds, base);
    } else if n < Power(base, |text|) && LowerAll(text) == Numeral(n, base, |text|) {
      NumeralIsRead(text, n, base);
    }
  }

  lemma NumeralIsRead(text: string, n: nat, base: nat)
    requires 2 <= base <= 16 && n < Power(base, |text|) && LowerAll(text) == Numeral(n, base, |text|)
    ensures ReadNumeral(text, base) == Some(n)
  {
    var ds := seq(|text|, i requires 0 <= i < |text| => DigitOf(text[i], base).GetOr(0));
    forall i | 0 <= i < |text| ensures DigitOf(text[i], base) == Some(Digits(n, base, |text|)[i]) {
      assert LowerAll(text)[i] == Numeral(n, base, |text|)[i];
      DigitOfExactly(text[i], Digits(n, base, |text|)[i], base);
    }
    assert ds == Digits(n, base, |text|);
    ValueOfDigits(n, base, |text|);
  }
}
