/** Decimal and upper-case hexadecimal number text, as keys are printed. */
module Text {

  function Digit(d: nat): (c: char)
    requires d < 16
  {
    "0123456789ABCDEF"[d]
  }

  function DigitValue(c: char): (d: nat)
    ensures d < 16
  {
    if '0' <= c <= '9' then c as int - '0' as int
    else if 'A' <= c <= 'F' then c as int - 'A' as int + 10
    else 0
  }

  lemma DigitRoundTrip(d: nat)
    requires d < 16
    ensures DigitValue(Digit(d)) == d && Digit(d) != ':'
  {
  }

  /** The digits of n, most significant first, without leading zeros; "0" for zero. */
  function Digits(n: nat, base: nat): (s: string)
    requires base == 10 || base == 16
    ensures s != []
    decreases n
  {
    if n < base then [Digit(n)]
    else
      DivSmaller(n, base);
      Digits(n / base, base) + [Digit(n % base)]
  }

  lemma DivSmaller(n: nat, base: nat)
    requires base == 10 || base == 16
    ensures n >= base ==> n / base < n
    ensures n / base * base + n % base == n && 0 <= n % base < 16
  {
    if base == 10 {
    } else {
    }
  }

  /** Reads digits back. */
  function Value(s: string, base: nat): (n: nat)
  {
    if s == [] then 0 else Value(s[..|s| - 1], base) * base + DigitValue(s[|s| - 1])
  }

  lemma {:induction false} ValueOfDigits(n: nat, base: nat)
    requires base == 10 || base == 16
    ensures Value(Digits(n, base), base) == n
    decreases n
  {
    DivSmaller(n, base);
    DigitRoundTrip(n % base);
    var s := Digits(n, base);
    if n < base {
      DigitRoundTrip(n);
      assert s[..|s| - 1] == [];
    } else {
      ValueOfDigits(n / base, base);
      assert s[..|s| - 1] == Digits(n / base, base);
    }
  }

  lemma {:induction false} DigitsHaveNoColon(n: nat, base: nat)
    requires base == 10 || base == 16
    ensures ':' !in Digits(n, base)
    decreases n
  {
    DivSmaller(n, base);
    DigitRoundTrip(n % base);
    if n < base {
      DigitRoundTrip(n);
    } else {
      DigitsHaveNoColon(n / base, base);
    }
  }

  function Decimal(n: nat): string {
    Digits(n, 10)
  }

  function Hex(n: nat): string {
    Digits(n, 16)
  }

  lemma HexInjective(m: nat, n: nat)
    requires Hex(m) == Hex(n)
    ensures m == n
  {
    ValueOfDigits(m, 16);
    ValueOfDigits(n, 16);
  }

  /** The "a:b" text key. */
  function PairKey(a: nat, b: nat): string {
    Decimal(a) + ":" + Decimal(b)
  }

  lemma {:induction false} ColonSplit(s: string, t: string, s': string, t': string)
    requires ':' !in s && ':' !in s' && s + ":" + t == s' + ":" + t'
    ensures s == s' && t == t'
  {
    var whole := s + ":" + t;
    assert whole[|s|] == ':' && (s' + ":" + t')[|s'|] == ':';
    assert forall i :: 0 <= i < |s| ==> whole[i] == s[i];
    assert forall i :: 0 <= i < |s'| ==> whole[i] == s'[i];
    assert |s| == |s'|;
    assert s == whole[..|s|] && t == whole[|s| + 1..];
    assert s' == (s' + ":" + t')[..|s'|] && t' == (s' + ":" + t')[|s'| + 1..];
  }

  lemma PairKeyInjective(a: nat, b: nat, c: nat, d: nat)
    requires PairKey(a, b) == PairKey(c, d)
    ensures a == c && b == d
  {
    DigitsHaveNoColon(a, 10);
    DigitsHaveNoColon(c, 10);
    ColonSplit(Decimal(a), Decimal(b), Decimal(c), Decimal(d));
    ValueOfDigits(a, 10);
    ValueOfDigits(b, 10);
    ValueOfDigits(c, 10);
    ValueOfDigits(d, 10);
  }
}
