/** Numbers written in decimal, and the order of texts. */
module Decimals {
  function Digit(d: nat): (c: char)
    requires d < 10
    ensures '0' <= c <= '9' && c as int - '0' as int == d
  {
    '0' + d as char
  }

  function Decimal(n: nat): (s: string)
    ensures s != []
  {
    if n < 10 then [Digit(n)] else Decimal(n / 10) + [Digit(n % 10)]
  }

  predicate IsDecimal(s: string) {
    s != [] && AllDigits(s)
  }

  predicate AllDigits(s: string) {
    forall i | 0 <= i < |s| :: '0' <= s[i] <= '9'
  }

  function ParseInt(s: string): nat
    requires AllDigits(s)
  {
    if s == [] then 0
    else 10 * ParseInt(s[..|s| - 1]) + (s[|s| - 1] as int - '0' as int)
  }

  lemma {:induction false} ParseDecimal(n: nat)
    ensures IsDecimal(Decimal(n)) && ParseInt(Decimal(n)) == n
  {
    var s := Decimal(n);
    if n < 10 {
      assert s[..0] == [];
    } else {
      ParseDecimal(n / 10);
      assert s[..|s| - 1] == Decimal(n / 10);
    }
  }

  lemma DecimalInjective(j: nat, k: nat)
    requires Decimal(j) == Decimal(k)
    ensures j == k
  {
    ParseDecimal(j);
    ParseDecimal(k);
  }

  function Pow10(k: nat): (p: nat)
    ensures p >= 1
  {
    if k == 0 then 1 else 10 * Pow10(k - 1)
  }

  function Scaled(v: nat, k: nat): nat {
    v * Pow10(k)
  }

  /** The last `k` digits of `n`, with leading zeros. */
  function Digits(n: nat, k: nat): (s: string)
    ensures |s| == k && AllDigits(s)
  {
    if k == 0 then [] else Digits(n / 10, k - 1) + [Digit(n % 10)]
  }

  lemma {:induction false} ParseDigits(n: nat, k: nat)
    requires n < Pow10(k)
    ensures ParseInt(Digits(n, k)) == n
  {
    if k > 0 {
      ParseDigits(n / 10, k - 1);
      var s := Digits(n, k);
      assert s[..|s| - 1] == Digits(n / 10, k - 1);
    }
  }

  function Zeros(k: nat): (s: string)
    ensures |s| == k && forall i | 0 <= i < k :: s[i] == '0'
  {
    if k == 0 then [] else Zeros(k - 1) + ['0']
  }

  lemma ParseSnoc(s: string, c: char)
    requires AllDigits(s) && '0' <= c <= '9'
    ensures AllDigits(s + [c]) && ParseInt(s + [c]) == 10 * ParseInt(s) + (c as int - '0' as int)
  {
    assert (s + [c])[..|s|] == s;
  }

  lemma TenTimes(v: nat, p: nat)
    ensures 10 * (v * p) == v * (10 * p)
  {
  }

  lemma {:induction false} ParseZeros(s: string, k: nat)
    requires AllDigits(s)
    ensures AllDigits(s + Zeros(k)) && ParseInt(s + Zeros(k)) == Scaled(ParseInt(s), k)
  {
    hide ParseInt;
    if k == 0 {
      assert s + Zeros(0) == s;
    } else {
      ParseZeros(s, k - 1);
      ParseSnoc(s + Zeros(k - 1), '0');
      assert s + Zeros(k) == s + Zeros(k - 1) + ['0'];
      TenTimes(ParseInt(s), Pow10(k - 1));
      assert Pow10(k) == 10 * Pow10(k - 1);
      hide Pow10, Zeros;
    }
  }

  /** Trailing zeros removed. */
  function Strip(s: string): (r: string)
    ensures r <= s
  {
    if s != [] && s[|s| - 1] == '0' then Strip(s[..|s| - 1]) else s
  }

  lemma {:induction false} StripEnds(s: string)
    ensures AllDigits(s) ==> AllDigits(Strip(s))
    ensures Strip(s) == [] || Strip(s)[|Strip(s)| - 1] != '0'
    ensures forall i | |Strip(s)| <= i < |s| :: s[i] == '0'
  {
    if s != [] && s[|s| - 1] == '0' {
      StripEnds(s[..|s| - 1]);
    }
  }

  lemma StripPad(s: string)
    ensures Strip(s) + Zeros(|s| - |Strip(s)|) == s
  {
    StripEnds(s);
  }

  // The order of texts.

  predicate Less(a: string, b: string) {
    if b == [] then false
    else if a == [] then true
    else a[0] < b[0] || (a[0] == b[0] && Less(a[1..], b[1..]))
  }

  /** Two texts are ordered by the first place where they differ. */
  ghost predicate DifferAt(a: string, b: string, i: nat) {
    && i < |b| && i <= |a| && a[..i] == b[..i]
    && (i == |a| || a[i] < b[i])
  }

  lemma {:induction false} LessBy(a: string, b: string, i: nat)
    requires DifferAt(a, b, i)
    ensures Less(a, b)
    decreases i
  {
    if i > 0 {
      assert a[0] == a[..i][0] == b[..i][0] == b[0];
      assert a[1..][..i - 1] == a[..i][1..] == b[..i][1..] == b[1..][..i - 1];
      LessBy(a[1..], b[1..], i - 1);
    }
  }

  lemma {:induction false} LessAt(a: string, b: string) returns (i: nat)
    requires Less(a, b)
    ensures DifferAt(a, b, i)
    decreases |a|
  {
    if a == [] || a[0] < b[0] {
      i := 0;
    } else {
      var j := LessAt(a[1..], b[1..]);
      i := j + 1;
      assert a[..i] == [a[0]] + a[1..][..j];
      assert b[..i] == [b[0]] + b[1..][..j];
    }
  }

  lemma LessAppend(a: string, b: string, x: string, y: string)
    requires |a| == |b| && Less(a, b)
    ensures Less(a + x, b + y)
  {
    var i := LessAt(a, b);
    assert (a + x)[..i] == a[..i] && (b + y)[..i] == b[..i];
    LessBy(a + x, b + y, i);
  }

  lemma {:induction false} LessAfter(p: string, a: string, b: string)
    requires Less(a, b)
    ensures Less(p + a, p + b)
  {
    if p == [] {
      assert p + a == a && p + b == b;
    } else {
      LessAfter(p[1..], a, b);
      assert (p + a)[1..] == p[1..] + a && (p + b)[1..] == p[1..] + b;
    }
  }

  lemma {:induction false} LessNotBoth(a: string, b: string)
    ensures !(Less(a, b) && Less(b, a)) && !Less(a, a)
    decreases |a|
  {
    if a != [] {
      LessNotBoth(a[1..], a[1..]);
      if b != [] {
        LessNotBoth(a[1..], b[1..]);
      }
    }
  }

  lemma {:induction false} DigitsLess(n: nat, m: nat, k: nat)
    requires n < m < Pow10(k)
    ensures Less(Digits(n, k), Digits(m, k))
    decreases k
  {
    if k > 0 {
      var x, y := [Digit(n % 10)], [Digit(m % 10)];
      if n / 10 < m / 10 {
        DigitsLess(n / 10, m / 10, k - 1);
        LessAppend(Digits(n / 10, k - 1), Digits(m / 10, k - 1), x, y);
      } else {
        LessAfter(Digits(n / 10, k - 1), x, y);
      }
    }
  }

  lemma StripLess(a: string, b: string)
    requires |a| == |b| && AllDigits(a) && AllDigits(b) && Less(a, b)
    ensures Less(Strip(a), Strip(b))
  {
    StripEnds(a);
    StripEnds(b);
    var i := LessAt(a, b);
    var x, y := Strip(a), Strip(b);
    assert b[i] != '0' && i < |y|;
    if i < |x| {
      assert x[..i] == a[..i] && y[..i] == b[..i];
      LessBy(x, y, i);
    } else {
      assert x == a[..i][..|x|] && y[..|x|] == b[..i][..|x|];
      LessBy(x, y, |x|);
    }
  }
}
