/** The string operations the workout labels and ids are built from:
    the decimal text of a non-negative integer, reading it back, taking the
    last characters of a string and upper-casing a first letter. */
module Text {

  predicate IsDigit(c: char) {
    '0' <= c <= '9'
  }

  predicate AllDigits(s: string) {
    forall i | 0 <= i < |s| :: IsDigit(s[i])
  }

  function DigitValue(c: char): (d: nat)
    requires IsDigit(c)
    ensures d < 10
  {
    c as int - '0' as int
  }

  function DigitChar(d: nat): (c: char)
    requires d < 10
    ensures IsDigit(c) && DigitValue(c) == d
  {
    ('0' as int + d) as char
  }

  function Pow10(k: nat): (p: nat)
    ensures p >= 1
    ensures k >= 1 ==> p >= 10
  {
    if k == 0 then 1 else 10 * Pow10(k - 1)
  }

  /** The text JavaScript gives a non-negative integer (`n + ''`, or a
      template-literal interpolation): its decimal digits, most significant
      first, without leading zeros. */
  function Decimal(n: nat): (s: string)
    ensures 1 <= |s| && AllDigits(s)
    ensures s[0] == '0' ==> n == 0
    decreases n
  {
    if n < 10 then [DigitChar(n)] else Decimal(n / 10) + [DigitChar(n % 10)]
  }

  /** The value of a string of decimal digits (leading zeros allowed). */
  function ParseDecimal(s: string): (n: nat)
    requires AllDigits(s)
    ensures n < Pow10(|s|)
    decreases |s|
  {
    if s == [] then 0 else ParseDecimal(s[..|s| - 1]) * 10 + DigitValue(s[|s| - 1])
  }

  /** Reading the decimal text back gives the number. */
  lemma {:induction false} DecimalRoundTrip(n: nat)
    ensures ParseDecimal(Decimal(n)) == n
  {
    var s := Decimal(n);
    if n < 10 {
      assert s[..|s| - 1] == [];
    } else {
      assert s[..|s| - 1] == Decimal(n / 10);
      DecimalRoundTrip(n / 10);
    }
  }

  /** Different numbers have different decimal texts. */
  lemma DecimalInjective(m: nat, n: nat)
    ensures Decimal(m) == Decimal(n) ==> m == n
  {
    DecimalRoundTrip(m);
    DecimalRoundTrip(n);
  }

  /** `s.slice(-k)` for `k >= 1`: the last `k` characters of `s`, or all of
      `s` when it is shorter. `k = 0` gives the empty string (unlike
      `slice(-0)`); it serves only as the base case of `SuffixOfDecimal`. */
  function Suffix(s: string, k: nat): (r: string)
    ensures |r| == if |s| <= k then |s| else k
    ensures s[|s| - |r|..] == r
    ensures AllDigits(s) ==> AllDigits(r)
  {
    if |s| <= k then s else s[|s| - k..]
  }

  /** A positive multiple of `d` is at least `d`. */
  lemma {:induction false} MulAtLeast(x: int, d: int)
    requires x >= 1 && d >= 0
    ensures x * d >= d
  {
    if x > 1 {
      MulAtLeast(x - 1, d);
      assert x * d == (x - 1) * d + d;
    }
  }

  /** Euclidean division is unique: `a` and `y` are the quotient and remainder. */
  lemma DivModUnique(n: int, d: int, a: int, y: int)
    requires d > 0 && 0 <= y < d && n == a * d + y
    ensures n / d == a && n % d == y
  {
    var q, r := n / d, n % d;
    assert n == q * d + r;
    assert (a - q) * d == r - y by {
      assert (a - q) * d == a * d - q * d;
    }
    if a - q >= 1 {
      MulAtLeast(a - q, d);
      assert false;
    } else if q - a >= 1 {
      MulAtLeast(q - a, d);
      assert false;
    }
  }

  /** Numbers closer together than `p` leave different remainders. */
  lemma CloseRemaindersDiffer(a: int, b: int, p: int)
    requires p > 0 && a < b < a + p
    ensures a % p != b % p
  {
    if a % p == b % p {
      var qa, qb := a / p, b / p;
      assert (qb - qa) * p == b - a by {
        assert a == qa * p + a % p && b == qb * p + b % p;
        assert (qb - qa) * p == qb * p - qa * p;
      }
      if qb - qa >= 1 {
        MulAtLeast(qb - qa, p);
      } else {
        MulAtLeast(qa - qb + 1, p);
      }
    }
  }

  /** The last digit and the remainder of the rest by `m` make up the
      remainder by `10 * m`. */
  lemma ModTen(n: nat, m: nat)
    requires m >= 1
    ensures ((n / 10) % m) * 10 + n % 10 == n % (10 * m)
  {
    var q, r := n / 10, n % 10;
    var a, b := q / m, q % m;
    assert n == 10 * q + r;
    assert q == a * m + b;
    assert n == a * (10 * m) + (10 * b + r) by {
      assert 10 * q == 10 * (a * m) + 10 * b;
      assert 10 * (a * m) == a * (10 * m);
    }
    assert 10 * b + r < 10 * m by {
      assert b <= m - 1;
      assert 10 * b <= 10 * m - 10;
    }
    DivModUnique(n, 10 * m, a, 10 * b + r);
  }

  /** Taking the last `k` characters of `t + [c]` keeps `c` and the last
      `k - 1` characters of `t`. */
  lemma SuffixSnoc(t: string, c: char, k: nat)
    requires k >= 1
    ensures Suffix(t + [c], k) == Suffix(t, k - 1) + [c]
  {
    var s := t + [c];
    if |s| <= k {
      assert Suffix(t, k - 1) == t;
    } else {
      assert s[|s| - k..] == t[|t| - (k - 1)..] + [c];
    }
  }

  /** The last `k` decimal digits of `n` are the digits of `n % 10^k`. */
  lemma {:induction false} SuffixOfDecimal(n: nat, k: nat)
    ensures ParseDecimal(Suffix(Decimal(n), k)) == n % Pow10(k)
  {
    if k == 0 {
      assert Suffix(Decimal(n), k) == [];
      DivModUnique(n, 1, n, 0);
    } else if n < 10 {
      SuffixOfDigit(n, k);
    } else {
      var t, c := Decimal(n / 10), DigitChar(n % 10);
      var m := Pow10(k - 1);
      assert Decimal(n) == t + [c];
      SuffixSnoc(t, c, k);
      ParseSnoc(Suffix(t, k - 1), c);
      SuffixOfDecimal(n / 10, k - 1);
      ModTen(n, m);
      calc {
        ParseDecimal(Suffix(Decimal(n), k));
        ParseDecimal(Suffix(t, k - 1) + [c]);
        ParseDecimal(Suffix(t, k - 1)) * 10 + n % 10;
        ((n / 10) % m) * 10 + n % 10;
        n % (10 * m);
        { assert Pow10(k) == 10 * m; }
        n % Pow10(k);
      }
    }
  }

  lemma SuffixOfDigit(n: nat, k: nat)
    requires n < 10 && k >= 1
    ensures ParseDecimal(Suffix(Decimal(n), k)) == n % Pow10(k)
  {
    var s := Decimal(n);
    assert Suffix(s, k) == s;
    assert s[..0] == [];
    DivModUnique(n, Pow10(k), 0, n);
  }

  /** Appending a digit multiplies the value by ten and adds the digit. */
  lemma ParseSnoc(t: string, c: char)
    requires AllDigits(t) && IsDigit(c)
    ensures ParseDecimal(t + [c]) == ParseDecimal(t) * 10 + DigitValue(c)
  {
    assert (t + [c])[..|t|] == t;
  }

  /** `c.toUpperCase()` on the ASCII letters; any other character is kept. */
  function ToUpper(c: char): (u: char)
    ensures 'a' <= c <= 'z' ==> 'A' <= u <= 'Z' && u as int == c as int - 32
    ensures !('a' <= c <= 'z') ==> u == c
  {
    if 'a' <= c <= 'z' then (c as int - 32) as char else c
  }

  /** `s.charAt(0).toUpperCase() + s.slice(1)`: the empty string stays empty. */
  function Capitalize(s: string): (r: string)
    ensures |r| == |s|
    ensures s != [] ==> r[0] == ToUpper(s[0])
    ensures forall i | 1 <= i < |s| :: r[i] == s[i]
  {
    if s == [] then [] else [ToUpper(s[0])] + s[1..]
  }
}
