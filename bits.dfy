/** Python's integer bit operations on unbounded integers, written out:
    `x >> k`, `(x >> k) & 1`, `a | b`, and binary digit strings. */
module Bits {
  import opened Base

  /** Python's `x >> k`: floor division by 2^k, one place at a time
      (so it is also right for negative x, like Python's arithmetic shift). */
  function Shr(x: int, k: nat): int
    decreases k
  {
    if k == 0 then x else Shr(x / 2, k - 1)
  }

  /** Python's `(x >> k) & 1`. */
  function Bit(x: int, k: nat): (r: int)
    ensures r == 0 || r == 1
  {
    Shr(x, k) % 2
  }

  /** Python's `a | b` on non-negative integers. */
  function Or(a: nat, b: nat): nat
    decreases a + b
  {
    if a == 0 then b
    else if b == 0 then a
    else 2 * Or(a / 2, b / 2) + (if a % 2 == 1 || b % 2 == 1 then 1 else 0)
  }

  /** Every bit set in `a` is set in `b` (Python: `a | b == b`). */
  predicate Sub(a: nat, b: nat)
  {
    Or(a, b) == b
  }

  lemma {:induction false} BitZero(k: nat)
    ensures Bit(0, k) == 0
  {
    if k > 0 {
      BitZero(k - 1);
    }
  }

  /** Bit k of `x` is bit k-1 of `x >> 1`. */
  lemma BitHalf(x: int, k: nat)
    requires k > 0
    ensures Bit(x, k) == Bit(x / 2, k - 1)
  {
  }

  /** The only bit of 2^i is bit i. */
  lemma {:induction false} BitOfPow2(i: nat, k: nat)
    ensures Bit(Pow2(i), k) == if i == k then 1 else 0
  {
    if k == 0 {
    } else if i == 0 {
      BitZero(k - 1);
    } else {
      assert Pow2(i) / 2 == Pow2(i - 1);
      BitOfPow2(i - 1, k - 1);
    }
  }

  /** Bit k of `a | b` is set exactly when bit k of `a` or of `b` is. */
  lemma {:induction false} BitOfOr(a: nat, b: nat, k: nat)
    ensures Bit(Or(a, b), k) == if Bit(a, k) == 1 || Bit(b, k) == 1 then 1 else 0
    decreases k
  {
    if a == 0 {
      BitZero(k);
    } else if b == 0 {
      BitZero(k);
    } else if k > 0 {
      var o := Or(a, b);
      assert o / 2 == Or(a / 2, b / 2);
      BitOfOr(a / 2, b / 2, k - 1);
    }
  }

  lemma {:induction false} OrZeroRight(a: nat)
    ensures Or(a, 0) == a
  {
  }

  lemma {:induction false} OrComm(a: nat, b: nat)
    ensures Or(a, b) == Or(b, a)
    decreases a + b
  {
    if a != 0 && b != 0 {
      OrComm(a / 2, b / 2);
    }
  }

  lemma {:induction false} OrIdem(a: nat)
    ensures Or(a, a) == a
  {
    if a != 0 {
      OrIdem(a / 2);
    }
  }

  lemma {:induction false} OrHalves(a: nat, b: nat)
    ensures Or(a, b) / 2 == Or(a / 2, b / 2)
    ensures Or(a, b) % 2 == (if a % 2 == 1 || b % 2 == 1 then 1 else 0)
  {
  }

  lemma {:induction false} OrAssoc(a: nat, b: nat, c: nat)
    ensures Or(Or(a, b), c) == Or(a, Or(b, c))
    decreases a + b + c
  {
    if a == 0 || b == 0 || c == 0 {
      OrZeroRight(a);
      OrZeroRight(Or(a, b));
    } else {
      OrHalves(a, b);
      OrHalves(b, c);
      OrHalves(Or(a, b), c);
      OrHalves(a, Or(b, c));
      OrAssoc(a / 2, b / 2, c / 2);
    }
  }

  /** Sub-masks combine: if a is within c and b within d, then a | b is within c | d. */
  lemma SubOr(a: nat, b: nat, c: nat, d: nat)
    requires Sub(a, c) && Sub(b, d)
    ensures Sub(Or(a, b), Or(c, d))
  {
    calc {
      Or(Or(a, b), Or(c, d));
    == { OrAssoc(a, b, Or(c, d)); }
      Or(a, Or(b, Or(c, d)));
    == { OrComm(c, d); OrAssoc(b, d, c); }
      Or(a, Or(Or(b, d), c));
    == // b is within d
      Or(a, Or(d, c));
    == { OrComm(d, c); OrAssoc(a, c, d); }
      Or(Or(a, c), d);
    == // a is within c
      Or(c, d);
    }
  }

  /** A single flag shifted into place, Python's `flag << k` for flag 0 or 1, is within `1 << k`. */
  lemma SubFlag(flag: int, k: nat)
    requires flag == 0 || flag == 1
    ensures Sub(flag * Pow2(k), Pow2(k))
  {
    if flag == 1 {
      OrIdem(Pow2(k));
    }
  }

  /** Setting a bit that is clear is an addition. */
  lemma {:induction false} OrFreshBit(a: nat, k: nat)
    requires Bit(a, k) == 0
    ensures Or(a, Pow2(k)) == a + Pow2(k)
    decreases k
  {
    if a == 0 {
    } else if k == 0 {
      assert a % 2 == 0;
      OrZeroRight(a / 2);
    } else {
      BitHalf(a, k);
      OrFreshBit(a / 2, k - 1);
      assert Pow2(k) / 2 == Pow2(k - 1);
    }
  }

  // ---- binary digit strings (for Python's bin() and int(s, 2)) ----

  type Digit = x: int | 0 <= x < 2

  /** m zero digits (Python's `m * '0'`). */
  function ZeroDigits(m: nat): (r: seq<Digit>)
    ensures |r| == m && forall i :: 0 <= i < m ==> r[i] == 0
  {
    seq(m, _ => 0)
  }

  /** The digits of Python's `bin(x)[2:]`, least significant first (no leading zeros; "0" for zero). */
  function LsbDigits(x: nat): (r: seq<Digit>)
    ensures |r| >= 1
  {
    if x < 2 then [x] else [x % 2] + LsbDigits(x / 2)
  }

  /** Python's `int(s, 2)` on a string of binary digits, most significant first. */
  function ParseMsb(s: seq<Digit>): nat
  {
    if s == [] then 0 else 2 * ParseMsb(s[..|s| - 1]) + s[|s| - 1]
  }

  /** The value of a digit string read least significant first. */
  function ParseLsb(s: seq<Digit>): nat
  {
    if s == [] then 0 else s[0] + 2 * ParseLsb(s[1..])
  }

  /** The low n bits of x, least significant first. */
  function BitsLsb(x: nat, n: nat): (r: seq<Digit>)
    ensures |r| == n
  {
    if n == 0 then [] else [x % 2] + BitsLsb(x / 2, n - 1)
  }

  /** The k-th entry of BitsLsb is Python's `(x >> k) & 1`. */
  lemma {:induction false} BitsLsbAt(x: nat, n: nat, k: nat)
    requires k < n
    ensures BitsLsb(x, n)[k] == Bit(x, k)
  {
    if k > 0 {
      BitsLsbAt(x / 2, n - 1, k - 1);
    }
  }

  lemma {:induction false} ParseLsbBound(s: seq<Digit>)
    ensures ParseLsb(s) < Pow2(|s|)
  {
    if s != [] {
      ParseLsbBound(s[1..]);
    }
  }

  /** Reading the low n bits back gives x, when x has at most n bits. */
  lemma {:induction false} ParseBitsLsb(x: nat, n: nat)
    requires x < Pow2(n)
    ensures ParseLsb(BitsLsb(x, n)) == x
  {
    if n > 0 {
      ParseBitsLsb(x / 2, n - 1);
      assert BitsLsb(x, n)[1..] == BitsLsb(x / 2, n - 1);
    }
  }

  /** Taking the low |s| bits of a parsed string gives the string back. */
  lemma {:induction false} BitsLsbParse(s: seq<Digit>)
    ensures BitsLsb(ParseLsb(s), |s|) == s
  {
    if s != [] {
      BitsLsbParse(s[1..]);
      var v := ParseLsb(s);
      assert v % 2 == s[0] && v / 2 == ParseLsb(s[1..]);
    }
  }

  /** Reading a string most significant first is reading its reversal least significant first. */
  lemma {:induction false} ParseMsbIsLsbOfReversed(s: seq<Digit>)
    ensures ParseMsb(s) == ParseLsb(Reversed(s))
  {
    if s != [] {
      var init := s[..|s| - 1];
      ParseMsbIsLsbOfReversed(init);
      assert Reversed(s) == [s[|s| - 1]] + Reversed(init);
    }
  }

  lemma {:induction false} ReversedTwice<T>(s: seq<T>)
    ensures Reversed(Reversed(s)) == s
  {
  }

  /** bin() has at most n digits for x below 2^n (and n >= 1). */
  lemma {:induction false} LsbDigitsLength(x: nat, n: nat)
    requires n >= 1 && x < Pow2(n)
    ensures |LsbDigits(x)| <= n
  {
    if x >= 2 {
      LsbDigitsLength(x / 2, n - 1);
    }
  }

  /** Padding bin()'s reversed digits with zeros gives the low bits. */
  lemma {:induction false} LsbDigitsPadded(x: nat, m: nat)
    ensures LsbDigits(x) + ZeroDigits(m) == BitsLsb(x, |LsbDigits(x)| + m)
  {
    if x < 2 {
      BitsOfZero(m);
      assert x / 2 == 0 && x % 2 == x;
      assert BitsLsb(x, 1 + m) == [x] + BitsLsb(0, m);
    } else {
      LsbDigitsPadded(x / 2, m);
      var n := |LsbDigits(x / 2)|;
      assert |LsbDigits(x)| + m == 1 + (n + m);
      assert BitsLsb(x, 1 + (n + m)) == [x % 2] + BitsLsb(x / 2, n + m);
      assert LsbDigits(x) + ZeroDigits(m) == [x % 2] + (LsbDigits(x / 2) + ZeroDigits(m));
    }
  }

  lemma {:induction false} BitsOfZero(m: nat)
    ensures BitsLsb(0, m) == ZeroDigits(m)
  {
    if m > 0 {
      BitsOfZero(m - 1);
    }
  }

  /** Python's `(a << k) | b` is an addition when b fits below bit k. */
  lemma {:induction false} OrShifted(a: nat, b: nat, k: nat)
    requires b < Pow2(k)
    ensures Or(a * Pow2(k), b) == a * Pow2(k) + b
    decreases k
  {
    if k == 0 {
      OrZeroRight(a);
    } else {
      var hi := a * Pow2(k);
      assert hi == 2 * (a * Pow2(k - 1));
      if hi != 0 && b != 0 {
        OrShifted(a, b / 2, k - 1);
        assert hi / 2 == a * Pow2(k - 1) && hi % 2 == 0;
      }
    }
  }

  /** Bit i of `(a << k) + b` with b below bit k: a bit of b below k, a bit of a above. */
  lemma {:induction false} BitOfShifted(a: nat, b: nat, k: nat, i: nat)
    requires b < Pow2(k)
    ensures Bit(a * Pow2(k) + b, i) == if i < k then Bit(b, i) else Bit(a, i - k)
    decreases k
  {
    var v := a * Pow2(k) + b;
    if k > 0 {
      assert a * Pow2(k) == 2 * (a * Pow2(k - 1));
      assert v / 2 == a * Pow2(k - 1) + b / 2 && v % 2 == b % 2;
      if i > 0 {
        BitHalf(v, i);
        BitHalf(b, i);
        BitOfShifted(a, b / 2, k - 1, i - 1);
      }
    }
  }

  /** OrShifted with the shifted value `hi == a * 2^k` given by value (for a literal shift). */
  lemma OrShiftedBy(a: nat, b: nat, k: nat, p: nat, hi: nat)
    requires p == Pow2(k) && b < p && hi == a * p
    ensures Or(hi, b) == hi + b
  {
    OrShifted(a, b, k);
  }
}
