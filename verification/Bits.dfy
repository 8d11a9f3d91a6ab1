// Powers of two and the bitwise and of C, on the numbers that words stand for.

module Bits {

  function Pow2(n: nat): (p: nat)
    ensures p >= 1
  {
    if n == 0 then 1 else 2 * Pow2(n - 1)
  }

  // The C operator `a & b`, bit by bit.
  function And(a: nat, b: nat): nat {
    if a == 0 || b == 0 then 0 else 2 * And(a / 2, b / 2) + (a % 2) * (b % 2)
  }

  function Bit(a: nat, i: nat): nat {
    (a / Pow2(i)) % 2
  }

  lemma MulAtLeast(k: int, d: nat)
    requires k >= 1
    ensures k * d >= d
  {
  }

  lemma MulMinus(x: int, y: int, d: int)
    ensures (x - y) * d == x * d - y * d
  {
  }

  lemma QuotientsAgree(d: nat, q: int, r: nat, q': int, r': nat)
    requires q * d + r == q' * d + r' && r < d && r' < d
    ensures q <= q'
  {
    MulMinus(q, q', d);
    if q > q' { MulAtLeast(q - q', d); }
  }

  lemma DivUnique(a: int, d: nat, q: int, r: nat)
    requires d >= 1 && a == q * d + r && r < d
    ensures a / d == q && a % d == r
  {
    assert a == (a / d) * d + a % d;
    QuotientsAgree(d, q, r, a / d, a % d);
    QuotientsAgree(d, a / d, a % d, q, r);
  }

  lemma DivTwice(a: nat, p: nat)
    requires p >= 1
    ensures a / (2 * p) == (a / 2) / p
    ensures a % (2 * p) == 2 * ((a / 2) % p) + a % 2
  {
    var q, r := (a / 2) / p, (a / 2) % p;
    assert a / 2 == q * p + r;
    assert a == q * (2 * p) + (2 * r + a % 2);
    DivUnique(a, 2 * p, q, 2 * r + a % 2);
  }

  lemma HalfBit(a: nat, i: nat)
    requires i > 0
    ensures Bit(a, i) == Bit(a / 2, i - 1)
  {
    var p := Pow2(i - 1);
    DivTwice(a, p);
  }

  lemma {:induction false} AndIsBitwise(a: nat, b: nat, i: nat)
    ensures Bit(And(a, b), i) == Bit(a, i) * Bit(b, i)
    decreases i
  {
    if a == 0 || b == 0 {
      assert 0 / Pow2(i) == 0;
    } else if i == 0 {
    } else {
      HalfBit(a, i);
      HalfBit(b, i);
      HalfBit(And(a, b), i);
      var bits := (a % 2) * (b % 2);
      assert bits < 2;
      assert And(a, b) / 2 == And(a / 2, b / 2);
      AndIsBitwise(a / 2, b / 2, i - 1);
    }
  }

  lemma {:induction false} AndOdd(x: nat, m: nat, odd: nat)
    requires odd == 2 * m + 1
    ensures And(x, odd) == 2 * And(x / 2, m) + x % 2
  {
    assert odd / 2 == m && odd % 2 == 1;
  }

  lemma ModTwice(x: nat, p: nat, twice: nat)
    requires p >= 1 && twice == 2 * p
    ensures x % twice == 2 * ((x / 2) % p) + x % 2
  {
    DivTwice(x, p);
  }

  // Masking with 2^k - 1 is the remainder modulo 2^k.
  lemma {:induction false} AndMask(x: nat, k: nat)
    ensures And(x, Pow2(k) - 1) == x % Pow2(k)
    decreases k
  {
    if k == 0 {
      assert x % 1 == 0;
    } else {
      var p := Pow2(k - 1);
      AndMask(x / 2, k - 1);
      AndOdd(x, p - 1, Pow2(k) - 1);
      ModTwice(x, p, Pow2(k));
    }
  }

  // Masking with a single bit tests that bit.
  lemma {:induction false} AndPow2(x: nat, k: nat)
    ensures And(x, Pow2(k)) == Bit(x, k) * Pow2(k)
    decreases k
  {
    if k == 0 {
      assert And(x / 2, 0) == 0;
    } else if x == 0 {
      assert 0 / Pow2(k) == 0;
    } else {
      HalfBit(x, k);
      AndPow2(x / 2, k - 1);
      assert Pow2(k) / 2 == Pow2(k - 1) && Pow2(k) % 2 == 0;
      var b, p := Bit(x, k), Pow2(k - 1);
      assert 2 * (b * p) == b * (2 * p);
    }
  }

  lemma {:induction false} Pow2Increases(m: nat, n: nat)
    requires m < n
    ensures 2 * Pow2(m) <= Pow2(n)
    decreases n
  {
    if m + 1 < n {
      Pow2Increases(m, n - 1);
    }
  }

  lemma {:induction false} Pow2Sum(m: nat, n: nat)
    ensures Pow2(m + n) == Pow2(m) * Pow2(n)
    decreases n
  {
    if n > 0 {
      Pow2Sum(m, n - 1);
      assert 2 * (Pow2(m) * Pow2(n - 1)) == Pow2(m) * (2 * Pow2(n - 1));
    }
  }

  // ---- The C operators `a | b` and `~a`, and their bits ----

  function Or(a: nat, b: nat): nat {
    if a == 0 && b == 0 then 0 else 2 * Or(a / 2, b / 2) + (if a % 2 + b % 2 > 0 then 1 else 0)
  }

  // The complement of an n-bit word.
  function Not(a: nat, n: nat): nat
    requires a < Pow2(n)
  {
    Pow2(n) - 1 - a
  }

  lemma ZeroBit(i: nat)
    ensures Bit(0, i) == 0
  {
    DivUnique(0, Pow2(i), 0, 0);
  }

  lemma {:induction false} OrIsBitwise(a: nat, b: nat, i: nat)
    ensures Bit(Or(a, b), i) == if Bit(a, i) + Bit(b, i) > 0 then 1 else 0
    decreases i
  {
    if a == 0 && b == 0 {
      ZeroBit(i);
    } else if i > 0 {
      HalfBit(a, i);
      HalfBit(b, i);
      HalfBit(Or(a, b), i);
      assert Or(a, b) / 2 == Or(a / 2, b / 2);
      OrIsBitwise(a / 2, b / 2, i - 1);
    }
  }

  lemma {:induction false} NotIsBitwise(a: nat, n: nat, i: nat)
    requires a < Pow2(n) && i < n
    ensures Bit(Not(a, n), i) == 1 - Bit(a, i)
    decreases i
  {
    if i > 0 {
      HalfBit(a, i);
      HalfBit(Not(a, n), i);
      assert Not(a, n) / 2 == Not(a / 2, n - 1);
      NotIsBitwise(a / 2, n - 1, i - 1);
    }
  }

  lemma {:induction false} PowerBit(k: nat, i: nat)
    ensures Bit(Pow2(k), i) == if i == k then 1 else 0
    decreases i
  {
    if i == 0 {
    } else if k == 0 {
      HalfBit(1, i);
      ZeroBit(i - 1);
    } else {
      HalfBit(Pow2(k), i);
      PowerBit(k - 1, i - 1);
    }
  }

  lemma {:induction false} AndBelow(a: nat, b: nat)
    ensures And(a, b) <= a
    decreases a
  {
    if a != 0 && b != 0 {
      AndBelow(a / 2, b / 2);
    }
  }

  lemma {:induction false} OrBelow(a: nat, b: nat, n: nat)
    requires a < Pow2(n) && b < Pow2(n)
    ensures Or(a, b) < Pow2(n)
    decreases n
  {
    if n > 0 {
      OrBelow(a / 2, b / 2, n - 1);
    }
  }

  // `(w & ~(1 << i)) | ((1 << i) * val)` sets bit i to val and leaves every other bit.
  lemma {:induction false} PutBits(w: nat, i: nat, n: nat, val: nat, j: nat)
    requires w < Pow2(n) && i < n && j < n && val <= 1 && Pow2(i) < Pow2(n)
    ensures Bit(Or(And(w, Not(Pow2(i), n)), Pow2(i) * val), j) == if i == j then val else Bit(w, j)
  {
    AndIsBitwise(w, Not(Pow2(i), n), j);
    NotIsBitwise(Pow2(i), n, j);
    PowerBit(i, j);
    ZeroBit(j);
    assert Pow2(i) * val == if val == 0 then 0 else Pow2(i);
    OrIsBitwise(And(w, Not(Pow2(i), n)), Pow2(i) * val, j);
  }
}
