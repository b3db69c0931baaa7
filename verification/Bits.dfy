/** Unsigned words as numbers, read and combined bit by bit. */
module Bits {
  function Pow2(n: nat): (p: nat)
    ensures p > 0
  {
    if n == 0 then 1 else 2 * Pow2(n - 1)
  }

  predicate Bit(m: nat, i: nat)
    decreases i
  {
    if i == 0 then m % 2 == 1 else Bit(m / 2, i - 1)
  }

  function Or(a: nat, b: nat): nat
    decreases a + b
  {
    if a == 0 && b == 0 then 0
    else (if a % 2 == 1 || b % 2 == 1 then 1 else 0) + 2 * Or(a / 2, b / 2)
  }

  function And(a: nat, b: nat): nat
    decreases a
  {
    if a == 0 then 0
    else (if a % 2 == 1 && b % 2 == 1 then 1 else 0) + 2 * And(a / 2, b / 2)
  }

  /** A narrowing cast keeps the low `width` bits. */
  function Narrow(m: nat, width: nat): nat {
    m % Pow2(width)
  }

  lemma {:induction false} ZeroBits(i: nat)
    ensures !Bit(0, i)
  {
    if i > 0 {
      ZeroBits(i - 1);
    }
  }

  lemma {:induction false} OrBits(a: nat, b: nat, i: nat)
    ensures Bit(Or(a, b), i) <==> Bit(a, i) || Bit(b, i)
    decreases i
  {
    hide Or;
    HalfOr(a, b);
    if i > 0 {
      OrBits(a / 2, b / 2, i - 1);
    }
  }

  lemma HalfOr(a: nat, b: nat)
    ensures Or(a, b) / 2 == Or(a / 2, b / 2) && (Or(a, b) % 2 == 1 <==> a % 2 == 1 || b % 2 == 1)
  {
    var half, low := Or(a / 2, b / 2), if a % 2 == 1 || b % 2 == 1 then 1 else 0;
    if a != 0 || b != 0 {
      assert Or(a, b) == low + 2 * half;
    }
  }

  lemma {:induction false} Pow2Bits(n: nat, i: nat)
    ensures Bit(Pow2(n), i) <==> i == n
    decreases i
  {
    if n == 0 {
      if i > 0 {
        ZeroBits(i - 1);
      }
    } else {
      assert Pow2(n) / 2 == Pow2(n - 1) && Pow2(n) % 2 == 0;
      if i > 0 {
        Pow2Bits(n - 1, i - 1);
      }
    }
  }

  /** Testing a word against a single bit. */
  lemma {:induction false} AndTestsBit(m: nat, n: nat)
    ensures And(m, Pow2(n)) != 0 <==> Bit(m, n)
    decreases n
  {
    if m == 0 {
      ZeroBits(n);
    } else if n == 0 {
      AndZero(m / 2);
    } else {
      assert Pow2(n) / 2 == Pow2(n - 1) && Pow2(n) % 2 == 0;
      AndTestsBit(m / 2, n - 1);
    }
  }

  lemma {:induction false} AndZero(m: nat)
    ensures And(m, 0) == 0
  {
    if m > 0 {
      AndZero(m / 2);
    }
  }

  lemma {:induction false} SomeBit(m: nat, i: nat)
    requires Bit(m, i)
    ensures m != 0
  {
    if m == 0 {
      ZeroBits(i);
    }
  }

  /** A narrowing cast keeps exactly the bits below its width. */
  lemma {:induction false} NarrowBits(m: nat, width: nat, i: nat)
    ensures Bit(Narrow(m, width), i) <==> i < width && Bit(m, i)
    decreases width
  {
    if width == 0 {
      ZeroBits(i);
    } else {
      HalfNarrow(m, width);
      if i > 0 {
        NarrowBits(m / 2, width - 1, i - 1);
      }
    }
  }

  lemma HalfNarrow(m: nat, width: nat)
    requires width > 0
    ensures Narrow(m, width) / 2 == Narrow(m / 2, width - 1) && Narrow(m, width) % 2 == m % 2
  {
    var p := Pow2(width - 1);
    assert Pow2(width) == 2 * p;
    var q, r := (m / 2) / p, (m / 2) % p;
    assert m / 2 == q * p + r;
    assert m == 2 * (q * p + r) + m % 2;
    assert m == q * (2 * p) + (2 * r + m % 2);
    RemainderIs(m, 2 * p, q, 2 * r + m % 2);
  }

  lemma RemainderIs(m: nat, d: nat, q: nat, r: nat)
    requires d > 0 && m == q * d + r && r < d
    ensures m % d == r
  {
    var t := m / d;
    assert t * d + m % d == m;
    MulStep(t, q, d);
    MulStep(q, t, d);
  }

  lemma MulStep(a: nat, b: nat, d: nat)
    ensures a < b ==> a * d + d <= b * d
  {
    if a < b {
      assert b * d == (b - 1) * d + d;
      MulStep(a, b - 1, d);
    }
  }
}
