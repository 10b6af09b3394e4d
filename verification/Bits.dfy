/** Bitwise operations on unbounded two's-complement integers, as Haskell's
    `Data.Bits` gives them for `Integer` and OCaml's `lxor` for small `int`s.

    A negative number has infinitely many one bits on the left, so `-1` is the
    all-ones word; halving and parity are the floor ones, which is what Dafny's
    `/` and `%` are for a positive divisor. */
module Bits {

  function Abs(x: int): nat {
    if x < 0 then -x else x
  }

  /** Exclusive or, bit by bit from the right. */
  function Xor(x: int, y: int): int
    decreases Abs(x) + Abs(y)
  {
    if (x == 0 || x == -1) && (y == 0 || y == -1) then
      if x == y then 0 else -1
    else
      2 * Xor(x / 2, y / 2) + (x % 2 + y % 2) % 2
  }

  /** Inclusive or of two non-negative numbers, bit by bit from the right. */
  function Or(x: nat, y: nat): nat
    decreases x + y
  {
    if x == 0 && y == 0 then 0
    else 2 * Or(x / 2, y / 2) + (if x % 2 == 1 || y % 2 == 1 then 1 else 0)
  }

  function Pow2(n: nat): nat {
    if n == 0 then 1 else 2 * Pow2(n - 1)
  }

  /** Appending one bit to each argument appends their difference to the result;
      this holds also at the fixpoints 0 and -1. */
  lemma {:induction false} XorBit(h: int, b: int, k: int, c: int)
    requires 0 <= b <= 1 && 0 <= c <= 1
    ensures Xor(2 * h + b, 2 * k + c) == 2 * Xor(h, k) + (if b == c then 0 else 1)
  {
    var x, y := 2 * h + b, 2 * k + c;
    assert x / 2 == h && x % 2 == b && y / 2 == k && y % 2 == c;
  }

  lemma {:induction false} XorSymmetric(x: int, y: int)
    ensures Xor(x, y) == Xor(y, x)
    decreases Abs(x) + Abs(y)
  {
    if (x == 0 || x == -1) && (y == 0 || y == -1) {
    } else {
      XorSymmetric(x / 2, y / 2);
    }
  }

  lemma {:induction false} XorZero(x: int, y: int)
    ensures Xor(x, y) == 0 <==> x == y
    decreases Abs(x) + Abs(y)
  {
    if (x == 0 || x == -1) && (y == 0 || y == -1) {
    } else {
      XorZero(x / 2, y / 2);
      assert x == 2 * (x / 2) + x % 2 && y == 2 * (y / 2) + y % 2;
    }
  }

  /** The middle term cancels: walking from a to b to c is walking from a to c. */
  lemma {:induction false} XorChain(a: int, b: int, c: int)
    ensures Xor(Xor(a, b), Xor(b, c)) == Xor(a, c)
    decreases Abs(a) + Abs(b) + Abs(c)
  {
    if (a == 0 || a == -1) && (b == 0 || b == -1) && (c == 0 || c == -1) {
    } else {
      Halve(a);
      Halve(b);
      Halve(c);
      XorChain(a / 2, b / 2, c / 2);
      XorChainStep(a, a / 2, b, b / 2, c, c / 2);
    }
  }

  lemma {:induction false} XorChainStep(a: int, h: int, b: int, k: int, c: int, l: int)
    requires 0 <= a - 2 * h <= 1 && 0 <= b - 2 * k <= 1 && 0 <= c - 2 * l <= 1
    requires Xor(Xor(h, k), Xor(k, l)) == Xor(h, l)
    ensures Xor(Xor(a, b), Xor(b, c)) == Xor(a, c)
  {
    XorChainBit(h, a - 2 * h, k, b - 2 * k, l, c - 2 * l);
  }

  lemma {:induction false} Halve(x: int)
    ensures 0 <= x - 2 * (x / 2) <= 1
    ensures Abs(x / 2) < Abs(x) || x == 0 || x == -1 == x / 2
  {
  }

  lemma {:induction false} XorChainBit(h: int, a: int, k: int, b: int, l: int, c: int)
    requires 0 <= a <= 1 && 0 <= b <= 1 && 0 <= c <= 1
    requires Xor(Xor(h, k), Xor(k, l)) == Xor(h, l)
    ensures Xor(Xor(2 * h + a, 2 * k + b), Xor(2 * k + b, 2 * l + c)) == Xor(2 * h + a, 2 * l + c)
  {
    XorBit(h, a, k, b);
    XorBit(k, b, l, c);
    XorBit(h, a, l, c);
    var p, q := if a == b then 0 else 1, if b == c then 0 else 1;
    XorBit(Xor(h, k), p, Xor(k, l), q);
  }

  /** The complement of x in two's complement. */
  function Not(x: int): int {
    -1 - x
  }

  /** Complementing one argument complements the result. */
  lemma {:induction false} XorNot(x: int, y: int)
    ensures Xor(Not(x), y) == Not(Xor(x, y))
    decreases Abs(x) + Abs(y)
  {
    if (x == 0 || x == -1) && (y == 0 || y == -1) {
    } else {
      XorNot(x / 2, y / 2);
      XorNotBit(x / 2, x % 2, y / 2, y % 2);
    }
  }

  lemma {:induction false} XorNotBit(h: int, b: int, k: int, c: int)
    requires 0 <= b <= 1 && 0 <= c <= 1 && Xor(Not(h), k) == Not(Xor(h, k))
    ensures Xor(Not(2 * h + b), 2 * k + c) == Not(Xor(2 * h + b, 2 * k + c))
  {
    XorBit(h, b, k, c);
    XorBit(Not(h), 1 - b, k, c);
  }

  lemma {:induction false} XorNat(x: nat, y: nat)
    ensures 0 <= Xor(x, y) <= x + y
    decreases x + y
  {
    if x == 0 && y == 0 {
    } else {
      XorBit(x / 2, x % 2, y / 2, y % 2);
      XorNat(x / 2, y / 2);
    }
  }

  /** With the sign folded away, exclusive or is that of the folded arguments. */
  lemma {:induction false} XorFold(x: int, y: int)
    ensures Xor(Fold(x), Fold(y)) == Fold(Xor(x, y))
  {
    var u, v := Fold(x), Fold(y);
    XorNat(u, v);
    if x < 0 { XorNot(u, v); }
    if y < 0 {
      XorSymmetric(u, v);
      XorSymmetric(x, v);
      XorNot(v, x);
      XorSymmetric(y, x);
    }
  }

  function Fold(x: int): nat {
    if x < 0 then Not(x) else x
  }

  /** The magnitude of a two's-complement exclusive or is at most the sum of the
      magnitudes, whatever the signs. */
  lemma {:induction false} XorMagnitude(x: int, y: int)
    ensures Abs(Xor(x, y)) <= Abs(x) + Abs(y)
  {
    XorFold(x, y);
    XorNat(Fold(x), Fold(y));
    XorSign(x, y);
  }

  lemma {:induction false} XorSign(x: int, y: int)
    ensures Xor(x, y) < 0 <==> (x < 0) != (y < 0)
    decreases Abs(x) + Abs(y)
  {
    if (x == 0 || x == -1) && (y == 0 || y == -1) {
    } else {
      XorBit(x / 2, x % 2, y / 2, y % 2);
      XorSign(x / 2, y / 2);
    }
  }

  /** Exclusive or works block by block: the low n bits and the rest do not mix. */
  lemma {:induction false} XorBlock(h: int, r: nat, k: int, s: nat, n: nat)
    requires r < Pow2(n) && s < Pow2(n)
    ensures Xor(h * Pow2(n) + r, k * Pow2(n) + s) == Xor(h, k) * Pow2(n) + Xor(r, s)
    ensures 0 <= Xor(r, s) < Pow2(n)
  {
    if n > 0 {
      XorBlock(h, r / 2, k, s / 2, n - 1);
      XorTwice(h, r, k, s, Pow2(n - 1));
    }
  }

  /** A block of twice the size. */
  lemma {:induction false} XorTwice(h: int, r: nat, k: int, s: nat, p: nat)
    requires Xor(h * p + r / 2, k * p + s / 2) == Xor(h, k) * p + Xor(r / 2, s / 2)
    requires 0 <= Xor(r / 2, s / 2) < p
    ensures Xor(h * (2 * p) + r, k * (2 * p) + s) == Xor(h, k) * (2 * p) + Xor(r, s)
    ensures 0 <= Xor(r, s) < 2 * p
  {
    Double(h, p);
    Double(k, p);
    Double(Xor(h, k), p);
    AppendBits(h * p, r, k * p, s, Xor(h, k) * p);
    XorBit(r / 2, r % 2, s / 2, s % 2);
  }

  /** The last bits of the low blocks, with the high parts and their difference given. */
  lemma {:induction false} AppendBits(x: int, r: nat, y: int, s: nat, z: int)
    requires Xor(x + r / 2, y + s / 2) == z + Xor(r / 2, s / 2)
    ensures Xor(2 * x + r, 2 * y + s) == 2 * z + Xor(r, s)
  {
    XorBit(x + r / 2, r % 2, y + s / 2, s % 2);
    XorBit(r / 2, r % 2, s / 2, s % 2);
  }

  lemma {:induction false} Double(h: int, p: int)
    ensures h * (2 * p) == 2 * (h * p)
  {
  }

  /** A number below 2^n and a multiple of 2^n have no bits in common. */
  lemma {:induction false} OrDisjoint(x: nat, y: nat, n: nat)
    requires x < Pow2(n)
    ensures Or(x, y * Pow2(n)) == x + y * Pow2(n)
    decreases n
  {
    if n == 0 {
      OrZero(y);
    } else {
      var p := Pow2(n - 1);
      var z := y * p;
      Double(y, p);
      assert x / 2 < p;
      OrDisjoint(x / 2, y, n - 1);
      OrHalf(x, z);
    }
  }

  lemma {:induction false} OrHalf(x: nat, z: nat)
    ensures Or(x, 2 * z) == 2 * Or(x / 2, z) + x % 2
  {
  }

  lemma {:induction false} OrZero(y: nat)
    ensures Or(0, y) == y
  {
    if y > 0 {
      OrZero(y / 2);
    }
  }
}
