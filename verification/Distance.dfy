/** The distance between DHT public keys: the recursion on numbers of
    `distance.hs` and the byte loops of `publicKey.ml`.

    The recursion is on the naturals: it does not end on a negative `Integer`,
    and the keys it is used for are not negative. */
module Distance {
  import opened Bits
  import opened Wrappers

  const PUBLIC_KEY_SIZE := 32

  // ----- distance.hs -----

  function KadDist(a: nat, b: nat): nat {
    XorNat(a, b);
    Xor(a, b)
  }

  function Int8(x: int): int {
    if x >= 128 then -(256 - x) else x
  }

  function Dist1(byteA: int, byteB: int): nat {
    Abs(Xor(Int8(byteA), Int8(byteB)))
  }

  /** `.&. 0xff` is `% 256`, `shiftR 8` is `/ 256` and `shiftL 8` is `* 256`. */
  function ToxDist(a: nat, b: nat): nat
    decreases a + b
  {
    if a == 0 && b == 0 then 0
    else Or(Dist1(a % 256, b % 256), ToxDist(a / 256, b / 256) * 256)
  }

  // ----- one byte -----

  /** What `Int8` and `Abs` do to an exclusive or: bytes above 128 fold back. */
  function FoldByte(v: Byte): Byte {
    if v < 128 then v else 256 - v
  }

  lemma {:induction false} Powers()
    ensures Pow2(7) == 128 && Pow2(8) == 256
  {
    assert Pow2(3) == 8;
    assert Pow2(5) == 32;
  }

  lemma {:induction false} XorByte(a: Byte, b: Byte)
    ensures 0 <= Xor(a, b) < 256
    ensures Xor(a, b) >= 128 <==> (a >= 128) != (b >= 128)
  {
    Powers();
    XorBlock(0, a, 0, b, 8);
    var h, k := if a >= 128 then 1 else 0, if b >= 128 then 1 else 0;
    XorBlock(h, a - 128 * h, k, b - 128 * k, 7);
    assert Xor(1, 1) == 0 && Xor(1, 0) == 1 && Xor(0, 1) == 1;
  }

  /** The signed-byte exclusive or is the unsigned one, folded. */
  lemma {:induction false} Dist1Folds(a: Byte, b: Byte)
    ensures 0 <= Xor(a, b) < 256
    ensures Dist1(a, b) == FoldByte(Xor(a, b)) <= 128
  {
    Powers();
    XorByte(a, b);
    var h, k := if a >= 128 then -1 else 0, if b >= 128 then -1 else 0;
    XorBlock(h, a, k, b, 8);
  }

  lemma {:induction false} Dist1Metric(a: Byte, b: Byte, c: Byte)
    ensures Dist1(a, b) == 0 <==> a == b
    ensures Dist1(a, b) == Dist1(b, a)
    ensures Dist1(a, c) <= Dist1(a, b) + Dist1(b, c)
  {
    XorZero(Int8(a), Int8(b));
    XorSymmetric(Int8(a), Int8(b));
    XorChain(Int8(a), Int8(b), Int8(c));
    XorMagnitude(Xor(Int8(a), Int8(b)), Xor(Int8(b), Int8(c)));
  }

  // ----- whole numbers -----

  /** The bitwise or of a digit and the shifted rest is their sum: one digit of
      the result in base 256 per byte, with no carry. */
  lemma {:induction false} ToxDistStep(a: nat, b: nat)
    ensures ToxDist(a, b) == Dist1(a % 256, b % 256) + 256 * ToxDist(a / 256, b / 256)
    ensures Dist1(a % 256, b % 256) <= 128
  {
    Powers();
    Dist1Folds(a % 256, b % 256);
    OrDisjoint(Dist1(a % 256, b % 256), ToxDist(a / 256, b / 256), 8);
  }

  lemma {:induction false} KadDistStep(a: nat, b: nat)
    ensures 0 <= Xor(a % 256, b % 256) < 256
    ensures KadDist(a, b) == Xor(a % 256, b % 256) + 256 * KadDist(a / 256, b / 256)
  {
    Powers();
    var h, r, k, t := a / 256, a % 256, b / 256, b % 256;
    XorBlock(h, r, k, t, 8);
    assert a == h * 256 + r && b == k * 256 + t;
    XorNat(h, k);
  }

  lemma {:induction false} KadDistMetric(a: nat, b: nat, c: nat)
    ensures KadDist(a, b) == 0 <==> a == b
    ensures KadDist(a, b) == KadDist(b, a)
    ensures KadDist(a, c) <= KadDist(a, b) + KadDist(b, c)
  {
    XorZero(a, b);
    XorSymmetric(a, b);
    XorChain(a, b, c);
    XorNat(KadDist(a, b), KadDist(b, c));
  }

  lemma {:induction false} ToxDistIdentity(a: nat, b: nat)
    ensures ToxDist(a, b) == 0 <==> a == b
    decreases a + b
  {
    if a != 0 || b != 0 {
      ToxDistStep(a, b);
      ToxDistIdentity(a / 256, b / 256);
      Dist1Metric(a % 256, b % 256, 0);
    }
  }

  lemma {:induction false} ToxDistSymmetric(a: nat, b: nat)
    ensures ToxDist(a, b) == ToxDist(b, a)
    decreases a + b
  {
    if a != 0 || b != 0 {
      ToxDistStep(a, b);
      ToxDistStep(b, a);
      ToxDistSymmetric(a / 256, b / 256);
      Dist1Metric(a % 256, b % 256, 0);
    }
  }

  lemma {:induction false} ToxDistTriangle(a: nat, b: nat, c: nat)
    ensures ToxDist(a, c) <= ToxDist(a, b) + ToxDist(b, c)
    decreases a + b + c
  {
    if a != 0 || b != 0 || c != 0 {
      ToxDistStep(a, b);
      ToxDistStep(b, c);
      ToxDistStep(a, c);
      ToxDistTriangle(a / 256, b / 256, c / 256);
      Dist1Metric(a % 256, b % 256, c % 256);
    }
  }

  lemma {:induction false} ToxDistMetric(a: nat, b: nat, c: nat)
    ensures ToxDist(a, b) == 0 <==> a == b
    ensures ToxDist(a, b) == ToxDist(b, a)
    ensures ToxDist(a, c) <= ToxDist(a, b) + ToxDist(b, c)
  {
    ToxDistIdentity(a, b);
    ToxDistSymmetric(a, b);
    ToxDistTriangle(a, b, c);
  }

  /** The Tox distance never exceeds the Kademlia one. */
  lemma {:induction false} ToxDistBelowKadDist(a: nat, b: nat)
    ensures ToxDist(a, b) <= KadDist(a, b)
    decreases a + b
  {
    if a != 0 || b != 0 {
      ToxDistStep(a, b);
      KadDistStep(a, b);
      ToxDistBelowKadDist(a / 256, b / 256);
      Dist1Folds(a % 256, b % 256);
    }
  }
}
