/** The byte loops of `publicKey.ml` over the 32 bytes of a key: they compute the
    recursion of `distance.hs`, comparing their results byte by byte is comparing
    numbers, and how many keys share one distance. */
module KeyDistance {
  import opened Bits
  import opened Distance
  import opened Numbers
  import opened Wrappers

  function ToxBytes(a: Bytes, b: Bytes): Bytes
    requires |a| == |b|
  {
    seq(|a|, i requires 0 <= i < |a| => Dist1Byte(a[i], b[i]))
  }

  function Dist1Byte(x: Byte, y: Byte): Byte {
    Dist1Folds(x, y);
    Dist1(x, y)
  }

  function KadBytes(a: Bytes, b: Bytes): Bytes
    requires |a| == |b|
  {
    seq(|a|, i requires 0 <= i < |a| => XorOfBytes(a[i], b[i]))
  }

  function XorOfBytes(x: Byte, y: Byte): Byte {
    XorByte(x, y);
    Xor(x, y)
  }

  /** Read big-endian, the bytes of the in-place loop are the recursive distance. */
  lemma {:induction false} ToxBytesRefine(a: Bytes, b: Bytes)
    requires |a| == |b|
    ensures BigEndian(ToxBytes(a, b)) == ToxDist(BigEndian(a), BigEndian(b))
  {
    if a != [] {
      var n := |a| - 1;
      ToxBytesRefine(a[..n], b[..n]);
      assert ToxBytes(a, b)[..n] == ToxBytes(a[..n], b[..n]);
      ToxDistStep(BigEndian(a), BigEndian(b));
      LastByte(a);
      LastByte(b);
    }
  }

  lemma {:induction false} KadBytesRefine(a: Bytes, b: Bytes)
    requires |a| == |b|
    ensures BigEndian(KadBytes(a, b)) == KadDist(BigEndian(a), BigEndian(b))
  {
    if a != [] {
      var n := |a| - 1;
      KadBytesRefine(a[..n], b[..n]);
      assert KadBytes(a, b)[..n] == KadBytes(a[..n], b[..n]);
      KadDistStep(BigEndian(a), BigEndian(b));
      LastByte(a);
      LastByte(b);
    }
  }

  // ----- the loops -----

  method ToxDistance(dist: array<Byte>, a: Bytes, b: Bytes)
    requires dist.Length == |a| == |b| == PUBLIC_KEY_SIZE
    modifies dist
    ensures forall i :: 0 <= i < PUBLIC_KEY_SIZE ==> dist[i] <= 128
    ensures BigEndian(dist[..]) == ToxDist(BigEndian(a), BigEndian(b))
  {
    for i := 0 to PUBLIC_KEY_SIZE
      invariant forall k :: 0 <= k < i ==> dist[k] == Dist1(a[k], b[k]) <= 128
    {
      var d := Abs(Xor(Int8(a[i]), Int8(b[i])));
      Dist1Folds(a[i], b[i]);
      assert 0 <= d < 256;  // Char.of_int_exn
      dist[i] := d;
    }
    assert dist[..] == ToxBytes(a, b);
    ToxBytesRefine(a, b);
  }

  method KadDistance(dist: array<Byte>, a: Bytes, b: Bytes)
    requires dist.Length == |a| == |b| == PUBLIC_KEY_SIZE
    modifies dist
    ensures BigEndian(dist[..]) == KadDist(BigEndian(a), BigEndian(b))
  {
    for i := 0 to PUBLIC_KEY_SIZE
      invariant forall k :: 0 <= k < i ==> dist[k] == Xor(a[k], b[k])
    {
      var d := Xor(a[i], b[i]);
      XorByte(a[i], b[i]);
      assert 0 <= d < 256;  // Char.of_int_exn
      dist[i] := d;
    }
    assert dist[..] == KadBytes(a, b);
    KadBytesRefine(a, b);
  }

  /** `distance`, with the source's compile-time choice as a parameter; the source
      fixes it to false. */
  method KeyDistance(useKad: bool, a: Bytes, b: Bytes) returns (r: Bytes)
    requires |a| == |b| == PUBLIC_KEY_SIZE
    ensures |r| == PUBLIC_KEY_SIZE
    ensures BigEndian(r) == if useKad then KadDist(BigEndian(a), BigEndian(b))
                            else ToxDist(BigEndian(a), BigEndian(b))
  {
    var dist := new Byte[PUBLIC_KEY_SIZE];
    if useKad {
      KadDistance(dist, a, b);
    } else {
      ToxDistance(dist, a, b);
    }
    r := dist[..];
  }

  // ----- comparing distances byte by byte -----

  predicate BytesLess(s: Bytes, t: Bytes)
    requires |s| == |t|
  {
    s != [] && (s[0] < t[0] || (s[0] == t[0] && BytesLess(s[1..], t[1..])))
  }

  lemma {:induction false} FirstByte(s: Bytes)
    requires s != []
    ensures BigEndian(s) == s[0] * Pow256(|s| - 1) + BigEndian(s[1..])
    ensures BigEndian(s[1..]) < Pow256(|s| - 1)
  {
    var n := |s| - 1;
    if n > 0 {
      var t := s[..n];
      FirstByte(t);
      assert t[1..] == s[1..][..n - 1];
      assert BigEndian(s[1..]) == BigEndian(t[1..]) * 256 + s[n];
      ScaleSum(s[0], Pow256(n - 1), BigEndian(t[1..]));
    }
  }

  lemma {:induction false} ScaleSum(x: int, p: int, y: int)
    ensures (x * p + y) * 256 == x * (256 * p) + y * 256
  {
  }

  /** The order `compare` gives to distances of equal length is the numeric one. */
  lemma {:induction false} BytesLessNumeric(s: Bytes, t: Bytes)
    requires |s| == |t|
    ensures BytesLess(s, t) <==> BigEndian(s) < BigEndian(t)
    ensures s == t <==> BigEndian(s) == BigEndian(t)
  {
    if s != [] {
      FirstByte(s);
      FirstByte(t);
      BytesLessNumeric(s[1..], t[1..]);
      var p := Pow256(|s| - 1);
      if s[0] < t[0] {
        Below(s[0], t[0], p);
      } else if t[0] < s[0] {
        Below(t[0], s[0], p);
      } else {
        assert s == [s[0]] + s[1..] && t == [t[0]] + t[1..];
      }
    }
  }

  lemma {:induction false} Below(x: int, y: int, p: nat)
    requires x < y
    ensures x * p + p <= y * p
    decreases y - x
  {
    assert (x + 1) * p == x * p + p;
    if x + 1 < y {
      Below(x + 1, y, p);
    }
  }

  // ----- how many keys lie at one distance -----

  /** The bytes at distance e from x. */
  function ByteAt(x: Byte, e: Byte): set<Byte> {
    if e > 128 then {}
    else if e == 0 || e == 128 then {XorOfBytes(x, e)}
    else {XorOfBytes(x, e), XorOfBytes(x, 256 - e)}
  }

  lemma {:induction false} XorFromZero(x: nat)
    ensures Xor(0, x) == x
  {
    if x > 0 { XorFromZero(x / 2); }
  }

  lemma {:induction false} XorUndo(x: nat, e: nat)
    ensures Xor(x, Xor(x, e)) == e
  {
    XorChain(x, 0, Xor(x, e));
    XorSymmetric(x, 0);
    XorFromZero(x);
    XorNat(x, e);
    XorFromZero(Xor(x, e));
    XorChain(0, x, e);
    XorFromZero(e);
    XorSymmetric(x, e);
    XorSymmetric(Xor(x, e), x);
    XorChain(e, x, 0);
    XorSymmetric(e, 0);
    XorSymmetric(0, x);
  }

  lemma {:induction false} ByteAtExact(x: Byte, y: Byte, e: Byte)
    ensures y in ByteAt(x, e) <==> Dist1(x, y) == e
    ensures |ByteAt(x, e)| == if e > 128 then 0 else if e == 0 || e == 128 then 1 else 2
  {
    Dist1Folds(x, y);
    XorUndo(x, y);
    XorUndo(x, e);
    if 0 < e <= 128 {
      XorUndo(x, 256 - e);
    }
  }

  /** The keys at distance d from key a. */
  function KeysAt(a: Bytes, d: Bytes): set<Bytes>
    requires |a| == |d|
  {
    if a == [] then {[]}
    else
      var n := |a| - 1;
      set p, y | p in KeysAt(a[..n], d[..n]) && y in ByteAt(a[n], d[n]) :: p + [y]
  }

  lemma {:induction false} KeysAtExact(a: Bytes, b: Bytes, d: Bytes)
    requires |a| == |d|
    ensures b in KeysAt(a, d) <==> |b| == |a| && ToxBytes(a, b) == d
  {
    if a == [] {
    } else {
      var n := |a| - 1;
      if b != [] {
        var p, y := b[..|b| - 1], b[|b| - 1];
        assert b == p + [y];
        KeysAtExact(a[..n], p, d[..n]);
        ByteAtExact(a[n], y, d[n]);
        if b in KeysAt(a, d) {
          var p', y' :| p' in KeysAt(a[..n], d[..n]) && y' in ByteAt(a[n], d[n]) && b == p' + [y'];
          assert p' == p && y' == y;
        }
        if |b| == |a| {
          assert ToxBytes(a, b) == ToxBytes(a[..n], p) + [Dist1(a[n], y)];
          assert d == d[..n] + [d[n]];
        }
      }
    }
  }

  /** The number of distance bytes that two different key bytes can produce. */
  function Ambiguous(d: Bytes): nat {
    if d == [] then 0
    else Ambiguous(d[..|d| - 1]) + if d[|d| - 1] == 0 || d[|d| - 1] == 128 then 0 else 1
  }

  function Append(s: set<Bytes>, y: Byte): set<Bytes> {
    set p | p in s :: p + [y]
  }

  lemma {:induction false} AppendInjective(p: Bytes, q: Bytes, y: Byte, z: Byte)
    ensures p + [y] == q + [z] ==> p == q && y == z
  {
    if p + [y] == q + [z] {
      assert (p + [y])[|p|] == y && (q + [z])[|q|] == z;
      assert p == (p + [y])[..|p|] && q == (q + [z])[..|q|];
    }
  }

  lemma {:induction false} AppendSize(s: set<Bytes>, y: Byte)
    ensures |Append(s, y)| == |s|
  {
    if s != {} {
      var p :| p in s;
      AppendSize(s - {p}, y);
      assert Append(s, y) == Append(s - {p}, y) + {p + [y]};
      forall q | q in s - {p}
        ensures q + [y] != p + [y]
      {
        AppendInjective(p, q, y, y);
      }
    }
  }

  /** Unlike exclusive or, the Tox distance does not single out a key. A distance
      is attained when no byte exceeds 128, and then by 2^k keys, where k counts
      its bytes other than 0 and 128. */
  lemma {:induction false} KeysAtCount(a: Bytes, d: Bytes)
    requires |a| == |d|
    ensures |KeysAt(a, d)| == if forall i :: 0 <= i < |d| ==> d[i] <= 128 then Pow2(Ambiguous(d)) else 0
  {
    if a != [] {
      var n := |a| - 1;
      KeysAtCount(a[..n], d[..n]);
      LastDigitCount(KeysAt(a[..n], d[..n]), a[n], d[n]);
      assert KeysAt(a, d) == AppendAll(KeysAt(a[..n], d[..n]), ByteAt(a[n], d[n]));
      assert (forall i :: 0 <= i < |d| ==> d[i] <= 128) <==>
             (forall i :: 0 <= i < n ==> d[..n][i] <= 128) && d[n] <= 128;
    }
  }

  function AppendAll(s: set<Bytes>, ys: set<Byte>): set<Bytes> {
    set p, y | p in s && y in ys :: p + [y]
  }

  lemma {:induction false} LastDigitCount(s: set<Bytes>, x: Byte, e: Byte)
    ensures |AppendAll(s, ByteAt(x, e))| == if e > 128 then 0 else if e == 0 || e == 128 then |s| else 2 * |s|
  {
    if e > 128 {
      assert AppendAll(s, ByteAt(x, e)) == {};
    } else if e == 0 || e == 128 {
      assert AppendAll(s, ByteAt(x, e)) == Append(s, XorOfBytes(x, e));
      AppendSize(s, XorOfBytes(x, e));
    } else {
      var y, z := XorOfBytes(x, e), XorOfBytes(x, 256 - e);
      XorUndo(x, e);
      XorUndo(x, 256 - e);
      assert AppendAll(s, ByteAt(x, e)) == Append(s, y) + Append(s, z);
      AppendSize(s, y);
      AppendSize(s, z);
      AppendDisjoint(s, y, z);
    }
  }

  lemma {:induction false} AppendDisjoint(s: set<Bytes>, y: Byte, z: Byte)
    requires y != z
    ensures Append(s, y) !! Append(s, z)
  {
    forall p, q | p in s && q in s
      ensures p + [y] != q + [z]
    {
      AppendInjective(p, q, y, z);
    }
  }
}
