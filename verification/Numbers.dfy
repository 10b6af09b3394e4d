/** Numbers as big-endian bytes. */
module Numbers {
  import opened Wrappers

  /** The number that bytes spell, most significant byte first. */
  function BigEndian(s: Bytes): nat {
    if s == [] then 0 else BigEndian(s[..|s| - 1]) * 256 + s[|s| - 1]
  }

  /** The last k bytes of a number. */
  function BytesOf(n: nat, k: nat): Bytes {
    if k == 0 then [] else BytesOf(n / 256, k - 1) + [n % 256]
  }

  function Pow256(n: nat): nat {
    if n == 0 then 1 else 256 * Pow256(n - 1)
  }

  lemma {:induction false} BytesLength(n: nat, k: nat)
    ensures |BytesOf(n, k)| == k
  {
    if k > 0 { BytesLength(n / 256, k - 1); }
  }

  lemma {:induction false} DigitOf(h: nat, d: Byte)
    ensures (h * 256 + d) % 256 == d && (h * 256 + d) / 256 == h
  {
  }

  lemma {:induction false} LastByte(s: Bytes)
    requires s != []
    ensures BigEndian(s) % 256 == s[|s| - 1] && BigEndian(s) / 256 == BigEndian(s[..|s| - 1])
  {
    DigitOf(BigEndian(s[..|s| - 1]), s[|s| - 1]);
  }

  lemma {:induction false} BytesOfBigEndian(s: Bytes)
    ensures BytesOf(BigEndian(s), |s|) == s
  {
    if s != [] {
      LastByte(s);
      BytesOfBigEndian(s[..|s| - 1]);
    }
  }

  lemma {:induction false} BigEndianOfBytes(n: nat, k: nat)
    requires n < Pow256(k)
    ensures BigEndian(BytesOf(n, k)) == n
  {
    if k > 0 {
      BigEndianOfBytes(n / 256, k - 1);
      var s := BytesOf(n, k);
      assert s[..|s| - 1] == BytesOf(n / 256, k - 1);
    }
  }

  lemma {:induction false} BigEndianBound(s: Bytes)
    ensures BigEndian(s) < Pow256(|s|)
  {
    if s != [] { BigEndianBound(s[..|s| - 1]); }
  }

  // ----- int64 -----

  const TWO63: nat := 0x8000_0000_0000_0000

  type Int64 = x: int | -0x8000_0000_0000_0000 <= x < 0x8000_0000_0000_0000

  function OfInt64(x: Int64): (b: Bytes)
    ensures |b| == 8
  {
    var n: nat := if x < 0 then x + 2 * TWO63 else x;
    BytesLength(n, 8);
    BytesOf(n, 8)
  }

  function ToInt64(b: Bytes): Int64
    requires |b| == 8
  {
    BigEndianBound(b);
    Pow256Eight();
    var n := BigEndian(b);
    if n >= TWO63 then n - 2 * TWO63 else n
  }

  lemma {:induction false} Pow256Eight()
    ensures Pow256(8) == 2 * TWO63
  {
    assert Pow256(2) == 0x1_0000;
    assert Pow256(4) == 0x1_0000_0000;
    assert Pow256(6) == 0x1_0000_0000_0000;
  }

  /** Two's complement, most significant byte first. */
  lemma {:induction false} Int64RoundTrip(x: Int64)
    ensures BigEndian(OfInt64(x)) == if x < 0 then x + 0x1_0000_0000_0000_0000 else x
    ensures ToInt64(OfInt64(x)) == x
  {
    Pow256Eight();
    BigEndianOfBytes(if x < 0 then x + 2 * TWO63 else x, 8);
  }

  lemma {:induction false} Int64OfBytes(b: Bytes)
    requires |b| == 8
    ensures OfInt64(ToInt64(b)) == b
  {
    Pow256Eight();
    BigEndianBound(b);
    BytesOfBigEndian(b);
  }
}
