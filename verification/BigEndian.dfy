/** Unsigned big-endian integers, the encoding `struct.pack` gives `Q` and `I` after `>`. */
module BigEndian {
  type byte = n: int | 0 <= n < 256

  const U32 := 0x1_0000_0000
  const U64 := 0x1_0000_0000_0000_0000

  function Pow256(width: nat): (p: nat)
    ensures p > 0
  {
    if width == 0 then 1 else 256 * Pow256(width - 1)
  }

  function Pack(n: nat, width: nat): (s: seq<byte>)
    requires n < Pow256(width)
    ensures |s| == width
  {
    if width == 0 then [] else Pack(n / 256, width - 1) + [n % 256]
  }

  function Unpack(s: seq<byte>): (n: nat)
    ensures n < Pow256(|s|)
  {
    if s == [] then 0 else 256 * Unpack(s[..|s| - 1]) + s[|s| - 1]
  }

  lemma Widths()
    ensures Pow256(4) == U32 && Pow256(8) == U64
  {
    assert Pow256(4) == 256 * Pow256(3) == 256 * (256 * Pow256(2));
    assert Pow256(8) == 256 * Pow256(7) == 256 * (256 * Pow256(6)) == 256 * (256 * (256 * Pow256(5)));
  }

  lemma {:induction false} UnpackPack(n: nat, width: nat)
    requires n < Pow256(width)
    ensures Unpack(Pack(n, width)) == n
  {
    if width > 0 {
      var s := Pack(n, width);
      assert s[..width - 1] == Pack(n / 256, width - 1);
      UnpackPack(n / 256, width - 1);
    }
  }

  lemma {:induction false} PackUnpack(s: seq<byte>)
    ensures Pack(Unpack(s), |s|) == s
  {
    if s != [] {
      var front := s[..|s| - 1];
      PackUnpack(front);
      assert Unpack(s) / 256 == Unpack(front);
      assert s == front + [s[|s| - 1]];
    }
  }

  /** The most significant byte comes first. */
  lemma {:induction false} PackDigit(n: nat, width: nat, i: nat)
    requires n < Pow256(width) && i < width
    ensures Pack(n, width)[i] == n / Pow256(width - 1 - i) % 256
  {
    if i < width - 1 {
      PackDigit(n / 256, width - 1, i);
      DivideTwice(n, Pow256(width - 2 - i));
    }
  }

  lemma DivideTwice(n: nat, m: nat)
    requires m > 0
    ensures n / 256 / m == n / (256 * m)
  {
    var q, r := n / 256 / m, n / 256 % m;
    assert n / 256 == q * m + r;
    assert n == 256 * (q * m + r) + n % 256 == q * (256 * m) + (256 * r + n % 256);
    assert 256 * r + n % 256 < 256 * m;
    QuotientIs(n, 256 * m, q, 256 * r + n % 256);
  }

  lemma MulOrder(a: nat, b: nat, d: nat)
    ensures a < b ==> (a + 1) * d <= b * d
  {
    if a < b {
      assert b * d == (a + 1) * d + (b - a - 1) * d;
    }
  }

  lemma QuotientIs(n: nat, d: nat, q: nat, r: nat)
    requires r < d && n == q * d + r
    ensures n / d == q
  {
    assert n == n / d * d + n % d;
    MulOrder(n / d, q, d);
    MulOrder(q, n / d, d);
    assert (n / d + 1) * d == n / d * d + d && (q + 1) * d == q * d + d;
  }
}
