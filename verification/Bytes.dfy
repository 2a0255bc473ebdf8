/** Fixed-width big-endian integers. */
module Bytes {
  import opened Types

  /** Big-endian digits, most significant first. */
  function BigEndian(value: nat, width: nat): (bytes: seq<Byte>)
    ensures |bytes| == width
  {
    if width == 0 then [] else BigEndian(value / 256, width - 1) + [value % 256]
  }

  function FromBigEndian(bytes: seq<Byte>): nat {
    if bytes == [] then 0 else FromBigEndian(bytes[..|bytes| - 1]) * 256 + bytes[|bytes| - 1]
  }

  function Pow256(n: nat): nat {
    if n == 0 then 1 else 256 * Pow256(n - 1)
  }

  lemma {:induction false} BigEndianRoundTrip(value: nat, width: nat)
    requires value < Pow256(width)
    ensures FromBigEndian(BigEndian(value, width)) == value
  {
    if width != 0 {
      BigEndianRoundTrip(value / 256, width - 1);
      var bytes := BigEndian(value, width);
      assert bytes[..|bytes| - 1] == BigEndian(value / 256, width - 1);
    }
  }

  lemma {:induction false} FromBigEndianRoundTrip(bytes: seq<Byte>)
    ensures FromBigEndian(bytes) < Pow256(|bytes|)
    ensures BigEndian(FromBigEndian(bytes), |bytes|) == bytes
  {
    if bytes != [] {
      FromBigEndianRoundTrip(bytes[..|bytes| - 1]);
      assert bytes == bytes[..|bytes| - 1] + [bytes[|bytes| - 1]];
    }
  }

  lemma Pow256Of8()
    ensures Pow256(8) == U64_MAX + 1
  {
    assert Pow256(4) == 0x1_0000_0000;
    assert Pow256(8) == 256 * (256 * (256 * (256 * Pow256(4))));
  }

  lemma U64RoundTrip(value: U64)
    ensures FromBigEndian(BigEndian(value, 8)) == value
  {
    Pow256Of8();
    BigEndianRoundTrip(value, 8);
  }

  /** The first byte carries the highest power. */
  lemma {:induction false} FrontDigit(bytes: seq<Byte>)
    requires bytes != []
    ensures FromBigEndian(bytes) == bytes[0] * Pow256(|bytes| - 1) + FromBigEndian(bytes[1..])
  {
    var k := |bytes| - 1;
    if k != 0 {
      var init := bytes[..k];
      FrontDigit(init);
      assert init[1..] == bytes[1..][..k - 1];
      assert 256 * (bytes[0] * Pow256(k - 1)) == bytes[0] * Pow256(k) by {
        assert Pow256(k) == 256 * Pow256(k - 1);
      }
    }
  }
}
