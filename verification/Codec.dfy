/** The fixed-width little-endian and length-prefixed encodings of ids, values and keys. */
module Codec {
  import opened Options

  type Byte = b: nat | b < 256

  type Bytes = seq<Byte>

  const U64_LIMIT: nat := 0x1_0000_0000_0000_0000

  ghost function Capacity(width: nat): nat {
    if width == 0 then 1 else 256 * Capacity(width - 1)
  }

  /** The `width` low-order bytes of `x`, least significant first. */
  function EncLE(x: nat, width: nat): (bs: Bytes)
    ensures |bs| == width
  {
    if width == 0 then [] else [x % 256] + EncLE(x / 256, width - 1)
  }

  function DecLE(bs: Bytes): nat {
    if bs == [] then 0 else bs[0] + 256 * DecLE(bs[1..])
  }

  lemma {:induction false} DecOfEnc(x: nat, width: nat)
    requires x < Capacity(width)
    ensures DecLE(EncLE(x, width)) == x
  {
    if width > 0 {
      DecOfEnc(x / 256, width - 1);
      assert EncLE(x, width)[1..] == EncLE(x / 256, width - 1);
    }
  }

  lemma {:induction false} EncOfDec(bs: Bytes)
    ensures DecLE(bs) < Capacity(|bs|)
    ensures EncLE(DecLE(bs), |bs|) == bs
  {
    if bs != [] {
      EncOfDec(bs[1..]);
      var x := DecLE(bs);
      assert x % 256 == bs[0] && x / 256 == DecLE(bs[1..]);
    }
  }

  lemma U64Capacity()
    ensures Capacity(8) == U64_LIMIT
    ensures Capacity(4) == 0x1_0000_0000
  {
    assert Capacity(1) == 256;
    assert Capacity(2) == 0x1_0000;
    assert Capacity(3) == 0x100_0000;
    assert Capacity(5) == 0x100_0000_0000;
    assert Capacity(6) == 0x1_0000_0000_0000;
    assert Capacity(7) == 0x100_0000_0000_0000;
  }

  function EncodeU64(x: nat): (bs: Bytes)
    ensures |bs| == 8
  {
    EncLE(x, 8)
  }

  /** Decoding reads eight bytes and does not mind more. */
  function DecodeU64(bs: Bytes): Option<nat> {
    if |bs| < 8 then None else Some(DecLE(bs[..8]))
  }

  lemma U64RoundTrip(x: nat)
    requires x < U64_LIMIT
    ensures DecodeU64(EncodeU64(x)) == Some(x)
  {
    U64Capacity();
    DecOfEnc(x, 8);
    assert EncLE(x, 8)[..8] == EncLE(x, 8);
  }

  /** Eight bytes are the encoding of exactly one number. */
  lemma U64Canonical(bs: Bytes)
    requires |bs| == 8
    ensures DecodeU64(bs).Some? && DecodeU64(bs).value < U64_LIMIT
    ensures EncodeU64(DecodeU64(bs).value) == bs
  {
    U64Capacity();
    EncOfDec(bs);
    assert bs[..8] == bs;
  }

  lemma {:induction false} FourBytes(x: nat, width: nat)
    ensures EncLE(x, 4 + width)
         == [x % 256, x / 0x100 % 256, x / 0x1_0000 % 256, x / 0x100_0000 % 256] + EncLE(x / 0x1_0000_0000, width)
  {
    var x1, x2, x3 := x / 0x100, x / 0x1_0000, x / 0x100_0000;
    assert EncLE(x, 4 + width) == [x % 256] + EncLE(x1, 3 + width);
    assert EncLE(x1, 3 + width) == [x1 % 256] + EncLE(x2, 2 + width) by {
      assert x1 / 256 == x2;
    }
    assert EncLE(x2, 2 + width) == [x2 % 256] + EncLE(x3, 1 + width) by {
      assert x2 / 256 == x3;
    }
    assert x3 / 256 == x / 0x1_0000_0000;
  }

  /** Byte `i` of an encoded number is its digit of weight 256^i: the least significant byte first. */
  lemma {:induction false} EncodesLittleEndian(x: nat)
    ensures EncodeU64(x)
         == [x % 256, x / 0x100 % 256, x / 0x1_0000 % 256, x / 0x100_0000 % 256,
             x / 0x1_0000_0000 % 256, x / 0x100_0000_0000 % 256, x / 0x1_0000_0000_0000 % 256,
             x / 0x100_0000_0000_0000 % 256]
    ensures EncLE(x, 4) == [x % 256, x / 0x100 % 256, x / 0x1_0000 % 256, x / 0x100_0000 % 256]
  {
    var y := x / 0x1_0000_0000;
    FourBytes(x, 4);
    FourBytes(y, 0);
    FourBytes(x, 0);
    hide EncLE;
    assert EncLE(y, 0) == [];
    assert y / 0x100 == x / 0x100_0000_0000;
    assert y / 0x1_0000 == x / 0x1_0000_0000_0000;
    assert y / 0x100_0000 == x / 0x100_0000_0000_0000;
  }

  /** A decoded number is the sum of its bytes, byte `i` weighing 256^i. */
  lemma DecodesLittleEndian(bs: Bytes)
    requires |bs| >= 8
    ensures var b: seq<nat> := bs;
            DecodeU64(bs)
            == Some(b[0] + 0x100 * b[1] + 0x1_0000 * b[2] + 0x100_0000 * b[3]
                    + 0x1_0000_0000 * b[4] + 0x100_0000_0000 * b[5] + 0x1_0000_0000_0000 * b[6]
                    + 0x100_0000_0000_0000 * b[7])
  {
    var b := bs[..8];
    assert DecLE(b) == b[0] + 256 * DecLE(b[1..]);
    DecodesFrom(b, 1);
    DecodesFrom(b, 2);
    DecodesFrom(b, 3);
    DecodesFrom(b, 4);
    DecodesFrom(b, 5);
    DecodesFrom(b, 6);
    DecodesFrom(b, 7);
    assert DecLE(b[8..]) == 0;
  }

  lemma DecodesFrom(bs: Bytes, i: nat)
    requires i < |bs|
    ensures DecLE(bs[i..]) == bs[i] + 256 * DecLE(bs[i + 1..])
  {
    assert bs[i..][1..] == bs[i + 1..];
  }

  lemma DecodedInRange(bs: Bytes)
    ensures DecodeU64(bs).Some? ==> DecodeU64(bs).value < U64_LIMIT
  {
    if |bs| >= 8 {
      U64Canonical(bs[..8]);
      assert bs[..8][..8] == bs[..8];
    }
  }
}
