/**
 * The counter payload: a Java `long` written as 8 big-endian bytes in
 * two's complement, the layout `ByteBuffer.putLong` / `getLong` use.
 */
module LongCodec {

  /** One byte of a payload, read as an unsigned value. */
  type Byte = b: int | 0 <= b < 256

  const MinLong: int := -0x8000_0000_0000_0000
  const MaxLong: int := 0x7FFF_FFFF_FFFF_FFFF
  const TwoTo64: int := 0x1_0000_0000_0000_0000

  predicate IsLong(x: int) {
    MinLong <= x <= MaxLong
  }

  function Pow256(k: nat): (p: nat)
    ensures p > 0
  {
    if k == 0 then 1 else 256 * Pow256(k - 1)
  }

  lemma Pow256Of8()
    ensures Pow256(8) == TwoTo64
  {
    assert Pow256(2) == 0x1_0000;
    assert Pow256(4) == 0x1_0000_0000 by {
      assert Pow256(3) == 256 * Pow256(2);
    }
    assert Pow256(6) == 0x1_0000_0000_0000 by {
      assert Pow256(5) == 256 * Pow256(4);
    }
    assert Pow256(7) == 256 * Pow256(6);
  }

  /** Unsigned value of a byte sequence, most significant byte first. */
  function BigEndian(bs: seq<Byte>): nat
  {
    if bs == [] then 0 else BigEndian(bs[..|bs| - 1]) * 256 + bs[|bs| - 1]
  }

  /** The `k` low-order bytes of `n`, most significant byte first. */
  function Bytes(n: nat, k: nat): (r: seq<Byte>)
    ensures |r| == k
  {
    if k == 0 then [] else Bytes(n / 256, k - 1) + [n % 256]
  }

  lemma {:induction false} BigEndianBound(bs: seq<Byte>)
    ensures BigEndian(bs) < Pow256(|bs|)
  {
    if bs != [] {
      BigEndianBound(bs[..|bs| - 1]);
    }
  }

  /** Writing the low `k` bytes of a number that fits and reading them back gives the number. */
  lemma {:induction false} BytesThenBigEndian(n: nat, k: nat)
    requires n < Pow256(k)
    ensures BigEndian(Bytes(n, k)) == n
  {
    if k > 0 {
      var r := Bytes(n, k);
      assert r[..k - 1] == Bytes(n / 256, k - 1);
      BytesThenBigEndian(n / 256, k - 1);
    }
  }

  /** Reading a byte sequence as a number and writing it back gives the same bytes. */
  lemma {:induction false} BigEndianThenBytes(bs: seq<Byte>)
    ensures Bytes(BigEndian(bs), |bs|) == bs
  {
    if bs != [] {
      var init := bs[..|bs| - 1];
      BigEndianThenBytes(init);
      assert bs == init + [bs[|bs| - 1]];
    }
  }

  /** `ByteBuffer.putLong`: the two's-complement bytes of `x`. */
  function EncodeLong(x: int): (r: seq<Byte>)
    requires IsLong(x)
    ensures |r| == 8
  {
    Bytes(if x < 0 then x + TwoTo64 else x, 8)
  }

  /** `ByteBuffer.getLong` at position 0: the first 8 bytes as a signed value. */
  function DecodeLong(bs: seq<Byte>): (x: int)
    requires |bs| >= 8
    ensures IsLong(x)
  {
    BigEndianBound(bs[..8]);
    Pow256Of8();
    var u := BigEndian(bs[..8]);
    if u > MaxLong then u - TwoTo64 else u
  }

  lemma DecodeEncode(x: int)
    requires IsLong(x)
    ensures DecodeLong(EncodeLong(x)) == x
  {
    Pow256Of8();
    var u := if x < 0 then x + TwoTo64 else x;
    BytesThenBigEndian(u, 8);
    assert EncodeLong(x)[..8] == EncodeLong(x);
  }

  lemma EncodeDecode(bs: seq<Byte>)
    requires |bs| == 8
    ensures EncodeLong(DecodeLong(bs)) == bs
  {
    Pow256Of8();
    BigEndianBound(bs);
    BigEndianThenBytes(bs);
    assert bs[..8] == bs;
  }

  /** `DEFAULT_DATA`: the payload a new counter node is created with. */
  const DefaultData: seq<Byte> := EncodeLong(-1)

  /** The `k` low-order bytes of the largest `k`-byte number are all 0xFF. */
  lemma {:induction false} BytesOfAllOnes(k: nat)
    ensures Bytes(Pow256(k) - 1, k) == seq(k, _ => 255)
  {
    if k > 0 {
      var p := Pow256(k - 1);
      assert Pow256(k) - 1 == (p - 1) * 256 + 255;
      BytesOfAllOnes(k - 1);
    }
  }

  lemma DefaultDataIsMinusOne()
    ensures DefaultData == [255, 255, 255, 255, 255, 255, 255, 255]
    ensures DecodeLong(DefaultData) == -1
  {
    DecodeEncode(-1);
    Pow256Of8();
    BytesOfAllOnes(8);
  }

  /** Java's `++` on a `long`: adds one, and wraps from the largest value to the smallest. */
  function Inc(x: int): (r: int)
    requires IsLong(x)
    ensures IsLong(r)
    ensures x < MaxLong ==> r == x + 1 && r > x
    ensures x == MaxLong ==> r == MinLong
  {
    if x == MaxLong then MinLong else x + 1
  }

  /** A payload with its counter moved on by one: the next value in the first 8 bytes, the rest kept. */
  function Bumped(data: seq<Byte>): (r: seq<Byte>)
    requires |data| >= 8
    ensures |r| == |data| && DecodeLong(r) == Inc(DecodeLong(data))
  {
    var r := EncodeLong(Inc(DecodeLong(data))) + data[8..];
    DecodeEncode(Inc(DecodeLong(data)));
    assert r[..8] == EncodeLong(Inc(DecodeLong(data)))[..8];
    r
  }

  /** `buf.getLong()` on a freshly wrapped array. */
  method GetLong(buf: array<Byte>) returns (x: int)
    requires buf.Length >= 8
    ensures x == DecodeLong(buf[..])
  {
    var u: nat := 0;
    for i := 0 to 8
      invariant u == BigEndian(buf[..i])
    {
      assert buf[..i + 1][..i] == buf[..i];
      u := u * 256 + buf[i];
    }
    assert buf[..8] == buf[..][..8];
    BigEndianBound(buf[..8]);
    Pow256Of8();
    x := if u > MaxLong then u - TwoTo64 else u;
  }

  /** `buf.rewind(); buf.putLong(x)`: overwrites the first 8 bytes in place. */
  method PutLong(buf: array<Byte>, x: int)
    requires buf.Length >= 8 && IsLong(x)
    modifies buf
    ensures buf[..] == EncodeLong(x) + old(buf[8..])
  {
    var u: nat := if x < 0 then x + TwoTo64 else x;
    var i := 8;
    while i > 0
      invariant 0 <= i <= 8
      invariant Bytes(u, i) + buf[i..8] == EncodeLong(x)
      invariant buf[8..] == old(buf[8..])
    {
      assert Bytes(u, i) == Bytes(u / 256, i - 1) + [u % 256];
      buf[i - 1] := u % 256;
      assert buf[i - 1..8] == [u % 256] + buf[i..8];
      u := u / 256;
      i := i - 1;
    }
    assert buf[..] == buf[0..8] + buf[8..];
  }

  /**
   * The clocks' buffer work on a payload they have read: wrap it, `getLong`,
   * `++`, `rewind`, `putLong`. Gives the new value and the payload to write back.
   */
  method NextPayload(data: seq<Byte>) returns (id: int, payload: seq<Byte>)
    requires |data| >= 8
    ensures id == Inc(DecodeLong(data)) && payload == Bumped(data)
    ensures DecodeLong(payload) == id
  {
    var buf := new Byte[|data|](j requires 0 <= j < |data| => data[j]);
    assert buf[..] == data;
    id := GetLong(buf);
    id := Inc(id);
    PutLong(buf, id);
    payload := buf[..];
  }
}
