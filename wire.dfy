/** Big-endian integer fields as Python's `struct.pack` writes them with the
    `>` byte order: `B` (u8), `H` (u16), `L` (u32), `l` (i32) and `Q` (u64).
    Packing a value outside a field's range is `struct.error`. */
module Wire {
  import opened Base

  /** The 8 bytes of a binary64 (`d`) field; their layout is not modelled. */
  type Bytes8 = s: seq<byte> | |s| == 8 witness [0, 0, 0, 0, 0, 0, 0, 0]

  function Pow256(n: nat): (r: nat)
    ensures r >= 1
  {
    if n == 0 then 1 else 256 * Pow256(n - 1)
  }

  /** The n-byte big-endian representation of x modulo 256^n. */
  function BigEndian(x: nat, n: nat): (r: seq<byte>)
    ensures |r| == n
  {
    if n == 0 then [] else BigEndian(x / 256, n - 1) + [x % 256]
  }

  /** The unsigned value of big-endian bytes. */
  function FromBigEndian(s: seq<byte>): nat
  {
    if s == [] then 0 else 256 * FromBigEndian(s[..|s| - 1]) + s[|s| - 1]
  }

  lemma {:induction false} FromBigEndianBound(s: seq<byte>)
    ensures FromBigEndian(s) < Pow256(|s|)
  {
    if s != [] {
      FromBigEndianBound(s[..|s| - 1]);
    }
  }

  /** Decoding an encoding gives the value back, when it fits in n bytes. */
  lemma {:induction false} BigEndianRoundTrip(x: nat, n: nat)
    requires x < Pow256(n)
    ensures FromBigEndian(BigEndian(x, n)) == x
  {
    if n > 0 {
      BigEndianRoundTrip(x / 256, n - 1);
      var s := BigEndian(x, n);
      assert s[..|s| - 1] == BigEndian(x / 256, n - 1);
    }
  }

  /** Encoding a decoded value gives the bytes back. */
  lemma {:induction false} BigEndianOfDecoded(s: seq<byte>)
    ensures BigEndian(FromBigEndian(s), |s|) == s
  {
    if s != [] {
      var init := s[..|s| - 1];
      BigEndianOfDecoded(init);
      var v := FromBigEndian(s);
      assert v / 256 == FromBigEndian(init) && v % 256 == s[|s| - 1];
    }
  }

  const U32Limit: nat := 0x1_0000_0000

  lemma Pow256Values()
    ensures Pow256(1) == 0x100 && Pow256(2) == 0x1_0000
    ensures Pow256(4) == U32Limit && Pow256(8) == 0x1_0000_0000_0000_0000
  {
  }

  /** Two big-endian bytes: the high byte, then the low byte. */
  lemma BigEndian2(x: nat)
    ensures BigEndian(x, 2) == [(x / 256) % 256, x % 256]
  {
    assert BigEndian(x / 256, 1) == BigEndian(x / 256 / 256, 0) + [(x / 256) % 256];
  }

  /** `struct.pack('>B', x)`. */
  function PackU8(x: int): (r: Result<seq<byte>>)
    ensures r.Ok? <==> 0 <= x < 0x100
    ensures r.Ok? ==> |r.value| == 1 && r.value[0] == x
  {
    if 0 <= x < 0x100 then Ok([x]) else Err(StructError)
  }

  /** `struct.pack('>H', x)`. */
  function PackU16(x: int): (r: Result<seq<byte>>)
    ensures r.Ok? <==> 0 <= x < 0x1_0000
    ensures r.Ok? ==> |r.value| == 2 && FromBigEndian(r.value) == x
  {
    if 0 <= x < 0x1_0000 then
      Pow256Values();
      BigEndianRoundTrip(x, 2);
      Ok(BigEndian(x, 2))
    else Err(StructError)
  }

  /** `struct.pack('>L', x)`. */
  function PackU32(x: int): (r: Result<seq<byte>>)
    ensures r.Ok? <==> 0 <= x < U32Limit
    ensures r.Ok? ==> |r.value| == 4 && FromBigEndian(r.value) == x
  {
    if 0 <= x < U32Limit then
      Pow256Values();
      BigEndianRoundTrip(x, 4);
      Ok(BigEndian(x, 4))
    else Err(StructError)
  }

  /** `struct.pack('>Q', x)`. */
  function PackU64(x: int): (r: Result<seq<byte>>)
    ensures r.Ok? <==> 0 <= x < 0x1_0000_0000_0000_0000
    ensures r.Ok? ==> |r.value| == 8 && FromBigEndian(r.value) == x
  {
    if 0 <= x < 0x1_0000_0000_0000_0000 then
      Pow256Values();
      BigEndianRoundTrip(x, 8);
      Ok(BigEndian(x, 8))
    else Err(StructError)
  }

  /** `struct.unpack('>l', s)`: two's complement. */
  function UnpackI32(s: seq<byte>): int
    requires |s| == 4
  {
    var u := FromBigEndian(s);
    if u >= 0x8000_0000 then u - U32Limit else u
  }

  /** `struct.pack('>l', x)`: two's complement, and the decoding recovers x. */
  function PackI32(x: int): (r: Result<seq<byte>>)
    ensures r.Ok? <==> -0x8000_0000 <= x < 0x8000_0000
    ensures r.Ok? ==> |r.value| == 4 && UnpackI32(r.value) == x
  {
    if -0x8000_0000 <= x < 0x8000_0000 then
      var u := if x < 0 then x + U32Limit else x;
      Pow256Values();
      BigEndianRoundTrip(u, 4);
      Ok(BigEndian(u, 4))
    else Err(StructError)
  }
}
