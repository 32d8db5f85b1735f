/**
 * The SCALE binary codec, as far as the modelled code relies on it: fixed-width
 * little-endian integers, the compact encoding of a `u32` length, `Vec<u8>`
 * and `Vec<Vec<u8>>`, and the byte sink / byte source that `encode_to` and
 * `decode` work on.
 */
module Scale {

  type byte = x: int | 0 <= x < 256
  type Bytes = seq<byte>

  const U32_LIMIT: int := 0x1_0000_0000
  const U64_LIMIT: int := 0x1_0000_0000_0000_0000
  const U128_LIMIT: int := 0x1_0000_0000_0000_0000_0000_0000_0000_0000

  type u32 = x: int | 0 <= x < U32_LIMIT
  type u64 = x: int | 0 <= x < U64_LIMIT
  type u128 = x: int | 0 <= x < U128_LIMIT

  /** A byte string short enough for its length to be a compact `u32`. */
  type Blob = b: Bytes | |b| < U32_LIMIT

  datatype Option<+T> = None | Some(value: T)

  /** The ways a decode can fail. */
  datatype Error =
    | NotEnoughData              // the input ended before the value did
    | InvalidMagic               // a domain-separation prefix did not match
    | UnknownVariant(index: byte) // an enum index that no variant carries
    | OutOfRange                 // a non-canonical compact integer

  datatype Result<+T> = Ok(value: T) | Err(error: Error)

  // ---------------------------------------------------------------------------
  // Fixed-width little-endian integers

  function Pow256(n: nat): (r: nat)
    ensures r >= 1
  {
    if n == 0 then 1 else 256 * Pow256(n - 1)
  }

  /** The `n` low bytes of `v`, least significant first. */
  function LeBytes(v: nat, n: nat): (r: Bytes)
    ensures |r| == n
  {
    if n == 0 then [] else [v % 256] + LeBytes(v / 256, n - 1)
  }

  /** The number whose little-endian bytes are `b`. */
  function LeValue(b: Bytes): (v: nat)
    ensures v < Pow256(|b|)
  {
    if |b| == 0 then 0 else b[0] + 256 * LeValue(b[1..])
  }

  lemma {:induction false} LeValueOfBytes(v: nat, n: nat)
    requires v < Pow256(n)
    ensures LeValue(LeBytes(v, n)) == v
  {
    if n > 0 {
      LeValueOfBytes(v / 256, n - 1);
      assert LeBytes(v, n)[1..] == LeBytes(v / 256, n - 1);
    }
  }

  lemma {:induction false} LeBytesOfValue(b: Bytes)
    ensures LeBytes(LeValue(b), |b|) == b
  {
    if |b| > 0 {
      var v := LeValue(b);
      assert v % 256 == b[0] && v / 256 == LeValue(b[1..]);
      LeBytesOfValue(b[1..]);
      assert b == [b[0]] + b[1..];
    }
  }

  /** Two byte strings of one width with the same value are the same string. */
  lemma LeValueInjective(a: Bytes, b: Bytes)
    requires |a| == |b| && LeValue(a) == LeValue(b)
    ensures a == b
  {
    LeBytesOfValue(a);
    LeBytesOfValue(b);
  }

  lemma Pow256Widths()
    ensures Pow256(2) == 0x1_0000 && Pow256(4) == U32_LIMIT
    ensures Pow256(8) == U64_LIMIT && Pow256(16) == U128_LIMIT
  {
  }

  function EncodeU32(v: u32): (r: Bytes)
    ensures |r| == 4
  {
    LeBytes(v, 4)
  }

  function EncodeU64(v: u64): (r: Bytes)
    ensures |r| == 8
  {
    LeBytes(v, 8)
  }

  function EncodeU128(v: u128): (r: Bytes)
    ensures |r| == 16
  {
    LeBytes(v, 16)
  }

  /** Reads a fixed-size array `[u8; n]`: exactly the next `n` bytes, no length prefix. */
  function DecodeArray(b: Bytes, n: nat): (r: Result<(Bytes, Bytes)>)
    ensures r.Ok? <==> n <= |b|
    ensures r.Ok? ==> |r.value.0| == n && b == r.value.0 + r.value.1
    ensures r.Err? ==> r.error == NotEnoughData
  {
    if |b| < n then Err(NotEnoughData) else Ok((b[..n], b[n..]))
  }

  function DecodeU32(b: Bytes): (r: Result<(u32, Bytes)>)
    ensures r.Ok? <==> 4 <= |b|
    ensures r.Ok? ==> b == EncodeU32(r.value.0) + r.value.1
  {
    Pow256Widths();
    if |b| < 4 then Err(NotEnoughData)
    else
      LeBytesOfValue(b[..4]);
      assert b == b[..4] + b[4..];
      Ok((LeValue(b[..4]), b[4..]))
  }

  function DecodeU64(b: Bytes): (r: Result<(u64, Bytes)>)
    ensures r.Ok? <==> 8 <= |b|
    ensures r.Ok? ==> b == EncodeU64(r.value.0) + r.value.1
  {
    Pow256Widths();
    if |b| < 8 then Err(NotEnoughData)
    else
      LeBytesOfValue(b[..8]);
      assert b == b[..8] + b[8..];
      Ok((LeValue(b[..8]), b[8..]))
  }

  function DecodeU128(b: Bytes): (r: Result<(u128, Bytes)>)
    ensures r.Ok? <==> 16 <= |b|
    ensures r.Ok? ==> b == EncodeU128(r.value.0) + r.value.1
  {
    Pow256Widths();
    if |b| < 16 then Err(NotEnoughData)
    else
      LeBytesOfValue(b[..16]);
      assert b == b[..16] + b[16..];
      Ok((LeValue(b[..16]), b[16..]))
  }

  lemma U32RoundTrip(v: u32, rest: Bytes)
    ensures DecodeU32(EncodeU32(v) + rest) == Ok((v, rest))
  {
    Pow256Widths();
    LeValueOfBytes(v, 4);
    assert (EncodeU32(v) + rest)[..4] == EncodeU32(v);
    assert (EncodeU32(v) + rest)[4..] == rest;
  }

  lemma U64RoundTrip(v: u64, rest: Bytes)
    ensures DecodeU64(EncodeU64(v) + rest) == Ok((v, rest))
  {
    Pow256Widths();
    LeValueOfBytes(v, 8);
    assert (EncodeU64(v) + rest)[..8] == EncodeU64(v);
    assert (EncodeU64(v) + rest)[8..] == rest;
  }

  lemma U128RoundTrip(v: u128, rest: Bytes)
    ensures DecodeU128(EncodeU128(v) + rest) == Ok((v, rest))
  {
    Pow256Widths();
    LeValueOfBytes(v, 16);
    assert (EncodeU128(v) + rest)[..16] == EncodeU128(v);
    assert (EncodeU128(v) + rest)[16..] == rest;
  }

  lemma ArrayRoundTrip(a: Bytes, rest: Bytes)
    ensures DecodeArray(a + rest, |a|) == Ok((a, rest))
  {
    assert (a + rest)[..|a|] == a;
    assert (a + rest)[|a|..] == rest;
  }

  // ---------------------------------------------------------------------------
  // Compact<u32>: the length prefix of every vector

  /**
   * Values below 2^6 take one byte, below 2^14 two, below 2^30 four; the two low
   * bits of the first byte name the mode. Larger values take a 0b11 prefix
   * followed by the four bytes of the `u32`.
   */
  function EncodeCompact(v: u32): (r: Bytes)
    ensures 1 <= |r| <= 5
  {
    if v < 0x40 then [v * 4]
    else if v < 0x4000 then LeBytes(v * 4 + 1, 2)
    else if v < 0x4000_0000 then LeBytes(v * 4 + 2, 4)
    else [3] + LeBytes(v, 4)
  }

  /**
   * Decodes a compact `u32`, refusing every encoding that is not the shortest
   * one: whatever it accepts is the canonical encoding of the value it returns.
   */
  function DecodeCompact(b: Bytes): (r: Result<(u32, Bytes)>)
    ensures r.Ok? ==> b == EncodeCompact(r.value.0) + r.value.1
  {
    if |b| == 0 then Err(NotEnoughData)
    else if b[0] % 4 == 0 then
      assert b == [b[0]] + b[1..];
      Ok((b[0] / 4, b[1..]))
    else if b[0] % 4 == 1 then DecodeCompactTwo(b)
    else if b[0] % 4 == 2 then DecodeCompactFour(b)
    else DecodeCompactBig(b)
  }

  /** The two low bits of a number are those of its low byte. */
  lemma LowBitsOfFirstByte(x: nat, n: nat)
    requires n > 0
    ensures LeBytes(x, n)[0] % 4 == x % 4
  {
    assert LeBytes(x, n)[0] == x % 256;
    assert x % 256 % 4 == x % 4 by {
      assert x == 256 * (x / 256) + x % 256;
      assert 256 * (x / 256) == 4 * (64 * (x / 256));
    }
  }

  /** Two-byte mode: the value shifted left by two, plus 0b01. */
  function DecodeCompactTwo(b: Bytes): (r: Result<(u32, Bytes)>)
    requires |b| > 0 && b[0] % 4 == 1
    ensures r.Ok? ==> b == EncodeCompact(r.value.0) + r.value.1
  {
    if |b| < 2 then Err(NotEnoughData)
    else
      Pow256Widths();
      var x := LeValue(b[..2]);
      var v := x / 4;
      if 0x40 <= v then
        LeBytesOfValue(b[..2]);
        LowBitsOfFirstByte(x, 2);
        assert x == v * 4 + 1;
        assert b == b[..2] + b[2..];
        Ok((v, b[2..]))
      else Err(OutOfRange)
  }

  /** Four-byte mode: the value shifted left by two, plus 0b10. */
  function DecodeCompactFour(b: Bytes): (r: Result<(u32, Bytes)>)
    requires |b| > 0 && b[0] % 4 == 2
    ensures r.Ok? ==> b == EncodeCompact(r.value.0) + r.value.1
  {
    if |b| < 4 then Err(NotEnoughData)
    else
      Pow256Widths();
      var x := LeValue(b[..4]);
      var v := x / 4;
      if 0x4000 <= v then
        LeBytesOfValue(b[..4]);
        LowBitsOfFirstByte(x, 4);
        assert x == v * 4 + 2;
        assert b == b[..4] + b[4..];
        Ok((v, b[4..]))
      else Err(OutOfRange)
  }

  /** Big-integer mode: 0b11 with zero upper bits (four bytes follow), then the value. */
  function DecodeCompactBig(b: Bytes): (r: Result<(u32, Bytes)>)
    requires |b| > 0 && b[0] % 4 == 3
    ensures r.Ok? ==> b == EncodeCompact(r.value.0) + r.value.1
  {
    if b[0] / 4 != 0 then Err(OutOfRange)
    else if |b| < 5 then Err(NotEnoughData)
    else
      Pow256Widths();
      var v := LeValue(b[1..5]);
      if 0x4000_0000 <= v then
        LeBytesOfValue(b[1..5]);
        assert b == [b[0]] + b[1..5] + b[5..];
        Ok((v, b[5..]))
      else Err(OutOfRange)
  }

  lemma CompactTwoRoundTrip(v: u32, rest: Bytes)
    requires 0x40 <= v < 0x4000
    ensures DecodeCompact(EncodeCompact(v) + rest) == Ok((v, rest))
  {
    Pow256Widths();
    var x := v * 4 + 1;
    var b := LeBytes(x, 2) + rest;
    assert EncodeCompact(v) == LeBytes(x, 2);
    LowBitsOfFirstByte(x, 2);
    assert b[0] % 4 == 1;
    assert b[..2] == LeBytes(x, 2) && b[2..] == rest;
    LeValueOfBytes(x, 2);
  }

  lemma CompactFourRoundTrip(v: u32, rest: Bytes)
    requires 0x4000 <= v < 0x4000_0000
    ensures DecodeCompact(EncodeCompact(v) + rest) == Ok((v, rest))
  {
    Pow256Widths();
    var x := v * 4 + 2;
    var b := LeBytes(x, 4) + rest;
    assert EncodeCompact(v) == LeBytes(x, 4);
    LowBitsOfFirstByte(x, 4);
    assert b[0] % 4 == 2;
    assert b[..4] == LeBytes(x, 4) && b[4..] == rest;
    LeValueOfBytes(x, 4);
  }

  lemma CompactBigRoundTrip(v: u32, rest: Bytes)
    requires 0x4000_0000 <= v
    ensures DecodeCompact(EncodeCompact(v) + rest) == Ok((v, rest))
  {
    Pow256Widths();
    var b := [3] + LeBytes(v, 4) + rest;
    assert EncodeCompact(v) + rest == b;
    assert b[1..5] == LeBytes(v, 4) && b[5..] == rest;
    LeValueOfBytes(v, 4);
  }

  lemma CompactRoundTrip(v: u32, rest: Bytes)
    ensures DecodeCompact(EncodeCompact(v) + rest) == Ok((v, rest))
  {
    if v < 0x40 {
      assert (EncodeCompact(v) + rest)[1..] == rest;
    } else if v < 0x4000 {
      CompactTwoRoundTrip(v, rest);
    } else if v < 0x4000_0000 {
      CompactFourRoundTrip(v, rest);
    } else {
      CompactBigRoundTrip(v, rest);
    }
  }

  // ---------------------------------------------------------------------------
  // Vec<u8> and Vec<Vec<u8>>

  /** A `Vec<u8>`: compact length, then the bytes. */
  function EncodeBlob(b: Blob): (r: Bytes)
    ensures |r| >= |b| + 1
  {
    EncodeCompact(|b|) + b
  }

  lemma LengthThenBytes(b: Bytes, n: u32, rest: Bytes)
    requires b == EncodeCompact(n) + rest && n <= |rest|
    ensures b == EncodeBlob(rest[..n]) + rest[n..]
  {
    assert rest == rest[..n] + rest[n..];
  }

  /** Accepts exactly the canonical encodings: whatever decodes is an encoded blob followed by the rest. */
  function DecodeBlob(b: Bytes): (r: Result<(Blob, Bytes)>)
    ensures r.Ok? ==> b == EncodeBlob(r.value.0) + r.value.1
  {
    var compact := DecodeCompact(b);
    if compact.Err? then Err(compact.error)
    else
      var (n, rest) := compact.value;
      if |rest| < n then Err(NotEnoughData)
      else
        LengthThenBytes(b, n, rest);
        Ok((rest[..n], rest[n..]))
  }

  lemma BlobRoundTrip(b: Blob, rest: Bytes)
    ensures DecodeBlob(EncodeBlob(b) + rest) == Ok((b, rest))
  {
    assert EncodeBlob(b) + rest == EncodeCompact(|b|) + (b + rest);
    CompactRoundTrip(|b|, b + rest);
    assert (b + rest)[..|b|] == b && (b + rest)[|b|..] == rest;
  }

  /** The items of a `Vec<Vec<u8>>`, without the count prefix. */
  function EncodeBlobItems(items: seq<Blob>): (r: Bytes)
  {
    if |items| == 0 then [] else EncodeBlob(items[0]) + EncodeBlobItems(items[1..])
  }

  /** Reads `count` blobs; whatever decodes is their encodings followed by the rest. */
  function DecodeBlobItems(count: nat, b: Bytes): (r: Result<(seq<Blob>, Bytes)>)
    ensures r.Ok? ==> |r.value.0| == count && b == EncodeBlobItems(r.value.0) + r.value.1
  {
    if count == 0 then Ok(([], b))
    else
      var first := DecodeBlob(b);
      if first.Err? then Err(first.error)
      else
        var others := DecodeBlobItems(count - 1, first.value.1);
        if others.Err? then Err(others.error)
        else
          var items := [first.value.0] + others.value.0;
          assert items[0] == first.value.0 && items[1..] == others.value.0;
          Ok((items, others.value.1))
  }

  /** A `Vec<Vec<u8>>`: compact count, then each item as a `Vec<u8>`. */
  function EncodeBlobs(items: seq<Blob>): (r: Bytes)
    requires |items| < U32_LIMIT
  {
    EncodeCompact(|items|) + EncodeBlobItems(items)
  }

  /** Accepts exactly the canonical encodings of a `Vec<Vec<u8>>` followed by the rest. */
  function DecodeBlobs(b: Bytes): (r: Result<(seq<Blob>, Bytes)>)
    ensures r.Ok? ==> |r.value.0| < U32_LIMIT && b == EncodeBlobs(r.value.0) + r.value.1
  {
    var compact := DecodeCompact(b);
    if compact.Err? then Err(compact.error)
    else
      var (n, rest) := compact.value;
      var items := DecodeBlobItems(n, rest);
      items
  }

  lemma {:induction false} BlobItemsRoundTrip(items: seq<Blob>, rest: Bytes)
    ensures DecodeBlobItems(|items|, EncodeBlobItems(items) + rest) == Ok((items, rest))
  {
    if |items| > 0 {
      var tail := EncodeBlobItems(items[1..]) + rest;
      assert EncodeBlobItems(items) + rest == EncodeBlob(items[0]) + tail;
      BlobRoundTrip(items[0], tail);
      BlobItemsRoundTrip(items[1..], rest);
      assert DecodeBlobItems(|items| - 1, tail) == Ok((items[1..], rest));
      assert [items[0]] + items[1..] == items;
    } else {
      assert EncodeBlobItems(items) + rest == rest;
    }
  }

  lemma BlobsRoundTrip(items: seq<Blob>, rest: Bytes)
    requires |items| < U32_LIMIT
    ensures DecodeBlobs(EncodeBlobs(items) + rest) == Ok((items, rest))
  {
    assert EncodeBlobs(items) + rest == EncodeCompact(|items|) + (EncodeBlobItems(items) + rest);
    CompactRoundTrip(|items|, EncodeBlobItems(items) + rest);
    BlobItemsRoundTrip(items, rest);
  }

  // ---------------------------------------------------------------------------
  // The byte sink and the byte source of `encode_to` and `decode`

  /** A growable byte buffer that encoders append to. */
  class Output {
    var data: Bytes

    constructor ()
      ensures data == []
    {
      data := [];
    }

    method Write(bytes: Bytes)
      modifies this
      ensures data == old(data) + bytes
    {
      data := data + bytes;
    }
  }

  /** A byte slice read from the front; a read that does not fit consumes nothing. */
  class Input {
    const source: Bytes
    var pos: nat

    ghost predicate Valid()
      reads this
    {
      pos <= |source|
    }

    function Remaining(): (r: Bytes)
      reads this
      requires Valid()
      ensures |r| == |source| - pos
    {
      source[pos..]
    }

    constructor (bytes: Bytes)
      ensures Valid() && source == bytes && pos == 0 && Remaining() == bytes
    {
      source := bytes;
      pos := 0;
    }

    method Read(n: nat) returns (r: Result<Bytes>)
      requires Valid()
      modifies this
      ensures Valid()
      ensures n <= old(|Remaining()|) ==>
        r == Ok(old(Remaining())[..n]) && Remaining() == old(Remaining())[n..]
      ensures n > old(|Remaining()|) ==> r == Err(NotEnoughData) && pos == old(pos)
    {
      if n <= |source| - pos {
        assert source[pos..pos + n] == source[pos..][..n];
        assert source[pos + n..] == source[pos..][n..];
        r := Ok(source[pos..pos + n]);
        pos := pos + n;
      } else {
        r := Err(NotEnoughData);
      }
    }
  }
}
