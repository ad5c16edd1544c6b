/**
 * The packet an SFML `sf::Packet` carries, and the primitive reads the codec
 * is built from. The real packet is an untyped byte buffer. Here it is a
 * sequence of typed tokens, so that a read succeeds only when the next token
 * has the expected type; otherwise the packet is in its failed state, which
 * callers observe as `None`. The codec reads every value with the type it was
 * written with, and for such reads the two views agree.
 */
module Wire {
  import opened Numerics
  import opened Wrappers

  const UINT32_MODULUS: int := 0x1_0000_0000

  /** `uint32_t`. */
  newtype uint32 = x: int | 0 <= x < 0x1_0000_0000

  /** What `static_cast<uint32_t>` does to a non-negative value. */
  function ToUInt32(n: nat): (u: uint32)
    ensures n < UINT32_MODULUS ==> u as int == n
    ensures (u as int - n) % UINT32_MODULUS == 0
  {
    (n % UINT32_MODULUS) as uint32
  }

  datatype Token =
    | Int(i: int)
    | UInt32(u: uint32)
    | Float(f: real)
    | Bool(b: bool)
    | UInt8(v: byte)

  type Packet = seq<Token>

  function ReadInt(p: Packet): (r: Option<(int, Packet)>)
    ensures r.Some? <==> |p| > 0 && p[0].Int?
    ensures r.Some? ==> p == [Int(r.value.0)] + r.value.1
  {
    if |p| > 0 && p[0].Int? then Some((p[0].i, p[1..])) else None
  }

  function ReadUInt32(p: Packet): (r: Option<(uint32, Packet)>)
    ensures r.Some? <==> |p| > 0 && p[0].UInt32?
    ensures r.Some? ==> p == [UInt32(r.value.0)] + r.value.1
  {
    if |p| > 0 && p[0].UInt32? then Some((p[0].u, p[1..])) else None
  }

  function ReadFloat(p: Packet): (r: Option<(real, Packet)>)
    ensures r.Some? <==> |p| > 0 && p[0].Float?
    ensures r.Some? ==> p == [Float(r.value.0)] + r.value.1
  {
    if |p| > 0 && p[0].Float? then Some((p[0].f, p[1..])) else None
  }

  function ReadBool(p: Packet): (r: Option<(bool, Packet)>)
    ensures r.Some? <==> |p| > 0 && p[0].Bool?
    ensures r.Some? ==> p == [Bool(r.value.0)] + r.value.1
  {
    if |p| > 0 && p[0].Bool? then Some((p[0].b, p[1..])) else None
  }

  function ReadUInt8(p: Packet): (r: Option<(byte, Packet)>)
    ensures r.Some? <==> |p| > 0 && p[0].UInt8?
    ensures r.Some? ==> p == [UInt8(r.value.0)] + r.value.1
  {
    if |p| > 0 && p[0].UInt8? then Some((p[0].v, p[1..])) else None
  }

  // Each read undoes the write of one token, whatever follows it.

  lemma ReadIntPut(x: int, rest: Packet)
    ensures ReadInt([Int(x)] + rest) == Some((x, rest))
  {
    assert ([Int(x)] + rest)[1..] == rest;
  }

  lemma ReadUInt32Put(x: uint32, rest: Packet)
    ensures ReadUInt32([UInt32(x)] + rest) == Some((x, rest))
  {
    assert ([UInt32(x)] + rest)[1..] == rest;
  }

  lemma ReadFloatPut(x: real, rest: Packet)
    ensures ReadFloat([Float(x)] + rest) == Some((x, rest))
  {
    assert ([Float(x)] + rest)[1..] == rest;
  }

  lemma ReadBoolPut(x: bool, rest: Packet)
    ensures ReadBool([Bool(x)] + rest) == Some((x, rest))
  {
    assert ([Bool(x)] + rest)[1..] == rest;
  }

  lemma ReadUInt8Put(x: byte, rest: Packet)
    ensures ReadUInt8([UInt8(x)] + rest) == Some((x, rest))
  {
    assert ([UInt8(x)] + rest)[1..] == rest;
  }
}
