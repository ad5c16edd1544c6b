/**
 * The snapshot records the server and clients exchange, and their packet
 * layout. The source names the fields by single letters; the letter each
 * field stands for is given beside it.
 */
module GameStates {
  import opened Numerics
  import opened Wrappers
  import opened Wire

  /** One rocket's state. */
  datatype RocketState = RocketState(
    playerId: int,            // a
    position: Vec,            // b
    velocity: Vec,            // c
    rotation: real,           // d
    angularVelocity: real,    // e
    thrustLevel: real,        // f
    mass: real,               // g
    color: Color,             // h
    timestamp: real,          // i
    authoritative: bool)      // j

  /** One planet's state. */
  datatype PlanetState = PlanetState(
    id: int,                  // a
    position: Vec,            // b
    velocity: Vec,            // c
    mass: real,               // d
    radius: real,             // e
    color: Color,             // f
    ownerId: int,             // g
    timestamp: real)          // h

  /** A whole-world snapshot. The sequence number is an `unsigned long` in the
      source; here it is unbounded. */
  datatype GameState = GameState(
    sequence: nat,                // a
    timestamp: real,              // b
    rockets: seq<RocketState>,    // c
    planets: seq<PlanetState>,    // d
    initialState: bool)           // e

  /** A default-constructed `GameState`: no rockets, no planets, and its
      scalar fields value-initialised to zero and false. */
  const EmptyGameState: GameState := GameState(0, 0.0, [], [], false)

  // Each `PutX(x, rest)` is the tokens `packet << x` appends, followed by
  // `rest`: the form in which a read of `x` is undone step by step.
  // `EncodeX(x)` is `PutX(x, [])`.

  // ----- Vector2f and Color -----

  /** x then y. */
  function PutVec(v: Vec, rest: Packet): Packet {
    [Float(v.x), Float(v.y)] + rest
  }

  function DecodeVec(p: Packet): (r: Option<(Vec, Packet)>)
    ensures r.Some? ==> p == PutVec(r.value.0, r.value.1)
  {
    var x := ReadFloat(p);
    if x.None? then None else
    var y := ReadFloat(x.value.1);
    if y.None? then None else
    Some((Vec(x.value.0, y.value.0), y.value.1))
  }

  /** r, g, b, a. */
  function PutColor(c: Color, rest: Packet): Packet {
    [UInt8(c.r), UInt8(c.g), UInt8(c.b), UInt8(c.a)] + rest
  }

  function DecodeColor(p: Packet): (r: Option<(Color, Packet)>)
    ensures r.Some? ==> p == PutColor(r.value.0, r.value.1)
  {
    var r0 := ReadUInt8(p);
    if r0.None? then None else
    var g0 := ReadUInt8(r0.value.1);
    if g0.None? then None else
    var b0 := ReadUInt8(g0.value.1);
    if b0.None? then None else
    var a0 := ReadUInt8(b0.value.1);
    if a0.None? then None else
    Some((Color(r0.value.0, g0.value.0, b0.value.0, a0.value.0), a0.value.1))
  }

  lemma VecRoundTrip(v: Vec, rest: Packet)
    ensures DecodeVec(PutVec(v, rest)) == Some((v, rest))
  {
    assert PutVec(v, rest)[1..] == [Float(v.y)] + rest;
  }

  lemma ColorRoundTrip(c: Color, rest: Packet)
    ensures DecodeColor(PutColor(c, rest)) == Some((c, rest))
  {
    var p := PutColor(c, rest);
    assert p[1..] == [UInt8(c.g), UInt8(c.b), UInt8(c.a)] + rest;
    assert p[1..][1..] == [UInt8(c.b), UInt8(c.a)] + rest;
    assert p[1..][1..][1..] == [UInt8(c.a)] + rest;
  }

  // ----- RocketState and PlanetState -----

  /** Fields a..j in declaration order. */
  function PutRocket(s: RocketState, rest: Packet): Packet {
    [Int(s.playerId)] + PutVec(s.position, PutVec(s.velocity,
      [Float(s.rotation)] + ([Float(s.angularVelocity)] + ([Float(s.thrustLevel)] + ([Float(s.mass)] +
      PutColor(s.color, [Float(s.timestamp)] + ([Bool(s.authoritative)] + rest)))))))
  }

  function DecodeRocket(p: Packet): (r: Option<(RocketState, Packet)>)
    ensures r.Some? ==> p == PutRocket(r.value.0, r.value.1)
  {
    var a := ReadInt(p);
    if a.None? then None else
    var b := DecodeVec(a.value.1);
    if b.None? then None else
    var c := DecodeVec(b.value.1);
    if c.None? then None else
    var d := ReadFloat(c.value.1);
    if d.None? then None else
    var e := ReadFloat(d.value.1);
    if e.None? then None else
    var f := ReadFloat(e.value.1);
    if f.None? then None else
    var g := ReadFloat(f.value.1);
    if g.None? then None else
    var h := DecodeColor(g.value.1);
    if h.None? then None else
    var i := ReadFloat(h.value.1);
    if i.None? then None else
    var j := ReadBool(i.value.1);
    if j.None? then None else
    Some((RocketState(a.value.0, b.value.0, c.value.0, d.value.0, e.value.0,
                      f.value.0, g.value.0, h.value.0, i.value.0, j.value.0), j.value.1))
  }

  /** Fields a..h in declaration order. */
  function PutPlanet(s: PlanetState, rest: Packet): Packet {
    [Int(s.id)] + PutVec(s.position, PutVec(s.velocity,
      [Float(s.mass)] + ([Float(s.radius)] +
      PutColor(s.color, [Int(s.ownerId)] + ([Float(s.timestamp)] + rest)))))
  }

  function DecodePlanet(p: Packet): (r: Option<(PlanetState, Packet)>)
    ensures r.Some? ==> p == PutPlanet(r.value.0, r.value.1)
  {
    var a := ReadInt(p);
    if a.None? then None else
    var b := DecodeVec(a.value.1);
    if b.None? then None else
    var c := DecodeVec(b.value.1);
    if c.None? then None else
    var d := ReadFloat(c.value.1);
    if d.None? then None else
    var e := ReadFloat(d.value.1);
    if e.None? then None else
    var f := DecodeColor(e.value.1);
    if f.None? then None else
    var g := ReadInt(f.value.1);
    if g.None? then None else
    var h := ReadFloat(g.value.1);
    if h.None? then None else
    Some((PlanetState(a.value.0, b.value.0, c.value.0, d.value.0, e.value.0,
                      f.value.0, g.value.0, h.value.0), h.value.1))
  }

  lemma RocketRoundTrip(s: RocketState, rest: Packet)
    ensures DecodeRocket(PutRocket(s, rest)) == Some((s, rest))
  {
    var tail := [Float(s.rotation)] + ([Float(s.angularVelocity)] + ([Float(s.thrustLevel)] + ([Float(s.mass)] +
      PutColor(s.color, [Float(s.timestamp)] + ([Bool(s.authoritative)] + rest)))));
    VecRoundTrip(s.position, PutVec(s.velocity, tail));
    VecRoundTrip(s.velocity, tail);
    ColorRoundTrip(s.color, [Float(s.timestamp)] + ([Bool(s.authoritative)] + rest));
  }

  lemma PlanetRoundTrip(s: PlanetState, rest: Packet)
    ensures DecodePlanet(PutPlanet(s, rest)) == Some((s, rest))
  {
    var tail := [Float(s.mass)] + ([Float(s.radius)] +
      PutColor(s.color, [Int(s.ownerId)] + ([Float(s.timestamp)] + rest)));
    VecRoundTrip(s.position, PutVec(s.velocity, tail));
    VecRoundTrip(s.velocity, tail);
    ColorRoundTrip(s.color, [Int(s.ownerId)] + ([Float(s.timestamp)] + rest));
  }

  // ----- Appending to a packet -----

  function EncodeRocket(s: RocketState): Packet { PutRocket(s, []) }
  function EncodePlanet(s: PlanetState): Packet { PutPlanet(s, []) }

  /** `packet << rocket` appends `EncodeRocket(rocket)`. */
  lemma PutRocketAppends(s: RocketState, rest: Packet)
    ensures PutRocket(s, rest) == EncodeRocket(s) + rest
  {
    var tail := [Float(s.timestamp)] + ([Bool(s.authoritative)] + rest);
    var tail0 := [Float(s.timestamp)] + ([Bool(s.authoritative)] + []);
    assert tail == tail0 + rest;
    assert PutColor(s.color, tail) == PutColor(s.color, tail0) + rest;
    var mid := [Float(s.rotation)] + ([Float(s.angularVelocity)] + ([Float(s.thrustLevel)] + ([Float(s.mass)] + PutColor(s.color, tail))));
    var mid0 := [Float(s.rotation)] + ([Float(s.angularVelocity)] + ([Float(s.thrustLevel)] + ([Float(s.mass)] + PutColor(s.color, tail0))));
    assert mid == mid0 + rest;
    assert PutVec(s.velocity, mid) == PutVec(s.velocity, mid0) + rest;
    assert PutVec(s.position, PutVec(s.velocity, mid)) == PutVec(s.position, PutVec(s.velocity, mid0)) + rest;
  }

  /** `packet << planet` appends `EncodePlanet(planet)`. */
  lemma PutPlanetAppends(s: PlanetState, rest: Packet)
    ensures PutPlanet(s, rest) == EncodePlanet(s) + rest
  {
    var tail := [Int(s.ownerId)] + ([Float(s.timestamp)] + rest);
    var tail0 := [Int(s.ownerId)] + ([Float(s.timestamp)] + []);
    assert tail == tail0 + rest;
    assert PutColor(s.color, tail) == PutColor(s.color, tail0) + rest;
    var mid := [Float(s.mass)] + ([Float(s.radius)] + PutColor(s.color, tail));
    var mid0 := [Float(s.mass)] + ([Float(s.radius)] + PutColor(s.color, tail0));
    assert mid == mid0 + rest;
    assert PutVec(s.velocity, mid) == PutVec(s.velocity, mid0) + rest;
    assert PutVec(s.position, PutVec(s.velocity, mid)) == PutVec(s.position, PutVec(s.velocity, mid0)) + rest;
  }

  // ----- Count-prefixed lists -----

  /** `put(x, rest)` is undone by `dec`, whatever follows. */
  ghost predicate Undoes<T(!new)>(dec: Packet -> Option<(T, Packet)>, put: (T, Packet) -> Packet) {
    forall x, rest :: dec(put(x, rest)) == Some((x, rest))
  }

  /** Whatever `dec` reads successfully is exactly the encoding of its result. */
  ghost predicate Inverts<T>(dec: Packet -> Option<(T, Packet)>, put: (T, Packet) -> Packet) {
    forall q :: dec(q).Some? ==> q == put(dec(q).value.0, dec(q).value.1)
  }

  /** `put` appends a fixed block of tokens in front of what follows. */
  ghost predicate Appends<T(!new)>(put: (T, Packet) -> Packet) {
    forall x, rest :: put(x, rest) == put(x, []) + rest
  }

  /** The entries of `xs` one after the other, then `rest`. */
  function PutList<T>(put: (T, Packet) -> Packet, xs: seq<T>, rest: Packet): Packet
    decreases |xs|
  {
    if xs == [] then rest else put(xs[0], PutList(put, xs[1..], rest))
  }

  /** Reads `n` entries one after the other, failing if any read fails. A
      successful read gives exactly `n` entries. */
  function DecodeList<T>(dec: Packet -> Option<(T, Packet)>, n: nat, p: Packet): (r: Option<(seq<T>, Packet)>)
    ensures r.Some? ==> |r.value.0| == n
    decreases n
  {
    if n == 0 then Some(([], p))
    else
      var first := dec(p);
      if first.None? then None
      else
        var more := DecodeList(dec, n - 1, first.value.1);
        if more.None? then None else Some(([first.value.0] + more.value.0, more.value.1))
  }

  lemma {:induction false} ListRoundTrip<T(!new)>(put: (T, Packet) -> Packet, dec: Packet -> Option<(T, Packet)>, xs: seq<T>, rest: Packet)
    requires Undoes(dec, put)
    ensures DecodeList(dec, |xs|, PutList(put, xs, rest)) == Some((xs, rest))
    decreases |xs|
  {
    if xs != [] {
      assert dec(put(xs[0], PutList(put, xs[1..], rest))) == Some((xs[0], PutList(put, xs[1..], rest)));
      ListRoundTrip(put, dec, xs[1..], rest);
      assert [xs[0]] + xs[1..] == xs;
    }
  }

  lemma {:induction false} ListInverse<T>(put: (T, Packet) -> Packet, dec: Packet -> Option<(T, Packet)>, n: nat, p: Packet)
    requires Inverts(dec, put)
    ensures DecodeList(dec, n, p).Some? ==> p == PutList(put, DecodeList(dec, n, p).value.0, DecodeList(dec, n, p).value.1)
    decreases n
  {
    var r := DecodeList(dec, n, p);
    if n > 0 && r.Some? {
      var first := dec(p);
      assert p == put(first.value.0, first.value.1);
      ListInverse(put, dec, n - 1, first.value.1);
      var more := DecodeList(dec, n - 1, first.value.1);
      assert r.value.0[1..] == more.value.0;
    }
  }

  lemma {:induction false} ListAppends<T(!new)>(put: (T, Packet) -> Packet, xs: seq<T>, rest: Packet)
    requires Appends(put)
    ensures PutList(put, xs, rest) == PutList(put, xs, []) + rest
    decreases |xs|
  {
    if xs != [] {
      ListAppends(put, xs[1..], rest);
      assert put(xs[0], PutList(put, xs[1..], rest)) == put(xs[0], []) + PutList(put, xs[1..], rest);
      assert put(xs[0], PutList(put, xs[1..], [])) == put(xs[0], []) + PutList(put, xs[1..], []);
    }
  }

  /** Writing one more entry appends its encoding. */
  lemma {:induction false} ListSnoc<T(!new)>(put: (T, Packet) -> Packet, xs: seq<T>, x: T)
    requires Appends(put)
    ensures PutList(put, xs + [x], []) == PutList(put, xs, []) + put(x, [])
    decreases |xs|
  {
    if xs == [] {
      assert xs + [x] == [x];
    } else {
      assert (xs + [x])[1..] == xs[1..] + [x];
      ListSnoc(put, xs[1..], x);
      assert put(xs[0], PutList(put, xs[1..] + [x], [])) == put(xs[0], []) + PutList(put, xs[1..] + [x], []);
      assert put(xs[0], PutList(put, xs[1..], [])) == put(xs[0], []) + PutList(put, xs[1..], []);
    }
  }

  /** The rocket and planet encodings satisfy the three list conditions. */
  lemma RocketCodec()
    ensures Undoes(DecodeRocket, PutRocket) && Inverts(DecodeRocket, PutRocket) && Appends(PutRocket)
  {
    forall x, rest ensures DecodeRocket(PutRocket(x, rest)) == Some((x, rest)) {
      RocketRoundTrip(x, rest);
    }
    forall x, rest ensures PutRocket(x, rest) == PutRocket(x, []) + rest {
      PutRocketAppends(x, rest);
    }
  }

  lemma PlanetCodec()
    ensures Undoes(DecodePlanet, PutPlanet) && Inverts(DecodePlanet, PutPlanet) && Appends(PutPlanet)
  {
    forall x, rest ensures DecodePlanet(PutPlanet(x, rest)) == Some((x, rest)) {
      PlanetRoundTrip(x, rest);
    }
    forall x, rest ensures PutPlanet(x, rest) == PutPlanet(x, []) + rest {
      PutPlanetAppends(x, rest);
    }
  }

  lemma RocketsRoundTrip(rs: seq<RocketState>, rest: Packet)
    ensures DecodeList(DecodeRocket, |rs|, PutList(PutRocket, rs, rest)) == Some((rs, rest))
  {
    RocketCodec();
    ListRoundTrip(PutRocket, DecodeRocket, rs, rest);
  }

  lemma PlanetsRoundTrip(ps: seq<PlanetState>, rest: Packet)
    ensures DecodeList(DecodePlanet, |ps|, PutList(PutPlanet, ps, rest)) == Some((ps, rest))
  {
    PlanetCodec();
    ListRoundTrip(PutPlanet, DecodePlanet, ps, rest);
  }

  lemma RocketsAppend(rs: seq<RocketState>, rest: Packet)
    ensures PutList(PutRocket, rs, rest) == PutList(PutRocket, rs, []) + rest
  {
    RocketCodec();
    ListAppends(PutRocket, rs, rest);
  }

  // ----- GameState -----

  /** Sequence number as `uint32`, timestamp, initial-state flag, rocket count,
      rockets, planet count, planets. */
  function PutGameState(s: GameState, rest: Packet): Packet {
    [UInt32(ToUInt32(s.sequence))] + ([Float(s.timestamp)] + ([Bool(s.initialState)] +
    ([UInt32(ToUInt32(|s.rockets|))] + PutList(PutRocket, s.rockets,
      [UInt32(ToUInt32(|s.planets|))] + PutList(PutPlanet, s.planets, rest)))))
  }

  function EncodeGameState(s: GameState): Packet {
    PutGameState(s, [])
  }

  /** Reads the layout `PutGameState` writes. A successful read gives lists of
      exactly the counts read, a sequence number below 2^32, and consumes
      exactly the encoding of what it returns. */
  function DecodeGameState(p: Packet): (r: Option<(GameState, Packet)>)
    ensures r.Some? ==> r.value.0.sequence < UINT32_MODULUS
    ensures r.Some? ==> |r.value.0.rockets| < UINT32_MODULUS && |r.value.0.planets| < UINT32_MODULUS
    ensures r.Some? ==> p == PutGameState(r.value.0, r.value.1)
  {
    var a := ReadUInt32(p);
    if a.None? then None else
    var b := ReadFloat(a.value.1);
    if b.None? then None else
    var e := ReadBool(b.value.1);
    if e.None? then None else
    var nc := ReadUInt32(e.value.1);
    if nc.None? then None else
    var c := DecodeList(DecodeRocket, nc.value.0 as nat, nc.value.1);
    if c.None? then None else
    var nd := ReadUInt32(c.value.1);
    if nd.None? then None else
    var d := DecodeList(DecodePlanet, nd.value.0 as nat, nd.value.1);
    if d.None? then None else
    RocketCodec();
    PlanetCodec();
    ListInverse(PutRocket, DecodeRocket, nc.value.0 as nat, nc.value.1);
    ListInverse(PutPlanet, DecodePlanet, nd.value.0 as nat, nd.value.1);
    Some((GameState(a.value.0 as nat, b.value.0, c.value.0, d.value.0, e.value.0), d.value.1))
  }

  /** Decoding undoes encoding and leaves trailing data untouched, except that
      the sequence number comes back reduced modulo 2^32. Lists of 2^32 or more
      entries are outside this: their count is truncated on the wire. */
  lemma GameStateTruncatedRoundTrip(s: GameState, rest: Packet)
    requires |s.rockets| < UINT32_MODULUS && |s.planets| < UINT32_MODULUS
    ensures DecodeGameState(PutGameState(s, rest)) == Some((s.(sequence := s.sequence % UINT32_MODULUS), rest))
  {
    var pp := PutList(PutPlanet, s.planets, rest);
    var tail := [UInt32(ToUInt32(|s.planets|))] + pp;
    var pr := PutList(PutRocket, s.rockets, tail);
    var p3 := [UInt32(ToUInt32(|s.rockets|))] + pr;
    var p2 := [Bool(s.initialState)] + p3;
    var p1 := [Float(s.timestamp)] + p2;
    var p := [UInt32(ToUInt32(s.sequence))] + p1;
    assert p == PutGameState(s, rest);
    assert ReadUInt32(p) == Some((ToUInt32(s.sequence), p1));
    assert ReadFloat(p1) == Some((s.timestamp, p2));
    assert ReadBool(p2) == Some((s.initialState, p3));
    assert ReadUInt32(p3) == Some((ToUInt32(|s.rockets|), pr));
    RocketsRoundTrip(s.rockets, tail);
    assert ReadUInt32(tail) == Some((ToUInt32(|s.planets|), pp));
    PlanetsRoundTrip(s.planets, rest);
  }

  /** With a sequence number below 2^32 a snapshot round-trips exactly. */
  lemma GameStateRoundTrip(s: GameState, rest: Packet)
    requires s.sequence < UINT32_MODULUS
    requires |s.rockets| < UINT32_MODULUS && |s.planets| < UINT32_MODULUS
    ensures DecodeGameState(PutGameState(s, rest)) == Some((s, rest))
  {
    GameStateTruncatedRoundTrip(s, rest);
  }

  // ----- The loops of the GameState operators -----

  /** `for (x : xs) packet << x;` */
  method WriteList<T(!new)>(put: (T, Packet) -> Packet, packet: Packet, xs: seq<T>) returns (out: Packet)
    requires Appends(put)
    ensures out == packet + PutList(put, xs, [])
  {
    out := packet;
    var i := 0;
    while i < |xs|
      invariant i <= |xs|
      invariant out == packet + PutList(put, xs[..i], [])
    {
      assert xs[..i + 1] == xs[..i] + [xs[i]];
      ListSnoc(put, xs[..i], xs[i]);
      out := out + put(xs[i], []);
      i := i + 1;
    }
    assert xs[..i] == xs;
  }

  /** Appends a read list to the entries already read. */
  function Prepend<T>(acc: seq<T>, r: Option<(seq<T>, Packet)>): Option<(seq<T>, Packet)> {
    if r.None? then None else Some((acc + r.value.0, r.value.1))
  }

  /** One successful read moves an entry from the rest of the list to the
      entries already read. */
  lemma PrependStep<T>(dec: Packet -> Option<(T, Packet)>, acc: seq<T>, k: nat, p: Packet)
    requires k > 0 && dec(p).Some?
    ensures Prepend(acc, DecodeList(dec, k, p)) == Prepend(acc + [dec(p).value.0], DecodeList(dec, k - 1, dec(p).value.1))
  {
    var x := dec(p);
    var more := DecodeList(dec, k - 1, x.value.1);
    if more.Some? {
      assert acc + ([x.value.0] + more.value.0) == acc + [x.value.0] + more.value.0;
    }
  }

  /** `resize(n)` and `n` reads into the resized vector, giving up at the
      first failed read. */
  method ReadList<T>(dec: Packet -> Option<(T, Packet)>, n: nat, p: Packet) returns (r: Option<(seq<T>, Packet)>)
    ensures r == DecodeList(dec, n, p)
  {
    var xs: seq<T> := [];
    var cur := p;
    var i: nat := 0;
    var whole := DecodeList(dec, n, p);
    if whole.Some? {
      assert [] + whole.value.0 == whole.value.0;
    }
    while i < n
      invariant i <= n
      invariant DecodeList(dec, n, p) == Prepend(xs, DecodeList(dec, n - i, cur))
    {
      var x := dec(cur);
      if x.None? { return None; }
      PrependStep(dec, xs, n - i, cur);
      xs := xs + [x.value.0];
      cur := x.value.1;
      i := i + 1;
    }
    assert xs + [] == xs;
    r := Some((xs, cur));
  }

  /** The encoding of a snapshot is its header and the two encoded lists
      written one after the other. */
  lemma EncodeGameStateLayout(s: GameState)
    ensures EncodeGameState(s)
         == [UInt32(ToUInt32(s.sequence)), Float(s.timestamp), Bool(s.initialState), UInt32(ToUInt32(|s.rockets|))]
          + PutList(PutRocket, s.rockets, []) + [UInt32(ToUInt32(|s.planets|))] + PutList(PutPlanet, s.planets, [])
  {
    var count := [UInt32(ToUInt32(|s.planets|))];
    var planets := PutList(PutPlanet, s.planets, []);
    EncodeGameStateHeader(s);
    RocketsAppend(s.rockets, count + planets);
    Regroup([UInt32(ToUInt32(s.sequence)), Float(s.timestamp), Bool(s.initialState), UInt32(ToUInt32(|s.rockets|))],
      PutList(PutRocket, s.rockets, []), count, planets, PutList(PutRocket, s.rockets, count + planets));
  }

  lemma EncodeGameStateHeader(s: GameState)
    ensures EncodeGameState(s)
         == [UInt32(ToUInt32(s.sequence)), Float(s.timestamp), Bool(s.initialState), UInt32(ToUInt32(|s.rockets|))]
          + PutList(PutRocket, s.rockets, [UInt32(ToUInt32(|s.planets|))] + PutList(PutPlanet, s.planets, []))
  {
    var header := [UInt32(ToUInt32(s.sequence)), Float(s.timestamp), Bool(s.initialState), UInt32(ToUInt32(|s.rockets|))];
    var y := PutList(PutRocket, s.rockets, [UInt32(ToUInt32(|s.planets|))] + PutList(PutPlanet, s.planets, []));
    assert EncodeGameState(s) == [UInt32(ToUInt32(s.sequence))] + ([Float(s.timestamp)] + ([Bool(s.initialState)] + ([UInt32(ToUInt32(|s.rockets|))] + y)));
    assert [UInt32(ToUInt32(s.sequence))] + ([Float(s.timestamp)] + ([Bool(s.initialState)] + ([UInt32(ToUInt32(|s.rockets|))] + y))) == header + y;
  }

  /** The two list loops of `packet << state` together write its encoding. */
  lemma WrittenLayout(packet: Packet, s: GameState, withRockets: Packet, out: Packet)
    requires withRockets == packet + [UInt32(ToUInt32(s.sequence)), Float(s.timestamp), Bool(s.initialState), UInt32(ToUInt32(|s.rockets|))]
                          + PutList(PutRocket, s.rockets, [])
    requires out == withRockets + [UInt32(ToUInt32(|s.planets|))] + PutList(PutPlanet, s.planets, [])
    ensures out == packet + EncodeGameState(s)
  {
    var h := [UInt32(ToUInt32(s.sequence)), Float(s.timestamp), Bool(s.initialState), UInt32(ToUInt32(|s.rockets|))];
    var rs := PutList(PutRocket, s.rockets, []);
    var c := [UInt32(ToUInt32(|s.planets|))];
    var ps := PutList(PutPlanet, s.planets, []);
    EncodeGameStateLayout(s);
    AppendAssoc(packet, h + rs + c, ps);
    AppendAssoc(packet, h + rs, c);
    AppendAssoc(packet, h, rs);
  }

  lemma AppendAssoc(a: Packet, b: Packet, c: Packet)
    ensures a + (b + c) == a + b + c
  {
  }

  lemma Regroup(a: Packet, b: Packet, c: Packet, d: Packet, y: Packet)
    requires y == b + (c + d)
    ensures a + y == a + b + c + d
  {
  }

  /** `packet << state`: the header, then each rocket, the planet count, then
      each planet, appended to `packet` one after the other. */
  method WriteGameState(packet: Packet, s: GameState) returns (out: Packet)
    ensures out == packet + EncodeGameState(s)
  {
    var header := [UInt32(ToUInt32(s.sequence)), Float(s.timestamp), Bool(s.initialState), UInt32(ToUInt32(|s.rockets|))];
    var count := [UInt32(ToUInt32(|s.planets|))];
    RocketCodec();
    var withRockets := WriteList(PutRocket, packet + header, s.rockets);
    PlanetCodec();
    out := WriteList(PutPlanet, withRockets + count, s.planets);
    WrittenLayout(packet, s, withRockets, out);
  }

  /** `packet >> state`: the header, the rockets, the planet count, the planets. */
  method ReadGameState(p: Packet) returns (r: Option<(GameState, Packet)>)
    ensures r == DecodeGameState(p)
  {
    var a := ReadUInt32(p);
    if a.None? { return None; }
    var b := ReadFloat(a.value.1);
    if b.None? { return None; }
    var e := ReadBool(b.value.1);
    if e.None? { return None; }
    var nc := ReadUInt32(e.value.1);
    if nc.None? { return None; }
    var c := ReadList(DecodeRocket, nc.value.0 as nat, nc.value.1);
    if c.None? { return None; }
    var nd := ReadUInt32(c.value.1);
    if nd.None? { return None; }
    var d := ReadList(DecodePlanet, nd.value.0 as nat, nd.value.1);
    if d.None? { return None; }
    r := Some((GameState(a.value.0 as nat, b.value.0, c.value.0, d.value.0, e.value.0), d.value.1));
  }
}
