/**
 * `PlayerInput`: one frame of a client's controls, sent to the server together
 * with the client's current rocket state.
 */
module PlayerInputs {
  import opened Numerics
  import opened Wrappers
  import opened Wire
  import opened GameStates

  datatype PlayerInput = PlayerInput(
    playerId: int,                  // a
    thrustForward: bool,            // b
    thrustBackward: bool,           // c
    rotateLeft: bool,               // d
    rotateRight: bool,              // e
    switchVehicle: bool,            // f
    thrustLevel: real,              // g
    deltaTime: real,                // h
    clientTimestamp: real,          // i
    lastServerStateTimestamp: real, // j
    clientRocketState: RocketState) // k

  /** The rocket state a default-constructed `PlayerInput` carries. Its vectors
      and colour are zero and black by their own constructors; its scalar fields
      are left indeterminate by the source and are zero and false here. */
  const DefaultRocketState: RocketState :=
    RocketState(0, Zero, Zero, 0.0, 0.0, 0.0, 0.0, Black, 0.0, false)

  /** No player, no intent, every scalar zero. */
  function DefaultPlayerInput(): (p: PlayerInput)
    ensures p.playerId == 0
    ensures !p.thrustForward && !p.thrustBackward && !p.rotateLeft && !p.rotateRight && !p.switchVehicle
    ensures p.thrustLevel == 0.0 && p.deltaTime == 0.0
    ensures p.clientTimestamp == 0.0 && p.lastServerStateTimestamp == 0.0
  {
    PlayerInput(0, false, false, false, false, false, 0.0, 0.0, 0.0, 0.0, DefaultRocketState)
  }

  /** Fields a..j in order, then the embedded rocket state. */
  function PutPlayerInput(p: PlayerInput, rest: Packet): Packet {
    [Int(p.playerId)] + ([Bool(p.thrustForward)] + ([Bool(p.thrustBackward)] +
    ([Bool(p.rotateLeft)] + ([Bool(p.rotateRight)] + ([Bool(p.switchVehicle)] +
    ([Float(p.thrustLevel)] + ([Float(p.deltaTime)] + ([Float(p.clientTimestamp)] +
    ([Float(p.lastServerStateTimestamp)] + PutRocket(p.clientRocketState, rest))))))))))
  }

  function EncodePlayerInput(p: PlayerInput): Packet {
    PutPlayerInput(p, [])
  }

  /** Reads the fields in the order they are written; whatever it reads
      successfully is exactly the encoding of its result. */
  function DecodePlayerInput(q: Packet): (r: Option<(PlayerInput, Packet)>)
    ensures r.Some? ==> q == PutPlayerInput(r.value.0, r.value.1)
  {
    var a := ReadInt(q);
    if a.None? then None else
    var b := ReadBool(a.value.1);
    if b.None? then None else
    var c := ReadBool(b.value.1);
    if c.None? then None else
    var d := ReadBool(c.value.1);
    if d.None? then None else
    var e := ReadBool(d.value.1);
    if e.None? then None else
    var f := ReadBool(e.value.1);
    if f.None? then None else
    var g := ReadFloat(f.value.1);
    if g.None? then None else
    var h := ReadFloat(g.value.1);
    if h.None? then None else
    var i := ReadFloat(h.value.1);
    if i.None? then None else
    var j := ReadFloat(i.value.1);
    if j.None? then None else
    var k := DecodeRocket(j.value.1);
    if k.None? then None else
    Some((PlayerInput(a.value.0, b.value.0, c.value.0, d.value.0, e.value.0, f.value.0,
                      g.value.0, h.value.0, i.value.0, j.value.0, k.value.0), k.value.1))
  }

  /** Decoding undoes encoding, embedded rocket state included, and leaves
      whatever follows untouched. */
  lemma PlayerInputRoundTrip(p: PlayerInput, rest: Packet)
    ensures DecodePlayerInput(PutPlayerInput(p, rest)) == Some((p, rest))
  {
    var q10 := PutRocket(p.clientRocketState, rest);
    var q9 := [Float(p.lastServerStateTimestamp)] + q10;
    var q8 := [Float(p.clientTimestamp)] + q9;
    var q7 := [Float(p.deltaTime)] + q8;
    var q6 := [Float(p.thrustLevel)] + q7;
    var q5 := [Bool(p.switchVehicle)] + q6;
    var q4 := [Bool(p.rotateRight)] + q5;
    var q3 := [Bool(p.rotateLeft)] + q4;
    var q2 := [Bool(p.thrustBackward)] + q3;
    var q1 := [Bool(p.thrustForward)] + q2;
    var q0 := [Int(p.playerId)] + q1;
    ReadIntPut(p.playerId, q1);
    ReadBoolPut(p.thrustForward, q2);
    ReadBoolPut(p.thrustBackward, q3);
    ReadBoolPut(p.rotateLeft, q4);
    ReadBoolPut(p.rotateRight, q5);
    ReadBoolPut(p.switchVehicle, q6);
    ReadFloatPut(p.thrustLevel, q7);
    ReadFloatPut(p.deltaTime, q8);
    ReadFloatPut(p.clientTimestamp, q9);
    ReadFloatPut(p.lastServerStateTimestamp, q10);
    RocketRoundTrip(p.clientRocketState, rest);
  }
}
