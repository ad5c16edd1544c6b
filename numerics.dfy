/**
 * Scalar and vector arithmetic shared by the physics code.
 *
 * Floating-point values are modelled as `real`. The transcendental helpers the
 * game calls (square root, `pow`, sine, cosine and the vector `normalize` of its
 * helper header) are not given a definition: every operation that needs them
 * receives a `MathLib` value whose fields stand for them, so that nothing is
 * assumed about their results.
 */
module Numerics {

  /** An 8-bit unsigned value (a colour channel, a `uint8_t` on the wire). */
  newtype byte = x: int | 0 <= x < 256

  /** `sf::Vector2f`. */
  datatype Vec = Vec(x: real, y: real) {
    function Plus(o: Vec): Vec { Vec(x + o.x, y + o.y) }
    function Minus(o: Vec): Vec { Vec(x - o.x, y - o.y) }
    function Scale(k: real): Vec { Vec(x * k, y * k) }
    function Dot(o: Vec): real { x * o.x + y * o.y }
    /** `x*x + y*y`, the quantity the source takes the square root of. */
    function SqNorm(): real { x * x + y * y }
  }

  const Zero: Vec := Vec(0.0, 0.0)

  lemma PlusAssoc(a: Vec, b: Vec, c: Vec)
    ensures a.Plus(b.Plus(c)) == a.Plus(b).Plus(c)
  {
  }

  /** `sf::Color`, four channels in the order r, g, b, a. */
  datatype Color = Color(r: byte, g: byte, b: byte, a: byte)

  const White: Color := Color(255, 255, 255, 255)
  const Blue: Color := Color(0, 0, 255, 255)
  /** The colour a default-constructed `sf::Color` holds. */
  const Black: Color := Color(0, 0, 0, 255)

  /** The uninterpreted numeric helpers: `std::sqrt`, `std::pow`, `std::sin`,
      `std::cos`, and the vector helper header's `normalize` and `distance`
      (that header is not part of this model). */
  datatype MathLib = MathLib(
    sqrt: real -> real,
    pow: (real, real) -> real,
    sin: real -> real,
    cos: real -> real,
    normalize: Vec -> Vec,
    distance: (Vec, Vec) -> real)

  /** Length of `v` as the source computes it: `sqrt(x*x + y*y)`. */
  function Length(lib: MathLib, v: Vec): real {
    lib.sqrt(v.SqNorm())
  }

  /** Real quotient. A zero divisor, where the source's floats would give an
      infinity or NaN, gives 0 here. */
  function Div(a: real, b: real): (q: real)
    ensures b != 0.0 ==> q * b == a
  {
    if b == 0.0 then 0.0 else a / b
  }

  /** `std::max(0.0f, std::min(1.0f, x))`. */
  function Clamp01(x: real): (r: real)
    ensures 0.0 <= r <= 1.0
    ensures 0.0 <= x <= 1.0 ==> r == x
    ensures x < 0.0 ==> r == 0.0
    ensures x > 1.0 ==> r == 1.0
  {
    if x < 0.0 then 0.0 else if x > 1.0 then 1.0 else x
  }

  /** `std::min(a, b)`. */
  function Min(a: real, b: real): (r: real)
    ensures r <= a && r <= b
    ensures r == a || r == b
  {
    if b < a then b else a
  }
}

/** The constants of `GameConstants.h` that the modelled code reads. */
module GameConstants {
  const G: real := 100.0
  const BASE_RADIUS_FACTOR: real := 100.0
  const REFERENCE_MASS: real := 50000.0
  const MAIN_PLANET_MASS: real := 50000.0
  const ROCKET_MASS: real := 1.0
  const ROCKET_SIZE: real := 15.0
  const TRAJECTORY_COLLISION_RADIUS: real := 12.0
  const FRICTION: real := 0.98
  const TRANSFORM_DISTANCE: real := 40.0
  const BASE_THRUST_MULTIPLIER: real := 1.875
  const ENGINE_THRUST_POWER: real := G * BASE_THRUST_MULTIPLIER
  const DEFAULT_PORT: int := 5000
  const SERVER_UPDATE_RATE: real := 0.05
  const MAX_CLIENTS: int := 16
  const CLIENT_TIMEOUT: real := 5.0
}
