/**
 * `Rocket`: a body with an orientation, a spin, a throttle and a mass. In the
 * source it derives from `GameObject`; here it carries that base class's
 * position and velocity, and its setters, itself.
 * Rotation input only ever changes the spin; the orientation follows the spin
 * when the rocket is integrated, and the spin decays by 2% per step.
 */
module Rockets {
  import opened Numerics
  import opened GameConstants

  /** Spin kept after each integration step. */
  const ANGULAR_DAMPING: real := 0.98

  /** Unit-ish thrust direction for an orientation in degrees:
      `(sin(rad), -cos(rad))` with `rad = rotation * 3.14159 / 180`. */
  function ThrustDirection(lib: MathLib, rotation: real): Vec {
    var rad := rotation * 3.14159 / 180.0;
    Vec(lib.sin(rad), -lib.cos(rad))
  }

  /** Velocity change of one `applyThrust(amount)` call:
      `direction * amount * thrustLevel * ENGINE_THRUST_POWER / mass`.
      No throttle or no amount gives no change. */
  function ThrustImpulse(lib: MathLib, rotation: real, amount: real, thrustLevel: real, mass: real): (dv: Vec)
    ensures amount == 0.0 || thrustLevel == 0.0 ==> dv == Zero
    ensures mass != 0.0 ==> dv.Scale(mass) == ThrustDirection(lib, rotation).Scale(amount * thrustLevel * ENGINE_THRUST_POWER)
  {
    var k := Div(amount * thrustLevel * ENGINE_THRUST_POWER, mass);
    ThrustDirection(lib, rotation).Scale(k)
  }

  /** Every field of a rocket, so that a method can say which one it changes. */
  datatype RocketView = RocketView(position: Vec, velocity: Vec, rotation: real, angularVelocity: real,
                                   thrustLevel: real, mass: real, color: Color, playerId: int,
                                   lastStateTimestamp: real)

  /** A rocket after one integration step of `dt`: it moves by its velocity,
      turns by its spin, and the spin decays. */
  function Stepped(v: RocketView, dt: real): (r: RocketView)
    ensures r.(position := v.position, rotation := v.rotation, angularVelocity := v.angularVelocity) == v
    ensures r.position.Minus(v.position) == v.velocity.Scale(dt)
    ensures r.rotation - v.rotation == v.angularVelocity * dt
    ensures r.angularVelocity == ANGULAR_DAMPING * v.angularVelocity
    ensures v.angularVelocity >= 0.0 ==> 0.0 <= r.angularVelocity <= v.angularVelocity
    ensures v.angularVelocity <= 0.0 ==> v.angularVelocity <= r.angularVelocity <= 0.0
  {
    v.(position := v.position.Plus(v.velocity.Scale(dt)),
       rotation := v.rotation + v.angularVelocity * dt,
       angularVelocity := v.angularVelocity * ANGULAR_DAMPING)
  }

  class Rocket {
    var position: Vec
    var velocity: Vec
    var rotation: real
    var angularVelocity: real
    var thrustLevel: real
    var mass: real
    var color: Color
    var playerId: int
    /** When the rocket's state was last overwritten from a snapshot; not set
        by the constructor in the source, 0 here. */
    var lastStateTimestamp: real

    function View(): RocketView
      reads this
    {
      RocketView(position, velocity, rotation, angularVelocity, thrustLevel, mass, color, playerId, lastStateTimestamp)
    }

    /** A new rocket points up, does not spin, and has its throttle closed. */
    constructor (pos: Vec, vel: Vec, playerId: int, mass: real, color: Color)
      ensures View() == RocketView(pos, vel, 0.0, 0.0, 0.0, mass, color, playerId, 0.0)
    {
      position := pos;
      velocity := vel;
      rotation := 0.0;
      angularVelocity := 0.0;
      thrustLevel := 0.0;
      this.mass := mass;
      this.color := color;
      this.playerId := playerId;
      lastStateTimestamp := 0.0;
    }

    /** Adds the thrust impulse to the velocity; only the velocity changes,
        and not at all when the throttle or the amount is zero. */
    method ApplyThrust(lib: MathLib, amount: real)
      modifies this
      ensures View() == old(View()).(velocity := old(velocity).Plus(ThrustImpulse(lib, rotation, amount, thrustLevel, mass)))
      ensures amount == 0.0 || thrustLevel == 0.0 ==> View() == old(View())
    {
      velocity := velocity.Plus(ThrustImpulse(lib, rotation, amount, thrustLevel, mass));
    }

    /** Rotation input is accumulated into the spin only. */
    method Rotate(amount: real)
      modifies this
      ensures View() == old(View()).(angularVelocity := old(angularVelocity) + amount)
    {
      angularVelocity := angularVelocity + amount;
    }

    /** Stores the level clamped to [0, 1] (see `Numerics.Clamp01`). */
    method SetThrustLevel(level: real)
      modifies this
      ensures View() == old(View()).(thrustLevel := Clamp01(level))
      ensures 0.0 <= thrustLevel <= 1.0
      ensures 0.0 <= level <= 1.0 ==> thrustLevel == level
      ensures Clamp01(thrustLevel) == thrustLevel
    {
      thrustLevel := Clamp01(level);
    }

    /** One step: position follows velocity, orientation follows spin, spin
        decays. Velocity is untouched. */
    method Update(dt: real)
      modifies this
      ensures View() == Stepped(old(View()), dt)
    {
      position := position.Plus(velocity.Scale(dt));
      rotation := rotation + angularVelocity * dt;
      angularVelocity := angularVelocity * ANGULAR_DAMPING;
    }

    method SetPosition(pos: Vec)
      modifies this
      ensures View() == old(View()).(position := pos)
    {
      position := pos;
    }

    method SetVelocity(vel: Vec)
      modifies this
      ensures View() == old(View()).(velocity := vel)
    {
      velocity := vel;
    }

    method SetRotation(rot: real)
      modifies this
      ensures View() == old(View()).(rotation := rot)
    {
      rotation := rot;
    }

    method SetMass(newMass: real)
      modifies this
      ensures View() == old(View()).(mass := newMass)
    {
      mass := newMass;
    }

    method SetOwnerId(id: int)
      modifies this
      ensures View() == old(View()).(playerId := id)
    {
      playerId := id;
    }

    method SetLastStateTimestamp(t: real)
      modifies this
      ensures View() == old(View()).(lastStateTimestamp := t)
    {
      lastStateTimestamp := t;
    }

    method SetColor(c: Color)
      modifies this
      ensures View() == old(View()).(color := c)
    {
      color := c;
    }
  }

  /** Orientation and spin after `n` steps of `dt` with no rotation input. */
  function Spin(rotation: real, spin: real, dt: real, n: nat): (rs: (real, real))
    decreases n
  {
    if n == 0 then (rotation, spin)
    else Spin(rotation + spin * dt, spin * ANGULAR_DAMPING, dt, n - 1)
  }

  /** `ANGULAR_DAMPING` to the power `n`: a factor in (0, 1]. */
  function DampingFactor(n: nat): (k: real)
    ensures 0.0 < k <= 1.0
  {
    if n == 0 then 1.0 else ANGULAR_DAMPING * DampingFactor(n - 1)
  }

  /** Without rotation input the spin only decays: after `n` steps it is the
      initial spin scaled by `DampingFactor(n)`, so it never changes sign and
      never grows. */
  lemma {:induction false} SpinDecays(rotation: real, spin: real, dt: real, n: nat)
    ensures Spin(rotation, spin, dt, n).1 == spin * DampingFactor(n)
    decreases n
  {
    if n > 0 {
      SpinDecays(rotation + spin * dt, spin * ANGULAR_DAMPING, dt, n - 1);
    }
  }
}
