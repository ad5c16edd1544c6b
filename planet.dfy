/**
 * `Planet`: a body with a mass, a radius derived from it, a colour and an owner.
 * In the source it derives from `GameObject`; here it carries that base
 * class's position and velocity, and its setters, itself.
 */
module Planets {
  import opened Numerics
  import opened GameConstants

  /** The cube-root rule: `BASE_RADIUS_FACTOR * pow(mass / REFERENCE_MASS, 1/3)`. */
  function RadiusFor(lib: MathLib, mass: real): real {
    BASE_RADIUS_FACTOR * lib.pow(mass / REFERENCE_MASS, 1.0 / 3.0)
  }

  /** Every field of a planet, so that a method can say which one it changes. */
  datatype PlanetView = PlanetView(position: Vec, velocity: Vec, mass: real, radius: real, color: Color, ownerId: int)

  /** A planet after one integration step of `dt`: it moves by its velocity. */
  function Moved(v: PlanetView, dt: real): (r: PlanetView)
    ensures r.(position := v.position) == v
    ensures r.position.Minus(v.position) == v.velocity.Scale(dt)
    ensures dt == 0.0 || v.velocity == Zero ==> r == v
  {
    v.(position := v.position.Plus(v.velocity.Scale(dt)))
  }

  class Planet {
    var position: Vec
    var velocity: Vec
    var mass: real
    var radius: real
    var color: Color
    /** Not set by the constructor in the source; the model starts it at -1,
        the "no owner" value used elsewhere. */
    var ownerId: int

    function View(): PlanetView
      reads this
    {
      PlanetView(position, velocity, mass, radius, color, ownerId)
    }

    /** A positive radius is kept as given; otherwise it follows from the mass.
        A new planet is at rest. */
    constructor (lib: MathLib, pos: Vec, radius: real, mass: real, color: Color)
      ensures position == pos && velocity == Zero
      ensures this.mass == mass && this.color == color && this.ownerId == -1
      ensures radius > 0.0 ==> this.radius == radius
      ensures radius <= 0.0 ==> this.radius == RadiusFor(lib, mass)
    {
      position := pos;
      velocity := Zero;
      this.mass := mass;
      this.color := color;
      this.ownerId := -1;
      this.radius := if radius > 0.0 then radius else RadiusFor(lib, mass);
    }

    /** Moves the planet by `velocity * dt`; nothing else changes. */
    method Update(dt: real)
      modifies this
      ensures View() == Moved(old(View()), dt)
    {
      position := position.Plus(velocity.Scale(dt));
    }

    /** Recomputes the radius from the current mass. */
    method UpdateRadiusFromMass(lib: MathLib)
      modifies this
      ensures View() == old(View()).(radius := RadiusFor(lib, old(mass)))
    {
      radius := RadiusFor(lib, mass);
    }

    /** Stores the new mass; the radius follows it whatever it was before. */
    method SetMass(lib: MathLib, newMass: real)
      modifies this
      ensures View() == old(View()).(mass := newMass, radius := RadiusFor(lib, newMass))
    {
      mass := newMass;
      UpdateRadiusFromMass(lib);
    }

    method SetPosition(pos: Vec)
      modifies this
      ensures View() == old(View()).(position := pos)
    {
      position := pos;
    }

    method SetVelocity(vel: Vec)
      modifies this
      ensures View() == old(View()).(velocity := vel)
    {
      velocity := vel;
    }

    method SetOwnerId(id: int)
      modifies this
      ensures View() == old(View()).(ownerId := id)
    {
      ownerId := id;
    }
  }
}
