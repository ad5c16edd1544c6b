/**
 * `Car`: the ground vehicle. Every operation of it is a stub: it never reports
 * being on the ground and none of its operations changes it, so it is a value.
 */
module Cars {
  import opened Numerics

  datatype Car = Car(position: Vec, velocity: Vec) {
    /** The stub never reports ground contact. */
    function IsOnGround(): (b: bool)
      ensures !b
    {
      false
    }

    function Update(dt: real): (c: Car)
      ensures c == this
    {
      this
    }

    /** Takes the planet positions and radii the source passes; ignores them. */
    function CheckGrounding(planets: seq<(Vec, real)>): (c: Car)
      ensures c == this
    {
      this
    }

    function Accelerate(amount: real): (c: Car)
      ensures c == this
    {
      this
    }

    function Rotate(amount: real): (c: Car)
      ensures c == this
    {
      this
    }

    /** Receives the rocket's position and velocity and, as in the source, does
        not take them over. */
    function InitializeFromRocket(rocketPosition: Vec, rocketVelocity: Vec): (c: Car)
      ensures c == this
    {
      this
    }
  }

  /** The operations a caller can use leave a car as it was, and it never
      reports ground contact. */
  lemma CarIsInert(c: Car, dt: real, amount: real, planets: seq<(Vec, real)>, p: Vec, v: Vec)
    ensures c.Update(dt) == c && c.CheckGrounding(planets) == c
    ensures c.Accelerate(amount) == c && c.Rotate(amount) == c
    ensures c.InitializeFromRocket(p, v) == c
    ensures !c.IsOnGround()
  {
  }
}
