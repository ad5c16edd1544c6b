/**
 * `VehicleManager`: one player's pair of vehicles, a rocket and a car, of which
 * exactly one is active, plus the planets the player can land on. It also
 * produces and consumes the rocket snapshots the network layer exchanges, and
 * keeps the timestamp of the last snapshot it accepted.
 *
 * The source holds both vehicles through owning pointers that its constructor
 * always fills, so its null checks never fire; the model's vehicles are simply
 * there.
 */
module VehicleManagers {
  import opened Numerics
  import opened GameConstants
  import opened Planets
  import opened Rockets
  import opened Cars
  import opened GameStates

  datatype VehicleType = ROCKET | CAR

  /** The planets of `xs` that are not null, in their original order. */
  function NonNull(xs: seq<Planet?>): (r: seq<Planet>)
    ensures forall k :: 0 <= k < |r| ==> r[k] in xs
    ensures forall k :: 0 <= k < |xs| && xs[k] != null ==> xs[k] in r
    ensures |r| <= |xs|
    decreases |xs|
  {
    if xs == [] then []
    else if xs[0] == null then NonNull(xs[1..])
    else [xs[0]] + NonNull(xs[1..])
  }

  /** Filtering distributes over concatenation: order is kept. */
  lemma {:induction false} NonNullAppend(xs: seq<Planet?>, ys: seq<Planet?>)
    ensures NonNull(xs + ys) == NonNull(xs) + NonNull(ys)
    decreases |xs|
  {
    if xs == [] {
      assert xs + ys == ys;
    } else {
      assert (xs + ys)[1..] == xs[1..] + ys;
      NonNullAppend(xs[1..], ys);
    }
  }

  /** A list without nulls is kept as it is. */
  lemma {:induction false} NonNullOfNonNull(xs: seq<Planet>)
    ensures NonNull(xs) == xs
    decreases |xs|
  {
    if xs != [] {
      NonNullOfNonNull(xs[1..]);
      assert [xs[0]] + xs[1..] == xs;
    }
  }

  /** The loop `for (planet : list) if (planet) d.push_back(planet);`. */
  method FilterNonNull(xs: seq<Planet?>) returns (r: seq<Planet>)
    ensures r == NonNull(xs)
  {
    r := [];
    var i := 0;
    while i < |xs|
      invariant i <= |xs|
      invariant r == NonNull(xs[..i])
    {
      assert xs[..i + 1] == xs[..i] + [xs[i]];
      NonNullAppend(xs[..i], [xs[i]]);
      if xs[i] != null {
        r := r + [xs[i]];
      }
      i := i + 1;
    }
    assert xs[..i] == xs;
  }

  /** `dist <= radius + TRANSFORM_DISTANCE` for planet `p`: close enough to land. */
  predicate CloseEnough(lib: MathLib, position: Vec, planetPosition: Vec, planetRadius: real) {
    lib.distance(position, planetPosition) <= planetRadius + TRANSFORM_DISTANCE
  }

  /** The rocket snapshot `createState` produces from a manager's fields: the
      rocket's own state in rocket mode (spin not tracked, so 0), an empty
      state otherwise. Both carry the owner and the manager's timestamp. */
  function Snapshot(owner: int, mode: VehicleType, position: Vec, velocity: Vec, rotation: real,
                    thrustLevel: real, mass: real, color: Color, timestamp: real): (s: RocketState)
    ensures s.playerId == owner && s.timestamp == timestamp && s.angularVelocity == 0.0
    ensures s.authoritative <==> mode == ROCKET
    ensures mode == ROCKET ==>
              s.position == position && s.velocity == velocity && s.rotation == rotation
              && s.thrustLevel == thrustLevel && s.mass == mass && s.color == color
    ensures mode == CAR ==>
              s.position == Zero && s.velocity == Zero && s.rotation == 0.0
              && s.thrustLevel == 0.0 && s.mass == 1.0 && s.color == White
  {
    if mode == ROCKET then
      RocketState(owner, position, velocity, rotation, 0.0, thrustLevel, mass, color, timestamp, true)
    else
      RocketState(owner, Zero, Zero, 0.0, 0.0, 0.0, 1.0, White, timestamp, false)
  }

  /** The three guards of `applyState`: our owner, rocket mode, a newer timestamp. */
  predicate Accepts(owner: int, mode: VehicleType, lastTimestamp: real, s: RocketState) {
    s.playerId == owner && mode == ROCKET && s.timestamp > lastTimestamp
  }

  /** A manager never accepts a snapshot it produced itself: its timestamp is
      the manager's own, not a newer one. */
  lemma OwnSnapshotNotReapplied(owner: int, mode: VehicleType, position: Vec, velocity: Vec, rotation: real,
                                thrustLevel: real, mass: real, color: Color, timestamp: real)
    ensures !Accepts(owner, mode, timestamp, Snapshot(owner, mode, position, velocity, rotation, thrustLevel, mass, color, timestamp))
  {
  }

  /** Applying an accepted state and then taking a snapshot gives back that
      state's position, velocity, rotation and timestamp, its thrust level
      clamped to [0, 1], and marks it authoritative. */
  lemma SnapshotAfterApply(owner: int, lastTimestamp: real, s: RocketState, mass: real, color: Color)
    requires Accepts(owner, ROCKET, lastTimestamp, s)
    ensures var t := Snapshot(owner, ROCKET, s.position, s.velocity, s.rotation, Clamp01(s.thrustLevel), mass, color, s.timestamp);
            t.playerId == s.playerId && t.position == s.position && t.velocity == s.velocity
            && t.rotation == s.rotation && t.timestamp == s.timestamp && t.authoritative
            && t.thrustLevel == Clamp01(s.thrustLevel)
            && (0.0 <= s.thrustLevel <= 1.0 && s.angularVelocity == 0.0 && s.mass == mass && s.color == color && s.authoritative ==> t == s)
  {
  }

  /** Every field of a manager, its rocket's included. */
  datatype ManagerView = ManagerView(active: VehicleType, car: Car, planets: seq<Planet>, ownerId: int,
                                     lastStateTimestamp: real, rocket: RocketView)

  /** A manager after one `update(dt)`: in rocket mode the rocket is integrated
      and, when there are planets, the manager takes over the rocket's
      timestamp; in car mode nothing changes (the stub car does nothing). */
  function ManagerStepped(v: ManagerView, dt: real): (r: ManagerView)
    ensures r.active == v.active && r.car == v.car && r.planets == v.planets && r.ownerId == v.ownerId
    ensures v.active == CAR ==> r == v
    ensures v.active == ROCKET ==> r.rocket == Stepped(v.rocket, dt)
    ensures |v.planets| == 0 ==> r.lastStateTimestamp == v.lastStateTimestamp
  {
    if v.active == CAR then v
    else
      var r := Stepped(v.rocket, dt);
      v.(rocket := r, lastStateTimestamp := if |v.planets| > 0 then r.lastStateTimestamp else v.lastStateTimestamp)
  }

  /** A manager after `applyState(s)`: an accepted state moves the rocket to
      the state's position, velocity and rotation, clamps its thrust and stamps
      both with the state's time; any other state leaves the manager as it is. */
  function StateApplied(v: ManagerView, s: RocketState): (r: ManagerView)
    ensures !Accepts(v.ownerId, v.active, v.lastStateTimestamp, s) ==> r == v
    ensures Accepts(v.ownerId, v.active, v.lastStateTimestamp, s) ==>
              r.lastStateTimestamp == s.timestamp > v.lastStateTimestamp
              && r.rocket.position == s.position && r.rocket.velocity == s.velocity
              && r.rocket.rotation == s.rotation && 0.0 <= r.rocket.thrustLevel <= 1.0
              && r.rocket.angularVelocity == v.rocket.angularVelocity && r.rocket.mass == v.rocket.mass
    ensures r.active == v.active && r.ownerId == v.ownerId && r.car == v.car && r.planets == v.planets
  {
    if Accepts(v.ownerId, v.active, v.lastStateTimestamp, s) then
      v.(lastStateTimestamp := s.timestamp,
         rocket := v.rocket.(position := s.position, velocity := s.velocity, rotation := s.rotation,
                             thrustLevel := Clamp01(s.thrustLevel), lastStateTimestamp := s.timestamp))
    else v
  }

  /** Applying a state never moves the manager's timestamp back, keeps its
      mode and owner, and applying the same state twice is the same as once. */
  lemma StateAppliedMonotone(v: ManagerView, s: RocketState)
    ensures StateApplied(v, s).lastStateTimestamp >= v.lastStateTimestamp
    ensures StateApplied(v, s).active == v.active && StateApplied(v, s).ownerId == v.ownerId
    ensures StateApplied(StateApplied(v, s), s) == StateApplied(v, s)
  {
  }

  class VehicleManager {
    const rocket: Rocket
    var car: Car
    var active: VehicleType
    var planets: seq<Planet>
    var ownerId: int
    var lastStateTimestamp: real

    function View(): ManagerView
      reads this, rocket
    {
      ManagerView(active, car, planets, ownerId, lastStateTimestamp, rocket.View())
    }

    /** Starts in rocket mode at `initialPos`, at rest, with timestamp 0 and the
        non-null planets of `planetList` in order. */
    constructor (initialPos: Vec, planetList: seq<Planet?>, ownerId: int)
      ensures fresh(rocket)
      ensures rocket.View() == RocketView(initialPos, Zero, 0.0, 0.0, 0.0, 1.0, White, ownerId, 0.0)
      ensures car == Car(initialPos, Zero)
      ensures active == ROCKET && this.ownerId == ownerId && lastStateTimestamp == 0.0
      ensures planets == NonNull(planetList)
    {
      rocket := new Rocket(initialPos, Zero, ownerId, 1.0, White);
      car := Car(initialPos, Zero);
      active := ROCKET;
      this.ownerId := ownerId;
      lastStateTimestamp := 0.0;
      new;
      planets := FilterNonNull(planetList);
    }

    /** Whether the rocket is close enough to some planet to land on it. */
    method NearSomePlanet(lib: MathLib) returns (canSwitch: bool)
      ensures canSwitch <==>
                (exists k :: 0 <= k < |planets| && CloseEnough(lib, rocket.position, planets[k].position, planets[k].radius))
    {
      canSwitch := false;
      var k := 0;
      while k < |planets|
        invariant k <= |planets|
        invariant forall m :: 0 <= m < k ==> !CloseEnough(lib, rocket.position, planets[m].position, planets[m].radius)
      {
        if CloseEnough(lib, rocket.position, planets[k].position, planets[k].radius) {
          canSwitch := true;
          return;
        }
        k := k + 1;
      }
    }

    /** Rocket to car when close to some planet, car to rocket when the car is
        on the ground (the rocket then takes the car's position, at rest).
        Without planets nothing happens. The stub car is never on the ground,
        so car mode is never left. */
    method SwitchVehicle(lib: MathLib)
      modifies this
      ensures planets == old(planets) && ownerId == old(ownerId) && lastStateTimestamp == old(lastStateTimestamp)
      ensures car == old(car)
      ensures |planets| == 0 ==> active == old(active)
      ensures old(active) == ROCKET ==>
                (active == CAR <==>
                   (exists k :: 0 <= k < |planets| && CloseEnough(lib, rocket.position, planets[k].position, planets[k].radius)))
      ensures old(active) == CAR ==> active == CAR
    {
      if |planets| == 0 {
        return;
      }
      if active == ROCKET {
        var canSwitch := NearSomePlanet(lib);
        if canSwitch {
          car := car.InitializeFromRocket(rocket.position, rocket.velocity);
          car := car.CheckGrounding(PlanetDiscs(planets));
          active := CAR;
        }
      } else if car.IsOnGround() {
        // The transfer back to the rocket (its position := the car's, its
        // velocity := 0, rocket mode) cannot run: the stub car is never on
        // the ground.
        assert false;
      }
    }

    /** Integrates the active vehicle. In rocket mode with planets present the
        manager's timestamp is then copied from the rocket's. */
    method Update(dt: real)
      modifies this, rocket
      ensures planets == old(planets) && active == old(active) && ownerId == old(ownerId) && car == old(car)
      ensures active == ROCKET ==>
                rocket.View() == Stepped(old(rocket.View()), dt)
      ensures active == CAR ==> rocket.View() == old(rocket.View())
      ensures lastStateTimestamp == if active == ROCKET && |planets| > 0 then rocket.lastStateTimestamp else old(lastStateTimestamp)
      ensures View() == ManagerStepped(old(View()), dt)
    {
      if |planets| == 0 {
        if active == ROCKET {
          rocket.Update(dt);
        } else {
          car := car.Update(dt);
        }
        return;
      }
      if active == ROCKET {
        rocket.Update(dt);
        lastStateTimestamp := rocket.lastStateTimestamp;
      } else {
        car := car.CheckGrounding(PlanetDiscs(planets));
        car := car.Update(dt);
      }
    }

    /** Thrust reaches the rocket only in rocket mode; the car ignores it. */
    method ApplyThrust(lib: MathLib, amount: real)
      modifies this, rocket
      ensures active == old(active) && planets == old(planets) && ownerId == old(ownerId)
      ensures lastStateTimestamp == old(lastStateTimestamp) && car == old(car)
      ensures active == ROCKET ==>
                rocket.View() == old(rocket.View()).(velocity := old(rocket.velocity).Plus(
                  ThrustImpulse(lib, old(rocket.rotation), amount, old(rocket.thrustLevel), old(rocket.mass))))
      ensures active == CAR ==> rocket.View() == old(rocket.View())
    {
      if active == ROCKET {
        rocket.ApplyThrust(lib, amount);
      } else {
        car := car.Accelerate(amount);
      }
    }

    /** Rotation input reaches the rocket's spin only in rocket mode. */
    method Rotate(amount: real)
      modifies this, rocket
      ensures active == old(active) && planets == old(planets) && ownerId == old(ownerId)
      ensures lastStateTimestamp == old(lastStateTimestamp) && car == old(car)
      ensures rocket.View() == if active == ROCKET then old(rocket.View()).(angularVelocity := old(rocket.angularVelocity) + amount)
                               else old(rocket.View())
    {
      if active == ROCKET {
        rocket.Rotate(amount);
      } else {
        car := car.Rotate(amount);
      }
    }

    /** Replaces the planet list by the non-null planets of `newPlanets`, in order. */
    method UpdatePlanets(newPlanets: seq<Planet?>)
      modifies this
      ensures planets == NonNull(newPlanets)
      ensures active == old(active) && ownerId == old(ownerId) && lastStateTimestamp == old(lastStateTimestamp)
      ensures car == old(car)
    {
      planets := FilterNonNull(newPlanets);
      car := car.CheckGrounding(PlanetDiscs(planets));
    }

    method SetOwnerId(id: int)
      modifies this, rocket
      ensures ownerId == id && rocket.View() == old(rocket.View()).(playerId := id)
      ensures active == old(active) && planets == old(planets) && lastStateTimestamp == old(lastStateTimestamp)
      ensures car == old(car)
    {
      ownerId := id;
      rocket.SetOwnerId(id);
    }

    method SetLastStateTimestamp(t: real)
      modifies this
      ensures lastStateTimestamp == t
      ensures active == old(active) && planets == old(planets) && ownerId == old(ownerId) && car == old(car)
    {
      lastStateTimestamp := t;
    }

    /** The snapshot of the active rocket (see `Snapshot`). */
    method CreateState() returns (s: RocketState)
      ensures s == Snapshot(ownerId, active, rocket.position, rocket.velocity, rocket.rotation,
                            rocket.thrustLevel, rocket.mass, rocket.color, lastStateTimestamp)
    {
      if active == ROCKET {
        s := RocketState(ownerId, rocket.position, rocket.velocity, rocket.rotation, 0.0,
                         rocket.thrustLevel, rocket.mass, rocket.color, lastStateTimestamp, true);
      } else {
        s := RocketState(ownerId, Zero, Zero, 0.0, 0.0, 0.0, 1.0, White, lastStateTimestamp, false);
      }
    }

    /** Takes over position, velocity, rotation and (clamped) thrust from a
        state of our owner that is newer than the last one accepted, in rocket
        mode only; the timestamp then strictly increases. Anything else is
        ignored. */
    method ApplyState(s: RocketState)
      modifies this, rocket
      ensures active == old(active) && planets == old(planets) && ownerId == old(ownerId) && car == old(car)
      ensures Accepts(old(ownerId), old(active), old(lastStateTimestamp), s) ==>
                rocket.View() == old(rocket.View()).(position := s.position, velocity := s.velocity, rotation := s.rotation,
                                                     thrustLevel := Clamp01(s.thrustLevel), lastStateTimestamp := s.timestamp)
                && lastStateTimestamp == s.timestamp && old(lastStateTimestamp) < lastStateTimestamp
      ensures !Accepts(old(ownerId), old(active), old(lastStateTimestamp), s) ==>
                rocket.View() == old(rocket.View()) && lastStateTimestamp == old(lastStateTimestamp)
      ensures View() == StateApplied(old(View()), s)
    {
      if s.playerId != ownerId {
        return;
      }
      if active != ROCKET {
        return;
      }
      if s.timestamp <= lastStateTimestamp {
        return;
      }
      rocket.SetPosition(s.position);
      rocket.SetVelocity(s.velocity);
      rocket.SetRotation(s.rotation);
      rocket.SetThrustLevel(s.thrustLevel);
      lastStateTimestamp := s.timestamp;
      rocket.SetLastStateTimestamp(s.timestamp);
    }
  }

  /** What the car's grounding check is handed: each planet's centre and radius. */
  function PlanetDiscs(ps: seq<Planet>): seq<(Vec, real)>
    reads set p | p in ps
  {
    seq(|ps|, k requires 0 <= k < |ps| reads set p | p in ps => (ps[k].position, ps[k].radius))
  }

  /** One step for each manager of `ms`, in order. */
  method StepAll(ms: seq<VehicleManager>, dt: real)
    requires forall t, u :: 0 <= t < |ms| && 0 <= u < |ms| && t != u ==> ms[t] != ms[u] && ms[t].rocket != ms[u].rocket
    modifies set t | 0 <= t < |ms| :: ms[t], set t | 0 <= t < |ms| :: ms[t].rocket
    ensures forall t :: 0 <= t < |ms| ==> ms[t].View() == ManagerStepped(old(ms[t].View()), dt)
  {
    var n := 0;
    while n < |ms|
      invariant n <= |ms|
      invariant forall t :: 0 <= t < n ==> ms[t].View() == ManagerStepped(old(ms[t].View()), dt)
      invariant forall t :: n <= t < |ms| ==> ms[t].View() == old(ms[t].View())
    {
      ms[n].Update(dt);
      n := n + 1;
    }
  }
}
