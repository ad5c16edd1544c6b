/**
 * The physics rules of the gravity simulator, stated on values: the velocity
 * change one body's pull causes, the collision response of a rocket that hits
 * a planet, the result of merging two planets, and the order in which planet
 * pairs attract each other. `GravitySimulators` applies them to the objects.
 */
module Gravity {
  import opened Numerics
  import opened GameConstants
  import opened Planets
  import opened Rockets
  import opened Seqs

  /** What the physics reads of a planet besides its velocity. */
  datatype Disc = Disc(position: Vec, radius: real, mass: real)

  /** A vector divided by a scalar, component by component. */
  function DivVec(v: Vec, k: real): Vec {
    Vec(Div(v.x, k), Div(v.y, k))
  }

  /** Dividing by a non-zero scalar is undone by scaling with it. */
  lemma DivVecInverse(v: Vec, k: real)
    requires k != 0.0
    ensures DivVec(v, k).Scale(k) == v
  {
    assert Div(v.x, k) * k == v.x && Div(v.y, k) * k == v.y;
  }

  /** Newtonian acceleration of a body of mass `mass` towards a body of mass
      `sourceMass` that lies at `direction` (at distance `distance`): the force
      `G * sourceMass * mass / distance^2` along `normalize(direction)`,
      divided by `mass`. */
  function Acceleration(lib: MathLib, direction: Vec, distance: real, sourceMass: real, mass: real): Vec {
    DivVec(lib.normalize(direction).Scale(Div(G * sourceMass * mass, distance * distance)), mass)
  }

  /** Velocity change of planet `target` pulled by `source` over `dt`: none
      when the two overlap (distance at most the sum of the radii); otherwise
      `normalize(dir) * (G * m_s * m_t / d^2) / m_t * dt` towards the source. */
  function PlanetPull(lib: MathLib, target: Disc, source: Disc, dt: real): (dv: Vec)
    ensures Length(lib, source.position.Minus(target.position)) <= source.radius + target.radius ==> dv == Zero
  {
    var direction := source.position.Minus(target.position);
    var distance := Length(lib, direction);
    if distance <= source.radius + target.radius then Zero
    else Acceleration(lib, direction, distance, source.mass, target.mass).Scale(dt)
  }

  /** Velocity change of a rocket at `position` with mass `mass` pulled by a
      planet over `dt`: none unless the rocket is farther than the planet's
      radius plus `TRAJECTORY_COLLISION_RADIUS`. */
  function RocketPull(lib: MathLib, position: Vec, mass: real, planet: Disc, dt: real): (dv: Vec)
    ensures Length(lib, planet.position.Minus(position)) <= planet.radius + TRAJECTORY_COLLISION_RADIUS ==> dv == Zero
  {
    var direction := planet.position.Minus(position);
    var distance := Length(lib, direction);
    if distance > planet.radius + TRAJECTORY_COLLISION_RADIUS then
      Acceleration(lib, direction, distance, planet.mass, mass).Scale(dt)
    else Zero
  }

  function SumVecs(vs: seq<Vec>): Vec
    decreases |vs|
  {
    if vs == [] then Zero else vs[0].Plus(SumVecs(vs[1..]))
  }

  /** Velocity of a rocket that starts with `velocity` after the pull of every
      planet of `planets`, added one at a time in planet order. */
  function RocketGravity(lib: MathLib, position: Vec, mass: real, velocity: Vec, planets: seq<Disc>, dt: real): Vec
    decreases |planets|
  {
    if planets == [] then velocity
    else RocketGravity(lib, position, mass, velocity, planets[..|planets| - 1], dt)
           .Plus(RocketPull(lib, position, mass, planets[|planets| - 1], dt))
  }

  /** The pulls add up: the rocket's velocity gains the sum of the planets'
      individual pulls. */
  lemma {:induction false} RocketGravityIsSum(lib: MathLib, position: Vec, mass: real, velocity: Vec, planets: seq<Disc>, dt: real)
    ensures RocketGravity(lib, position, mass, velocity, planets, dt)
         == velocity.Plus(SumVecs(seq(|planets|, k requires 0 <= k < |planets| => RocketPull(lib, position, mass, planets[k], dt))))
    decreases |planets|
  {
    var pulls := seq(|planets|, k requires 0 <= k < |planets| => RocketPull(lib, position, mass, planets[k], dt));
    if planets != [] {
      var n := |planets| - 1;
      var init := planets[..n];
      RocketGravityIsSum(lib, position, mass, velocity, init, dt);
      var initPulls := seq(|init|, k requires 0 <= k < |init| => RocketPull(lib, position, mass, init[k], dt));
      assert pulls == initPulls + [pulls[n]];
      SumVecsSnoc(initPulls, pulls[n]);
    }
  }

  lemma {:induction false} SumVecsSnoc(vs: seq<Vec>, v: Vec)
    ensures SumVecs(vs + [v]) == SumVecs(vs).Plus(v)
    decreases |vs|
  {
    if vs == [] {
      assert vs + [v] == [v];
    } else {
      assert (vs + [v])[1..] == vs[1..] + [v];
      SumVecsSnoc(vs[1..], v);
    }
  }

  /** A rocket within collision range of every planet feels no gravity. */
  lemma {:induction false} NoGravityInsideCollisionRange(lib: MathLib, position: Vec, mass: real, velocity: Vec, planets: seq<Disc>, dt: real)
    requires forall k :: 0 <= k < |planets| ==>
               Length(lib, planets[k].position.Minus(position)) <= planets[k].radius + TRAJECTORY_COLLISION_RADIUS
    ensures RocketGravity(lib, position, mass, velocity, planets, dt) == velocity
    decreases |planets|
  {
    if planets != [] {
      NoGravityInsideCollisionRange(lib, position, mass, velocity, planets[..|planets| - 1], dt);
    }
  }

  /** Every rocket after the gravity phase: velocity after `RocketGravity`
      at its position, nothing else changed. */
  function GravityOnRockets(lib: MathLib, rs: seq<RocketView>, planets: seq<Disc>, dt: real): (r: seq<RocketView>)
    ensures |r| == |rs|
    ensures forall k :: 0 <= k < |rs| ==> r[k].(velocity := rs[k].velocity) == rs[k]
  {
    seq(|rs|, k requires 0 <= k < |rs| =>
      rs[k].(velocity := RocketGravity(lib, rs[k].position, rs[k].mass, rs[k].velocity, planets, dt)))
  }

  // ----- Rocket-planet collisions -----

  /** The surface tangent for an outward normal `n`: `(-n.y, n.x)`. */
  function Tangent(n: Vec): (t: Vec)
    ensures t.Dot(n) == 0.0
  {
    Vec(-n.y, n.x)
  }

  /** Position and velocity of a rocket after meeting one planet. Nothing
      changes unless the rocket is within the planet's radius plus `ROCKET_SIZE`
      and moving inward (negative velocity component along the outward normal
      `n`); then the inward component is removed, the rest is projected on the
      tangent and scaled by `FRICTION`, and the rocket is put back on the
      surface, at `centre + n * (radius + ROCKET_SIZE)`. */
  function Collide(lib: MathLib, position: Vec, velocity: Vec, planet: Disc): (r: (Vec, Vec))
    ensures var n := lib.normalize(position.Minus(planet.position));
            if Length(lib, position.Minus(planet.position)) <= planet.radius + ROCKET_SIZE && velocity.Dot(n) < 0.0 then
              var slid := velocity.Minus(n.Scale(velocity.Dot(n)));
              r.0 == planet.position.Plus(n.Scale(planet.radius + ROCKET_SIZE))
              && r.1 == Tangent(n).Scale(slid.Dot(Tangent(n))).Scale(FRICTION)
              && r.1.Dot(n) == 0.0
            else r == (position, velocity)
  {
    var direction := position.Minus(planet.position);
    var distance := Length(lib, direction);
    var n := lib.normalize(direction);
    var inward := velocity.Dot(n);
    if distance <= planet.radius + ROCKET_SIZE && inward < 0.0 then
      var slid := velocity.Minus(n.Scale(inward));
      var t := Tangent(n);
      var along := slid.Dot(t);
      var v := t.Scale(along).Scale(FRICTION);
      assert v.Dot(n) == (along * FRICTION) * t.Dot(n);
      (planet.position.Plus(n.Scale(planet.radius + ROCKET_SIZE)), v)
    else (position, velocity)
  }

  /** A rocket meeting every planet in turn, each seeing the result of the
      previous one. */
  function CollideAll(lib: MathLib, position: Vec, velocity: Vec, planets: seq<Disc>): (Vec, Vec)
    decreases |planets|
  {
    if planets == [] then (position, velocity)
    else
      var r := CollideAll(lib, position, velocity, planets[..|planets| - 1]);
      Collide(lib, r.0, r.1, planets[|planets| - 1])
  }

  /** Every rocket after the collision phase: position and velocity after
      meeting every planet in turn, nothing else changed. */
  function CollideEach(lib: MathLib, rs: seq<RocketView>, planets: seq<Disc>): (r: seq<RocketView>)
    ensures |r| == |rs|
    ensures forall k :: 0 <= k < |rs| ==> r[k].(position := rs[k].position, velocity := rs[k].velocity) == rs[k]
  {
    seq(|rs|, k requires 0 <= k < |rs| =>
      var c := CollideAll(lib, rs[k].position, rs[k].velocity, planets);
      rs[k].(position := c.0, velocity := c.1))
  }

  // ----- Planet mergers -----

  /** Velocity of a merged planet: the momentum-weighted mean
      `(v_i * m_i + v_j * m_j) / (m_i + m_j)`. */
  function MergedVelocity(mi: real, vi: Vec, mj: real, vj: Vec): Vec {
    DivVec(vi.Scale(mi).Plus(vj.Scale(mj)), mi + mj)
  }

  /** The merged velocity carries the summed momentum whenever the summed
      mass is not zero. */
  lemma MergedVelocityMomentum(mi: real, vi: Vec, mj: real, vj: Vec)
    requires mi + mj != 0.0
    ensures MergedVelocity(mi, vi, mj, vj).Scale(mi + mj) == vi.Scale(mi).Plus(vj.Scale(mj))
  {
    DivVecInverse(vi.Scale(mi).Plus(vj.Scale(mj)), mi + mj);
  }

  function SumReals(xs: seq<real>): real
    decreases |xs|
  {
    if xs == [] then 0.0 else xs[0] + SumReals(xs[1..])
  }

  lemma {:induction false} SumRealsUpdate(xs: seq<real>, i: nat, v: real)
    requires i < |xs|
    ensures SumReals(xs[i := v]) == SumReals(xs) - xs[i] + v
    decreases |xs|
  {
    if i > 0 {
      assert xs[i := v][1..] == xs[1..][i - 1 := v];
      SumRealsUpdate(xs[1..], i - 1, v);
    }
  }

  lemma {:induction false} SumRealsRemove(xs: seq<real>, i: nat)
    requires i < |xs|
    ensures SumReals(xs[..i] + xs[i + 1..]) == SumReals(xs) - xs[i]
    decreases |xs|
  {
    if i == 0 {
      assert xs[..i] + xs[i + 1..] == xs[1..];
    } else {
      assert (xs[..i] + xs[i + 1..])[0] == xs[0];
      assert (xs[..i] + xs[i + 1..])[1..] == xs[1..][..i - 1] + xs[1..][i..];
      SumRealsRemove(xs[1..], i - 1);
    }
  }

  lemma {:induction false} SumVecsUpdate(vs: seq<Vec>, i: nat, v: Vec)
    requires i < |vs|
    ensures SumVecs(vs[i := v]) == SumVecs(vs).Minus(vs[i]).Plus(v)
    decreases |vs|
  {
    if i > 0 {
      assert vs[i := v][1..] == vs[1..][i - 1 := v];
      SumVecsUpdate(vs[1..], i - 1, v);
    }
  }

  lemma {:induction false} SumVecsRemove(vs: seq<Vec>, i: nat)
    requires i < |vs|
    ensures SumVecs(vs[..i] + vs[i + 1..]) == SumVecs(vs).Minus(vs[i])
    decreases |vs|
  {
    if i == 0 {
      assert vs[..i] + vs[i + 1..] == vs[1..];
    } else {
      assert (vs[..i] + vs[i + 1..])[0] == vs[0];
      assert (vs[..i] + vs[i + 1..])[1..] == vs[1..][..i - 1] + vs[1..][i..];
      SumVecsRemove(vs[1..], i - 1);
    }
  }

  // ----- The order of planet-planet attraction -----

  /** One call `applyGravityToPlanet(planets[target], planets[source])`. */
  datatype Pull = Pull(target: nat, source: nat)

  /** The calls made for row `i` of the pair loop, for columns `j` up to `n`:
      in row 0 only the other planet is pulled towards planet 0; in the other
      rows both planets of the pair are pulled, `i` first. */
  function RowPulls(i: nat, j: nat, n: nat): seq<Pull>
    decreases n - j
  {
    if j >= n then []
    else (if i == 0 then [Pull(j, 0)] else [Pull(i, j), Pull(j, i)]) + RowPulls(i, j + 1, n)
  }

  /** All calls of the pair loop from row `i` on. */
  function Rows(i: nat, n: nat): seq<Pull>
    decreases n - i
  {
    if i >= n then [] else RowPulls(i, i + 1, n) + Rows(i + 1, n)
  }

  /** The calls `applyGravityBetweenPlanets` makes for `n` planets, in order. */
  function PairSchedule(n: nat): seq<Pull> {
    Rows(0, n)
  }

  /** Which calls a row contains. */
  lemma {:induction false} RowPullsContents(i: nat, j: nat, n: nat)
    requires i < j
    ensures forall p :: p in RowPulls(i, j, n) <==>
              (if i == 0 then p.source == 0 && j <= p.target < n
               else (p.target == i && j <= p.source < n) || (p.source == i && j <= p.target < n))
    decreases n - j
  {
    if j < n {
      RowPullsContents(i, j + 1, n);
    }
  }

  /** The row of the pair loop in which call `p` is made. */
  function RowOf(p: Pull): nat {
    if p.source == 0 then 0 else if p.source < p.target then p.source else p.target
  }

  /** Which calls the rows from `i` on contain. */
  lemma {:induction false} RowsContents(i: nat, n: nat)
    ensures forall p :: p in Rows(i, n) <==>
              p.target < n && p.source < n && p.target != p.source && p.target != 0 && i <= RowOf(p)
    decreases n - i
  {
    if i < n {
      RowsContents(i + 1, n);
      RowPullsContents(i, i + 1, n);
    }
  }

  /** Planet 0 is pinned: no call of the pair loop pulls it. Every other
      planet `j` is pulled towards planet 0, and every pair of other planets
      pulls both ways. Nothing else is called. */
  lemma PairScheduleContents(n: nat)
    ensures forall p :: p in PairSchedule(n) <==>
              p.target < n && p.source < n && p.target != p.source && p.target != 0
  {
    RowsContents(0, n);
  }

  /** The velocity change call `p` makes to planet `t`: its pull when `t` is
      its target, nothing otherwise. */
  function PullOf(lib: MathLib, discs: seq<Disc>, p: Pull, t: nat, dt: real): Vec {
    if p.target == t && p.target < |discs| && p.source < |discs|
    then PlanetPull(lib, discs[p.target], discs[p.source], dt) else Zero
  }

  /** Total velocity change of planet `t` from the calls `pulls`, each pull
      computed from the discs (which the pair loop does not change). */
  function PulledBy(lib: MathLib, discs: seq<Disc>, pulls: seq<Pull>, t: nat, dt: real): (dv: Vec)
    decreases |pulls|
  {
    if pulls == [] then Zero
    else PullOf(lib, discs, pulls[0], t, dt).Plus(PulledBy(lib, discs, pulls[1..], t, dt))
  }

  lemma {:induction false} PulledBySnoc(lib: MathLib, discs: seq<Disc>, pulls: seq<Pull>, p: Pull, t: nat, dt: real)
    ensures PulledBy(lib, discs, pulls + [p], t, dt)
         == PulledBy(lib, discs, pulls, t, dt).Plus(PullOf(lib, discs, p, t, dt))
    decreases |pulls|
  {
    if pulls == [] {
      assert pulls + [p] == [p];
      assert [p][1..] == [];
    } else {
      var here := PullOf(lib, discs, pulls[0], t, dt);
      var extra := PullOf(lib, discs, p, t, dt);
      assert (pulls + [p])[0] == pulls[0];
      assert (pulls + [p])[1..] == pulls[1..] + [p];
      PulledBySnoc(lib, discs, pulls[1..], p, t, dt);
      var rest := PulledBy(lib, discs, pulls[1..], t, dt);
      PlusAssoc(here, rest, extra);
    }
  }

  /** The velocities `vs` after the calls `pulls`, made one at a time: each
      call adds its pull to its target's velocity. */
  function ApplyPulls(lib: MathLib, vs: seq<Vec>, discs: seq<Disc>, pulls: seq<Pull>, dt: real): (r: seq<Vec>)
    ensures |r| == |vs|
    decreases |pulls|
  {
    if pulls == [] then vs
    else
      var prev := ApplyPulls(lib, vs, discs, pulls[..|pulls| - 1], dt);
      var p := pulls[|pulls| - 1];
      if p.target < |prev| && p.target < |discs| && p.source < |discs|
      then prev[p.target := prev[p.target].Plus(PlanetPull(lib, discs[p.target], discs[p.source], dt))]
      else prev
  }

  /** Every planet ends with its starting velocity plus the pulls that name it
      as target, whatever order they are made in. */
  lemma {:induction false} ApplyPullsIsSum(lib: MathLib, vs: seq<Vec>, discs: seq<Disc>, pulls: seq<Pull>, t: nat, dt: real)
    requires t < |vs|
    ensures ApplyPulls(lib, vs, discs, pulls, dt)[t] == vs[t].Plus(PulledBy(lib, discs, pulls, t, dt))
    decreases |pulls|
  {
    if pulls != [] {
      var init := pulls[..|pulls| - 1];
      var p := pulls[|pulls| - 1];
      var prev := ApplyPulls(lib, vs, discs, init, dt);
      ApplyPullsIsSum(lib, vs, discs, init, t, dt);
      SplitLast(pulls);
      PulledBySnoc(lib, discs, init, p, t, dt);
      var here := PullOf(lib, discs, p, t, dt);
      assert ApplyPulls(lib, vs, discs, pulls, dt)[t] == prev[t].Plus(here);
      PlusAssoc(vs[t], PulledBy(lib, discs, init, t, dt), here);
    }
  }

  /** A planet no call targets keeps its velocity. */
  lemma {:induction false} ApplyPullsUntargeted(lib: MathLib, vs: seq<Vec>, discs: seq<Disc>, pulls: seq<Pull>, t: nat, dt: real)
    requires t < |vs|
    requires forall p :: p in pulls ==> p.target != t
    ensures ApplyPulls(lib, vs, discs, pulls, dt)[t] == vs[t]
    decreases |pulls|
  {
    if pulls != [] {
      assert pulls[|pulls| - 1] in pulls;
      ApplyPullsUntargeted(lib, vs, discs, pulls[..|pulls| - 1], t, dt);
    }
  }

  /** The pinned planet ends the pair loop with the velocity it started with. */
  lemma AnchorKeepsVelocity(lib: MathLib, vs: seq<Vec>, discs: seq<Disc>, dt: real)
    requires 0 < |vs|
    ensures ApplyPulls(lib, vs, discs, PairSchedule(|discs|), dt)[0] == vs[0]
  {
    PairScheduleContents(|discs|);
    ApplyPullsUntargeted(lib, vs, discs, PairSchedule(|discs|), 0, dt);
  }

  // ----- Whole-list views -----

  function DiscOf(v: PlanetView): Disc {
    Disc(v.position, v.radius, v.mass)
  }

  function Discs(vs: seq<PlanetView>): (ds: seq<Disc>)
    ensures |ds| == |vs|
  {
    seq(|vs|, k requires 0 <= k < |vs| => DiscOf(vs[k]))
  }

  function Velocities(vs: seq<PlanetView>): (ws: seq<Vec>)
    ensures |ws| == |vs|
  {
    seq(|vs|, k requires 0 <= k < |vs| => vs[k].velocity)
  }

  function Masses(vs: seq<PlanetView>): (ms: seq<real>)
    ensures |ms| == |vs|
  {
    seq(|vs|, k requires 0 <= k < |vs| => vs[k].mass)
  }

  function Momenta(vs: seq<PlanetView>): (ps: seq<Vec>)
    ensures |ps| == |vs|
  {
    seq(|vs|, k requires 0 <= k < |vs| => vs[k].velocity.Scale(vs[k].mass))
  }

  predicate AllPositive(vs: seq<PlanetView>) {
    forall k :: 0 <= k < |vs| ==> vs[k].mass > 0.0
  }

  /** The planets after the calls `pulls`: only velocities change. */
  function AfterPulls(lib: MathLib, vs: seq<PlanetView>, pulls: seq<Pull>, dt: real): (r: seq<PlanetView>)
    ensures |r| == |vs|
  {
    var ws := ApplyPulls(lib, Velocities(vs), Discs(vs), pulls, dt);
    seq(|vs|, k requires 0 <= k < |vs| => vs[k].(velocity := ws[k]))
  }

  /** Gravity among planets changes no position, radius or mass. */
  lemma AfterPullsKeepsDiscs(lib: MathLib, vs: seq<PlanetView>, pulls: seq<Pull>, dt: real)
    ensures Discs(AfterPulls(lib, vs, pulls, dt)) == Discs(vs)
    ensures Masses(AfterPulls(lib, vs, pulls, dt)) == Masses(vs)
  {
  }

  /** A call of the pair loop reads positions, radii and masses, which no call
      changes, and adds one pull to its target's velocity. */
  lemma AfterPullsSnoc(lib: MathLib, vs: seq<PlanetView>, pulls: seq<Pull>, p: Pull, dt: real)
    requires p.target < |vs| && p.source < |vs|
    ensures var before := AfterPulls(lib, vs, pulls, dt);
            AfterPulls(lib, vs, pulls + [p], dt)
            == before[p.target := before[p.target].(velocity := before[p.target].velocity.Plus(
                 PlanetPull(lib, Discs(vs)[p.target], Discs(vs)[p.source], dt)))]
  {
    assert (pulls + [p])[..|pulls|] == pulls;
  }

  /** The whole pair loop: each planet's velocity gains the pulls naming it
      as target (which `PairScheduleContents` lists), everything else stays,
      and planet 0 is not changed at all. */
  lemma PairLoopEffect(lib: MathLib, vs: seq<PlanetView>, dt: real)
    ensures var r := AfterPulls(lib, vs, PairSchedule(|vs|), dt);
            forall t :: 0 <= t < |vs| ==>
              r[t] == vs[t].(velocity := vs[t].velocity.Plus(PulledBy(lib, Discs(vs), PairSchedule(|vs|), t, dt)))
    ensures 0 < |vs| ==> AfterPulls(lib, vs, PairSchedule(|vs|), dt)[0] == vs[0]
  {
    var r := AfterPulls(lib, vs, PairSchedule(|vs|), dt);
    forall t | 0 <= t < |vs|
      ensures r[t] == vs[t].(velocity := vs[t].velocity.Plus(PulledBy(lib, Discs(vs), PairSchedule(|vs|), t, dt)))
    {
      ApplyPullsIsSum(lib, Velocities(vs), Discs(vs), PairSchedule(|vs|), t, dt);
    }
    if 0 < |vs| {
      AnchorKeepsVelocity(lib, Velocities(vs), Discs(vs), dt);
    }
  }

  // ----- Planet mergers over whole lists -----

  /** Planets `a` and `b` overlap: the distance between their centres is at
      most the sum of their radii. */
  predicate Touching(lib: MathLib, a: PlanetView, b: PlanetView) {
    Length(lib, b.position.Minus(a.position)) <= a.radius + b.radius
  }

  /** Planet `s` takes mass `m` (and the radius that goes with it) and velocity
      `v`; planet `d` is erased. */
  function Absorb(lib: MathLib, vs: seq<PlanetView>, s: nat, d: nat, m: real, v: Vec): (r: seq<PlanetView>)
    requires s < |vs| && d < |vs| && s != d
    ensures |r| == |vs| - 1
  {
    var w := vs[s := vs[s].(mass := m, radius := RadiusFor(lib, m), velocity := v)];
    w[..d] + w[d + 1..]
  }

  /** The merger of planets `i < j`: the heavier one (`i` on a tie) absorbs
      the other, taking their summed mass and their momentum-weighted
      velocity; the other one leaves the list. */
  function Merged(lib: MathLib, vs: seq<PlanetView>, i: nat, j: nat): (r: seq<PlanetView>)
    requires i < j < |vs|
    ensures |r| == |vs| - 1
  {
    var m := vs[i].mass + vs[j].mass;
    var v := MergedVelocity(vs[i].mass, vs[i].velocity, vs[j].mass, vs[j].velocity);
    if vs[i].mass >= vs[j].mass then Absorb(lib, vs, i, j, m, v) else Absorb(lib, vs, j, i, m, v)
  }

  /** A merger is the absorption of the lighter planet by the heavier. */
  lemma MergedIsAbsorb(lib: MathLib, vs: seq<PlanetView>, i: nat, j: nat)
    requires i < j < |vs|
    ensures var m := vs[i].mass + vs[j].mass;
            var v := MergedVelocity(vs[i].mass, vs[i].velocity, vs[j].mass, vs[j].velocity);
            var s := if vs[i].mass >= vs[j].mass then i else j;
            var d := if vs[i].mass >= vs[j].mass then j else i;
            Merged(lib, vs, i, j) == Absorb(lib, vs, s, d, m, v)
  {
  }

  /** Which planet survives a merger and what it becomes. */
  lemma MergedSurvivor(lib: MathLib, vs: seq<PlanetView>, i: nat, j: nat)
    requires i < j < |vs|
    ensures var m := vs[i].mass + vs[j].mass;
            var v := MergedVelocity(vs[i].mass, vs[i].velocity, vs[j].mass, vs[j].velocity);
            var r := Merged(lib, vs, i, j);
            if vs[i].mass >= vs[j].mass
            then r == (vs[..j] + vs[j + 1..])[i := vs[i].(mass := m, radius := RadiusFor(lib, m), velocity := v)]
            else r == (vs[..i] + vs[i + 1..])[j - 1 := vs[j].(mass := m, radius := RadiusFor(lib, m), velocity := v)]
  {
  }

  /** Planets before index `i` take no part in a merger of `i` and `j`. */
  lemma MergedKeepsPrefix(lib: MathLib, vs: seq<PlanetView>, i: nat, j: nat)
    requires i < j < |vs|
    ensures Merged(lib, vs, i, j)[..i] == vs[..i]
  {
  }

  lemma MassesAbsorb(lib: MathLib, vs: seq<PlanetView>, s: nat, d: nat, m: real, v: Vec)
    requires s < |vs| && d < |vs| && s != d
    ensures var ms := Masses(vs)[s := m];
            Masses(Absorb(lib, vs, s, d, m, v)) == ms[..d] + ms[d + 1..]
  {
  }

  lemma MomentaAbsorb(lib: MathLib, vs: seq<PlanetView>, s: nat, d: nat, m: real, v: Vec)
    requires s < |vs| && d < |vs| && s != d
    ensures var ps := Momenta(vs)[s := v.Scale(m)];
            Momenta(Absorb(lib, vs, s, d, m, v)) == ps[..d] + ps[d + 1..]
  {
  }

  /** A merger keeps the total planet mass. */
  lemma MergedKeepsMass(lib: MathLib, vs: seq<PlanetView>, i: nat, j: nat)
    requires i < j < |vs|
    ensures SumReals(Masses(Merged(lib, vs, i, j))) == SumReals(Masses(vs))
  {
    var m := vs[i].mass + vs[j].mass;
    var v := MergedVelocity(vs[i].mass, vs[i].velocity, vs[j].mass, vs[j].velocity);
    var s, d := if vs[i].mass >= vs[j].mass then i else j, if vs[i].mass >= vs[j].mass then j else i;
    MassesAbsorb(lib, vs, s, d, m, v);
    var ms := Masses(vs)[s := m];
    SumRealsUpdate(Masses(vs), s, m);
    SumRealsRemove(ms, d);
  }

  /** A merger of two planets whose masses do not cancel keeps the total
      momentum. */
  lemma MergedKeepsMomentum(lib: MathLib, vs: seq<PlanetView>, i: nat, j: nat)
    requires i < j < |vs|
    requires vs[i].mass + vs[j].mass != 0.0
    ensures SumVecs(Momenta(Merged(lib, vs, i, j))) == SumVecs(Momenta(vs))
  {
    var m := vs[i].mass + vs[j].mass;
    var v := MergedVelocity(vs[i].mass, vs[i].velocity, vs[j].mass, vs[j].velocity);
    var s, d := if vs[i].mass >= vs[j].mass then i else j, if vs[i].mass >= vs[j].mass then j else i;
    MomentaAbsorb(lib, vs, s, d, m, v);
    var ps := Momenta(vs)[s := v.Scale(m)];
    SumVecsUpdate(Momenta(vs), s, v.Scale(m));
    SumVecsRemove(ps, d);
    assert ps[d] == Momenta(vs)[d];
    MergedVelocityMomentum(vs[i].mass, vs[i].velocity, vs[j].mass, vs[j].velocity);
    assert v.Scale(m) == Momenta(vs)[i].Plus(Momenta(vs)[j]);
  }

  /** Merging planets of positive mass leaves only planets of positive mass. */
  lemma MergedKeepsPositive(lib: MathLib, vs: seq<PlanetView>, i: nat, j: nat)
    requires i < j < |vs| && AllPositive(vs)
    ensures AllPositive(Merged(lib, vs, i, j))
  {
    var r := Merged(lib, vs, i, j);
    forall k | 0 <= k < |r|
      ensures r[k].mass > 0.0
    {
      assert vs[i].mass > 0.0 && vs[j].mass > 0.0;
    }
  }

  /** The inner merge loop of `handleCollisions` for planet `i`, from partner
      `j` on: each touching pair merges (`j` stays put when planet `j` was
      erased); the pass ends early, flagged `true`, once planet `i` itself was
      the one absorbed. */
  function MergeRowFrom(lib: MathLib, vs: seq<PlanetView>, i: nat, j: nat): (r: (seq<PlanetView>, bool))
    requires i < j
    ensures |r.0| <= |vs|
    ensures r.1 ==> |r.0| < |vs|
    decreases |vs| - j
  {
    if j >= |vs| then (vs, false)
    else if Touching(lib, vs[i], vs[j]) then
      if vs[i].mass >= vs[j].mass then MergeRowFrom(lib, Merged(lib, vs, i, j), i, j)
      else (Merged(lib, vs, i, j), true)
    else MergeRowFrom(lib, vs, i, j + 1)
  }

  /** A row passes over a planet that does not touch planet `i`, and ends
      with the list. */
  lemma MergeRowSkips(lib: MathLib, vs: seq<PlanetView>, i: nat, j: nat)
    requires i < j
    ensures j >= |vs| ==> MergeRowFrom(lib, vs, i, j) == (vs, false)
    ensures j < |vs| && !Touching(lib, vs[i], vs[j]) ==> MergeRowFrom(lib, vs, i, j) == MergeRowFrom(lib, vs, i, j + 1)
  {
  }

  /** The outer merge loop from row `i` on: a row whose own planet was
      absorbed is run again at the same index. */
  function MergeAllFrom(lib: MathLib, vs: seq<PlanetView>, i: nat): (r: seq<PlanetView>)
    requires 1 <= i
    ensures |r| <= |vs|
    decreases 2 * |vs| + 2 - i
  {
    if i >= |vs| then vs
    else
      var (ws, removedI) := MergeRowFrom(lib, vs, i, i + 1);
      if removedI then MergeAllFrom(lib, ws, i) else MergeAllFrom(lib, ws, i + 1)
  }

  /** A merge pass keeps the planets before index `i` as they were. */
  lemma {:induction false} MergeRowKeepsPrefix(lib: MathLib, vs: seq<PlanetView>, i: nat, j: nat)
    requires i < j && i <= |vs|
    ensures var r := MergeRowFrom(lib, vs, i, j);
            i <= |r.0| && r.0[..i] == vs[..i]
    decreases |vs| - j
  {
    if j >= |vs| {
    } else if Touching(lib, vs[i], vs[j]) {
      MergedKeepsPrefix(lib, vs, i, j);
      if vs[i].mass >= vs[j].mass {
        var ws := Merged(lib, vs, i, j);
        MergeRowKeepsPrefix(lib, ws, i, j);
        assert ws[..i] == vs[..i];
      }
    } else {
      MergeRowKeepsPrefix(lib, vs, i, j + 1);
    }
  }

  /** A merge pass keeps the total mass. */
  lemma {:induction false} MergeRowKeepsMass(lib: MathLib, vs: seq<PlanetView>, i: nat, j: nat)
    requires i < j
    ensures SumReals(Masses(MergeRowFrom(lib, vs, i, j).0)) == SumReals(Masses(vs))
    decreases |vs| - j
  {
    if j >= |vs| {
    } else if Touching(lib, vs[i], vs[j]) {
      MergedKeepsMass(lib, vs, i, j);
      if vs[i].mass >= vs[j].mass {
        MergeRowKeepsMass(lib, Merged(lib, vs, i, j), i, j);
      }
    } else {
      MergeRowKeepsMass(lib, vs, i, j + 1);
    }
  }

  /** With positive masses a merge pass keeps them positive and keeps the
      total momentum. */
  lemma {:induction false} MergeRowKeepsMomentum(lib: MathLib, vs: seq<PlanetView>, i: nat, j: nat)
    requires i < j && AllPositive(vs)
    ensures var r := MergeRowFrom(lib, vs, i, j).0;
            AllPositive(r) && SumVecs(Momenta(r)) == SumVecs(Momenta(vs))
    decreases |vs| - j
  {
    if j >= |vs| {
    } else if Touching(lib, vs[i], vs[j]) {
      assert vs[i].mass > 0.0 && vs[j].mass > 0.0;
      MergedKeepsMomentum(lib, vs, i, j);
      MergedKeepsPositive(lib, vs, i, j);
      if vs[i].mass >= vs[j].mass {
        MergeRowKeepsMomentum(lib, Merged(lib, vs, i, j), i, j);
      }
    } else {
      MergeRowKeepsMomentum(lib, vs, i, j + 1);
    }
  }

  /** All merging keeps the total mass, and planet 0 (which never merges) as
      it was. */
  lemma {:induction false} MergeAllKeepsMassAndFirst(lib: MathLib, vs: seq<PlanetView>, i: nat)
    requires 1 <= i
    ensures var r := MergeAllFrom(lib, vs, i);
            SumReals(Masses(r)) == SumReals(Masses(vs)) && (|vs| > 0 ==> |r| > 0 && r[0] == vs[0])
    decreases 2 * |vs| + 2 - i
  {
    if i < |vs| {
      var (ws, removedI) := MergeRowFrom(lib, vs, i, i + 1);
      MergeRowKeepsMass(lib, vs, i, i + 1);
      MergeRowKeepsPrefix(lib, vs, i, i + 1);
      assert ws[..i][0] == vs[..i][0];
      if removedI {
        MergeAllKeepsMassAndFirst(lib, ws, i);
      } else {
        MergeAllKeepsMassAndFirst(lib, ws, i + 1);
      }
    }
  }

  /** With positive masses all merging keeps them positive and keeps the
      total momentum. */
  lemma {:induction false} MergeAllKeepsMomentum(lib: MathLib, vs: seq<PlanetView>, i: nat)
    requires 1 <= i && AllPositive(vs)
    ensures var r := MergeAllFrom(lib, vs, i);
            AllPositive(r) && SumVecs(Momenta(r)) == SumVecs(Momenta(vs))
    decreases 2 * |vs| + 2 - i
  {
    if i < |vs| {
      var (ws, removedI) := MergeRowFrom(lib, vs, i, i + 1);
      MergeRowKeepsMomentum(lib, vs, i, i + 1);
      if removedI {
        MergeAllKeepsMomentum(lib, ws, i);
      } else {
        MergeAllKeepsMomentum(lib, ws, i + 1);
      }
    }
  }

  // ----- Which planets a merge pass erases -----

  /** `[0, 1, ..., n - 1]`: each planet tagged with its place in the list at
      the start of the pass. */
  function Indices(n: nat): (r: seq<nat>)
    ensures |r| == n
    ensures forall k :: 0 <= k < n ==> r[k] == k
  {
    seq(n, k requires 0 <= k < n => k as nat)
  }

  /** The bookkeeping of the merger of planets `i < j` of `vs`, whose tags
      are `tags`: the erased planet's tag leaves the list and `gone` records
      the state it was in when it was erased. */
  function MergedTrace(vs: seq<PlanetView>, tags: seq<nat>, gone: map<nat, PlanetView>, i: nat, j: nat): (seq<nat>, map<nat, PlanetView>)
    requires i < j < |vs| && |tags| == |vs|
  {
    var d := if vs[i].mass >= vs[j].mass then j else i;
    (tags[..d] + tags[d + 1..], gone[tags[d] := vs[d]])
  }

  /** `MergeRowFrom`'s row, followed on the tags: the tags of the planets
      still listed and the erased planets' last states. */
  function MergeRowTrace(lib: MathLib, vs: seq<PlanetView>, tags: seq<nat>, gone: map<nat, PlanetView>, i: nat, j: nat): (r: (seq<nat>, map<nat, PlanetView>))
    requires i < j && |tags| == |vs|
    ensures |r.0| == |MergeRowFrom(lib, vs, i, j).0|
    decreases |vs| - j
  {
    if j >= |vs| then (tags, gone)
    else if Touching(lib, vs[i], vs[j]) then
      var t := MergedTrace(vs, tags, gone, i, j);
      if vs[i].mass >= vs[j].mass then MergeRowTrace(lib, Merged(lib, vs, i, j), t.0, t.1, i, j) else t
    else MergeRowTrace(lib, vs, tags, gone, i, j + 1)
  }

  /** A traced row passes over a planet that does not touch planet `i`. */
  lemma MergeRowTraceSkips(lib: MathLib, vs: seq<PlanetView>, tags: seq<nat>, gone: map<nat, PlanetView>, i: nat, j: nat)
    requires i < j && |tags| == |vs|
    ensures j >= |vs| ==> MergeRowTrace(lib, vs, tags, gone, i, j) == (tags, gone)
    ensures j < |vs| && !Touching(lib, vs[i], vs[j]) ==>
              MergeRowTrace(lib, vs, tags, gone, i, j) == MergeRowTrace(lib, vs, tags, gone, i, j + 1)
  {
  }

  /** A traced row at a touching pair: the merger's bookkeeping, then (while
      planet `i` survives) the row goes on at the same `j`. */
  lemma MergeRowTraceMerges(lib: MathLib, vs: seq<PlanetView>, tags: seq<nat>, gone: map<nat, PlanetView>, i: nat, j: nat)
    requires i < j < |vs| && |tags| == |vs| && Touching(lib, vs[i], vs[j])
    ensures var t := MergedTrace(vs, tags, gone, i, j);
            MergeRowTrace(lib, vs, tags, gone, i, j) ==
              if vs[i].mass >= vs[j].mass then MergeRowTrace(lib, Merged(lib, vs, i, j), t.0, t.1, i, j) else t
  {
  }

  /** `MergeAllFrom`'s pass, followed on the tags. */
  function MergeAllTrace(lib: MathLib, vs: seq<PlanetView>, tags: seq<nat>, gone: map<nat, PlanetView>, i: nat): (seq<nat>, map<nat, PlanetView>)
    requires 1 <= i && |tags| == |vs|
    decreases 2 * |vs| + 2 - i
  {
    if i >= |vs| then (tags, gone)
    else
      var (ws, removedI) := MergeRowFrom(lib, vs, i, i + 1);
      var t := MergeRowTrace(lib, vs, tags, gone, i, i + 1);
      if removedI then MergeAllTrace(lib, ws, t.0, t.1, i) else MergeAllTrace(lib, ws, t.0, t.1, i + 1)
  }

  /** One row of a pass, on the list and on the tags alike: the next row is
      the same one again when its planet was absorbed. */
  lemma MergeAllSteps(lib: MathLib, vs: seq<PlanetView>, tags: seq<nat>, gone: map<nat, PlanetView>, i: nat,
                      ws: seq<PlanetView>, removedI: bool, tags': seq<nat>, gone': map<nat, PlanetView>)
    requires 1 <= i < |vs| && |tags| == |vs|
    requires (ws, removedI) == MergeRowFrom(lib, vs, i, i + 1)
    requires (tags', gone') == MergeRowTrace(lib, vs, tags, gone, i, i + 1)
    ensures |tags'| == |ws|
    ensures var next := if removedI then i else i + 1;
            MergeAllFrom(lib, vs, i) == MergeAllFrom(lib, ws, next) &&
            MergeAllTrace(lib, vs, tags, gone, i) == MergeAllTrace(lib, ws, tags', gone', next)
  {
  }

  /** Every tag below `n` is accounted for exactly once: it is still listed
      (in increasing order) or it names an erased planet, never both; `gone`
      names no other tag. */
  predicate Accounted(tags: seq<nat>, gone: map<nat, PlanetView>, n: nat) {
    (forall a, b :: 0 <= a < b < |tags| ==> tags[a] < tags[b])
    && (forall k :: 0 <= k < |tags| ==> tags[k] < n && tags[k] !in gone)
    && (forall t :: t in gone ==> t < n)
    && (forall t :: 0 <= t < n ==> t in gone || t in tags)
  }

  /** At the start of a pass every planet is listed and none erased. */
  lemma AccountedAtStart(n: nat)
    ensures Accounted(Indices(n), map[], n)
  {
    var tags := Indices(n);
    forall t | 0 <= t < n
      ensures t in tags
    {
      assert tags[t] == t;
    }
  }

  /** Moving the tag at place `d` from the list to `gone` keeps every
      planet accounted for. */
  lemma EraseTagAccounted(tags: seq<nat>, gone: map<nat, PlanetView>, d: nat, x: PlanetView, n: nat)
    requires d < |tags| && Accounted(tags, gone, n)
    ensures Accounted(tags[..d] + tags[d + 1..], gone[tags[d] := x], n)
  {
    var rest := tags[..d] + tags[d + 1..];
    var gone' := gone[tags[d] := x];
    forall a, b | 0 <= a < b < |rest|
      ensures rest[a] < rest[b]
    {
      assert rest[a] == tags[if a < d then a else a + 1];
      assert rest[b] == tags[if b < d then b else b + 1];
    }
    forall k | 0 <= k < |rest|
      ensures rest[k] < n && rest[k] !in gone'
    {
      assert rest[k] == tags[if k < d then k else k + 1];
    }
    forall t | 0 <= t < n && t !in gone'
      ensures t in rest
    {
      var k :| 0 <= k < |tags| && tags[k] == t;
      if k < d {
        assert rest[k] == t;
      } else {
        assert rest[k - 1] == t;
      }
    }
  }

  /** One merger keeps every planet accounted for, and what `gone` already
      records stays as it was. */
  lemma MergedTraceAccounted(vs: seq<PlanetView>, tags: seq<nat>, gone: map<nat, PlanetView>, i: nat, j: nat, n: nat)
    requires i < j < |vs| && |tags| == |vs| && Accounted(tags, gone, n)
    ensures var t := MergedTrace(vs, tags, gone, i, j);
            Accounted(t.0, t.1, n) && |t.0| == |tags| - 1 &&
            forall u :: u in gone ==> u in t.1 && t.1[u] == gone[u]
  {
    var d := if vs[i].mass >= vs[j].mass then j else i;
    EraseTagAccounted(tags, gone, d, vs[d], n);
  }

  /** A traced row keeps every planet accounted for. */
  lemma {:induction false} MergeRowTraceAccounted(lib: MathLib, vs: seq<PlanetView>, tags: seq<nat>, gone: map<nat, PlanetView>, i: nat, j: nat, n: nat)
    requires i < j && |tags| == |vs| && Accounted(tags, gone, n)
    ensures var t := MergeRowTrace(lib, vs, tags, gone, i, j);
            Accounted(t.0, t.1, n) && |t.0| == |MergeRowFrom(lib, vs, i, j).0| &&
            forall u :: u in gone ==> u in t.1 && t.1[u] == gone[u]
    decreases |vs| - j
  {
    if j >= |vs| {
    } else if Touching(lib, vs[i], vs[j]) {
      MergedTraceAccounted(vs, tags, gone, i, j, n);
      if vs[i].mass >= vs[j].mass {
        var t := MergedTrace(vs, tags, gone, i, j);
        MergeRowTraceAccounted(lib, Merged(lib, vs, i, j), t.0, t.1, i, j, n);
      }
    } else {
      MergeRowTraceAccounted(lib, vs, tags, gone, i, j + 1, n);
    }
  }

  /** A whole traced pass keeps every planet accounted for: each planet of
      the list it started with either is still listed or has its last state
      recorded, and the recorded states are never overwritten. */
  lemma {:induction false} MergeAllTraceAccounted(lib: MathLib, vs: seq<PlanetView>, tags: seq<nat>, gone: map<nat, PlanetView>, i: nat, n: nat)
    requires 1 <= i && |tags| == |vs| && Accounted(tags, gone, n)
    ensures var t := MergeAllTrace(lib, vs, tags, gone, i);
            Accounted(t.0, t.1, n) && |t.0| == |MergeAllFrom(lib, vs, i)| &&
            forall u :: u in gone ==> u in t.1 && t.1[u] == gone[u]
    decreases 2 * |vs| + 2 - i
  {
    if i < |vs| {
      var (ws, removedI) := MergeRowFrom(lib, vs, i, i + 1);
      var t := MergeRowTrace(lib, vs, tags, gone, i, i + 1);
      MergeRowTraceAccounted(lib, vs, tags, gone, i, i + 1, n);
      if removedI {
        MergeAllTraceAccounted(lib, ws, t.0, t.1, i, n);
      } else {
        MergeAllTraceAccounted(lib, ws, t.0, t.1, i + 1, n);
      }
    }
  }
}
