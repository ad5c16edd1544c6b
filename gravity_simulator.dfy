/**
 * `GravitySimulator`: the server's physics step over the shared lists of
 * planets and rockets. One step attracts the planets to each other (planet 0
 * stays pinned), attracts every rocket to every planet, resolves rocket
 * landings and planet mergers, and finally moves every body by its velocity.
 *
 * The lists hold references. What one step does to the list as a whole is
 * stated for lists in which no object occurs twice (`Distinct`); the source
 * does not check this, so it is a hypothesis of those properties rather than
 * a precondition.
 */
module GravitySimulators {
  import opened Numerics
  import opened GameConstants
  import opened Seqs
  import opened Planets
  import opened Rockets
  import opened Gravity
  import VehicleManagers

  /** The state of every planet of `ps`, in list order. */
  ghost function Views(ps: seq<Planet>): (vs: seq<PlanetView>)
    reads ps
    ensures |vs| == |ps|
    ensures forall k {:trigger vs[k]} :: 0 <= k < |ps| ==> vs[k] == ps[k].View()
  {
    seq(|ps|, k requires 0 <= k < |ps| reads ps => ps[k].View())
  }

  /** The state of every rocket of `rs`, in list order. */
  ghost function RViews(rs: seq<Rocket>): (vs: seq<RocketView>)
    reads rs
    ensures |vs| == |rs|
    ensures forall k {:trigger vs[k]} :: 0 <= k < |rs| ==> vs[k] == rs[k].View()
    decreases |rs|
  {
    if rs == [] then [] else [rs[0].View()] + RViews(rs[1..])
  }

  /** Every planet after its own integration step. */
  function MovedAll(vs: seq<PlanetView>, dt: real): (r: seq<PlanetView>)
    ensures |r| == |vs|
  {
    seq(|vs|, k requires 0 <= k < |vs| => Moved(vs[k], dt))
  }

  /** Every rocket after its own integration step. */
  function SteppedAll(rs: seq<RocketView>, dt: real): (r: seq<RocketView>)
    ensures |r| == |rs|
  {
    seq(|rs|, k requires 0 <= k < |rs| => Stepped(rs[k], dt))
  }

  /** The planets after one `update` step: the pair loop when planet
      gravity is on, then mergers, then every planet moves. */
  function PlanetsAfterStep(lib: MathLib, vs: seq<PlanetView>, simulatePlanetGravity: bool, dt: real): seq<PlanetView>
  {
    var pulled := if simulatePlanetGravity then AfterPulls(lib, vs, PairSchedule(|vs|), dt) else vs;
    MovedAll(MergeAllFrom(lib, pulled, 1), dt)
  }

  /** The planets one `update` step erases, each named by its place in the
      list at the start of the step and mapped to the state it was in when
      it was absorbed (after the pair loop and any mergers it won before). */
  function ErasedInStep(lib: MathLib, vs: seq<PlanetView>, simulatePlanetGravity: bool, dt: real): map<nat, PlanetView>
  {
    var pulled := if simulatePlanetGravity then AfterPulls(lib, vs, PairSchedule(|vs|), dt) else vs;
    MergeAllTrace(lib, pulled, Indices(|pulled|), map[], 1).1
  }

  /** The rockets after one `update` step, given the planets `vs` at its
      start: gravity, landings, then every rocket moves. */
  function RocketsAfterStep(lib: MathLib, vs: seq<PlanetView>, rs: seq<RocketView>, dt: real): seq<RocketView>
  {
    var discs := Discs(vs);
    SteppedAll(CollideEach(lib, GravityOnRockets(lib, rs, discs, dt), discs), dt)
  }

  /** A step keeps the total planet mass: gravity changes only velocities,
      mergers add masses, moving changes only positions. */
  lemma StepKeepsMass(lib: MathLib, vs: seq<PlanetView>, simulatePlanetGravity: bool, dt: real)
    ensures SumReals(Masses(PlanetsAfterStep(lib, vs, simulatePlanetGravity, dt))) == SumReals(Masses(vs))
  {
    var pulled := if simulatePlanetGravity then AfterPulls(lib, vs, PairSchedule(|vs|), dt) else vs;
    AfterPullsKeepsDiscs(lib, vs, PairSchedule(|vs|), dt);
    var merged := MergeAllFrom(lib, pulled, 1);
    MergeAllKeepsMassAndFirst(lib, pulled, 1);
    assert Masses(MovedAll(merged, dt)) == Masses(merged);
  }

  /** Planet 0, the main planet, is never pulled and never merges: a step
      only moves it by its velocity. */
  lemma StepKeepsFirst(lib: MathLib, vs: seq<PlanetView>, simulatePlanetGravity: bool, dt: real)
    requires |vs| > 0
    ensures var r := PlanetsAfterStep(lib, vs, simulatePlanetGravity, dt);
            |r| > 0 && r[0] == Moved(vs[0], dt)
  {
    var pulled := if simulatePlanetGravity then AfterPulls(lib, vs, PairSchedule(|vs|), dt) else vs;
    PairLoopEffect(lib, vs, dt);
    AfterPullsKeepsDiscs(lib, vs, PairSchedule(|vs|), dt);
    assert |pulled| == |Discs(pulled)| == |vs|;
    MergeAllKeepsMassAndFirst(lib, pulled, 1);
  }

  /** A list whose every planet is in state `vs` has views `vs`. */
  lemma ViewsAre(ps: seq<Planet>, vs: seq<PlanetView>)
    requires |ps| == |vs| && forall t :: 0 <= t < |ps| ==> ps[t].View() == vs[t]
    ensures Views(ps) == vs
  {
  }

  /** A list whose every rocket is in state `vs` has views `vs`. */
  lemma RViewsAre(rs: seq<Rocket>, vs: seq<RocketView>)
    requires |rs| == |vs| && forall t :: 0 <= t < |rs| ==> rs[t].View() == vs[t]
    ensures RViews(rs) == vs
  {
  }

  /** Planets whose every disc is that of `vs` have the discs of `vs`. */
  lemma DiscsAre(ps: seq<Planet>, vs: seq<PlanetView>)
    requires |ps| == |vs| && forall t :: 0 <= t < |ps| ==> DiscOf(ps[t].View()) == DiscOf(vs[t])
    ensures Discs(Views(ps)) == Discs(vs)
  {
  }

  /** Every planet of `ps` is in the state `vs` lists. */
  ghost predicate Holds(ps: seq<Planet>, vs: seq<PlanetView>)
    reads ps
  {
    |ps| == |vs| && forall t :: 0 <= t < |ps| ==> ps[t].View() == vs[t]
  }

  lemma HoldsViews(ps: seq<Planet>, vs: seq<PlanetView>)
    requires Holds(ps, vs)
    ensures Views(ps) == vs
  {
    ViewsAre(ps, vs);
  }

  lemma ViewsHold(ps: seq<Planet>)
    ensures Holds(ps, Views(ps))
  {
  }

  /** Place `m` of `ps` holds the planet of `origin` that `tags[m]` names. */
  ghost predicate Tagged(ps: seq<Planet>, origin: seq<Planet>, tags: seq<nat>) {
    |tags| == |ps| && forall m :: 0 <= m < |ps| ==> tags[m] < |origin| && ps[m] == origin[tags[m]]
  }

  /** Every planet of `origin` that `gone` names has left `ps` and is in the
      state `gone` records for it. */
  ghost predicate Erased(ps: seq<Planet>, origin: seq<Planet>, gone: map<nat, PlanetView>)
    reads origin
  {
    forall t :: t in gone ==> t < |origin| && origin[t] !in ps && origin[t].View() == gone[t]
  }

  /** Erasing place `d`, in state `x`, from a list without repetitions keeps
      every remaining planet tagged and records the erased planet's state. */
  lemma ErasedAfterMerge(before: seq<Planet>, after: seq<Planet>, origin: seq<Planet>, tags: seq<nat>,
                         gone: map<nat, PlanetView>, d: nat, x: PlanetView)
    requires Distinct(before) && d < |before|
    requires after == before[..d] + before[d + 1..]
    requires Tagged(before, origin, tags) && Erased(before, origin, gone) && before[d].View() == x
    ensures Tagged(after, origin, tags[..d] + tags[d + 1..])
    ensures Erased(after, origin, gone[tags[d] := x])
  {
    var tags' := tags[..d] + tags[d + 1..];
    forall m | 0 <= m < |after|
      ensures tags'[m] < |origin| && after[m] == origin[tags'[m]] && after[m] != before[d]
    {
      var m' := if m < d then m else m + 1;
      assert after[m] == before[m'] && tags'[m] == tags[m'];
    }
  }

  /** A merger in a traced row: after planets `i < j` of a list without
      repetitions merge, the list and the tags follow `MergeRowTrace`. */
  lemma TracedMerge(lib: MathLib, before: seq<Planet>, after: seq<Planet>, origin: seq<Planet>, vs: seq<PlanetView>,
                    tags: seq<nat>, gone: map<nat, PlanetView>, i: nat, j: nat, removedI: bool)
    requires i < j < |before| == |vs| && Distinct(before) && Touching(lib, vs[i], vs[j])
    requires removedI <==> !(vs[i].mass >= vs[j].mass)
    requires var d := if removedI then i else j;
             after == before[..d] + before[d + 1..] && before[d].View() == vs[d]
    requires Tagged(before, origin, tags) && Erased(before, origin, gone)
    ensures var t := MergedTrace(vs, tags, gone, i, j);
            Tagged(after, origin, t.0) && Erased(after, origin, t.1) &&
            (if removedI then t else MergeRowTrace(lib, Merged(lib, vs, i, j), t.0, t.1, i, j)) ==
              MergeRowTrace(lib, vs, tags, gone, i, j)
  {
    var d := if removedI then i else j;
    ErasedAfterMerge(before, after, origin, tags, gone, d, vs[d]);
    MergeRowTraceMerges(lib, vs, tags, gone, i, j);
  }

  /** The planet at place `t` of `origin` has left `ps` exactly when `gone`
      names `t`, and is then in the state `gone` records. */
  ghost predicate LeftAs(ps: seq<Planet>, origin: seq<Planet>, gone: map<nat, PlanetView>)
    reads origin
  {
    forall t :: 0 <= t < |origin| ==>
      (origin[t] !in ps <==> t in gone) && (t in gone ==> origin[t].View() == gone[t])
  }

  /** After a traced pass over `origin`, whose states were `vs`, a planet of
      `origin` has left `ps` exactly when the pass erased it. */
  lemma PassLeftAs(lib: MathLib, ps: seq<Planet>, origin: seq<Planet>, vs: seq<PlanetView>)
    requires |vs| == |origin|
    requires var t := MergeAllTrace(lib, vs, Indices(|origin|), map[], 1);
             Tagged(ps, origin, t.0) && Erased(ps, origin, t.1)
    ensures LeftAs(ps, origin, MergeAllTrace(lib, vs, Indices(|origin|), map[], 1).1)
  {
    var t := MergeAllTrace(lib, vs, Indices(|origin|), map[], 1);
    AccountedAtStart(|origin|);
    MergeAllTraceAccounted(lib, vs, Indices(|origin|), map[], 1, |origin|);
    LeftExactlyErased(ps, origin, t.0, t.1);
  }

  /** When every tag is accounted for, a planet of `origin` has left `ps`
      exactly when `gone` names it. */
  lemma LeftExactlyErased(ps: seq<Planet>, origin: seq<Planet>, tags: seq<nat>, gone: map<nat, PlanetView>)
    requires Tagged(ps, origin, tags) && Erased(ps, origin, gone) && Accounted(tags, gone, |origin|)
    ensures LeftAs(ps, origin, gone)
  {
    forall t | 0 <= t < |origin| && t !in gone
      ensures origin[t] in ps
    {
      var m :| 0 <= m < |tags| && tags[m] == t;
      assert ps[m] == origin[t];
    }
  }

  /** The list after an absorption, seen from the planets' states: once the
      survivor `s` holds its new mass and velocity and planet `d` is erased,
      the states are `Absorb`'s. */
  lemma AbsorbedViews(lib: MathLib, p0: seq<Planet>, v0: seq<PlanetView>, s: nat, d: nat, m: real, v: Vec)
    requires s < |p0| == |v0| && d < |p0| && s != d && Distinct(p0)
    requires Holds(p0, v0[s := v0[s].(mass := m, radius := RadiusFor(lib, m), velocity := v)])
    ensures Holds(p0[..d] + p0[d + 1..], Absorb(lib, v0, s, d, m, v))
  {
    var w := v0[s := v0[s].(mass := m, radius := RadiusFor(lib, m), velocity := v)];
    var qs := p0[..d] + p0[d + 1..];
    forall t | 0 <= t < |qs|
      ensures qs[t].View() == (w[..d] + w[d + 1..])[t]
    {
      if t < d {
        assert qs[t] == p0[t];
      } else {
        assert qs[t] == p0[t + 1];
      }
    }
  }

  lemma RowsStep(before: seq<Pull>, i: nat, n: nat)
    requires i < n
    ensures before + Rows(i, n) == (before + RowPulls(i, i + 1, n)) + Rows(i + 1, n)
  {
  }

  lemma ConcatPair<T>(s: seq<T>, a: T, b: T)
    ensures s + [a] + [b] == s + [a, b]
  {
  }

  lemma PrefixStep<T>(done: seq<T>, todo: seq<T>, k: nat)
    requires |done| == |todo| && k < |todo|
    ensures done[..k + 1] + todo[k + 1..] == (done[..k] + todo[k..])[k := done[k]]
  {
  }

  class GravitySimulator {
    var planets: seq<Planet>
    var rockets: seq<Rocket>
    /** The manager the source registers; no step of the simulation reads it. */
    var vehicleManager: VehicleManagers.VehicleManager?
    var simulatePlanetGravity: bool
    var ownerId: int

    /** Empty lists, planet gravity on, no manager, the given owner (the
        header's default owner is -1). */
    constructor (ownerId: int)
      ensures planets == [] && rockets == [] && vehicleManager == null
      ensures simulatePlanetGravity && this.ownerId == ownerId
    {
      planets := [];
      rockets := [];
      vehicleManager := null;
      simulatePlanetGravity := true;
      this.ownerId := ownerId;
    }

    /** Appends a planet; a null one is ignored. */
    method AddPlanet(p: Planet?)
      modifies this
      ensures planets == (if p != null then old(planets) + [p] else old(planets))
      ensures rockets == old(rockets) && vehicleManager == old(vehicleManager)
      ensures simulatePlanetGravity == old(simulatePlanetGravity) && ownerId == old(ownerId)
    {
      if p != null {
        planets := planets + [p];
      }
    }

    /** Erases the first occurrence of `p`, if any. */
    method RemovePlanet(p: Planet)
      modifies this
      ensures planets == RemoveFirst(old(planets), p)
      ensures rockets == old(rockets) && vehicleManager == old(vehicleManager)
      ensures simulatePlanetGravity == old(simulatePlanetGravity) && ownerId == old(ownerId)
    {
      var k := Find(planets, p);
      if k < |planets| {
        planets := planets[..k] + planets[k + 1..];
      }
    }

    /** Appends a rocket; a null one is ignored. */
    method AddRocket(r: Rocket?)
      modifies this
      ensures rockets == (if r != null then old(rockets) + [r] else old(rockets))
      ensures planets == old(planets) && vehicleManager == old(vehicleManager)
      ensures simulatePlanetGravity == old(simulatePlanetGravity) && ownerId == old(ownerId)
    {
      if r != null {
        rockets := rockets + [r];
      }
    }

    /** Erases the first occurrence of `r`, if any. */
    method RemoveRocket(r: Rocket)
      modifies this
      ensures rockets == RemoveFirst(old(rockets), r)
      ensures planets == old(planets) && vehicleManager == old(vehicleManager)
      ensures simulatePlanetGravity == old(simulatePlanetGravity) && ownerId == old(ownerId)
    {
      var k := Find(rockets, r);
      if k < |rockets| {
        rockets := rockets[..k] + rockets[k + 1..];
      }
    }

    method AddVehicleManager(m: VehicleManagers.VehicleManager?)
      modifies this
      ensures vehicleManager == m
      ensures planets == old(planets) && rockets == old(rockets)
      ensures simulatePlanetGravity == old(simulatePlanetGravity) && ownerId == old(ownerId)
    {
      vehicleManager := m;
    }

    /** Forgets the manager only if it is the registered one. */
    method RemoveVehicleManager(m: VehicleManagers.VehicleManager?)
      modifies this
      ensures vehicleManager == (if old(vehicleManager) == m then null else old(vehicleManager))
      ensures planets == old(planets) && rockets == old(rockets)
      ensures simulatePlanetGravity == old(simulatePlanetGravity) && ownerId == old(ownerId)
    {
      if vehicleManager == m {
        vehicleManager := null;
      }
    }

    method SetSimulatePlanetGravity(enable: bool)
      modifies this
      ensures simulatePlanetGravity == enable
      ensures planets == old(planets) && rockets == old(rockets)
      ensures vehicleManager == old(vehicleManager) && ownerId == old(ownerId)
    {
      simulatePlanetGravity := enable;
    }

    method SetOwnerId(id: int)
      modifies this
      ensures ownerId == id
      ensures planets == old(planets) && rockets == old(rockets)
      ensures vehicleManager == old(vehicleManager) && simulatePlanetGravity == old(simulatePlanetGravity)
    {
      ownerId := id;
    }

    // ----- Planet-planet attraction -----

    /** `planet` is pulled by `other`: only its velocity changes, by
        `PlanetPull` computed from both planets as they were before the call
        (so not at all when they overlap). */
    method ApplyGravityToPlanet(lib: MathLib, planet: Planet, other: Planet, dt: real)
      modifies planet
      ensures planet.View() == old(planet.View()).(velocity := old(planet.velocity).Plus(
                PlanetPull(lib, DiscOf(old(planet.View())), DiscOf(old(other.View())), dt)))
    {
      var direction := other.position.Minus(planet.position);
      var distance := Length(lib, direction);
      if distance <= other.radius + planet.radius {
        return;
      }
      var acceleration := Acceleration(lib, direction, distance, other.mass, planet.mass);
      planet.SetVelocity(planet.velocity.Plus(acceleration.Scale(dt)));
    }

    /** Gravity among the planets: the calls of `PairSchedule`, in order.
        Positions, radii and masses are untouched; on a list without
        repetitions the planets end as `AfterPulls` says, so every velocity
        gains exactly the pulls naming it as target and planet 0 keeps its
        velocity (`PairLoopEffect`). */
    method ApplyGravityBetweenPlanets(lib: MathLib, dt: real)
      modifies planets
      ensures Discs(Views(planets)) == old(Discs(Views(planets)))
      ensures Distinct(planets) ==> Views(planets) == AfterPulls(lib, old(Views(planets)), PairSchedule(|planets|), dt)
      ensures RViews(rockets) == old(RViews(rockets))
    {
      var n := |planets|;
      ghost var v0 := Views(planets);
      ghost var done: seq<Pull> := [];
      var i := 0;
      while i < n
        invariant 0 <= i <= n
        invariant done + Rows(i, n) == PairSchedule(n)
        invariant forall t :: 0 <= t < n ==> DiscOf(planets[t].View()) == DiscOf(v0[t])
        invariant Distinct(planets) ==> forall t :: 0 <= t < n ==> planets[t].View() == AfterPulls(lib, v0, done, dt)[t]
      {
        RowsStep(done, i, n);
        done := ApplyRow(lib, i, dt, v0, done);
        i := i + 1;
      }
      assert done == PairSchedule(n);
      DiscsAre(planets, v0);
      if Distinct(planets) {
        ViewsAre(planets, AfterPulls(lib, v0, done, dt));
      }
    }

    /** Row `i` of the pair loop: the inner loop over `j > i`. */
    method ApplyRow(lib: MathLib, i: nat, dt: real, ghost v0: seq<PlanetView>, ghost done: seq<Pull>)
      returns (ghost after: seq<Pull>)
      requires i < |planets| && |v0| == |planets|
      requires forall t :: 0 <= t < |planets| ==> DiscOf(planets[t].View()) == DiscOf(v0[t])
      requires Distinct(planets) ==> forall t :: 0 <= t < |planets| ==> planets[t].View() == AfterPulls(lib, v0, done, dt)[t]
      modifies planets
      ensures after == done + RowPulls(i, i + 1, |planets|)
      ensures forall t :: 0 <= t < |planets| ==> DiscOf(planets[t].View()) == DiscOf(v0[t])
      ensures Distinct(planets) ==> forall t :: 0 <= t < |planets| ==> planets[t].View() == AfterPulls(lib, v0, after, dt)[t]
    {
      var n := |planets|;
      after := done;
      var j := i + 1;
      while j < n
        invariant i + 1 <= j <= n
        invariant after + RowPulls(i, j, n) == done + RowPulls(i, i + 1, n)
        invariant forall t :: 0 <= t < n ==> DiscOf(planets[t].View()) == DiscOf(v0[t])
        invariant Distinct(planets) ==> forall t :: 0 <= t < n ==> planets[t].View() == AfterPulls(lib, v0, after, dt)[t]
      {
        ghost var step := if i == 0 then [Pull(j, i)] else [Pull(i, j), Pull(j, i)];
        assert RowPulls(i, j, n) == step + RowPulls(i, j + 1, n);
        assert after + (step + RowPulls(i, j + 1, n)) == (after + step) + RowPulls(i, j + 1, n);
        after := PullPair(lib, i, j, dt, v0, after);
        j := j + 1;
      }
      assert RowPulls(i, j, n) == [];
      assert after + RowPulls(i, j, n) == after;
    }

    /** The body of the pair loop for `i < j`: one call when `i` is 0, two
        otherwise. */
    method PullPair(lib: MathLib, i: nat, j: nat, dt: real, ghost v0: seq<PlanetView>, ghost done: seq<Pull>)
      returns (ghost after: seq<Pull>)
      requires i < j < |planets| && |v0| == |planets|
      requires forall t :: 0 <= t < |planets| ==> DiscOf(planets[t].View()) == DiscOf(v0[t])
      requires Distinct(planets) ==> forall t :: 0 <= t < |planets| ==> planets[t].View() == AfterPulls(lib, v0, done, dt)[t]
      modifies planets[i], planets[j]
      ensures after == done + (if i == 0 then [Pull(j, i)] else [Pull(i, j), Pull(j, i)])
      ensures forall t :: 0 <= t < |planets| ==> DiscOf(planets[t].View()) == DiscOf(v0[t])
      ensures Distinct(planets) ==> forall t :: 0 <= t < |planets| ==> planets[t].View() == AfterPulls(lib, v0, after, dt)[t]
    {
      if i == 0 {
        PullOnce(lib, j, i, dt, v0, done);
        after := done + [Pull(j, i)];
      } else {
        PullOnce(lib, i, j, dt, v0, done);
        ghost var mid := done + [Pull(i, j)];
        PullOnce(lib, j, i, dt, v0, mid);
        after := mid + [Pull(j, i)];
        ConcatPair(done, Pull(i, j), Pull(j, i));
      }
    }

    /** The call `applyGravityToPlanet(planets[target], planets[source])` seen
        from the whole list: positions, radii and masses stay, and on a list
        without repetitions the planets go from their state after the calls
        `done` to their state after one more call. */
    method PullOnce(lib: MathLib, target: nat, source: nat, dt: real, ghost v0: seq<PlanetView>, ghost done: seq<Pull>)
      requires target < |planets| && source < |planets| && |v0| == |planets|
      requires forall t :: 0 <= t < |planets| ==> DiscOf(planets[t].View()) == DiscOf(v0[t])
      requires Distinct(planets) ==> forall t :: 0 <= t < |planets| ==> planets[t].View() == AfterPulls(lib, v0, done, dt)[t]
      modifies planets[target]
      ensures forall t :: 0 <= t < |planets| ==> DiscOf(planets[t].View()) == DiscOf(v0[t])
      ensures Distinct(planets) ==>
                forall t :: 0 <= t < |planets| ==> planets[t].View() == AfterPulls(lib, v0, done + [Pull(target, source)], dt)[t]
    {
      ApplyGravityToPlanet(lib, planets[target], planets[source], dt);
      if Distinct(planets) {
        AfterPullsSnoc(lib, v0, done, Pull(target, source), dt);
      }
    }

    // ----- Planet-rocket attraction -----

    /** One planet's pull on one rocket: only the rocket's velocity changes,
        by `RocketPull` (nothing within the planet's radius plus
        `TRAJECTORY_COLLISION_RADIUS`). */
    method PullOnRocket(lib: MathLib, rocket: Rocket, planet: Planet, dt: real)
      modifies rocket
      ensures rocket.View() == old(rocket.View()).(velocity := old(rocket.velocity).Plus(
                RocketPull(lib, old(rocket.position), old(rocket.mass), DiscOf(planet.View()), dt)))
    {
      var direction := planet.position.Minus(rocket.position);
      var distance := Length(lib, direction);
      if distance > planet.radius + TRAJECTORY_COLLISION_RADIUS {
        var acceleration := Acceleration(lib, direction, distance, planet.mass, rocket.mass);
        var velocityChange := acceleration.Scale(dt);
        rocket.SetVelocity(rocket.velocity.Plus(velocityChange));
      }
    }

    /** The inner loop of `applyGravityToRockets` for one rocket: its velocity
        gains the pull of every planet in turn (`RocketGravity`). */
    method GravityOnRocket(lib: MathLib, rocket: Rocket, dt: real, ghost discs: seq<Disc>)
      requires discs == Discs(Views(planets))
      modifies rocket
      ensures rocket.View() == old(rocket.View()).(velocity := RocketGravity(lib, old(rocket.position), old(rocket.mass),
                                                                            old(rocket.velocity), discs, dt))
    {
      ghost var r0 := rocket.View();
      var m := 0;
      while m < |planets|
        invariant 0 <= m <= |planets|
        invariant rocket.View() == r0.(velocity := RocketGravity(lib, r0.position, r0.mass, r0.velocity, discs[..m], dt))
      {
        PullOnRocket(lib, rocket, planets[m], dt);
        assert discs[..m + 1][..m] == discs[..m];
        m := m + 1;
      }
      assert discs[..m] == discs;
    }

    /** Gravity on the rockets: on a list without repetitions every rocket's
        velocity becomes `RocketGravity` of the planets, nothing else changes. */
    method ApplyGravityToRockets(lib: MathLib, dt: real)
      modifies rockets
      ensures Distinct(rockets) ==> RViews(rockets) == GravityOnRockets(lib, old(RViews(rockets)), old(Discs(Views(planets))), dt)
      ensures Views(planets) == old(Views(planets))
    {
      ghost var r0 := RViews(rockets);
      ghost var discs := Discs(Views(planets));
      ghost var goal := GravityOnRockets(lib, r0, discs, dt);
      var k := 0;
      while k < |rockets|
        invariant 0 <= k <= |rockets|
        invariant unchanged(planets)
        invariant Discs(Views(planets)) == discs
        invariant Distinct(rockets) ==>
                    forall t :: 0 <= t < |rockets| ==> rockets[t].View() == if t < k then goal[t] else r0[t]
      {
        GravityOnRocket(lib, rockets[k], dt, discs);
        k := k + 1;
      }
      if Distinct(rockets) {
        RViewsAre(rockets, goal);
      }
    }

    // ----- Collisions -----

    /** A rocket meeting one planet: its position and velocity become what
        `Collide` says (unchanged unless it touches the planet while moving
        inward), nothing else changes. */
    method CollideWith(lib: MathLib, rocket: Rocket, planet: Planet)
      modifies rocket
      ensures var c := Collide(lib, old(rocket.position), old(rocket.velocity), DiscOf(planet.View()));
              rocket.View() == old(rocket.View()).(position := c.0, velocity := c.1)
    {
      var direction := rocket.position.Minus(planet.position);
      var distance := Length(lib, direction);
      if distance <= planet.radius + ROCKET_SIZE {
        var normal := lib.normalize(direction);
        var velDotNormal := rocket.velocity.Dot(normal);
        if velDotNormal < 0.0 {
          var newVelocity := rocket.velocity.Minus(normal.Scale(velDotNormal));
          var tangent := Tangent(normal);
          var velDotTangent := newVelocity.Dot(tangent);
          newVelocity := tangent.Scale(velDotTangent).Scale(FRICTION);
          rocket.SetVelocity(newVelocity);
          var newPosition := planet.position.Plus(normal.Scale(planet.radius + ROCKET_SIZE));
          rocket.SetPosition(newPosition);
        }
      }
    }

    /** One rocket meeting every planet in turn (`CollideAll`). */
    method CollideRocket(lib: MathLib, rocket: Rocket, ghost discs: seq<Disc>)
      requires discs == Discs(Views(planets))
      modifies rocket
      ensures var c := CollideAll(lib, old(rocket.position), old(rocket.velocity), discs);
              rocket.View() == old(rocket.View()).(position := c.0, velocity := c.1)
    {
      ghost var r0 := rocket.View();
      var m := 0;
      while m < |planets|
        invariant 0 <= m <= |planets|
        invariant var c := CollideAll(lib, r0.position, r0.velocity, discs[..m]);
                  rocket.View() == r0.(position := c.0, velocity := c.1)
      {
        CollideWith(lib, rocket, planets[m]);
        assert discs[..m + 1][..m] == discs[..m];
        m := m + 1;
      }
      assert discs[..m] == discs;
    }

    /** The rocket half of `handleCollisions`: on a list without repetitions
        every rocket ends as `CollideEach` says. */
    method CollideRockets(lib: MathLib)
      modifies rockets
      ensures Distinct(rockets) ==> RViews(rockets) == CollideEach(lib, old(RViews(rockets)), old(Discs(Views(planets))))
    {
      ghost var r0 := RViews(rockets);
      ghost var discs := Discs(Views(planets));
      ghost var goal := CollideEach(lib, r0, discs);
      var k := 0;
      while k < |rockets|
        invariant 0 <= k <= |rockets|
        invariant unchanged(planets)
        invariant Discs(Views(planets)) == discs
        invariant Distinct(rockets) ==>
                    forall t :: 0 <= t < |rockets| ==> rockets[t].View() == if t < k then goal[t] else r0[t]
      {
        CollideRocket(lib, rockets[k], discs);
        k := k + 1;
      }
      if Distinct(rockets) {
        RViewsAre(rockets, goal);
      }
    }

    /** The survivor's two setter calls: `setMass(m)` (which also sets the
        radius) then `setVelocity(v)`. No other planet changes. */
    method AbsorbInto(lib: MathLib, s: nat, m: real, v: Vec, ghost v0: seq<PlanetView>)
      requires s < |planets|
      requires Distinct(planets) ==> Holds(planets, v0)
      modifies planets[s]
      ensures Distinct(planets) ==> Holds(planets, v0[s := v0[s].(mass := m, radius := RadiusFor(lib, m), velocity := v)])
    {
      planets[s].SetMass(lib, m);
      planets[s].SetVelocity(v);
      if Distinct(planets) {
        assert forall t :: 0 <= t < |planets| && t != s ==> planets[t] != planets[s];
      }
    }

    /** Planet `s` takes mass `m` and velocity `v` and planet `d` is erased
        from the list: on a list without repetitions the planets end in the
        states `Absorb` gives. */
    method AbsorbPlanet(lib: MathLib, s: nat, d: nat, m: real, v: Vec, ghost v0: seq<PlanetView>)
      requires s < |planets| && d < |planets| && s != d
      requires Distinct(planets) ==> Holds(planets, v0)
      modifies this, planets[s]
      ensures |planets| == |old(planets)| - 1
      ensures forall p :: p in planets ==> p in old(planets)
      ensures rockets == old(rockets) && vehicleManager == old(vehicleManager)
      ensures simulatePlanetGravity == old(simulatePlanetGravity) && ownerId == old(ownerId)
      ensures Distinct(old(planets)) ==>
                planets == old(planets[..d] + planets[d + 1..]) && Distinct(planets) &&
                Holds(planets, Absorb(lib, v0, s, d, m, v))
    {
      ghost var p0 := planets;
      var gone := planets[d];
      AbsorbInto(lib, s, m, v, v0);
      RemovePlanet(gone);
      RemoveFirstShape(p0, gone);
      if Distinct(p0) {
        RemoveFirstAt(p0, d);
        DistinctRemove(p0, d);
        AbsorbedViews(lib, p0, v0, s, d, m, v);
      }
    }

    /** Planets `i < j` merge: the heavier (`i` on a tie) takes the summed
        mass and the momentum-weighted velocity, the other is erased from the
        list. On a list without repetitions the planets end as `Merged` says. */
    method MergePair(lib: MathLib, i: nat, j: nat, ghost v0: seq<PlanetView>) returns (removedI: bool)
      requires i < j < |planets|
      requires Distinct(planets) ==> Holds(planets, v0)
      modifies this, if planets[i].mass >= planets[j].mass then planets[i] else planets[j]
      ensures removedI <==> !(old(planets[i].mass) >= old(planets[j].mass))
      ensures |planets| == |old(planets)| - 1
      ensures forall p :: p in planets ==> p in old(planets)
      ensures rockets == old(rockets) && vehicleManager == old(vehicleManager)
      ensures simulatePlanetGravity == old(simulatePlanetGravity) && ownerId == old(ownerId)
      ensures var d := if removedI then i else j;
              Distinct(old(planets)) ==> planets == old(planets[..d] + planets[d + 1..])
      ensures Distinct(old(planets)) ==> Distinct(planets) && Holds(planets, Merged(lib, v0, i, j))
    {
      var pi := planets[i];
      var pj := planets[j];
      var newMass := pi.mass + pj.mass;
      var newVelocity := MergedVelocity(pi.mass, pi.velocity, pj.mass, pj.velocity);
      if Distinct(planets) {
        MergedIsAbsorb(lib, v0, i, j);
      }
      // Both branches of the source update the survivor, then erase the
      // other; they differ only in which planet is which.
      removedI := !(pi.mass >= pj.mass);
      var survivor, gone := if removedI then j else i, if removedI then i else j;
      AbsorbPlanet(lib, survivor, gone, newMass, newVelocity, v0);
    }

    /** The inner merge loop for planet `i`: it stops early (the source's
        `break`) once planet `i` itself has been absorbed (`removedI`). On a
        list without repetitions the planets end in the states `vs` and the
        flag as `MergeRowFrom` says, and planet 0 stays first. */
    method MergeRow(lib: MathLib, i: nat, ghost v0: seq<PlanetView>, ghost P: seq<Planet>, ghost tags0: seq<nat>, ghost gone0: map<nat, PlanetView>)
      returns (removedI: bool, ghost vs: seq<PlanetView>, ghost tags: seq<nat>, ghost gone: map<nat, PlanetView>)
      requires 1 <= i < |planets| && |v0| == |planets|
      requires Distinct(planets) ==> Holds(planets, v0)
      modifies this, planets
      ensures i < |planets| <= |old(planets)| && |vs| == |planets|
      ensures removedI ==> |planets| < |old(planets)|
      ensures forall p :: p in planets ==> p in old(planets)
      ensures rockets == old(rockets) && vehicleManager == old(vehicleManager)
      ensures simulatePlanetGravity == old(simulatePlanetGravity) && ownerId == old(ownerId)
      ensures Distinct(old(planets)) ==>
                Distinct(planets) && Holds(planets, vs) && planets[0] == old(planets[0]) &&
                (vs, removedI) == MergeRowFrom(lib, v0, i, i + 1)
      ensures old(Distinct(planets) && Tagged(planets, P, tags0) && Erased(planets, P, gone0)) ==>
                Tagged(planets, P, tags) && Erased(planets, P, gone) &&
                (tags, gone) == MergeRowTrace(lib, v0, tags0, gone0, i, i + 1)
    {
      ghost var p0 := planets;
      ghost var D := Distinct(planets);
      ghost var T := D && Tagged(planets, P, tags0) && Erased(planets, P, gone0);
      vs, tags, gone := v0, tags0, gone0;
      removedI := false;
      var j := i + 1;
      while j < |planets| && !removedI
        invariant i < j <= |planets| <= |p0| && |vs| == |planets|
        invariant removedI ==> |planets| < |p0|
        invariant forall p :: p in planets ==> p in p0
        invariant rockets == old(rockets) && vehicleManager == old(vehicleManager)
        invariant simulatePlanetGravity == old(simulatePlanetGravity) && ownerId == old(ownerId)
        invariant D ==> Distinct(planets) && Holds(planets, vs) && planets[0] == p0[0]
        invariant D ==> (if removedI then (vs, true) else MergeRowFrom(lib, vs, i, j)) == MergeRowFrom(lib, v0, i, i + 1)
        invariant T ==> D && Tagged(planets, P, tags) && Erased(planets, P, gone)
        invariant T ==> (if removedI then (tags, gone) else MergeRowTrace(lib, vs, tags, gone, i, j)) ==
                        MergeRowTrace(lib, v0, tags0, gone0, i, i + 1)
        decreases |planets| - j
      {
        var direction := planets[j].position.Minus(planets[i].position);
        var distance := Length(lib, direction);
        if distance <= planets[i].radius + planets[j].radius {
          assert planets[i] in p0 && planets[j] in p0;
          ghost var before, us := planets, vs;
          removedI, vs := MergeTouching(lib, i, j, D, p0, vs, T, P, gone);
          if T {
            TracedMerge(lib, before, planets, P, us, tags, gone, i, j, removedI);
            tags, gone := MergedTrace(us, tags, gone, i, j).0, MergedTrace(us, tags, gone, i, j).1;
          }
        } else {
          assert D ==> !Touching(lib, vs[i], vs[j]);
          MergeRowSkips(lib, vs, i, j);
          if T {
            MergeRowTraceSkips(lib, vs, tags, gone, i, j);
          }
          j := j + 1;
        }
      }
      MergeRowSkips(lib, vs, i, j);
      if T {
        MergeRowTraceSkips(lib, vs, tags, gone, i, j);
      }
    }

    /** The step of a row where planets `i < j` touch: they merge. While
        planet `i` survives the row goes on at the same `j`, which now holds
        the next planet. */
    method MergeTouching(lib: MathLib, i: nat, j: nat, ghost D: bool, ghost p0: seq<Planet>, ghost vs: seq<PlanetView>,
                         ghost T: bool, ghost P: seq<Planet>, ghost gone: map<nat, PlanetView>)
      returns (removedI: bool, ghost ws: seq<PlanetView>)
      requires 1 <= i < j < |planets| <= |p0| && |vs| == |planets|
      requires forall p :: p in planets ==> p in p0
      requires D ==> Distinct(planets) && Holds(planets, vs) && planets[0] == p0[0]
      requires T ==> Erased(planets, P, gone)
      requires Length(lib, planets[j].position.Minus(planets[i].position)) <= planets[i].radius + planets[j].radius
      modifies this, planets[i], planets[j]
      ensures |planets| == |old(planets)| - 1 && |ws| == |planets|
      ensures forall p :: p in planets ==> p in p0
      ensures rockets == old(rockets) && vehicleManager == old(vehicleManager)
      ensures simulatePlanetGravity == old(simulatePlanetGravity) && ownerId == old(ownerId)
      ensures D ==> Distinct(planets) && Holds(planets, ws) && planets[0] == p0[0]
      ensures D ==> (if removedI then (ws, true) else MergeRowFrom(lib, ws, i, j)) == MergeRowFrom(lib, vs, i, j)
      ensures D ==> Touching(lib, vs[i], vs[j]) && (removedI <==> !(vs[i].mass >= vs[j].mass)) && ws == Merged(lib, vs, i, j)
      ensures D ==> var d := if removedI then i else j;
                    planets == old(planets)[..d] + old(planets)[d + 1..] && old(planets)[d].View() == vs[d]
      ensures T ==> Erased(old(planets), P, gone)
    {
      ghost var cur := if D then vs else Views(planets);
      ViewsHold(planets);
      assert D ==> Touching(lib, vs[i], vs[j]) && (vs[i].mass >= vs[j].mass <==> planets[i].mass >= planets[j].mass);
      ghost var before := planets;
      removedI := MergePair(lib, i, j, cur);
      ws := Merged(lib, cur, i, j);
      if T {
        forall t | t in gone
          ensures P[t] != before[i] && P[t] != before[j]
        {
          assert P[t] !in before;
        }
      }
    }

    /** One row of the merge pass, as the pass sees it: on a list without
        repetitions the rest of the pass, on the list and on the tags, is the
        same after the row as before it. */
    method MergeStep(lib: MathLib, i: nat, ghost D: bool, ghost p0: seq<Planet>, ghost vs: seq<PlanetView>,
                     ghost tags: seq<nat>, ghost gone: map<nat, PlanetView>)
      returns (removedI: bool, ghost ws: seq<PlanetView>, ghost tags': seq<nat>, ghost gone': map<nat, PlanetView>)
      requires 1 <= i < |planets| <= |p0| && |vs| == |planets|
      requires forall p :: p in planets ==> p in p0
      requires D ==> Distinct(planets) && Holds(planets, vs) && Tagged(planets, p0, tags) && Erased(planets, p0, gone)
      requires D && |p0| > 0 ==> planets[0] == p0[0]
      modifies this, planets
      ensures i < |planets| <= |old(planets)| && |ws| == |planets|
      ensures removedI ==> |planets| < |old(planets)|
      ensures forall p :: p in planets ==> p in p0
      ensures rockets == old(rockets) && vehicleManager == old(vehicleManager)
      ensures simulatePlanetGravity == old(simulatePlanetGravity) && ownerId == old(ownerId)
      ensures D ==> Distinct(planets) && Holds(planets, ws) && Tagged(planets, p0, tags') && Erased(planets, p0, gone')
      ensures D && |p0| > 0 ==> planets[0] == p0[0]
      ensures D ==> var next := if removedI then i else i + 1;
                    MergeAllFrom(lib, vs, i) == MergeAllFrom(lib, ws, next) &&
                    MergeAllTrace(lib, vs, tags, gone, i) == MergeAllTrace(lib, ws, tags', gone', next)
    {
      ghost var cur := if D then vs else Views(planets);
      ViewsHold(planets);
      removedI, ws, tags', gone' := MergeRow(lib, i, cur, p0, tags, gone);
      if D {
        MergeAllSteps(lib, vs, tags, gone, i, ws, removedI, tags', gone');
      }
    }

    /** The planet half of `handleCollisions`: rows from 1 (planet 0 never
        merges), each row repeated while its own planet was just absorbed.
        Planets only leave the list; on a list without repetitions they end
        as `MergeAllFrom` says and planet 0 stays first. */
    method MergePlanets(lib: MathLib)
      modifies this, planets
      ensures |planets| <= |old(planets)|
      ensures forall p :: p in planets ==> p in old(planets)
      ensures rockets == old(rockets) && vehicleManager == old(vehicleManager)
      ensures simulatePlanetGravity == old(simulatePlanetGravity) && ownerId == old(ownerId)
      ensures Distinct(old(planets)) ==> Distinct(planets)
      ensures Distinct(old(planets)) ==> Views(planets) == MergeAllFrom(lib, old(Views(planets)), 1)
      ensures Distinct(old(planets)) && |old(planets)| > 0 ==> |planets| > 0 && planets[0] == old(planets[0])
      ensures Distinct(old(planets)) ==>
                var t := MergeAllTrace(lib, old(Views(planets)), Indices(|old(planets)|), map[], 1);
                Tagged(planets, old(planets), t.0) && Erased(planets, old(planets), t.1)
    {
      ghost var p0 := planets;
      ghost var v0 := Views(planets);
      ghost var D := Distinct(planets);
      ghost var vs := v0;
      ghost var tags, gone := Indices(|planets|), map[];
      ViewsHold(planets);
      var i := 1;
      while i < |planets|
        invariant 1 <= i && |planets| <= |p0| && |vs| == |planets|
        invariant forall p :: p in planets ==> p in p0
        invariant rockets == old(rockets) && vehicleManager == old(vehicleManager)
        invariant simulatePlanetGravity == old(simulatePlanetGravity) && ownerId == old(ownerId)
        invariant D ==> Distinct(planets) && Holds(planets, vs) && Tagged(planets, p0, tags) && Erased(planets, p0, gone)
        invariant D && |p0| > 0 ==> |planets| > 0 && planets[0] == p0[0]
        invariant D ==> MergeAllFrom(lib, vs, i) == MergeAllFrom(lib, v0, 1)
        invariant D ==> MergeAllTrace(lib, vs, tags, gone, i) == MergeAllTrace(lib, v0, Indices(|p0|), map[], 1)
        decreases 2 * |planets| + 2 - i
      {
        assert forall k :: 0 <= k < |planets| ==> planets[k] in old(planets);
        var removedI;
        removedI, vs, tags, gone := MergeStep(lib, i, D, p0, vs, tags, gone);
        if !removedI {
          i := i + 1;
        }
      }
      if D {
        HoldsViews(planets, vs);
      }
    }

    /** `handleCollisions`: rocket landings against the planets as they are,
        then planet mergers. */
    method HandleCollisions(lib: MathLib)
      modifies this, planets, rockets
      ensures |planets| <= |old(planets)|
      ensures forall p :: p in planets ==> p in old(planets)
      ensures rockets == old(rockets) && vehicleManager == old(vehicleManager)
      ensures simulatePlanetGravity == old(simulatePlanetGravity) && ownerId == old(ownerId)
      ensures Distinct(rockets) ==> RViews(rockets) == CollideEach(lib, old(RViews(rockets)), old(Discs(Views(planets))))
      ensures Distinct(old(planets)) ==>
                Distinct(planets) && Views(planets) == MergeAllFrom(lib, old(Views(planets)), 1)
      ensures Distinct(old(planets)) && |old(planets)| > 0 ==> |planets| > 0 && planets[0] == old(planets[0])
      ensures Distinct(old(planets)) ==>
                LeftAs(planets, old(planets), MergeAllTrace(lib, old(Views(planets)), Indices(|old(planets)|), map[], 1).1)
    {
      ghost var P, v0 := planets, Views(planets);
      CollideRockets(lib);
      MergePlanets(lib);
      if Distinct(P) {
        PassLeftAs(lib, planets, P, v0);
      }
    }

    // ----- Integration -----

    /** Every planet moves by its velocity. */
    method MovePlanets(dt: real)
      modifies planets
      ensures Distinct(planets) ==> Views(planets) == MovedAll(old(Views(planets)), dt)
      ensures RViews(rockets) == old(RViews(rockets))
    {
      ghost var v0 := Views(planets);
      var k := 0;
      while k < |planets|
        invariant 0 <= k <= |planets|
        invariant Distinct(planets) ==>
                    forall t :: 0 <= t < |planets| ==> planets[t].View() == if t < k then Moved(v0[t], dt) else v0[t]
      {
        planets[k].Update(dt);
        k := k + 1;
      }
      if Distinct(planets) {
        ViewsAre(planets, MovedAll(v0, dt));
      }
    }

    /** Every rocket takes its own integration step. */
    method MoveRockets(dt: real)
      modifies rockets
      ensures Distinct(rockets) ==> RViews(rockets) == SteppedAll(old(RViews(rockets)), dt)
      ensures Views(planets) == old(Views(planets))
    {
      ghost var r0 := RViews(rockets);
      var k := 0;
      while k < |rockets|
        invariant 0 <= k <= |rockets|
        invariant Distinct(rockets) ==>
                    forall t :: 0 <= t < |rockets| ==> rockets[t].View() == if t < k then Stepped(r0[t], dt) else r0[t]
      {
        rockets[k].Update(dt);
        k := k + 1;
      }
      if Distinct(rockets) {
        RViewsAre(rockets, SteppedAll(r0, dt));
      }
    }

    /** The force half of `update`: planet gravity when enabled, then rocket
        gravity. The rockets see the planets' discs, which planet gravity does
        not change. */
    method ApplyForces(lib: MathLib, dt: real)
      modifies planets, rockets
      ensures Discs(Views(planets)) == old(Discs(Views(planets)))
      ensures Distinct(planets) ==>
                Views(planets) == if simulatePlanetGravity then AfterPulls(lib, old(Views(planets)), PairSchedule(|planets|), dt)
                                  else old(Views(planets))
      ensures Distinct(rockets) ==> RViews(rockets) == GravityOnRockets(lib, old(RViews(rockets)), old(Discs(Views(planets))), dt)
    {
      if simulatePlanetGravity {
        ApplyGravityBetweenPlanets(lib, dt);
      }
      ApplyGravityToRockets(lib, dt);
    }

    /** The integration half of `update`: every planet, then every rocket,
        takes its own step. */
    method MoveBodies(dt: real)
      modifies planets, rockets
      ensures Distinct(planets) ==> Views(planets) == MovedAll(old(Views(planets)), dt)
      ensures Distinct(rockets) ==> RViews(rockets) == SteppedAll(old(RViews(rockets)), dt)
    {
      MovePlanets(dt);
      MoveRockets(dt);
    }

    /** One simulation step: planet gravity (when enabled), rocket gravity,
        collisions, then integration. */
    method Update(lib: MathLib, dt: real)
      modifies this, planets, rockets
      ensures |planets| <= |old(planets)|
      ensures forall p :: p in planets ==> p in old(planets)
      ensures rockets == old(rockets) && vehicleManager == old(vehicleManager)
      ensures simulatePlanetGravity == old(simulatePlanetGravity) && ownerId == old(ownerId)
      ensures Distinct(rockets) ==>
                RViews(rockets) == RocketsAfterStep(lib, old(Views(planets)), old(RViews(rockets)), dt)
      ensures Distinct(old(planets)) ==>
                Distinct(planets) && Views(planets) == PlanetsAfterStep(lib, old(Views(planets)), simulatePlanetGravity, dt)
      ensures Distinct(old(planets)) && |old(planets)| > 0 ==> |planets| > 0 && planets[0] == old(planets[0])
      ensures Distinct(old(planets)) ==>
                LeftAs(planets, old(planets), ErasedInStep(lib, old(Views(planets)), simulatePlanetGravity, dt))
    {
      ApplyForces(lib, dt);
      HandleCollisions(lib);
      assert forall k :: 0 <= k < |planets| ==> planets[k] in old(planets);
      MoveBodies(dt);
    }
  }

  /** What a tick reads of the world before it: the simulator's settings and
      list, the states of the planets on that list, and the states of the
      planets on an owner's list. */
  datatype WorldBefore = WorldBefore(simulatePlanetGravity: bool, rockets: seq<Rocket>,
                                     vehicleManager: VehicleManagers.VehicleManager?, ownerId: int,
                                     simPlanets: seq<Planet>, simViews: seq<PlanetView>, views: seq<PlanetView>)

  /** The world as it is now, with `ps` as the owner's list. */
  ghost function Before(sim: GravitySimulator, ps: seq<Planet>): (w: WorldBefore)
    reads sim, sim.planets, ps
    ensures w.simPlanets == sim.planets && |w.simViews| == |sim.planets| && |w.views| == |ps|
  {
    WorldBefore(sim.simulatePlanetGravity, sim.rockets, sim.vehicleManager, sim.ownerId,
                sim.planets, Views(sim.planets), Views(ps))
  }

  /** What one tick does to the simulator and to an owner's planet list
      `ps`, from the world `w` before it: the simulator takes its step over
      its own list (`simAfter` is that list's state right after it); then
      every planet of `ps` moves by its velocity once more (`mid` is the state
      of `ps` just before that pass). A planet on both lists is seen by the
      second pass as the first left it; a planet the step erased from the
      simulator's list, in the state it was absorbed in; a planet only on
      `ps`, unchanged. */
  ghost predicate WorldStepped(lib: MathLib, dt: real, w: WorldBefore, sim: GravitySimulator, ps: seq<Planet>,
                               simAfter: seq<PlanetView>, mid: seq<PlanetView>)
    reads sim, sim.planets, ps
  {
    sim.simulatePlanetGravity == w.simulatePlanetGravity && sim.rockets == w.rockets
    && sim.vehicleManager == w.vehicleManager && sim.ownerId == w.ownerId
    && |simAfter| == |sim.planets|
    && (Distinct(w.simPlanets) ==>
          Distinct(sim.planets)
          && simAfter == PlanetsAfterStep(lib, w.simViews, w.simulatePlanetGravity, dt))
    && |mid| == |ps| == |w.views|
    && (Distinct(ps) ==> Views(ps) == MovedAll(mid, dt))
    && (forall k, m :: 0 <= k < |ps| && 0 <= m < |sim.planets| && ps[k] == sim.planets[m] ==> mid[k] == simAfter[m])
    && (forall k :: 0 <= k < |ps| && ps[k] !in w.simPlanets ==> mid[k] == w.views[k])
    && (Distinct(w.simPlanets) ==>
          var gone := ErasedInStep(lib, w.simViews, w.simulatePlanetGravity, dt);
          forall k, t :: 0 <= k < |ps| && 0 <= t < |w.simPlanets| && ps[k] == w.simPlanets[t] && ps[k] !in sim.planets ==>
                           t in gone && mid[k] == gone[t])
  }

  /** The simulator's step followed by the server's own pass over `ps`. */
  method StepWorld(lib: MathLib, sim: GravitySimulator, ps: seq<Planet>, dt: real, ghost managers: set<VehicleManagers.VehicleManager>)
    returns (ghost simAfter: seq<PlanetView>, ghost mid: seq<PlanetView>)
    requires sim.rockets == []
    modifies sim, sim.planets, ps
    ensures WorldStepped(lib, dt, old(Before(sim, ps)), sim, ps, simAfter, mid)
    ensures forall m :: m in managers ==> m.View() == old(m.View())
  {
    sim.Update(lib, dt);
    simAfter := Views(sim.planets);
    mid := Views(ps);
    MovePlanetList(ps, dt);
  }

  /** The server's own pass over its planet list: each planet moves by its
      velocity once more. */
  method MovePlanetList(ps: seq<Planet>, dt: real)
    modifies ps
    ensures Distinct(ps) ==> Views(ps) == MovedAll(old(Views(ps)), dt)
  {
    ghost var v0 := Views(ps);
    var k := 0;
    while k < |ps|
      invariant 0 <= k <= |ps|
      invariant Distinct(ps) ==>
                  forall t :: 0 <= t < |ps| ==> ps[t].View() == if t < k then Moved(v0[t], dt) else v0[t]
    {
      ps[k].Update(dt);
      k := k + 1;
    }
    if Distinct(ps) {
      ViewsAre(ps, MovedAll(v0, dt));
    }
  }
}
