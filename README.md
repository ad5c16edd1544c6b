# KatieSimServer — a verified model of the simulation server and client core

KatieSimServer is a small multiplayer space game. An authoritative server
simulates planets and player-controlled rockets under gravity. Clients predict
their own rocket locally, send their inputs and their predicted state, and
correct themselves from the snapshots and validation replies the server sends
back. This project models that core in Dafny and proves properties of the model.
The core consists of:

- **Bodies and vehicles** (`planet.dfy`, `rocket.dfy`, `car.dfy`,
  `vehicle_manager.dfy`): a planet's radius follows its mass. A rocket has a
  clamped throttle, accumulated spin and damped integration. The car is a
  stub. The vehicle manager is a two-mode (ROCKET/CAR) state machine with
  snapshot create/apply guarded by owner and timestamp. `GameObject`'s
  position and velocity are fields of the planet and rocket classes.
- **Gravity simulator** (`gravity.dfy`, `gravity_simulator.dfy`): in-place
  vectors of planets and rockets.
  - Pairwise planet gravity, in which planet 0 is a pinned anchor.
  - Rocket gravity and rocket landings.
  - A merge loop that adjusts its indices as it erases planets.
  - Integration.
- **Wire codec** (`wire.dfy`, `game_state.dfy`, `player_input.dfy`): the
  packet operators for vectors, colours, rocket and planet states, whole game
  states (count-prefixed lists) and player inputs. A packet is a sequence of
  typed tokens.
- **Game server** (`game_server.dfy`, `controls.dfy`, `snapshots.dfy`):
  - a player table and three per-player tracking maps;
  - the tick, which steps the simulator, then the server's own planet pass,
    then the players;
  - input handling and divergence validation against a threshold;
  - staleness invalidation and snapshot construction.
- **Game client** (`game_client.dfy`):
  - the connection state machine, a local prediction, and reconciliation on
    a server override;
  - remote-player membership sync from each snapshot;
  - interpolation with pruning.
- **Client table** (`client_manager.dfy`): connection records under
  monotonically issued ids, with send bookkeeping.
- **Configuration and command line** (`server_config.dfy`, `command_line.dfy`):
  the server's configuration record and the `argv` scan of `main.cpp`
  (`parseCommandLine`).

Conventions:

- Floating-point values are `real`.
- `sqrt`, `pow`, `sin`, `cos`, `normalize` and `distance` are fields of a
  `MathLib` value that every operation needing them receives. Nothing is
  assumed about their results.
- Objects the source mutates through pointers are Dafny classes. Each class
  exposes a `View()` datatype of its fields, and the contracts are stated over
  that datatype.
- `std::map` iteration order is ascending key order (`Seqs.SortedKeys`).
- Keyboard state, clock readings and the outcome of socket sends are
  parameters.

## Model

| member | source | states |
|---|---|---|
| Planets.Planet.constructor | Planet.cpp:6-17 | A positive radius is kept exactly. A radius ≤ 0 becomes the cube-root radius of the mass. The planet starts at the given position with zero velocity and the given mass and colour. |
| Planets.Planet.Update | Planet.cpp:19-22 | Position becomes position + velocity·dt. Velocity, mass, radius, colour and owner are unchanged. |
| Planets.Planet.SetMass | Planet.cpp:34-38 | The mass becomes m and the radius becomes the radius of m, whatever the radius was before. Nothing else changes. |
| Planets.Planet.UpdateRadiusFromMass | Planet.cpp:40-45 | The radius becomes the radius of the current mass. Only the radius changes. |
| Planets.Planet.SetPosition | Planet.cpp:52-55 | Only the position changes, and it becomes the argument. |
| Planets.Planet.SetVelocity | GameObject.cpp:24-27 | Only the velocity changes, and it becomes the argument. |
| Planets.Planet.SetOwnerId | Planet.h:27 | Only the owner changes. |
| Planets.Moved | Planet.cpp:19-22 | One integration step: only the position changes, by velocity·dt. A zero step or a body at rest is unchanged. |
| Rockets.ThrustImpulse | Rocket.cpp:15-23 | The velocity change of one thrust call. It is zero when the throttle or the amount is zero. |
| Rockets.Rocket.constructor | Rocket.cpp:7-13 | The rocket starts at the given position and velocity, with rotation 0, spin 0 and thrust level 0. |
| Rockets.Rocket.ApplyThrust | Rocket.cpp:15-23 | Only the velocity changes, by `ThrustImpulse`. The velocity is unchanged when the throttle or the amount is zero. |
| Rockets.Rocket.Rotate | Rocket.cpp:25-28 | The amount is added to the spin. Rotation, position and velocity are unchanged. |
| Rockets.Rocket.SetThrustLevel | Rocket.cpp:30-34 | The level becomes the argument clamped to [0, 1]. An argument in range is stored exactly. The stored level is a fixed point of the clamp, so setting it again changes nothing. |
| Rockets.Rocket.Update | Rocket.cpp:36-46 | Position += velocity·dt, rotation += spin·dt, spin ×= 0.98. Velocity is unchanged. |
| Rockets.Rocket.SetPosition | GameObject.cpp:19-22 | Only the position changes, and it becomes the argument. |
| Rockets.Rocket.SetVelocity | GameObject.cpp:24-27 | Only the velocity changes, and it becomes the argument. |
| Rockets.Rocket.SetRotation | Rocket.cpp:53-56 | Only the rotation changes. |
| Rockets.Rocket.SetMass | Rocket.cpp:68-71 | Only the mass changes, and it becomes the argument. |
| Rockets.Rocket.SetOwnerId | Rocket.h:47 | Only the owner changes. |
| Rockets.Rocket.SetLastStateTimestamp | Rocket.h:49 | Only the timestamp changes. |
| Rockets.Rocket.SetColor | Rocket.h:55 | Only the colour changes. |
| Rockets.Stepped | Rocket.cpp:36-46 | One integration step: only position, rotation and spin change. The position moves by velocity·dt and the rotation by spin·dt, and the spin is multiplied by ANGULAR_DAMPING. The spin keeps its sign and never grows in size. |
| Rockets.DampingFactor | Rocket.cpp:45 | 0.98 to the power n lies in (0, 1]. |
| Rockets.SpinDecays | Rocket.cpp:36-46 | Without rotation input, n steps scale the spin by `DampingFactor(n)`, a factor in (0, 1]. The spin therefore never changes sign and never grows in magnitude. |
| Cars.CarIsInert | Car.h:14-21 | A car keeps its position and velocity through `update`, `checkGrounding`, `accelerate`, `rotate` and `initializeFromRocket`. It never reports ground contact. |
| Cars.Car.IsOnGround | Car.h:18 | The stub never reports ground contact. |
| Cars.Car.Update | Car.h:15 | The stub leaves the car unchanged. |
| Cars.Car.CheckGrounding | Car.h:17 | The stub leaves the car unchanged, whatever the planets. |
| Cars.Car.Accelerate | Car.h:19 | The stub leaves the car unchanged. |
| Cars.Car.Rotate | Car.h:20 | The stub leaves the car unchanged. |
| Cars.Car.InitializeFromRocket | Car.h:21 | The stub leaves the car unchanged and does not take over the rocket's position or velocity. |
| VehicleManagers.NonNull | VehicleManager.cpp:18-22 | The non-null planets of a list, in their order. |
| VehicleManagers.NonNullAppend | VehicleManager.cpp:18-22 | The filter distributes over concatenation, so the order is kept. |
| VehicleManagers.NonNullOfNonNull | VehicleManager.cpp:18-22 | A list without nulls passes the filter unchanged. |
| VehicleManagers.FilterNonNull | VehicleManager.cpp:18-22 | The filter loop returns exactly `NonNull` of its input. |
| VehicleManagers.VehicleManager.constructor | VehicleManager.cpp:7-45 | The manager starts in ROCKET mode at the given position, at rest, with timestamp 0. Its planets are the non-null planets of the list, in order. |
| VehicleManagers.VehicleManager.NearSomePlanet | VehicleManager.cpp:58-77 | True exactly when some planet is within its radius + TRANSFORM_DISTANCE of the rocket. |
| VehicleManagers.VehicleManager.SwitchVehicle | VehicleManager.cpp:47-87 | With no planets nothing changes. ROCKET becomes CAR only near some planet. CAR becomes ROCKET only when the car is on the ground, with the rocket at the car's position and at rest. The stub car is never on the ground, so CAR mode is never left. |
| VehicleManagers.VehicleManager.Update | VehicleManager.cpp:89-145 | In ROCKET mode the rocket takes one `update` step. In CAR mode the rocket is untouched. With planets present in ROCKET mode, the manager's timestamp is then copied from the rocket's. Mode, planets and owner are kept. |
| VehicleManagers.VehicleManager.ApplyThrust | VehicleManager.cpp:205-227 | Thrust reaches the rocket only in ROCKET mode. In CAR mode nothing changes. |
| VehicleManagers.VehicleManager.Rotate | VehicleManager.cpp:229-251 | Rotation input reaches the rocket's spin only in ROCKET mode. |
| VehicleManagers.VehicleManager.UpdatePlanets | VehicleManager.cpp:280-306 | The planet list becomes the non-null planets of the argument, in order. Nothing else changes. |
| VehicleManagers.ManagerStepped | VehicleManager.cpp:89-145 | One `update(dt)`: mode, car, planets and owner are kept. In CAR mode nothing changes. In ROCKET mode the rocket steps as `Stepped`. Without planets the manager's timestamp is kept. |
| VehicleManagers.StateApplied | VehicleManager.cpp:346-366 | A state that fails an `applyState` guard (owner, ROCKET mode, a newer timestamp) changes nothing. An accepted one raises the timestamp to its own and moves the rocket to its position, velocity and rotation, with the throttle in [0, 1]. Spin and mass are kept. Mode, owner, car and planets never change. |
| VehicleManagers.VehicleManager.SetOwnerId | VehicleManager.h:38 | The manager's owner and its rocket's owner become the id. Nothing else changes. The owner is what `applyState` compares against. |
| VehicleManagers.VehicleManager.SetLastStateTimestamp | VehicleManager.h:42 | Only the manager's timestamp changes. |
| VehicleManagers.Snapshot | VehicleManager.cpp:308-344 | In ROCKET mode: the rocket's fields, spin 0, the manager's timestamp, authoritative. Otherwise: zero vectors, mass 1, not authoritative. |
| VehicleManagers.VehicleManager.CreateState | VehicleManager.cpp:308-344 | Returns `Snapshot` of the manager's state and changes nothing. |
| VehicleManagers.VehicleManager.ApplyState | VehicleManager.cpp:346-366 | Nothing changes unless the state's owner is ours, the mode is ROCKET and the state is strictly newer. When it applies, position, velocity and rotation come from the state, the thrust is clamped, and the timestamp becomes the state's, so it strictly increases. |
| VehicleManagers.OwnSnapshotNotReapplied | VehicleManager.cpp:308-366 | A manager never accepts the snapshot it produced itself (its timestamp is not newer). |
| VehicleManagers.SnapshotAfterApply | VehicleManager.cpp:308-366 | Applying an accepted state and then taking a snapshot gives back the state's position, velocity, rotation and timestamp, with its thrust clamped. |
| VehicleManagers.StateAppliedMonotone | VehicleManager.cpp:346-366 | Applying a state never moves the timestamp back and keeps the mode and the owner. Applying the same state twice is the same as applying it once. |
| VehicleManagers.StepAll | GameServer.cpp:106-110 | Each manager of a list of distinct managers takes exactly one `Update` step. |
| Gravity.PlanetPull | GravitySimulator.cpp:98-113 | No pull when the two planets overlap (distance ≤ sum of the radii). |
| Gravity.RocketPull | GravitySimulator.cpp:123-128 | No pull within radius + TRAJECTORY_COLLISION_RADIUS of the planet. |
| Gravity.RocketGravityIsSum | GravitySimulator.cpp:115-131 | The rocket's velocity gains the sum of the individual planet pulls. |
| Gravity.NoGravityInsideCollisionRange | GravitySimulator.cpp:123-128 | A rocket within collision range of every planet feels no gravity at all. |
| Gravity.GravityOnRockets | GravitySimulator.cpp:115-131 | One entry per rocket. Only its velocity may change. |
| Gravity.Tangent | GravitySimulator.cpp:154 | The tangent (-n.y, n.x) is orthogonal to the normal n. |
| Gravity.Collide | GravitySimulator.cpp:138-164 | The collision response fires exactly within radius + ROCKET_SIZE while moving inward. The position then becomes centre + n·(radius + ROCKET_SIZE). The new velocity is FRICTION times the part of the slid velocity v − n(v·n) along the tangent (−n.y, n.x), so it has no component along the normal n. Otherwise the rocket is unchanged. |
| Gravity.CollideEach | GravitySimulator.cpp:136-166 | One entry per rocket, each meeting every planet in turn. Only its position and velocity may change. |
| Gravity.MergedVelocityMomentum | GravitySimulator.cpp:182-183 | The merged velocity times the summed mass is the summed momentum, whenever the summed mass is not zero. |
| Gravity.PairScheduleContents | GravitySimulator.cpp:80-96 | The calls of the pair loop are exactly the ordered pairs (target, source) of distinct planets whose target is not planet 0. Planet 0 is never pulled, and every other pair pulls both ways. |
| Gravity.ApplyPulls | GravitySimulator.cpp:80-96 | The velocities after the pull calls, made one at a time, keep their length. |
| Gravity.ApplyPullsIsSum | GravitySimulator.cpp:80-96 | Each planet ends the pair loop with its velocity from before the loop plus `PulledBy`: the sum, in call order, of the pulls of the calls that target it. Each pull is computed from the positions and masses at the start of the loop. |
| Gravity.ApplyPullsUntargeted | GravitySimulator.cpp:80-96 | A planet that no call targets keeps its velocity. |
| Gravity.AnchorKeepsVelocity | GravitySimulator.cpp:82-95 | Planet 0 ends the pair loop with its starting velocity. |
| Gravity.AfterPullsKeepsDiscs | GravitySimulator.cpp:80-113 | Planet gravity changes no position, radius or mass. |
| Gravity.PairLoopEffect | GravitySimulator.cpp:80-96 | The whole pair loop: each velocity gains exactly its targeted pulls, everything else stays, and planet 0 keeps its velocity. |
| Gravity.Absorb | GravitySimulator.cpp:185-207 | The survivor takes the new mass (with the matching radius) and velocity. The absorbed planet is erased, so the list is one shorter. |
| Gravity.Merged | GravitySimulator.cpp:175-209 | A merger of i < j: the heavier planet (i on a tie) takes mass m_i + m_j and velocity (m_i·v_i + m_j·v_j)/(m_i + m_j). The other planet is erased. |
| Gravity.MergedIsAbsorb | GravitySimulator.cpp:175-209 | A merger is the absorption of the lighter planet by the heavier one. |
| Gravity.MergedSurvivor | GravitySimulator.cpp:175-209 | States which index survives a merger and exactly what it becomes. |
| Gravity.MergedKeepsPrefix | GravitySimulator.cpp:170-212 | Planets before index i take no part in a merger of i and j. |
| Gravity.MergedKeepsMass | GravitySimulator.cpp:179-206 | A merger keeps the total planet mass. |
| Gravity.MergedKeepsMomentum | GravitySimulator.cpp:179-206 | A merger of planets whose masses do not cancel keeps the total momentum. |
| Gravity.MergedKeepsPositive | GravitySimulator.cpp:179-206 | Merging planets of positive mass leaves only planets of positive mass. |
| Gravity.MergeRowFrom | GravitySimulator.cpp:171-211 | The inner merge loop (with the `j--` after an erase and the `break` when planet i itself is absorbed) only ever shortens the list. |
| Gravity.MergeRowSkips | GravitySimulator.cpp:171-211 | A row passes over a planet that does not touch planet i, and it ends with the list. |
| Gravity.MergeAllFrom | GravitySimulator.cpp:170-212 | The outer loop (repeating a row whose planet was absorbed, the `i--`) only ever shortens the list. |
| Gravity.MergeRowKeepsPrefix | GravitySimulator.cpp:170-212 | A merge pass keeps the planets before index i as they were. |
| Gravity.MergeRowKeepsMass | GravitySimulator.cpp:171-211 | A merge pass keeps the total mass. |
| Gravity.MergeRowKeepsMomentum | GravitySimulator.cpp:171-211 | With positive masses, a merge pass keeps the masses positive and keeps the total momentum. |
| Gravity.MergeAllKeepsMassAndFirst | GravitySimulator.cpp:170-212 | All merging keeps the total mass. Planet 0 is never merged or removed. |
| Gravity.MergeAllKeepsMomentum | GravitySimulator.cpp:170-212 | With positive masses, all merging keeps the masses positive and keeps the total momentum. |
| Gravity.MergeRowTrace | GravitySimulator.cpp:171-211 | The bookkeeping of one inner row: for each planet left, the place it had in the original list, and for each erased planet, the state it had when it was erased. Its list of places is exactly as long as the planet list `MergeRowFrom` leaves. |
| Gravity.MergeRowTraceSkips | GravitySimulator.cpp:171-211 | Past the end of the list the row trace adds nothing. A pair that does not touch is skipped, as in `MergeRowSkips`. |
| Gravity.MergeRowTraceMerges | GravitySimulator.cpp:175-209 | At a touching pair, the lighter planet is erased and recorded in its state before the merge. The row goes on when i survived and stops when i was erased. |
| Gravity.MergeAllSteps | GravitySimulator.cpp:170-212 | One outer pass: i stays put when planet i was erased and advances otherwise. The merged planets and the trace from the new i are those from the old i. |
| Gravity.AccountedAtStart | GravitySimulator.cpp:170 | Before any merge, every original place is present, in order, and none is erased. |
| Gravity.EraseTagAccounted | GravitySimulator.cpp:190-205 | Erasing one place and recording it keeps the bookkeeping consistent: each original place is either still present, in increasing order, or recorded as erased, never both. |
| Gravity.MergedTraceAccounted | GravitySimulator.cpp:175-209 | One merge keeps the bookkeeping consistent, removes exactly one place, and keeps every earlier record. |
| Gravity.MergeRowTraceAccounted | GravitySimulator.cpp:171-211 | One row keeps the bookkeeping consistent, leaves as many places as planets, and keeps every earlier record. |
| Gravity.MergeAllTraceAccounted | GravitySimulator.cpp:170-212 | The whole merge loop keeps the bookkeeping consistent, leaves as many places as planets, and keeps every earlier record. |
| GravitySimulators.StepKeepsMass | GravitySimulator.cpp:42-63 | A whole simulator step keeps the total planet mass. |
| GravitySimulators.StepKeepsFirst | GravitySimulator.cpp:42-63 | In a step, planet 0 is never pulled and never merged. It only moves by its velocity. |
| GravitySimulators.AbsorbedViews | GravitySimulator.cpp:185-207 | After the survivor's setter calls and the erase, the list's states are `Absorb` of the old states. |
| GravitySimulators.GravitySimulator.constructor | GravitySimulator.cpp:7-10 | Empty lists, planet gravity on, no manager, and the given owner. |
| GravitySimulators.GravitySimulator.AddPlanet | GravitySimulator.cpp:12-17 | Appends exactly when the argument is non-null. Nothing else changes. |
| GravitySimulators.GravitySimulator.RemovePlanet | GravitySimulator.cpp:19-25 | Erases only the first occurrence and keeps the others in order. An absent planet changes nothing. |
| GravitySimulators.GravitySimulator.AddRocket | GravitySimulator.cpp:27-32 | Appends exactly when the argument is non-null. |
| GravitySimulators.GravitySimulator.RemoveRocket | GravitySimulator.cpp:34-40 | Erases only the first occurrence and keeps the others in order. An absent rocket changes nothing. |
| GravitySimulators.GravitySimulator.AddVehicleManager | GravitySimulator.h:27 | The registered manager becomes the argument. |
| GravitySimulators.GravitySimulator.RemoveVehicleManager | GravitySimulator.h:40 | The manager is forgotten only if it is the registered one. |
| GravitySimulators.GravitySimulator.SetSimulatePlanetGravity | GravitySimulator.cpp:65-68 | Only the flag changes. |
| GravitySimulators.GravitySimulator.SetOwnerId | GravitySimulator.h:36 | Only the owner changes. |
| GravitySimulators.GravitySimulator.ApplyGravityToPlanet | GravitySimulator.cpp:98-113 | Only the first planet's velocity is written, by `PlanetPull` of the two planets as they were. It is unchanged when they overlap. |
| GravitySimulators.GravitySimulator.ApplyGravityBetweenPlanets | GravitySimulator.cpp:80-96 | The pair loop makes the calls of the pair schedule in order. On a list without repetitions, the planets end as `AfterPulls`, so planet 0's velocity is unchanged. Positions, radii and masses are untouched. |
| GravitySimulators.GravitySimulator.ApplyRow | GravitySimulator.cpp:83-94 | Row i of the pair loop makes exactly the row's calls. |
| GravitySimulators.GravitySimulator.PullPair | GravitySimulator.cpp:84-93 | For i = 0 only planet j is pulled. Otherwise both planets are pulled, in the source's order. |
| GravitySimulators.GravitySimulator.PullOnce | GravitySimulator.cpp:98-113 | One call seen from the whole list adds one pull to its target. |
| GravitySimulators.GravitySimulator.PullOnRocket | GravitySimulator.cpp:119-128 | Only the rocket's velocity changes, by `RocketPull`. |
| GravitySimulators.GravitySimulator.GravityOnRocket | GravitySimulator.cpp:118-129 | A rocket's velocity gains the pull of every planet in turn. |
| GravitySimulators.GravitySimulator.ApplyGravityToRockets | GravitySimulator.cpp:115-131 | On a list without repetitions, every rocket's velocity becomes its gravity-updated value and nothing else changes. Planets are untouched. |
| GravitySimulators.GravitySimulator.CollideWith | GravitySimulator.cpp:138-164 | A rocket meeting one planet ends as `Collide` says. |
| GravitySimulators.GravitySimulator.CollideRocket | GravitySimulator.cpp:137-165 | One rocket meets every planet in turn. |
| GravitySimulators.GravitySimulator.CollideRockets | GravitySimulator.cpp:136-166 | On a list without repetitions, every rocket ends as `CollideEach` says. |
| GravitySimulators.GravitySimulator.AbsorbInto | GravitySimulator.cpp:186-187 | The survivor takes the new mass (and its radius), then the new velocity. No other planet changes. |
| GravitySimulators.GravitySimulator.AbsorbPlanet | GravitySimulator.cpp:185-191 | On a list without repetitions, the planets end as `Absorb` of their states. |
| GravitySimulators.GravitySimulator.MergePair | GravitySimulator.cpp:175-209 | Merges planets i < j. The lighter planet is erased, j on a tie, and only the survivor's object is modified. `removedI` says whether i was erased. On a list without repetitions, the list is the old one without the erased place, and its planets hold the states `Merged` gives. |
| GravitySimulators.GravitySimulator.MergeRow | GravitySimulator.cpp:171-211 | The inner loop with its early stop ends as `MergeRowFrom`, keeping the planets before i and planet 0. Each remaining planet is the original at the place `MergeRowTrace` records (`Tagged`). Each erased one is gone from the list, and its object holds the state recorded for it (`Erased`). |
| GravitySimulators.GravitySimulator.MergeTouching | GravitySimulator.cpp:175-209 | A touching pair merges as `Merged` says. The erased place is the lighter planet, and its object leaves the list in its state before the merge. The row goes on at the same j, which now holds the next planet (`MergeRowFrom`). |
| GravitySimulators.GravitySimulator.MergeStep | GravitySimulator.cpp:171-211 | One pass of the outer loop: the row at i, after which i stays put when planet i was erased and advances otherwise. `MergeAllFrom` and `MergeAllTrace` from the new i give what they gave from the old i. The bookkeeping stays true. |
| GravitySimulators.ErasedAfterMerge | GravitySimulator.cpp:190-205 | Erasing a place from a list without repetitions keeps every remaining planet matched to its original place, and records the erased planet in its state. |
| GravitySimulators.TracedMerge | GravitySimulator.cpp:175-209 | A merge of a touching pair leaves the list and the erased planet as `MergedTrace` records them. |
| GravitySimulators.LeftExactlyErased | GravitySimulator.cpp:170-212 | With consistent bookkeeping, an original planet is missing from the list exactly when it is recorded as erased, and it then holds the recorded state. |
| GravitySimulators.PassLeftAs | GravitySimulator.cpp:170-212 | After the whole merge loop, an original planet is missing from the list exactly when `MergeAllTrace` erased it, and it then holds the recorded state. |
| GravitySimulators.GravitySimulator.MergePlanets | GravitySimulator.cpp:170-212 | Rows from 1 on end as `MergeAllFrom`. The list only shrinks, its planets are a subset of the old ones, and planet 0 is kept. Each remaining planet is the original at the place `MergeAllTrace` records. Each erased one holds the state it had when it was erased. |
| GravitySimulators.GravitySimulator.HandleCollisions | GravitySimulator.cpp:133-212 | Rocket landings against the planets as they are (`CollideEach`), then planet mergers (`MergeAllFrom`). An old planet is missing from the new list exactly when the merge trace erased it, and its object then holds the state recorded for it (`LeftAs`). |
| GravitySimulators.GravitySimulator.MovePlanets | GravitySimulator.cpp:56-58 | Every planet moves by its velocity once. |
| GravitySimulators.GravitySimulator.MoveRockets | GravitySimulator.cpp:60-62 | Every rocket takes its own `update` step once. |
| GravitySimulators.GravitySimulator.ApplyForces | GravitySimulator.cpp:44-50 | Planet gravity only when enabled, then rocket gravity against the unchanged discs. |
| GravitySimulators.GravitySimulator.MoveBodies | GravitySimulator.cpp:55-62 | Every planet, then every rocket, takes its own step. |
| GravitySimulators.GravitySimulator.Update | GravitySimulator.cpp:42-63 | Planet gravity (if enabled), rocket gravity, collisions, then integration. Planets only shrink, stay a subset and keep planet 0. The rocket list is unchanged. When the lists are free of repetitions, the final states are the step functions of the old ones. An old planet is missing afterwards exactly when `ErasedInStep` records it, and it then holds its state at its merge: pulled by gravity, not moved. |
| GravitySimulators.StepWorld | GameServer.cpp:98-103 | The simulator's step, then the server's second movement pass over its planets. The simulator's flags, rockets, manager and owner are kept. A planet the simulator still holds steps with it and then moves once more. One the simulator never held only moves. One merged away during the step ends in the state `ErasedInStep` recorded for it, moved once by the second pass. |
| GravitySimulators.MovePlanetList | GameServer.cpp:101-103 | Each planet of the server's list moves by its velocity once more. |
| Wire.ToUInt32 | GameState.cpp:48 | A value below 2^32 is kept. Any value is reduced modulo 2^32. |
| Wire.ReadInt | GameState.cpp:29-33 | A read succeeds exactly when the next token is an `Int`. It then returns that token's value and the packet after it. |
| Wire.ReadUInt32 | GameState.cpp:65-72 | A read succeeds exactly when the next token is a `UInt32`. It then returns that token's value and the packet after it. |
| Wire.ReadFloat | GameState.cpp:9-11 | A read succeeds exactly when the next token is a `Float`. It then returns that token's value and the packet after it. |
| Wire.ReadBool | GameState.cpp:67 | A read succeeds exactly when the next token is a `Bool`. It then returns that token's value and the packet after it. |
| Wire.ReadUInt8 | GameState.cpp:18-20 | A read succeeds exactly when the next token is a `UInt8`. It then returns that token's value and the packet after it. |
| Wire.ReadIntPut | GameState.cpp:5-11 | Reading an integer token after writing it gives it back and leaves the rest. |
| Wire.ReadUInt32Put | GameState.cpp:48 | Reading a 32-bit token after writing it gives it back and leaves the rest. |
| Wire.ReadFloatPut | GameState.cpp:5-11 | Reading a float token after writing it gives it back and leaves the rest. |
| Wire.ReadBoolPut | GameState.cpp:48 | Reading a boolean token after writing it gives it back and leaves the rest. |
| Wire.ReadUInt8Put | GameState.cpp:14-20 | Reading a byte token after writing it gives it back and leaves the rest. |
| GameStates.DecodeVec | GameState.cpp:9-11 | Reads x then y. A successful read consumes exactly the encoding of its result. |
| GameStates.DecodeColor | GameState.cpp:18-20 | Reads r, g, b, a. A successful read consumes exactly the encoding of its result. |
| GameStates.VecRoundTrip | GameState.cpp:5-11 | decode(encode(v) + rest) = (v, rest). |
| GameStates.ColorRoundTrip | GameState.cpp:14-20 | decode(encode(c) + rest) = (c, rest). |
| GameStates.DecodeRocket | GameState.cpp:29-33 | Reads fields a..j in declaration order, consuming exactly the encoding of its result. |
| GameStates.DecodePlanet | GameState.cpp:41-44 | Reads fields a..h in declaration order, consuming exactly the encoding of its result. |
| GameStates.RocketRoundTrip | GameState.cpp:23-33 | A rocket state round-trips, and trailing data is untouched. |
| GameStates.PlanetRoundTrip | GameState.cpp:36-44 | A planet state round-trips, and trailing data is untouched. |
| GameStates.PutRocketAppends | GameState.cpp:23-27 | `packet << rocket` appends exactly the rocket's encoding. |
| GameStates.PutPlanetAppends | GameState.cpp:36-39 | `packet << planet` appends exactly the planet's encoding. |
| GameStates.DecodeList | GameState.cpp:71-84 | A successful read of n entries gives exactly n entries. |
| GameStates.ListRoundTrip | GameState.cpp:52-61 | A list of entries round-trips under any codec that meets the three list conditions. |
| GameStates.ListInverse | GameState.cpp:70-84 | What a list read consumes is exactly the encoding of what it gives. |
| GameStates.ListAppends | GameState.cpp:52-61 | Writing a list appends its encoding. |
| GameStates.ListSnoc | GameState.cpp:52-61 | Writing one more entry appends its encoding. |
| GameStates.RocketCodec | GameState.cpp:23-33 | The rocket codec meets the three list conditions. |
| GameStates.PlanetCodec | GameState.cpp:36-44 | The planet codec meets the three list conditions. |
| GameStates.RocketsRoundTrip | GameState.cpp:52-55 | A rocket list round-trips. |
| GameStates.PlanetsRoundTrip | GameState.cpp:57-61 | A planet list round-trips. |
| GameStates.RocketsAppend | GameState.cpp:52-55 | Writing a rocket list appends its encoding. |
| GameStates.DecodeGameState | GameState.cpp:65-86 | Reads sequence, timestamp, flag, rocket count, rockets, planet count, planets. A success gives lists of exactly the counts read and a sequence below 2^32, and consumes exactly the encoding. |
| GameStates.GameStateTruncatedRoundTrip | GameState.cpp:47-86 | For lists shorter than 2^32, decoding undoes encoding and leaves trailing data untouched, except that the sequence number comes back reduced modulo 2^32. |
| GameStates.GameStateRoundTrip | GameState.cpp:47-86 | With a sequence number and list lengths below 2^32, a game state round-trips exactly. |
| GameStates.WriteList | GameState.cpp:52-55 | The write loop appends the list's encoding. |
| GameStates.PrependStep | GameState.cpp:70-84 | One successful entry read moves one entry from the remaining list to the entries read. |
| GameStates.ReadList | GameState.cpp:70-84 | The `resize`-and-read loop gives the same result as `DecodeList`, failing at the first failed read. |
| GameStates.EncodeGameStateLayout | GameState.cpp:47-63 | The encoding is the header, the encoded rockets, the planet count, then the encoded planets. |
| GameStates.EncodeGameStateHeader | GameState.cpp:48-51 | The header is the sequence as a 32-bit value, the timestamp, the flag and the rocket count. |
| GameStates.WrittenLayout | GameState.cpp:47-63 | The two list loops together write the game state's encoding. |
| GameStates.WriteGameState | GameState.cpp:47-63 | `packet << state` appends exactly the encoding of the state. |
| GameStates.ReadGameState | GameState.cpp:65-86 | `packet >> state` gives the same result as `DecodeGameState`. |
| PlayerInputs.DefaultPlayerInput | PlayerInput.h:20-23 | Player 0, all five intents false, thrust, frame time and both timestamps 0. |
| PlayerInputs.DecodePlayerInput | PlayerInput.h:40-47 | Reads a..j, then the embedded rocket state. A success consumes exactly the encoding of its result. |
| PlayerInputs.PlayerInputRoundTrip | PlayerInput.h:31-47 | decode(encode(x) + rest) = (x, rest), including the embedded rocket state. |
| Snapshots.PlanetEntry | GameServer.cpp:318-335 | A planet's snapshot entry: its state, its list index as its id, and the snapshot's time. |
| Controls.ApplyControls | GameServer.cpp:161-184 | Planets, owner and car are kept. The mode changes only on a switch request, and CAR is never left; in CAR mode the rocket is untouched. From ROCKET mode a switch request goes to CAR exactly when the old rocket position is close enough to some planet. From ROCKET mode, with or without a switch request, the forward and back impulses (1.0 and −0.5, at the old throttle) go to the velocity and ±6·dt·60 goes to the spin. The throttle becomes the clamped input when the manager ends in ROCKET mode, and is kept otherwise. |
| GameServers.Validation | GameServer.cpp:206-248 | An unknown player is invalid and gets its state back. The client's first rocket is compared with the server's snapshot. A divergence (position off by more than the threshold, or velocity by more than 10× the threshold) is invalid, and the rocket list becomes [the server's rocket]. Otherwise the state is valid and returned unchanged, including a state with no rockets. |
| GameServers.RocketEntry | GameServer.cpp:286-315 | A rocket-mode player's entry: its id, spin 0, the game time, authoritative. |
| GameServers.GameServer.constructor | GameServer.cpp:7-11 | Sequence 0, time 0, threshold 0.1, no planets, no players, and empty tracking maps. |
| GameServers.GameServer.SetValidationThreshold | GameServer.cpp:219-247 | Only the threshold changes. |
| GameServers.GameServer.GetPlayer | GameServer.h:56-59 | The registered manager, or null. |
| GameServers.GameServer.RocketSnapshotOf | GameServer.cpp:212-224 | There is a snapshot exactly when the player exists. It carries the player's owner and timestamp, is authoritative exactly in ROCKET mode, and in that mode carries the rocket's position and velocity. |
| GameServers.GameServer.Admit | GameServer.cpp:360-369 | The new player is filed. It gets an empty client state, lastUpdate = game time and valid = true, and becomes the simulator's manager. |
| GameServers.GameServer.AddPlayer | GameServer.cpp:345-383 | A known id is returned with nothing changed. A fresh id gets a manager and the `Admit` tracking entries. |
| GameServers.GameServer.RemovePlayer | GameServer.cpp:385-405 | The id is erased from the player table and all three tracking maps. The simulator forgets the manager only if it is the registered one. An absent id changes nothing. |
| GameServers.GameServer.SynchronizeState | GameServer.cpp:250-275 | Player 0 is skipped. A flag is lowered only when gameTime − lastUpdate > 5. No flag is ever raised, and other state is unchanged. |
| GameServers.GameServer.StaleCleared | GameServer.cpp:253-274 | The new flags: each stays raised unless it belongs to a stale player other than 0. |
| GameServers.GameServer.ValidateClientSimulation | GameServer.cpp:206-248 | Returns and records the verdict of `Validation`. Nothing else changes. |
| GameServers.GameServer.ProcessClientSimulation | GameServer.cpp:187-204 | The client's last report and its time are stored, then validated. |
| GameServers.GameServer.RocketEntries | GameServer.cpp:286-315 | One entry per rocket-mode player among the ids, in increasing id order, and for no one else. |
| GameServers.GameServer.PlanetEntries | GameServer.cpp:318-335 | One entry per planet, under its list index. |
| GameServers.GameServer.GetGameState | GameServer.cpp:277-343 | seq = tick count, timestamp = game time, flag false. One authoritative entry per rocket-mode player, in increasing id order. Planet ids are list indices. The server state is unchanged. |
| GameServers.GameServer.HandlePlayerInput | GameServer.cpp:119-185 | An unknown id creates the player at the spawn point above planet 0, with fresh tracking entries, and drops the input. A known id gets the report recorded (`RecordReport`), and then the controls are applied (`Controls.ApplyControls`): thrust and spin with or without a switch request, then the switch and the throttle. |
| GameServers.GameServer.RecordReport | GameServer.cpp:146-159 | The last-update time rises to the input's last-server-state timestamp when that is later, and never falls. An authoritative embedded state becomes the client's only rocket entry and raises its validity flag. |
| GameServers.GameServer.Update | GameServer.cpp:92-117 | Game time += dt and sequence += 1. The world steps as `StepWorld` says, which covers planets merged away in the step. Every player takes one step. Flags are synchronised. |
| GameServers.GameServer.StepPlayers | GameServer.cpp:106-116 | The players step, the sequence goes up by one, and the flags are synchronised. |
| GameServers.GameServer.UpdatePlayers | GameServer.cpp:106-110 | Every player's manager takes exactly one step, in id order. |
| GameClients.UpdateGuardAsWrittenLetsThrough | GameClient.cpp:172 | A client that is not CONNECTED but has the initial-state flag set runs the tick under the guard as written. |
| GameClients.UpdateGuardCorrected | GameClient.cpp:172 | Every tick the guard as written skips, the corrected guard skips too. The converse fails (`UpdateGuardAsWrittenLetsThrough`). |
| GameClients.InterpolationFactor | GameClient.cpp:640-641 | min(timeDiff/window, 1). No lower clamp; the factor is 1 once a full window has passed. |
| GameClients.Lerp | GameClient.cpp:644-645 | Factor 0 gives the start and factor 1 gives the target. |
| GameClients.Interpolated | GameClient.cpp:639-649 | Only position and velocity change. Once a full window has passed, they equal the targets exactly. |
| GameClients.LiveTracks | GameClient.cpp:621-630 | Exactly the records of players that still exist are kept, unchanged. |
| GameClients.RemoteDrawnShape | GameClient.cpp:613-661 | Interpolation changes only a remote rocket's position and velocity. A rocket whose snapshot is a full window old is drawn at its target. |
| GameClients.DrawBetween | GameClient.cpp:644-649 | The rocket's position and velocity become the interpolated ones. |
| GameClients.DrawRemoteRockets | GameClient.cpp:621-656 | In id order, records without a player are dropped and every other record draws its player's rocket. |
| GameClients.FirstWithId | GameClient.cpp:259-266 | The first index of an entry for the id, or the length. |
| GameClients.PatchedShape | GameClient.cpp:258-270 | The snapshot replaces the first entry for the id, or is appended. Nothing else changes, and patching again with the same snapshot changes nothing. |
| GameClients.Refreshed | GameClient.cpp:274-281 | Each of the first min(\|planets\|, \|entries\|) entries takes the planet's position, velocity and mass. |
| GameClients.RefreshedKeeps | GameClient.cpp:274-281 | Every entry keeps its id, radius, colour, owner and time. Entries beyond the live planets are unchanged. |
| GameClients.Padding | GameClient.cpp:351-362 | The number of new planets appended to make room for an id. |
| GameClients.PlanetEntryApplied | GameClient.cpp:345-374 | A negative id is skipped. Otherwise the list is padded up to the id and that planet takes the entry. |
| GameClients.PlanetsSyncedShape | GameClient.cpp:345-374 | The planet list only grows, and only as far as the largest id. Every non-negative id ends with its last entry's values. |
| GameClients.RemoteEntryAppliedToNew | GameClient.cpp:433-486 | Creating the rocket for a new player first changes nothing about the entry's effect. |
| GameClients.RemotesSyncedKeys | GameClient.cpp:431-486 | Every other player of the snapshot gets a rocket and a record, and no one else does. |
| GameClients.RemotesSyncedUntouched | GameClient.cpp:431-486 | Players without an entry, and the local id, keep their rocket and record. |
| GameClients.RemotesSyncedLast | GameClient.cpp:464-485 | A player with entries ends with the last entry's position, velocity, rotation and clamped thrust, and a record that runs to it. |
| GameClients.Pruned | GameClient.cpp:489-513 | A remote player not in the snapshot loses its rocket and its record. |
| GameClients.SnapshotRemoteMembership | GameClient.cpp:377-513 | After a snapshot, the remote players are exactly the snapshot's players other than the local one. |
| GameClients.LocalSyncedShape | GameClient.cpp:394-429 | The local player changes only through `applyState`, and only from authoritative entries of its own id. Without such an entry it is left as it is. |
| GameClients.LocalPlayerInput | GameClient.cpp:543-576 | The id, frame time and timestamps are always filled in. Intents come from the keys only on a connected client with a local player. Thrust and the embedded state are filled in only when flying, and the state only while a validation is pending. |
| GameClients.TickedShape | GameClient.cpp:168-243 | The clock advances by dt exactly when the simulation is not paused, and a running tick stamps the local simulation with the new time. A pending validation is never cleared, and one starts exactly when the tick offers. On a connected client only the interpolation records of existing players are kept, otherwise all of them. Nothing else changes. |
| GameClients.TickedLocalEntry | GameClient.cpp:176-238 | An offer leaves the snapshot from the end of the tick as the local player's first entry. A running tick without an offer leaves the one from its start. |
| GameClients.UnconnectedTickOffers | GameClient.cpp:168-243 | A client WAITING_FOR_STATE with the initial-state flag set passes the guard as written but not the corrected one. When its tick offers, it starts a pending validation although it is not connected. |
| GameClients.CreateLocalPlayer | GameClient.cpp:379-391 | A new local player at the spawn point, handed to the simulator. |
| GameClients.EnsureLocalPlayer | GameClient.cpp:379-391 | A missing local player is created before any rocket entry, when there are planets. |
| GameClients.TakeOverLocal | GameClient.cpp:394-429 | Only an authoritative entry is applied, through `applyState`. |
| GameClients.ApplyLocalState | GameClient.cpp:421-428 | `applyState` on the local player. |
| GameClients.TakeOverRemote | GameClient.cpp:431-486 | A new player gets a manager at the entry's position, in its colour. Then the entry is taken over. |
| GameClients.AddRemotePlayer | GameClient.cpp:436-459 | The new manager is at the entry's position, painted in its colour, and handed to the simulator. |
| GameClients.UpdateRemote | GameClient.cpp:464-485 | The rocket takes the entry's values, and the interpolation record runs from the old state to the new one. |
| GameClients.TakeOverRemoteRocket | GameClient.cpp:473-476 | Position, velocity, rotation and clamped thrust come from the entry. |
| GameClients.TakeOverRocket | GameClient.cpp:377-487 | The entry goes to the local player or to a remote one, by its id. |
| GameClients.TakeOverRocketList | GameClient.cpp:377-487 | The rocket entries are taken over in order. |
| GameClients.HasEntryFor | GameClient.cpp:492-498 | True exactly when some rocket entry has the id. |
| GameClients.DepartedIds | GameClient.cpp:490-503 | The ids without an entry, in order. |
| GameClients.RemoveDeparted | GameClient.cpp:505-513 | Every remote player without an entry leaves the simulator and loses its manager and record. |
| GameClients.PrunedRoster | GameClient.cpp:489-513 | The cut-down roster holds the pruned remote states. |
| GameClients.TakeOverSnapshot | GameClient.cpp:345-513 | Planet entries, then rocket entries, then the removal pass. |
| GameClients.SnapshotRockets | GameClient.cpp:377-513 | The rocket entries, then the removal pass. |
| GameClients.GrowPlanets | GameClient.cpp:351-362 | New planets are created and handed to the simulator until there are at least n of them. |
| GameClients.TakeOverEntry | GameClient.cpp:366-372 | The planet takes the entry's position, velocity, mass and owner. |
| GameClients.TakeOverAt | GameClient.cpp:364-373 | Only the planet at index i changes. |
| GameClients.ApplyPlanetEntry | GameClient.cpp:345-374 | Implements `PlanetEntryApplied` for one entry. |
| GameClients.SyncPlanetList | GameClient.cpp:345-374 | The planet entries are applied in order. |
| GameClients.InitialSimulation | GameClient.cpp:130-166 | Sequence 0, time 0, the given rocket entries, and one entry per planet at time 0. |
| GameClients.ReplaceOrAppend | GameClient.cpp:258-270 | The loop ends as `Patched`. |
| GameClients.RefreshPlanetStates | GameClient.cpp:274-281 | The loop ends as `Refreshed`. |
| GameClients.GameClient.constructor | GameClient.cpp:8-28 | No planets and no players, DISCONNECTED, id 0, window 0.05, interval 0.1. |
| GameClients.GameClient.SetLocalPlayerId | GameClient.cpp:525-541 | The state becomes WAITING_FOR_STATE. The player, its rocket and the simulator get the new owner. |
| GameClients.GameClient.SetLatencyCompensation | GameClient.cpp:520-523 | Only the interpolation window changes. |
| GameClients.GameClient.InitializeLocalSimulation | GameClient.cpp:130-166 | Sequence 0 and time 0, the local snapshot if any, one entry per planet under its index. The clock is reset and unpaused. |
| GameClients.GameClient.RunLocalSimulation | GameClient.cpp:245-285 | When connected, patches the local snapshot, refreshes the planets up to the shorter length, and stamps the simulation time. Otherwise nothing changes. |
| GameClients.GameClient.ApplyLocalInput | GameClient.cpp:578-611 | A connected client with a local player has the controls applied to it (`Controls.ControlsApplied`), thrust and spin included when it asks to switch. Otherwise the local player is unchanged. |
| GameClients.GameClient.Update | GameClient.cpp:168-243 | The guard as written (`j != CONNECTED && !k`): when it skips, nothing changes. Otherwise the fields are as `Ticked` says. The world steps (`WorldStepped`), and the local manager and every remote manager step. Each remote rocket is then drawn from its record only when the client is connected (`RemoteTicked`). |
| GameClients.GameClient.UpdateCorrected | GameClient.cpp:168-243 | The same tick under the corrected guard. It runs exactly when the client is connected, and it then draws every remote rocket. Afterwards a validation is pending exactly when one was pending before or the tick offered. |
| GameClients.GameClient.Rest | GameClient.cpp:186-238 | The objects step: world, local manager, remote managers (`TickObjects`). Then `Finish`: the interpolation records are pruned as `KeptTracks` says, and the local simulation may be offered (`Offered`). The player tables are kept. |
| GameClients.GameClient.Finish | GameClient.cpp:209-238 | On a connected client each remote rocket is drawn from its record; otherwise it stays. The records are pruned as `KeptTracks` says, and the local simulation may be offered (`Offered`). The local player, the time and the window are unchanged. |
| GameClients.GameClient.Advance | GameClient.cpp:176-184 | Unless paused, the clock advances by dt and the local run is recorded. |
| GameClients.GameClient.TickObjects | GameClient.cpp:186-206 | The world steps (`WorldStepped`), then the local player's manager, then every remote manager, each as `ManagerStepped`. |
| GameClients.GameClient.StepPlayers | GameClient.cpp:196-206 | The local player's manager, then every remote manager, takes exactly one step. |
| GameClients.GameClient.StepRemotePlayers | GameClient.cpp:201-206 | Every remote manager takes one step. The local player is untouched. |
| GameClients.GameClient.InterpolateRemotePlayers | GameClient.cpp:613-661 | When connected, the rockets are drawn and the records of departed players are pruned. Otherwise nothing changes. |
| GameClients.GameClient.OfferSync | GameClient.cpp:212-238 | When the interval has elapsed, the simulation is running, no validation is pending and there is a local player: the snapshot is patched in, stamped, and a validation is made pending. Otherwise nothing changes. |
| GameClients.GameClient.ProcessGameState | GameClient.cpp:316-518 | A state without planets changes nothing. Otherwise it is recorded. The first one completes the connection and starts the local simulation. Planets, remote players and the local player then follow the snapshot. |
| GameClients.GameClient.ProcessServerValidation | GameClient.cpp:287-314 | The pending flag is cleared and sync time = simulation time. An override replaces the local simulation and its time and is taken over. It leaves the simulation unpaused. Anything else changes nothing more. |
| GameClients.GameClient.Record | GameClient.cpp:326-342 | The last state and its timestamp. The first state also sets CONNECTED, the flag, and the local simulation and its time. |
| GameClients.GameClient.Acknowledge | GameClient.cpp:289-292 | The pending flag is cleared and sync time = simulation time. |
| GameClients.GameClient.Restart | GameClient.cpp:294-311 | The local simulation restarts from the override at its time, unpaused. |
| GameClients.GameClient.TakeOver | GameClient.cpp:345-513 | The planets and rockets of a snapshot with planets are taken over. |
| GameClients.GameClient.SetWorld | GameClient.cpp:345-513 | Installs the new planet list and roster. |
| ClientManagers.ClientManager.constructor | ClientManager.cpp:6-9 | An empty table, and the next id is 1. |
| ClientManagers.ClientManager.AddClient | ClientManager.cpp:21-40 | Returns the next id and increments it, so ids are never reused. The id maps to a new record holding the id and the socket. |
| ClientManagers.ClientManager.RemoveClient | ClientManager.cpp:42-55 | Deletes only that key. An absent key changes nothing. The counter is kept. |
| ClientManagers.ClientManager.GetClientIds | ClientManager.cpp:130-139 | Every key, in increasing order. |
| ClientManagers.ClientManager.GetClient | ClientManager.cpp:141-150 | The mapped record, or none. |
| ClientManagers.ClientManager.GetClientCount | ClientManager.cpp:152-156 | The number of keys. |
| ClientManagers.AfterSend | ClientManager.cpp:89-102 | A failed send increments the loss count. A Disconnected status sets pendingDisconnect. Nothing else changes. |
| ClientManagers.AfterBroadcast | ClientManager.cpp:87-103 | Only authenticated clients with a socket are sent to. |
| ClientManagers.BroadcastMonotone | ClientManager.cpp:83-105 | A broadcast never lowers the loss count and never clears a pending disconnect. |
| ClientManagers.ClientManager.SendToAll | ClientManager.cpp:83-105 | Every record becomes `AfterBroadcast` of itself. The keys are kept. |
| ClientManagers.ClientManager.SendTo | ClientManager.cpp:107-128 | One client with a socket (authenticated or not) becomes `AfterSend`. Otherwise nothing changes. |
| ClientManagers.Decimal | ClientData.h:26 | The decimal digits of n, as `std::to_string` writes them: at least one digit, only digits, their value (`DigitsValue`) is n, and they start with '0' only for n = 0. |
| ClientManagers.NewClient | ClientData.h:19-30 | A new record has the given id and socket. It is not authenticated, has no pending disconnect, and has zero ping and packet loss. Its name starts with `Player_`. |
| ServerConfigs.ServerConfig.constructor | ServerConfig.h:15-22 | Port 5000, 16 clients, rate 0.05, verbose, log file "server_log.txt". |
| ServerConfigs.ServerConfig.SetPort | ServerConfig.h:30 | Only the port changes. |
| ServerConfigs.ServerConfig.SetMaxClients | ServerConfig.h:31 | Only the client limit changes. |
| ServerConfigs.ServerConfig.SetUpdateRate | ServerConfig.h:32 | Only the rate changes, to any value. |
| ServerConfigs.ServerConfig.SetVerbose | ServerConfig.h:33 | Only the verbosity changes. |
| ServerConfigs.ServerConfig.SetLogFile | ServerConfig.h:34 | Only the log file changes. |
| CommandLine.ToPort | main.cpp:42 | A port below 2^16 is kept. Any value is reduced modulo 2^16. |
| CommandLine.ParseFromTail | main.cpp:38-68 | The scan from index i depends only on the arguments from i on. |
| CommandLine.ProgramNameIgnored | main.cpp:38 | argv[0] is never examined. |
| CommandLine.OptionStep | main.cpp:41-67 | Each option (with its value, where it takes one) sets its own field, and the scan goes on after it. `--help` stops the scan. |
| CommandLine.UnrecognisedSkipped | main.cpp:38-68 | An argument that is not an option is skipped. |
| CommandLine.TrailingOptionIgnored | main.cpp:41-53 | A value-taking option in last position is ignored. |
| CommandLine.NoOptionsNoChange | main.cpp:38-68 | Arguments that include no option leave the configuration unchanged. |
| CommandLine.ParseFrom | main.cpp:38-68 | The scan from index i. It stops with `HelpShown` only if `--help` occurs from i on. It stops with `ConversionFailed` only if a numeric option occurs before the last argument. |
| CommandLine.Parse | main.cpp:37-69 | The whole scan from index 1. The program name alone changes nothing, and `HelpShown` means `--help` occurs after the program name. |
| CommandLine.ScanSplit | main.cpp:38-68 | A scan over xs followed by zs goes through xs as a scan of xs alone does, provided no option of xs lacks its value. Unless that stops it, the scan goes on with zs from the configuration xs left. |
| CommandLine.FieldUntouched | main.cpp:41-55 | A scan with no occurrence of a value-taking option leaves that option's field as it was. |
| CommandLine.QuietStays | main.cpp:50-51 | Once verbosity is off, no later argument turns it back on. |
| CommandLine.LastOccurrenceWins | main.cpp:41-55 | When a value-taking option (`--port`, `--max-clients`, `--update-rate`, `--log`) occurs more than once, its last occurrence sets the field. This holds whatever comes before it, as long as the scan reaches it, and whatever other arguments follow, `--help` and failed conversions included. |
| CommandLine.QuietWins | main.cpp:50-51 | Once the scan reaches `--quiet`, verbosity ends off, whatever follows. |
| CommandLine.ParseCommandLine | main.cpp:37-69 | The setter-driven loop ends in the configuration and stop reason of `Parse`. |
| Numerics.Clamp01 | Rocket.cpp:33 | The result is in [0, 1]. It is exact in range, 0 below and 1 above. |
| Numerics.Div | GravitySimulator.cpp:182-183 | q·b = a for a non-zero divisor. |
| Numerics.Min | GameClient.cpp:641 | The result is at most both arguments and is one of them. |
| Seqs.RemoveFirstShape | GravitySimulator.cpp:19-25 | Erasing the first occurrence of x: nothing changes when x is absent; otherwise the length drops by one and exactly one x leaves the multiset. No new element appears. |
| Seqs.SortedKeys | ClientManager.cpp:130-139 | The keys of a `std::map` in iteration order: strictly increasing, exactly the key set, one entry per key. |
| Seqs.KeysInOrder | ClientManager.cpp:130-139 | The method computing that order. Its result is strictly increasing and holds exactly the key set, one entry per key. |

## Left out

- NetworkManager: sockets, heartbeats, ping clocks and callbacks are not part of this model. A socket is a plain value with no behaviour, and a send's outcome is a parameter.
- ServerLogger and all logging: file and console output are not modelled. This includes `addClient`'s log line, which dereferences the socket without a null check.
- Locking: every mutex is left out, and the tables are modelled sequentially.
- `ClientManager::checkTimeouts` and `logClientInfo`, and `ClientData::isTimedOut`: they read the steady clock.
- Rendering (`draw*`, `drawVelocityVector`) and `getActiveVehicle`: no state change worth stating.
- Keyboard polling in `getLocalPlayerInput`: the keys are the `Keys` parameter. `sf::Clock` readings in `GameClient::update` are the `elapsed` parameter.
- `--help`: the usage text and `exit(0)` are not modelled. The scan stops with `HelpShown`. The `std::stoi`/`std::stof` conversions are parameters, and a throwing conversion ends the scan with `ConversionFailed`.
- Floating point: values are reals, with no rounding, infinities or NaN.
  - `Numerics.Div` returns 0 for a zero divisor.
  - `sqrt`, `pow`, `sin`, `cos`, `normalize` and `distance` are uninterpreted, so orbital accuracy and inverse-square magnitudes are not stated.
- `GameServer::initialize`/`createSolarSystem` (trigonometric layout) and the derived constants of `GameConstants.h`: not modelled.
- The validation reply of `processClientSimulation`: it is a TODO in the source and is not sent.
- GameClients.GameClient.ProcessServerValidation: the override's restart values are set before the takeover rather than after it. The takeover reads none of them, so the end state is the same.
- `Rocket::setNearbyPlanets` is unimplemented and never read. `GravitySimulator::clearRockets` and `shouldSimulateObject` are declared but not implemented. The ownership filter of `GravitySimulator.h` is absent from the .cpp.
- Where `Rocket.h` and `Rocket.cpp` disagree, the model follows the .cpp. It adds only the header members the vehicle manager uses: colour, owner, timestamp.
- Exception handlers and null checks that cannot fire: the vehicle manager always owns a rocket and a car, and the lists hold no nulls by construction.
- Fields the source leaves uninitialised start at -1 and 0 here: a rocket's owner and timestamp, and a planet's `ownerId`, which the constructor at Planet.cpp:6-17 never sets.
- GameServers.GameServer.HandlePlayerInput requires at least one planet for an unknown id, because the source reads planet 0 for the spawn point.
- GameServers.GameServer.Update: the game time and the sequence number are updated after the world step rather than around it. The simulator reads neither, so the end state is the same.
- GravitySimulators.GravitySimulator.constructor: GravitySimulator.h:21 declares `GravitySimulator(int ownerId = -1)`, while GravitySimulator.cpp:7-10 defines a parameterless `GravitySimulator()` that sets only `simulatePlanetGravity`. The model takes the header's signature, with the owner as a parameter, and the .cpp's initialisation. The header is what the members at GameServer.h:15 and GameClient.h:31 are built through, and it gives them the owner -1.
- ClientManagers.ClientManager.AddClient: `nextClientId` is a C++ `int`, but the model's counter is unbounded. The wrap-around after 2^31 − 1 clients is not modelled.
- Wire: an `sf::Packet` is an untyped byte buffer, and the typed tokens are a choice of this model. A read of the wrong type fails here, where the buffer would reinterpret the bytes. The codec only reads each value with the type it was written with, and for such reads the two agree.
- The sequence number is an unbounded natural number. It is truncated to 32 bits only on the wire.
- Lists of 2^32 or more entries: their count would be truncated on the wire and they do not round-trip. The round-trip lemmas require shorter lists.
- The GameClient destructor and memory management: Dafny's objects are garbage-collected.
- Pointer aliasing between bodies: contracts that describe whole lists are conditional on the lists holding no repeated object (`Distinct`, `Separate`).

## Findings

| source | as written | input that shows it | evidently intended | confidence | as-written member | corrected member |
|---|---|---|---|---|---|---|
| GameClient.cpp:172 | the tick is skipped when `j != CONNECTED && !k` | a connected client that receives `setLocalPlayerId`: the state becomes WAITING_FOR_STATE while the initial-state flag stays set, so the guard lets the tick run | skip unless connected and initialised (`j != CONNECTED \|\| !k`), as `runLocalSimulation` (GameClient.cpp:248) and `interpolateRemotePlayers` (GameClient.cpp:616) test | not executed | GameClients.UnconnectedTickOffers | GameClients.GameClient.UpdateCorrected |
