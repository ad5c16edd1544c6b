/**
 * `GameServer`: the authoritative world. It owns the planets, one vehicle
 * manager per player and a gravity simulator, counts its ticks and its game
 * time, and tracks for every client the last state it reported, when it last
 * reported, and whether its simulation is still trusted.
 *
 * Each tick integrates the planets twice: once inside the simulator's step
 * and once more in the server's own loop over its planet list. The model does
 * both, as the source does.
 */
module GameServers {
  import opened Numerics
  import opened GameConstants
  import opened Wrappers
  import opened Seqs
  import opened Planets
  import opened Rockets
  import opened GameStates
  import opened PlayerInputs
  import opened VehicleManagers
  import opened GravitySimulators
  import opened Snapshots
  import opened Controls

  /** How far a client's rocket may drift from the server's before the
      server's copy wins (the constructor's value). */
  const DEFAULT_VALIDATION_THRESHOLD: real := 0.1
  /** Seconds without a report after which a client's simulation is distrusted. */
  const STALE_AFTER: real := 5.0

  /** The client's rocket is off by more than `threshold` in position or by
      more than ten times it in velocity (lengths as the source computes them). */
  predicate Diverged(lib: MathLib, client: RocketState, server: RocketState, threshold: real) {
    Length(lib, client.position.Minus(server.position)) > threshold
    || Length(lib, client.velocity.Minus(server.velocity)) > threshold * 10.0
  }

  /** `validateClientSimulation`, given the server's snapshot of the player's
      rocket (`None` when there is no such player): the state to send back and
      whether the client's simulation is trusted. */
  function Validation(lib: MathLib, server: Option<RocketState>, clientState: GameState, threshold: real): (r: (GameState, bool))
    ensures r.1 <==> server.Some? && (clientState.rockets == [] || !Diverged(lib, clientState.rockets[0], server.value, threshold))
    ensures r.1 || server.None? ==> r.0 == clientState
    ensures !r.1 && server.Some? ==> r.0 == clientState.(rockets := [server.value])
  {
    match server
    case None => (clientState, false)
    case Some(s) =>
      if clientState.rockets != [] && Diverged(lib, clientState.rockets[0], s, threshold) then
        (clientState.(rockets := [s]), false)
      else
        (clientState, true)
  }

  /** The entry `getGameState` writes for a rocket-mode player `id`. */
  function RocketEntry(id: int, r: RocketView, time: real): (s: RocketState)
    ensures s.playerId == id && s.timestamp == time && s.authoritative && s.angularVelocity == 0.0
  {
    RocketState(id, r.position, r.velocity, r.rotation, 0.0, r.thrustLevel, r.mass, r.color, time, true)
  }

  class GameServer {
    var planets: seq<Planet>                            // a
    var players: map<int, VehicleManager>               // b
    const sim: GravitySimulator                         // c
    var sequenceNumber: nat                             // e
    var gameTime: real                                  // f
    var clientSimulations: map<int, GameState>          // g
    var lastClientUpdateTime: map<int, real>            // h
    var clientSimulationValid: map<int, bool>           // i
    var validationThreshold: real                       // j

    /** The server's invariant: every player is tracked in the three client
        maps, players' managers and rockets are distinct objects, and the
        simulator holds no rockets of its own (the server never hands it one). */
    ghost predicate Valid()
      reads this, sim
    {
      Tracked() && sim.rockets == []
    }

    /** The part of `Valid` that concerns the server's own fields. */
    ghost predicate Tracked()
      reads this
    {
      (forall id :: id in players ==>
         id in clientSimulations && id in lastClientUpdateTime && id in clientSimulationValid)
      && (forall a, b :: a in players && b in players && a != b ==>
            players[a] != players[b] && players[a].rocket != players[b].rocket)
    }

    /** The managers of all players. */
    ghost function Managers(): set<object>
      reads this
    {
      set id | id in players :: players[id]
    }

    /** The rockets of all players. */
    ghost function PlayerRockets(): set<object>
      reads this
    {
      set id | id in players :: players[id].rocket
    }

    /** A client counts as stale once it has gone more than `STALE_AFTER`
        seconds without a report (player 0, the host, never does). */
    predicate Stale(id: int)
      reads this
    {
      id != 0 && id in clientSimulations && id in lastClientUpdateTime
      && gameTime - lastClientUpdateTime[id] > STALE_AFTER
    }

    /** No tick yet, time 0, threshold 0.1, no planets and no players. */
    constructor ()
      ensures Valid()
      ensures sequenceNumber == 0 && gameTime == 0.0 && validationThreshold == DEFAULT_VALIDATION_THRESHOLD
      ensures planets == [] && players == map[]
      ensures clientSimulations == map[] && lastClientUpdateTime == map[] && clientSimulationValid == map[]
      ensures fresh(sim) && sim.planets == [] && sim.vehicleManager == null
    {
      planets := [];
      players := map[];
      sim := new GravitySimulator(-1);
      sequenceNumber := 0;
      gameTime := 0.0;
      clientSimulations := map[];
      lastClientUpdateTime := map[];
      clientSimulationValid := map[];
      validationThreshold := DEFAULT_VALIDATION_THRESHOLD;
    }

    method SetValidationThreshold(threshold: real)
      modifies this
      ensures validationThreshold == threshold
      ensures planets == old(planets) && players == old(players) && sequenceNumber == old(sequenceNumber)
      ensures gameTime == old(gameTime) && clientSimulations == old(clientSimulations)
      ensures lastClientUpdateTime == old(lastClientUpdateTime) && clientSimulationValid == old(clientSimulationValid)
    {
      validationThreshold := threshold;
    }

    /** The registered manager of `id`, or null. */
    method GetPlayer(id: int) returns (m: VehicleManager?)
      ensures id in players ==> m == players[id]
      ensures id !in players ==> m == null
    {
      m := if id in players then players[id] else null;
    }

    /** Files a newly made manager under a new id: it becomes the simulator's
        manager, and the client starts with an empty state, the current game
        time as its last report, and trust. */
    method Admit(playerId: int, player: VehicleManager)
      requires Valid() && playerId !in players
      requires forall id :: id in players ==> players[id] != player && players[id].rocket != player.rocket
      modifies this, sim
      ensures Valid()
      ensures players == old(players)[playerId := player] && sim.vehicleManager == player
      ensures clientSimulations == old(clientSimulations)[playerId := EmptyGameState]
      ensures lastClientUpdateTime == old(lastClientUpdateTime)[playerId := gameTime]
      ensures clientSimulationValid == old(clientSimulationValid)[playerId := true]
      ensures planets == old(planets) && sequenceNumber == old(sequenceNumber) && gameTime == old(gameTime)
      ensures validationThreshold == old(validationThreshold)
      ensures sim.planets == old(sim.planets) && sim.rockets == old(sim.rockets)
      ensures sim.simulatePlanetGravity == old(sim.simulatePlanetGravity) && sim.ownerId == old(sim.ownerId)
    {
      sim.AddVehicleManager(player);
      players := players[playerId := player];
      clientSimulations := clientSimulations[playerId := EmptyGameState];
      lastClientUpdateTime := lastClientUpdateTime[playerId := gameTime];
      clientSimulationValid := clientSimulationValid[playerId := true];
    }

    /** A known id is left alone. A new one gets a manager at `initialPos` with
        the server's planets and the given colour, admitted as `Admit` says.
        The id is returned either way. */
    method AddPlayer(playerId: int, initialPos: Vec, color: Color) returns (id: int)
      requires Valid()
      modifies this, sim
      ensures Valid()
      ensures id == playerId
      ensures planets == old(planets) && sequenceNumber == old(sequenceNumber) && gameTime == old(gameTime)
      ensures validationThreshold == old(validationThreshold)
      ensures sim.planets == old(sim.planets) && sim.rockets == old(sim.rockets)
      ensures sim.simulatePlanetGravity == old(sim.simulatePlanetGravity) && sim.ownerId == old(sim.ownerId)
      ensures playerId in old(players) ==>
                players == old(players) && sim.vehicleManager == old(sim.vehicleManager)
                && clientSimulations == old(clientSimulations) && lastClientUpdateTime == old(lastClientUpdateTime)
                && clientSimulationValid == old(clientSimulationValid)
      ensures playerId !in old(players) ==>
                && playerId in players && fresh(players[playerId]) && fresh(players[playerId].rocket)
                && players == old(players)[playerId := players[playerId]]
                && players[playerId].View() == ManagerView(ROCKET, Cars.Car(initialPos, Zero), planets, playerId, 0.0,
                     RocketView(initialPos, Zero, 0.0, 0.0, 0.0, 1.0, color, playerId, 0.0))
                && sim.vehicleManager == players[playerId]
                && clientSimulations == old(clientSimulations)[playerId := EmptyGameState]
                && lastClientUpdateTime == old(lastClientUpdateTime)[playerId := gameTime]
                && clientSimulationValid == old(clientSimulationValid)[playerId := true]
    {
      id := playerId;
      if playerId in players {
        return;
      }
      NonNullOfNonNull(planets);
      var player := new VehicleManager(initialPos, planets, playerId);
      player.rocket.SetColor(color);
      Admit(playerId, player);
    }

    /** Forgets a known player everywhere: the player table, the three
        tracking maps and, if it is the registered one, the simulator's
        manager. An unknown id changes nothing. */
    method RemovePlayer(playerId: int)
      requires Valid()
      modifies this, sim
      ensures Valid()
      ensures players == old(players) - {playerId}
      ensures clientSimulations == (if playerId in old(players) then old(clientSimulations) - {playerId} else old(clientSimulations))
      ensures lastClientUpdateTime == (if playerId in old(players) then old(lastClientUpdateTime) - {playerId} else old(lastClientUpdateTime))
      ensures clientSimulationValid == (if playerId in old(players) then old(clientSimulationValid) - {playerId} else old(clientSimulationValid))
      ensures playerId in old(players) && old(sim.vehicleManager) == old(players[playerId]) ==> sim.vehicleManager == null
      ensures !(playerId in old(players) && old(sim.vehicleManager) == old(players[playerId])) ==>
                sim.vehicleManager == old(sim.vehicleManager)
      ensures planets == old(planets) && sequenceNumber == old(sequenceNumber) && gameTime == old(gameTime)
      ensures validationThreshold == old(validationThreshold)
      ensures sim.planets == old(sim.planets) && sim.rockets == old(sim.rockets)
      ensures sim.simulatePlanetGravity == old(sim.simulatePlanetGravity) && sim.ownerId == old(sim.ownerId)
    {
      if playerId in players {
        var player := players[playerId];
        sim.RemoveVehicleManager(player);
        players := players - {playerId};
        clientSimulations := clientSimulations - {playerId};
        lastClientUpdateTime := lastClientUpdateTime - {playerId};
        clientSimulationValid := clientSimulationValid - {playerId};
      }
    }

    /** Distrusts every player other than the host whose last report is more
        than `STALE_AFTER` seconds old. No flag is ever raised, and flags of
        ids that are not players are not looked at. */
    method SynchronizeState()
      requires Valid()
      modifies this
      ensures Valid()
      ensures clientSimulationValid.Keys == old(clientSimulationValid.Keys)
      ensures forall id :: id in clientSimulationValid ==>
                clientSimulationValid[id] == (old(clientSimulationValid[id]) && !(id in players && Stale(id)))
      ensures planets == old(planets) && players == old(players) && sequenceNumber == old(sequenceNumber)
      ensures gameTime == old(gameTime) && clientSimulations == old(clientSimulations)
      ensures lastClientUpdateTime == old(lastClientUpdateTime) && validationThreshold == old(validationThreshold)
    {
      clientSimulationValid := StaleCleared();
    }

    /** The validity flags after the pass over the players in id order: a
        raised flag of a stale player other than the host is lowered. */
    method StaleCleared() returns (flags: map<int, bool>)
      requires Tracked()
      ensures flags.Keys == clientSimulationValid.Keys
      ensures forall id :: id in flags ==> flags[id] == (clientSimulationValid[id] && !(id in players && Stale(id)))
    {
      var ids := KeysInOrder(players.Keys);
      flags := clientSimulationValid;
      var k := 0;
      while k < |ids|
        invariant k <= |ids|
        invariant flags.Keys == clientSimulationValid.Keys
        invariant forall id :: id in flags ==> flags[id] == (clientSimulationValid[id] && !(id in ids[..k] && Stale(id)))
      {
        var id := ids[k];
        assert ids[..k + 1] == ids[..k] + [id];
        if id != 0 && id in clientSimulations && id in flags && flags[id] {
          if gameTime - lastClientUpdateTime[id] > STALE_AFTER {
            flags := flags[id := false];
          }
        }
        k := k + 1;
      }
      assert ids[..k] == ids;
    }
  
    /** The server's snapshot of player `id`'s rocket (`createState`), or
        `None` when there is no such player. */
    function RocketSnapshotOf(id: int): (r: Option<RocketState>)
      reads this, if id in players then {players[id], players[id].rocket} else {}
      ensures r.Some? <==> id in players
      ensures r.Some? ==> r.value.playerId == players[id].ownerId
                          && r.value.timestamp == players[id].lastStateTimestamp
                          && (r.value.authoritative <==> players[id].active == ROCKET)
      ensures r.Some? && players[id].active == ROCKET ==>
                r.value.position == players[id].rocket.position && r.value.velocity == players[id].rocket.velocity
    {
      if id in players then
        var m := players[id];
        Some(Snapshot(m.ownerId, m.active, m.rocket.position, m.rocket.velocity, m.rocket.rotation,
                      m.rocket.thrustLevel, m.rocket.mass, m.rocket.color, m.lastStateTimestamp))
      else None
    }

    /** Checks a client's reported state against the server's copy of its
        rocket and records the verdict (see `Validation`). */
    method ValidateClientSimulation(lib: MathLib, playerId: int, clientState: GameState) returns (validated: GameState)
      requires Valid()
      modifies this
      ensures Valid()
      ensures var r := Validation(lib, RocketSnapshotOf(playerId), clientState, validationThreshold);
              validated == r.0 && clientSimulationValid == old(clientSimulationValid)[playerId := r.1]
      ensures planets == old(planets) && players == old(players) && sequenceNumber == old(sequenceNumber)
      ensures gameTime == old(gameTime) && clientSimulations == old(clientSimulations)
      ensures lastClientUpdateTime == old(lastClientUpdateTime) && validationThreshold == old(validationThreshold)
    {
      validated := clientState;
      var isValid := true;
      var player := GetPlayer(playerId);
      if player == null {
        clientSimulationValid := clientSimulationValid[playerId := false];
        return;
      }
      if clientState.rockets != [] {
        var clientRocket := clientState.rockets[0];
        var serverRocket := player.CreateState();
        var posDiffMag := Length(lib, clientRocket.position.Minus(serverRocket.position));
        var velDiffMag := Length(lib, clientRocket.velocity.Minus(serverRocket.velocity));
        if posDiffMag > validationThreshold || velDiffMag > validationThreshold * 10.0 {
          isValid := false;
          validated := validated.(rockets := [serverRocket]);
        }
      }
      clientSimulationValid := clientSimulationValid[playerId := isValid];
    }

    /** Stores a client's reported state and its timestamp as the client's
        last report, then validates it. (The corrected state the source
        prepares for an invalid client is never sent.) */
    method ProcessClientSimulation(lib: MathLib, playerId: int, clientState: GameState)
      requires Valid()
      modifies this
      ensures Valid()
      ensures clientSimulations == old(clientSimulations)[playerId := clientState]
      ensures lastClientUpdateTime == old(lastClientUpdateTime)[playerId := clientState.timestamp]
      ensures clientSimulationValid ==
                old(clientSimulationValid)[playerId := Validation(lib, RocketSnapshotOf(playerId), clientState, validationThreshold).1]
      ensures planets == old(planets) && players == old(players) && sequenceNumber == old(sequenceNumber)
      ensures gameTime == old(gameTime) && validationThreshold == old(validationThreshold)
    {
      clientSimulations := clientSimulations[playerId := clientState];
      lastClientUpdateTime := lastClientUpdateTime[playerId := clientState.timestamp];
      var validated := ValidateClientSimulation(lib, playerId, clientState);
    }

    /** The entries of the rocket-mode players among `ids`, in the order of `ids`. */
    method RocketEntries(ids: seq<int>) returns (rs: seq<RocketState>)
      requires forall i, j :: 0 <= i < j < |ids| ==> ids[i] < ids[j]
      requires forall t :: 0 <= t < |ids| ==> ids[t] in players
      ensures forall k, m :: 0 <= k < m < |rs| ==> rs[k].playerId < rs[m].playerId
      ensures forall k :: 0 <= k < |rs| ==>
                var id := rs[k].playerId;
                id in players && players[id].active == ROCKET && rs[k] == RocketEntry(id, players[id].rocket.View(), gameTime)
      ensures forall t :: 0 <= t < |ids| && players[ids[t]].active == ROCKET ==>
                exists k :: 0 <= k < |rs| && rs[k].playerId == ids[t]
    {
      rs := [];
      ghost var at: map<int, nat> := map[];
      var n := 0;
      while n < |ids|
        invariant n <= |ids|
        invariant forall k, m :: 0 <= k < m < |rs| ==> rs[k].playerId < rs[m].playerId
        invariant n < |ids| ==> forall k :: 0 <= k < |rs| ==> rs[k].playerId < ids[n]
        invariant forall k :: 0 <= k < |rs| ==>
                    var id := rs[k].playerId;
                    id in players && players[id].active == ROCKET && rs[k] == RocketEntry(id, players[id].rocket.View(), gameTime)
        invariant forall t :: 0 <= t < n && players[ids[t]].active == ROCKET ==>
                    ids[t] in at && at[ids[t]] < |rs| && rs[at[ids[t]]].playerId == ids[t]
      {
        var id := ids[n];
        var player := players[id];
        if player.active == ROCKET {
          at := at[id := |rs|];
          rs := rs + [RocketEntry(id, player.rocket.View(), gameTime)];
        }
        n := n + 1;
      }
    }

    /** The entries of all planets, each under its list index. */
    method PlanetEntries() returns (ps: seq<PlanetState>)
      ensures |ps| == |planets|
      ensures forall k :: 0 <= k < |planets| ==> ps[k] == PlanetEntry(k, planets[k].View(), gameTime)
    {
      ps := [];
      var i := 0;
      while i < |planets|
        invariant i <= |planets|
        invariant |ps| == i
        invariant forall k :: 0 <= k < i ==> ps[k] == PlanetEntry(k, planets[k].View(), gameTime)
      {
        ps := ps + [PlanetEntry(i, planets[i].View(), gameTime)];
        i := i + 1;
      }
    }

    /** The snapshot sent to clients: the tick count and game time, not an
        initial state, one authoritative entry per rocket-mode player in
        increasing id order, and every planet under its list index. */
    method GetGameState() returns (state: GameState)
      ensures state.sequence == sequenceNumber && state.timestamp == gameTime && !state.initialState
      ensures |state.planets| == |planets|
      ensures forall k :: 0 <= k < |planets| ==> state.planets[k] == PlanetEntry(k, planets[k].View(), gameTime)
      ensures forall k, m :: 0 <= k < m < |state.rockets| ==> state.rockets[k].playerId < state.rockets[m].playerId
      ensures forall k :: 0 <= k < |state.rockets| ==>
                var id := state.rockets[k].playerId;
                id in players && players[id].active == ROCKET
                && state.rockets[k] == RocketEntry(id, players[id].rocket.View(), gameTime)
      ensures forall id :: id in players && players[id].active == ROCKET ==>
                exists k :: 0 <= k < |state.rockets| && state.rockets[k].playerId == id
    {
      var ids := KeysInOrder(players.Keys);
      var rocketStates := RocketEntries(ids);
      forall id | id in players && players[id].active == ROCKET
        ensures exists k :: 0 <= k < |rocketStates| && rocketStates[k].playerId == id
      {
        var t :| 0 <= t < |ids| && ids[t] == id;
      }
      var planetStates := PlanetEntries();
      state := GameState(sequenceNumber, gameTime, rocketStates, planetStates, false);
    }
  
    /** Input from a player the server does not know creates that player,
        as `AddPlayer` would but keeping the default colour, at the spawn
        point above planet 0; the input itself is dropped. For a known player
        the report is recorded (see `RecordReport`) and the controls go to the
        player's manager (see `ControlsApplied`). */
    method HandlePlayerInput(lib: MathLib, playerId: int, input: PlayerInput)
      requires Valid()
      requires playerId !in players ==> |planets| > 0
      modifies this, sim, if playerId in players then {players[playerId], players[playerId].rocket} else {}
      ensures Valid()
      ensures planets == old(planets) && sequenceNumber == old(sequenceNumber) && gameTime == old(gameTime)
      ensures validationThreshold == old(validationThreshold)
      ensures sim.planets == old(sim.planets) && sim.rockets == old(sim.rockets)
      ensures playerId !in old(players) ==>
                && playerId in players && fresh(players[playerId]) && fresh(players[playerId].rocket)
                && players == old(players)[playerId := players[playerId]]
                && (var spawn := SpawnPoint(planets[0].position, planets[0].radius);
                    players[playerId].View() == ManagerView(ROCKET, Cars.Car(spawn, Zero), planets, playerId, 0.0,
                      RocketView(spawn, Zero, 0.0, 0.0, 0.0, 1.0, White, playerId, 0.0)))
                && sim.vehicleManager == players[playerId]
                && clientSimulations == old(clientSimulations)[playerId := EmptyGameState]
                && lastClientUpdateTime == old(lastClientUpdateTime)[playerId := gameTime]
                && clientSimulationValid == old(clientSimulationValid)[playerId := true]
      ensures playerId in old(players) ==>
                && players == old(players) && sim.vehicleManager == old(sim.vehicleManager)
                && ReportRecorded(playerId, input)
                && ControlsApplied(lib, players[playerId], input)
    {
      if playerId !in players {
        var initialPos := SpawnPoint(planets[0].position, planets[0].radius);
        NonNullOfNonNull(planets);
        var player := new VehicleManager(initialPos, planets, playerId);
        Admit(playerId, player);
        return;
      }
      RecordReport(playerId, input);
      var player := players[playerId];
      ApplyControls(lib, player, input);
    }

    /** What a known player's input records: the last report time moves
        forward to the input's `lastServerStateTimestamp` if that is later
        (so it never goes back), and an authoritative embedded rocket state
        becomes the client's only reported rocket and restores trust. */
    twostate predicate ReportRecorded(playerId: int, input: PlayerInput)
      reads this
    {
      && playerId in old(lastClientUpdateTime) && playerId in old(clientSimulations)
      && lastClientUpdateTime == (if input.lastServerStateTimestamp > old(lastClientUpdateTime[playerId])
                                  then old(lastClientUpdateTime)[playerId := input.lastServerStateTimestamp]
                                  else old(lastClientUpdateTime))
      && playerId in lastClientUpdateTime && lastClientUpdateTime[playerId] >= old(lastClientUpdateTime[playerId])
      && clientSimulations == (if input.clientRocketState.authoritative
                               then old(clientSimulations)[playerId := old(clientSimulations[playerId]).(rockets := [input.clientRocketState])]
                               else old(clientSimulations))
      && clientSimulationValid == (if input.clientRocketState.authoritative
                                   then old(clientSimulationValid)[playerId := true]
                                   else old(clientSimulationValid))
    }

    method RecordReport(playerId: int, input: PlayerInput)
      requires Valid() && playerId in players
      modifies this
      ensures Valid() && ReportRecorded(playerId, input)
      ensures planets == old(planets) && players == old(players) && sequenceNumber == old(sequenceNumber)
      ensures gameTime == old(gameTime) && validationThreshold == old(validationThreshold)
    {
      if input.lastServerStateTimestamp > lastClientUpdateTime[playerId] {
        lastClientUpdateTime := lastClientUpdateTime[playerId := input.lastServerStateTimestamp];
      }
      if input.clientRocketState.authoritative {
        clientSimulations := clientSimulations[playerId := clientSimulations[playerId].(rockets := [input.clientRocketState])];
        clientSimulationValid := clientSimulationValid[playerId := true];
      }
    }

    /** One server tick: the clock advances by `dt`; the simulator and the
        server's planet list take their steps (`WorldStepped`); every player's
        manager takes a step; the tick count goes up by one; and stale clients
        lose trust, judged at the new time. */
    method Update(lib: MathLib, dt: real) returns (ghost simAfter: seq<PlanetView>, ghost mid: seq<PlanetView>)
      requires Valid()
      modifies this, sim, sim.planets, planets, Managers(), PlayerRockets()
      ensures Valid()
      ensures gameTime == old(gameTime) + dt && sequenceNumber == old(sequenceNumber) + 1
      ensures planets == old(planets) && players == old(players) && validationThreshold == old(validationThreshold)
      ensures clientSimulations == old(clientSimulations) && lastClientUpdateTime == old(lastClientUpdateTime)
      ensures clientSimulationValid.Keys == old(clientSimulationValid.Keys)
      ensures forall id :: id in clientSimulationValid ==>
                clientSimulationValid[id] == (old(clientSimulationValid[id]) && !(id in players && Stale(id)))
      ensures forall id :: id in players ==> players[id].View() == ManagerStepped(old(players[id].View()), dt)
      ensures WorldStepped(lib, dt, old(Before(sim, planets)), sim, planets, simAfter, mid)
    {
      simAfter, mid := StepWorld(lib, sim, planets, dt, players.Values);
      StepPlayers(dt);
    }

    /** The part of a tick after the world has moved: the players' managers
        step, the tick count goes up and the client states are synchronised. */
    method StepPlayers(dt: real)
      requires Valid()
      modifies this, Managers(), PlayerRockets()
      ensures Valid()
      ensures gameTime == old(gameTime) + dt && sequenceNumber == old(sequenceNumber) + 1
      ensures planets == old(planets) && players == old(players) && validationThreshold == old(validationThreshold)
      ensures clientSimulations == old(clientSimulations) && lastClientUpdateTime == old(lastClientUpdateTime)
      ensures clientSimulationValid.Keys == old(clientSimulationValid.Keys)
      ensures forall id :: id in clientSimulationValid ==>
                clientSimulationValid[id] == (old(clientSimulationValid[id]) && !(id in players && Stale(id)))
      ensures forall id :: id in players ==> players[id].View() == ManagerStepped(old(players[id].View()), dt)
      ensures unchanged(sim) && unchanged(sim.planets) && unchanged(planets)
    {
      // The managers do not read the clock, so the tick's two counters are
      // advanced together after them.
      UpdatePlayers(dt);
      gameTime, sequenceNumber := gameTime + dt, sequenceNumber + 1;
      SynchronizeState();
    }

    /** Every player's manager takes one step, in id order. */
    method UpdatePlayers(dt: real)
      requires Valid()
      modifies Managers(), PlayerRockets()
      ensures forall id :: id in players ==> players[id].View() == ManagerStepped(old(players[id].View()), dt)
    {
      var ids := KeysInOrder(players.Keys);
      var table := players;
      var ms: seq<VehicleManager> := seq(|ids|, t requires 0 <= t < |ids| && ids[t] in table => table[ids[t]]);
      forall t, u | 0 <= t < |ms| && 0 <= u < |ms| && t != u
        ensures ms[t] != ms[u] && ms[t].rocket != ms[u].rocket
      {
        assert ids[t] != ids[u];
      }
      forall t | 0 <= t < |ms|
        ensures ms[t] in Managers() && ms[t].rocket in PlayerRockets()
      {
        var id := ids[t];
        assert id in players && ms[t] == players[id];
        assert players[id] in Managers();
        assert players[id].rocket in PlayerRockets();
      }
      StepAll(ms, dt);
      forall id | id in players
        ensures players[id].View() == ManagerStepped(old(players[id].View()), dt)
      {
        var t :| 0 <= t < |ids| && ids[t] == id;
        assert ms[t] == players[id];
      }
    }
  }
}
