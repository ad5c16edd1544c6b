/**
 * `GameClient`: a player's view of the world. It keeps its own planets, its
 * local player and one vehicle manager per remote player, runs a local
 * simulation that it offers the server for validation, takes over snapshots
 * the server sends, and interpolates remote rockets between snapshots.
 *
 * Keyboard polling, the simulation clock and console output are not part of
 * this model: the elapsed time of the clock is a parameter of `Update`.
 */
module GameClients {
  import opened Numerics
  import opened GameConstants
  import opened Wrappers
  import opened Seqs
  import opened Planets
  import opened Rockets
  import opened GameStates
  import opened PlayerInputs
  import opened VehicleManagers
  import opened GravitySimulators
  import opened Snapshots
  import opened Cars
  import opened Controls

  /** `ClientConnectionState`. */
  datatype ConnectionState = DISCONNECTED | CONNECTING | WAITING_FOR_ID | WAITING_FOR_STATE | CONNECTED

  /** `RemotePlayerState`: where a remote rocket was and where the last
      snapshot put it, its rotation, and that snapshot's time. */
  datatype RemotePlayerState = RemotePlayerState(
    startPos: Vec,     // a
    startVel: Vec,     // b
    targetPos: Vec,    // c
    targetVel: Vec,    // d
    rotation: real,    // e
    timestamp: real)   // f

  /** The constructor's interpolation window and synchronisation interval. */
  const DEFAULT_LATENCY_COMPENSATION: real := 0.05
  const DEFAULT_SYNC_INTERVAL: real := 0.1

  // ----- Connection guards -----

  /** `isConnected()`: connected and the first snapshot has arrived. */
  predicate IsConnected(connection: ConnectionState, hasInitialState: bool) {
    connection == CONNECTED && hasInitialState
  }

  /** The early return of `update` as the source writes it: skip only when
      the connection is not up AND no snapshot has arrived. */
  predicate SkipsUpdateAsWritten(connection: ConnectionState, hasInitialState: bool) {
    connection != CONNECTED && !hasInitialState
  }

  /** The early return `update` evidently means ("skip if not fully
      connected"), the one every other guard of the client uses. */
  predicate SkipsUpdate(connection: ConnectionState, hasInitialState: bool) {
    !IsConnected(connection, hasInitialState)
  }

  /** After `setLocalPlayerId` on a connected client the state is
      WAITING_FOR_STATE while the initial-state flag stays set: the guard as
      written lets the tick run, although the client is not connected. */
  lemma UpdateGuardAsWrittenLetsThrough()
    ensures !SkipsUpdateAsWritten(WAITING_FOR_STATE, true)
    ensures !IsConnected(WAITING_FOR_STATE, true) && SkipsUpdate(WAITING_FOR_STATE, true)
  {
  }

  /** The corrected guard skips every tick the guard as written skips (and,
      by `UpdateGuardAsWrittenLetsThrough`, more). */
  lemma UpdateGuardCorrected(connection: ConnectionState, hasInitialState: bool)
    ensures SkipsUpdateAsWritten(connection, hasInitialState) ==> SkipsUpdate(connection, hasInitialState)
  {
  }

  // ----- Interpolation -----

  /** `std::min(timeDiff / window, 1)`: how far between start and target a
      remote rocket is drawn. There is no lower clamp. */
  function InterpolationFactor(now: real, timestamp: real, window: real): (f: real)
    ensures f <= 1.0
    ensures window > 0.0 && now - timestamp >= window ==> f == 1.0
    ensures window > 0.0 && timestamp <= now < timestamp + window ==> 0.0 <= f < 1.0
  {
    Min(Div(now - timestamp, window), 1.0)
  }

  /** `a + (b - a) * f`. */
  function Lerp(a: Vec, b: Vec, f: real): (r: Vec)
    ensures f == 0.0 ==> r == a
    ensures f == 1.0 ==> r == b
  {
    a.Plus(b.Minus(a).Scale(f))
  }

  /** A remote rocket as interpolation leaves it: only position and velocity
      change, and once a full window has passed since the snapshot they are
      the snapshot's exactly. */
  function Interpolated(v: RocketView, s: RemotePlayerState, now: real, window: real): (r: RocketView)
    ensures r == v.(position := r.position, velocity := r.velocity)
    ensures window > 0.0 && now - s.timestamp >= window ==> r.position == s.targetPos && r.velocity == s.targetVel
  {
    var f := InterpolationFactor(now, s.timestamp, window);
    v.(position := Lerp(s.startPos, s.targetPos, f), velocity := Lerp(s.startVel, s.targetVel, f))
  }

  /** The interpolation records `interpolateRemotePlayers` keeps: those of
      players that still exist. */
  function LiveTracks(tracks: map<int, RemotePlayerState>, ids: set<int>): (r: map<int, RemotePlayerState>)
    ensures r.Keys == tracks.Keys * ids
    ensures forall id :: id in r ==> r[id] == tracks[id]
  {
    map id | id in tracks && id in ids :: tracks[id]
  }

  /** A remote rocket as `interpolateRemotePlayers` leaves it: drawn between
      its last two snapshots when its player has a record, untouched when not. */
  function RemoteDrawn(v: RocketView, id: int, tracks: map<int, RemotePlayerState>, now: real, window: real): RocketView {
    if id in tracks then Interpolated(v, tracks[id], now, window) else v
  }

  /** A remote player's manager after a tick: it takes its step, then, on a
      connected client (`drawn`), its rocket is drawn at the new simulation
      time. */
  function RemoteTicked(v: ManagerView, id: int, tracks: map<int, RemotePlayerState>, dt: real, now: real, window: real,
                        drawn: bool): ManagerView {
    var w := ManagerStepped(v, dt);
    if drawn then ManagerDrawn(w, id, tracks, now, window) else w
  }

  /** A remote player's manager once its rocket is drawn. */
  function ManagerDrawn(v: ManagerView, id: int, tracks: map<int, RemotePlayerState>, now: real, window: real): ManagerView {
    v.(rocket := RemoteDrawn(v.rocket, id, tracks, now, window))
  }

  /** Interpolation leaves a remote rocket where it is, spin, throttle and
      all, except for its position and velocity; a rocket whose snapshot is a
      full window old sits exactly on the snapshot, and a player without a
      record is not moved. */
  lemma RemoteDrawnShape(v: RocketView, id: int, tracks: map<int, RemotePlayerState>, now: real, window: real)
    ensures var r := RemoteDrawn(v, id, tracks, now, window);
            r == v.(position := r.position, velocity := r.velocity)
    ensures id !in tracks ==> RemoteDrawn(v, id, tracks, now, window) == v
    ensures id in tracks && window > 0.0 && now - tracks[id].timestamp >= window ==>
              var r := RemoteDrawn(v, id, tracks, now, window);
              r.position == tracks[id].targetPos && r.velocity == tracks[id].targetVel
  {
  }

  /** Sets a remote rocket's position and velocity to the interpolated ones. */
  method DrawBetween(rocket: Rocket, s: RemotePlayerState, now: real, window: real)
    modifies rocket
    ensures rocket.View() == Interpolated(old(rocket.View()), s, now, window)
  {
    var factor := InterpolationFactor(now, s.timestamp, window);
    rocket.SetPosition(Lerp(s.startPos, s.targetPos, factor));
    rocket.SetVelocity(Lerp(s.startVel, s.targetVel, factor));
  }

  /** The loop of `interpolateRemotePlayers` over the records in id order:
      a record without a player is dropped, any other draws its player's
      rocket. Returns the records kept. */
  method DrawRemoteRockets(players: map<int, VehicleManager>, states: map<int, RemotePlayerState>, now: real, window: real)
      returns (tracks: map<int, RemotePlayerState>)
    requires forall a, b :: a in players && b in players && a != b ==> players[a].rocket != players[b].rocket
    modifies RocketsOf(players)
    ensures tracks == LiveTracks(states, players.Keys)
    ensures forall id :: id in players ==>
              players[id].rocket.View() == RemoteDrawn(old(players[id].rocket.View()), id, states, now, window)
  {
    var ids := KeysInOrder(states.Keys);
    tracks := states;
    var n := 0;
    while n < |ids|
      invariant n <= |ids|
      invariant tracks.Keys <= states.Keys && forall id :: id in tracks ==> tracks[id] == states[id]
      invariant forall t :: 0 <= t < n ==> (ids[t] in tracks <==> ids[t] in players)
      invariant forall t :: n <= t < |ids| ==> ids[t] in tracks
      invariant forall t :: 0 <= t < n && ids[t] in players ==>
                  players[ids[t]].rocket.View() == Interpolated(old(players[ids[t]].rocket.View()), states[ids[t]], now, window)
      invariant forall t :: n <= t < |ids| && ids[t] in players ==>
                  players[ids[t]].rocket.View() == old(players[ids[t]].rocket.View())
      invariant forall id :: id in players && id !in states ==> players[id].rocket.View() == old(players[id].rocket.View())
    {
      var id := ids[n];
      if id !in players {
        tracks := tracks - {id};
      } else {
        DrawBetween(players[id].rocket, states[id], now, window);
      }
      n := n + 1;
    }
    forall id | id in players
      ensures players[id].rocket.View() == RemoteDrawn(old(players[id].rocket.View()), id, states, now, window)
    {
      if id in states {
        var t :| 0 <= t < |ids| && ids[t] == id;
      }
    }
    forall id | id in states
      ensures id in tracks <==> id in players
    {
      var t :| 0 <= t < |ids| && ids[t] == id;
    }
    assert tracks.Keys == states.Keys * players.Keys;
  }

  // ----- The local simulation's rocket list -----

  /** Index of the first entry of `rs` for player `id`, or `|rs|`. */
  function FirstWithId(rs: seq<RocketState>, id: int): (k: nat)
    ensures k <= |rs|
    ensures k < |rs| ==> rs[k].playerId == id
    ensures forall i :: 0 <= i < k ==> rs[i].playerId != id
  {
    if rs == [] then 0
    else if rs[0].playerId == id then 0
    else 1 + FirstWithId(rs[1..], id)
  }

  /** The list with its first entry for player `id` replaced by `s`, or with
      `s` appended when there is none. */
  function Patched(rs: seq<RocketState>, id: int, s: RocketState): seq<RocketState> {
    var k := FirstWithId(rs, id);
    if k < |rs| then rs[k := s] else rs + [s]
  }

  /** What patching does: `s` takes the place of the first entry for `id` or
      is appended after the others; nothing else changes. Patching again with
      an entry for the same player replaces the same place. */
  lemma PatchedShape(rs: seq<RocketState>, id: int, s: RocketState)
    ensures var r := Patched(rs, id, s); var k := FirstWithId(rs, id);
            |r| == (if k < |rs| then |rs| else |rs| + 1)
            && k < |r| && r[k] == s
            && (forall i :: 0 <= i < |rs| && i != k ==> r[i] == rs[i])
    ensures s.playerId == id ==> FirstWithId(Patched(rs, id, s), id) == FirstWithId(rs, id)
    ensures forall s' :: s.playerId == id ==> Patched(Patched(rs, id, s), id, s') == Patched(rs, id, s')
  {
  }

  /** The local simulation's planets refreshed from the live planets: each of
      the first `min(|ps|, |vs|)` entries takes the planet's position, velocity
      and mass; everything else is kept. */
  function Refreshed(ps: seq<PlanetState>, vs: seq<PlanetView>): (r: seq<PlanetState>)
    ensures |r| == |ps|
  {
    seq(|ps|, k requires 0 <= k < |ps| =>
      if k < |vs| then ps[k].(position := vs[k].position, velocity := vs[k].velocity, mass := vs[k].mass) else ps[k])
  }

  /** Refreshing keeps every entry's id, radius, colour, owner and time, and
      changes no entry beyond the live planets. */
  lemma RefreshedKeeps(ps: seq<PlanetState>, vs: seq<PlanetView>)
    ensures forall k :: 0 <= k < |ps| ==>
              var r := Refreshed(ps, vs)[k];
              r.id == ps[k].id && r.radius == ps[k].radius && r.color == ps[k].color
              && r.ownerId == ps[k].ownerId && r.timestamp == ps[k].timestamp
              && (k < |vs| ==> r.position == vs[k].position && r.velocity == vs[k].velocity && r.mass == vs[k].mass)
              && (k >= |vs| ==> r == ps[k])
  {
  }

  // ----- Planets taken over from a snapshot -----

  /** A planet the client creates to make room for a new id: at the origin,
      at rest, mass 1 with the radius that follows from it, the default colour
      and no owner. */
  function NewPlanetView(lib: MathLib): PlanetView {
    PlanetView(Zero, Zero, 1.0, RadiusFor(lib, 1.0), Blue, -1)
  }

  /** `count` new planets (none when `count` is not positive): the padding
      the client appends to its list to make room for a planet id. */
  function Padding(lib: MathLib, count: int): (r: seq<PlanetView>)
    ensures |r| == if count <= 0 then 0 else count
    ensures forall k :: 0 <= k < |r| ==> r[k] == NewPlanetView(lib)
  {
    seq(if count <= 0 then 0 else count, _ => NewPlanetView(lib))
  }

  /** A planet after taking over entry `e`: position, velocity, mass (with
      its radius) and owner; its colour is kept. */
  function PlanetTakenOver(lib: MathLib, v: PlanetView, e: PlanetState): PlanetView {
    v.(position := e.position, velocity := e.velocity, mass := e.mass, radius := RadiusFor(lib, e.mass), ownerId := e.ownerId)
  }

  /** The planet list after one snapshot entry: a negative id is skipped;
      otherwise the list is first padded with new planets up to that id. */
  function PlanetEntryApplied(lib: MathLib, vs: seq<PlanetView>, e: PlanetState): (r: seq<PlanetView>)
    ensures e.id < 0 ==> r == vs
    ensures e.id >= 0 ==> |r| == if e.id < |vs| then |vs| else e.id + 1
  {
    if e.id < 0 then vs
    else
      var padded := vs + Padding(lib, e.id + 1 - |vs|);
      padded[e.id := PlanetTakenOver(lib, padded[e.id], e)]
  }

  /** The planet list after the entries `es`, in order. */
  function PlanetsSynced(lib: MathLib, vs: seq<PlanetView>, es: seq<PlanetState>): seq<PlanetView>
    decreases |es|
  {
    if es == [] then vs
    else PlanetEntryApplied(lib, PlanetsSynced(lib, vs, es[..|es| - 1]), es[|es| - 1])
  }

  /** One more entry of the same list. */
  lemma PlanetsSyncedSnoc(lib: MathLib, vs: seq<PlanetView>, es: seq<PlanetState>, i: nat)
    requires i < |es|
    ensures PlanetsSynced(lib, vs, es[..i + 1]) == PlanetEntryApplied(lib, PlanetsSynced(lib, vs, es[..i]), es[i])
  {
    assert es[..i + 1][..i] == es[..i];
  }

  /** The last entry of `es` for planet `k`, if any. */
  function LastPlanetEntry(es: seq<PlanetState>, k: int): (r: Option<PlanetState>)
    ensures r.Some? ==> r.value in es && r.value.id == k
    ensures r.None? <==> forall j :: 0 <= j < |es| ==> es[j].id != k
    decreases |es|
  {
    if es == [] then None
    else if es[|es| - 1].id == k then Some(es[|es| - 1])
    else LastPlanetEntry(es[..|es| - 1], k)
  }

  /** What a snapshot's planet entries do to the client's planet list: it
      only grows, and only as far as the largest id; every non-negative id
      ends up inside it; a planet with entries has the last one's position,
      velocity, mass, radius and owner and keeps its colour; a planet without
      entries is unchanged, and one that was created for padding is new. */
  lemma {:induction false} PlanetsSyncedShape(lib: MathLib, vs: seq<PlanetView>, es: seq<PlanetState>)
    ensures var r := PlanetsSynced(lib, vs, es);
            |r| >= |vs|
            && (|r| == |vs| || exists j :: 0 <= j < |es| && es[j].id + 1 == |r|)
            && (forall j :: 0 <= j < |es| && es[j].id >= 0 ==> es[j].id < |r|)
            && (forall k :: 0 <= k < |r| ==>
                  var base := if k < |vs| then vs[k] else NewPlanetView(lib);
                  r[k] == match LastPlanetEntry(es, k)
                          case None => base
                          case Some(e) => PlanetTakenOver(lib, base, e))
    decreases |es|
  {
    if es != [] {
      var front := es[..|es| - 1];
      var e := es[|es| - 1];
      PlanetsSyncedShape(lib, vs, front);
      var p := PlanetsSynced(lib, vs, front);
      var r := PlanetsSynced(lib, vs, es);
      assert r == PlanetEntryApplied(lib, p, e);
      forall j | 0 <= j < |es| && es[j].id >= 0
        ensures es[j].id < |r|
      {
        if j < |es| - 1 {
          assert es[j] == front[j];
        }
      }
      if |r| != |vs| {
        if |r| == |p| {
          var j :| 0 <= j < |front| && front[j].id + 1 == |p|;
          assert es[j] == front[j];
        } else {
          assert e.id + 1 == |r|;
        }
      }
      forall k | 0 <= k < |r|
        ensures var base := if k < |vs| then vs[k] else NewPlanetView(lib);
                r[k] == match LastPlanetEntry(es, k)
                        case None => base
                        case Some(e) => PlanetTakenOver(lib, base, e)
      {
        var base := if k < |vs| then vs[k] else NewPlanetView(lib);
        if k != e.id {
          assert LastPlanetEntry(es, k) == LastPlanetEntry(front, k);
          if k >= |p| {
            assert LastPlanetEntry(front, k).None?;
            assert r[k] == NewPlanetView(lib);
          }
        }
      }
    }
  }

  // ----- Remote players taken over from a snapshot -----

  /** A remote player's rocket as the client creates it for entry `x`: a new
      manager's rocket at the entry's position, painted in the entry's colour. */
  function NewRemoteView(x: RocketState): RocketView {
    RocketView(x.position, Zero, 0.0, 0.0, 0.0, 1.0, x.color, x.playerId, 0.0)
  }

  /** A remote rocket after taking over entry `x`: position, velocity,
      rotation and (clamped) thrust level. */
  function RemoteTakenOver(v: RocketView, x: RocketState): RocketView {
    v.(position := x.position, velocity := x.velocity, rotation := x.rotation, thrustLevel := Clamp01(x.thrustLevel))
  }

  /** The interpolation record written for entry `x` of a snapshot taken at
      `time`, for a rocket that was in state `v` before. */
  function Tracked(v: RocketView, x: RocketState, time: real): RemotePlayerState {
    RemotePlayerState(v.position, v.velocity, x.position, x.velocity, x.rotation, time)
  }

  /** The rocket of entry `x`'s player before the entry: the existing one, or
      the one created for it. */
  function RemoteBefore(views: map<int, RocketView>, x: RocketState): RocketView {
    if x.playerId in views then views[x.playerId] else NewRemoteView(x)
  }

  /** The remote players' rockets and interpolation records, by player id. */
  datatype Remotes = Remotes(views: map<int, RocketView>, tracks: map<int, RemotePlayerState>)

  /** The remote players after one entry of another player. */
  function RemoteEntryApplied(r: Remotes, x: RocketState, time: real): Remotes {
    var before := RemoteBefore(r.views, x);
    Remotes(r.views[x.playerId := RemoteTakenOver(before, x)], r.tracks[x.playerId := Tracked(before, x, time)])
  }

  /** Creating the rocket for a new player first changes nothing about the
      entry's effect. */
  lemma RemoteEntryAppliedToNew(r: Remotes, x: RocketState, time: real)
    requires x.playerId !in r.views
    ensures RemoteEntryApplied(Remotes(r.views[x.playerId := NewRemoteView(x)], r.tracks), x, time)
            == RemoteEntryApplied(r, x, time)
  {
    assert r.views[x.playerId := NewRemoteView(x)][x.playerId := RemoteTakenOver(NewRemoteView(x), x)]
        == r.views[x.playerId := RemoteTakenOver(NewRemoteView(x), x)];
  }

  /** The remote players after the entries `es` in order; entries of the local
      player are not theirs. */
  function RemotesSynced(r: Remotes, es: seq<RocketState>, localId: int, time: real): Remotes
    decreases |es|
  {
    if es == [] then r
    else
      var p := RemotesSynced(r, es[..|es| - 1], localId, time);
      var x := es[|es| - 1];
      if x.playerId == localId then p else RemoteEntryApplied(p, x, time)
  }

  /** One more entry of the same list. */
  lemma RemotesSyncedSnoc(r: Remotes, es: seq<RocketState>, i: nat, localId: int, time: real)
    requires i < |es|
    ensures RemotesSynced(r, es[..i + 1], localId, time)
            == (var p := RemotesSynced(r, es[..i], localId, time);
                if es[i].playerId == localId then p else RemoteEntryApplied(p, es[i], time))
  {
    assert es[..i + 1][..i] == es[..i];
  }

  /** The ids of the rocket entries of `es`. */
  function StateIds(es: seq<RocketState>): set<int> {
    set j | 0 <= j < |es| :: es[j].playerId
  }

  /** The ids of the rocket entries of `es` that are not the local player. */
  function RemoteIds(es: seq<RocketState>, localId: int): set<int> {
    set j | 0 <= j < |es| && es[j].playerId != localId :: es[j].playerId
  }

  /** The last entry of `es` for player `id`, if any. */
  function LastRocketEntry(es: seq<RocketState>, id: int): (r: Option<RocketState>)
    ensures r.Some? ==> r.value in es && r.value.playerId == id
    ensures r.None? <==> forall j :: 0 <= j < |es| ==> es[j].playerId != id
    decreases |es|
  {
    if es == [] then None
    else if es[|es| - 1].playerId == id then Some(es[|es| - 1])
    else LastRocketEntry(es[..|es| - 1], id)
  }

  /** Splitting off the last entry of a non-empty list of entries. */
  lemma RemoteIdsSnoc(es: seq<RocketState>, localId: int)
    requires es != []
    ensures var x := es[|es| - 1];
            RemoteIds(es, localId) == RemoteIds(es[..|es| - 1], localId) + (if x.playerId == localId then {} else {x.playerId})
  {
    var front := es[..|es| - 1];
    var x := es[|es| - 1];
    forall id | id in RemoteIds(es, localId)
      ensures id in RemoteIds(front, localId) + (if x.playerId == localId then {} else {x.playerId})
    {
      var j :| 0 <= j < |es| && es[j].playerId != localId && es[j].playerId == id;
      if j < |es| - 1 {
        assert front[j] == es[j];
      }
    }
    forall id | id in RemoteIds(front, localId)
      ensures id in RemoteIds(es, localId)
    {
      var j :| 0 <= j < |front| && front[j].playerId != localId && front[j].playerId == id;
      assert es[j] == front[j];
    }
    if x.playerId != localId {
      assert es[|es| - 1].playerId == x.playerId;
    }
  }

  /** Every other player of the snapshot gets a rocket and a record, and no
      one else does. */
  lemma {:induction false} RemotesSyncedKeys(r: Remotes, es: seq<RocketState>, localId: int, time: real)
    ensures var q := RemotesSynced(r, es, localId, time);
            q.views.Keys == r.views.Keys + RemoteIds(es, localId)
            && q.tracks.Keys == r.tracks.Keys + RemoteIds(es, localId)
    decreases |es|
  {
    if es != [] {
      RemotesSyncedKeys(r, es[..|es| - 1], localId, time);
      RemoteIdsSnoc(es, localId);
    }
  }

  /** Players without an entry (and the local id) keep their rocket and record. */
  lemma {:induction false} RemotesSyncedUntouched(r: Remotes, es: seq<RocketState>, localId: int, time: real)
    ensures var q := RemotesSynced(r, es, localId, time);
            (forall id :: id in r.views && (id == localId || LastRocketEntry(es, id).None?) ==> id in q.views && q.views[id] == r.views[id])
            && (forall id :: id in r.tracks && (id == localId || LastRocketEntry(es, id).None?) ==> id in q.tracks && q.tracks[id] == r.tracks[id])
    decreases |es|
  {
    if es != [] {
      RemotesSyncedUntouched(r, es[..|es| - 1], localId, time);
    }
  }

  /** A player with entries ends with the last one's position, velocity,
      rotation and clamped thrust (an existing rocket keeping its other
      fields), and a record pointing at that entry with the snapshot's time. */
  lemma {:induction false} RemotesSyncedLast(r: Remotes, es: seq<RocketState>, localId: int, time: real)
    ensures var q := RemotesSynced(r, es, localId, time);
            forall id :: id in RemoteIds(es, localId) ==>
              LastRocketEntry(es, id).Some? && id in q.views && id in q.tracks
              && var x := LastRocketEntry(es, id).value;
                 q.views[id].position == x.position && q.views[id].velocity == x.velocity
                 && q.views[id].rotation == x.rotation && q.views[id].thrustLevel == Clamp01(x.thrustLevel)
                 && (id in r.views ==> q.views[id] == RemoteTakenOver(r.views[id], x))
                 && q.tracks[id].targetPos == x.position && q.tracks[id].targetVel == x.velocity
                 && q.tracks[id].rotation == x.rotation && q.tracks[id].timestamp == time
    decreases |es|
  {
    if es != [] {
      var front := es[..|es| - 1];
      var x := es[|es| - 1];
      RemotesSyncedLast(r, front, localId, time);
      RemotesSyncedKeys(r, front, localId, time);
      RemotesSyncedUntouched(r, front, localId, time);
      RemoteIdsSnoc(es, localId);
      var p := RemotesSynced(r, front, localId, time);
      var q := RemotesSynced(r, es, localId, time);
      forall id | id in RemoteIds(es, localId)
        ensures LastRocketEntry(es, id).Some? && id in q.views && id in q.tracks
                && var y := LastRocketEntry(es, id).value;
                   q.views[id].position == y.position && q.views[id].velocity == y.velocity
                   && q.views[id].rotation == y.rotation && q.views[id].thrustLevel == Clamp01(y.thrustLevel)
                   && (id in r.views ==> q.views[id] == RemoteTakenOver(r.views[id], y))
                   && q.tracks[id].targetPos == y.position && q.tracks[id].targetVel == y.velocity
                   && q.tracks[id].rotation == y.rotation && q.tracks[id].timestamp == time
      {
        if id == x.playerId {
          assert x.playerId != localId;
          if id in r.views {
            if LastRocketEntry(front, id).Some? {
              assert id in RemoteIds(front, localId);
              assert p.views[id] == RemoteTakenOver(r.views[id], LastRocketEntry(front, id).value);
            } else {
              assert p.views[id] == r.views[id];
            }
          }
        } else {
          assert id in RemoteIds(front, localId);
          assert LastRocketEntry(es, id) == LastRocketEntry(front, id);
        }
      }
    }
  }

  /** The remote players after the removal pass: a remote player not in the
      snapshot loses its rocket and its record; a record of a player that has
      no rocket stays. */
  function Pruned(r: Remotes, ids: set<int>): (q: Remotes)
    ensures q.views.Keys == r.views.Keys * ids
    ensures forall id :: id in q.views ==> q.views[id] == r.views[id]
    ensures forall id :: id in r.tracks ==> (id in q.tracks <==> id !in r.views || id in ids)
    ensures forall id :: id in q.tracks ==> id in r.tracks && q.tracks[id] == r.tracks[id]
  {
    Remotes(map id | id in r.views && id in ids :: r.views[id],
            map id | id in r.tracks && (id !in r.views || id in ids) :: r.tracks[id])
  }

  /** After a whole snapshot the remote players are exactly the players of
      the snapshot other than the local one (plus the local id itself, should
      it already be there from before a change of local id). */
  lemma SnapshotRemoteMembership(r: Remotes, es: seq<RocketState>, localId: int, time: real)
    ensures var q := Pruned(RemotesSynced(r, es, localId, time), StateIds(es));
            forall id :: id in q.views <==> id in StateIds(es) && (id != localId || id in r.views)
  {
    RemotesSyncedKeys(r, es, localId, time);
    var q := Pruned(RemotesSynced(r, es, localId, time), StateIds(es));
    forall id | id in StateIds(es) && id != localId
      ensures id in RemoteIds(es, localId)
    {
      var j :| 0 <= j < |es| && es[j].playerId == id;
    }
    forall id | id in RemoteIds(es, localId)
      ensures id in StateIds(es)
    {
      var j :| 0 <= j < |es| && es[j].playerId != localId && es[j].playerId == id;
    }
  }

  // ----- The local player taken over from a snapshot -----

  /** A new manager's state: rocket mode at `pos`, at rest, timestamp 0. */
  function NewManagerView(pos: Vec, planets: seq<Planet>, id: int): ManagerView {
    ManagerView(ROCKET, Car(pos, Zero), planets, id, 0.0, RocketView(pos, Zero, 0.0, 0.0, 0.0, 1.0, White, id, 0.0))
  }

  /** The local player after one rocket entry. First, a missing local player
      is created at the spawn point when there are planets. Then an
      authoritative entry for the local id is applied through `applyState`,
      creating the player at the entry's position if it is still missing. */
  function LocalEntryApplied(o: Option<ManagerView>, x: RocketState, localId: int, planets: seq<Planet>, spawn: Vec): Option<ManagerView> {
    var o1 := LocalEnsured(o, localId, planets, spawn);
    if x.playerId == localId then LocalAuthoritative(o1, x, localId, planets) else o1
  }

  /** A missing local player created at the spawn point, when there are planets. */
  function LocalEnsured(o: Option<ManagerView>, localId: int, planets: seq<Planet>, spawn: Vec): Option<ManagerView> {
    if o.None? && |planets| > 0 then Some(NewManagerView(spawn, planets, localId)) else o
  }

  /** An entry of the local player: only an authoritative one is applied,
      creating the player at the entry's position if it is missing. */
  function LocalAuthoritative(o: Option<ManagerView>, x: RocketState, localId: int, planets: seq<Planet>): Option<ManagerView> {
    if x.authoritative then
      Some(StateApplied(if o.Some? then o.value else NewManagerView(x.position, planets, localId), x))
    else o
  }

  /** The local player after the entries `es` in order. */
  function LocalSynced(o: Option<ManagerView>, es: seq<RocketState>, localId: int, planets: seq<Planet>, spawn: Vec): Option<ManagerView>
    decreases |es|
  {
    if es == [] then o
    else LocalEntryApplied(LocalSynced(o, es[..|es| - 1], localId, planets, spawn), es[|es| - 1], localId, planets, spawn)
  }

  /** One more entry of the same list. */
  lemma LocalSyncedSnoc(o: Option<ManagerView>, es: seq<RocketState>, i: nat, localId: int, planets: seq<Planet>, spawn: Vec)
    requires i < |es|
    ensures LocalSynced(o, es[..i + 1], localId, planets, spawn)
            == LocalEntryApplied(LocalSynced(o, es[..i], localId, planets, spawn), es[i], localId, planets, spawn)
  {
    assert es[..i + 1][..i] == es[..i];
  }

  /** An authoritative entry of the local player. */
  predicate LocalAuthority(es: seq<RocketState>, localId: int) {
    exists j :: 0 <= j < |es| && es[j].playerId == localId && es[j].authoritative
  }

  /** An existing local player is only ever changed through `applyState` by
      authoritative entries of its own id: without one it is left as it is,
      and in any case its mode and owner stay and its timestamp never goes
      back. A missing one appears once there is an entry and planets, or an
      authoritative entry for it. */
  lemma {:induction false} LocalSyncedShape(o: Option<ManagerView>, es: seq<RocketState>, localId: int, planets: seq<Planet>, spawn: Vec)
    ensures var q := LocalSynced(o, es, localId, planets, spawn);
            (o.Some? ==> q.Some? && q.value.active == o.value.active && q.value.ownerId == o.value.ownerId
                         && q.value.lastStateTimestamp >= o.value.lastStateTimestamp)
            && (o.Some? && !LocalAuthority(es, localId) ==> q == o)
            && (o.None? ==> (q.Some? <==> (es != [] && |planets| > 0) || LocalAuthority(es, localId)))
    decreases |es|
  {
    if es != [] {
      var front := es[..|es| - 1];
      var x := es[|es| - 1];
      LocalSyncedShape(o, front, localId, planets, spawn);
      var p := LocalSynced(o, front, localId, planets, spawn);
      if p.Some? {
        StateAppliedMonotone(p.value, x);
      }
      if LocalAuthority(front, localId) {
        var j :| 0 <= j < |front| && front[j].playerId == localId && front[j].authoritative;
        assert es[j] == front[j];
      }
      if LocalAuthority(es, localId) && !(x.playerId == localId && x.authoritative) {
        var j :| 0 <= j < |es| && es[j].playerId == localId && es[j].authoritative;
        assert j < |es| - 1 && front[j] == es[j];
      }
    }
  }

  // ----- The client -----

  /** The snapshot `createState` takes of a manager in state `v`. */
  function ManagerSnapshot(v: ManagerView): RocketState {
    Snapshot(v.ownerId, v.active, v.rocket.position, v.rocket.velocity, v.rocket.rotation,
             v.rocket.thrustLevel, v.rocket.mass, v.rocket.color, v.lastStateTimestamp)
  }

  /** The snapshot `createState` takes of the local player, `None` when there
      is none. */
  function SnapshotOf(local: Option<ManagerView>): Option<RocketState> {
    if local.Some? then Some(ManagerSnapshot(local.value)) else None
  }

  /** The local simulation after `runLocalSimulation` on a connected client:
      the local player's snapshot (when there is a local player) patched into
      the rocket list, the planet entries refreshed from the live planets `vs`,
      and the time set to `time`. */
  function LocalRun(l: GameState, snap: Option<RocketState>, localId: int, vs: seq<PlanetView>, time: real): GameState {
    l.(rockets := if snap.Some? then Patched(l.rockets, localId, snap.value) else l.rockets,
       planets := Refreshed(l.planets, vs),
       timestamp := time)
  }

  /** The bookkeeping a snapshot with planets leaves (`processGameState`):
      it becomes the last state; the first one also completes the connection
      and becomes the start of the local simulation. */
  function Recorded(f: ClientFields, state: GameState): ClientFields {
    f.(lastState := state, stateTimestamp := state.timestamp,
       connection := if f.hasReceivedInitialState then f.connection else CONNECTED,
       hasReceivedInitialState := true,
       localSimulation := if f.hasReceivedInitialState then f.localSimulation else state,
       simulationTime := if f.hasReceivedInitialState then f.simulationTime else state.timestamp)
  }

  /** `f` with the planet list and the players a takeover produced. */
  function WithWorld(f: ClientFields, ps: seq<Planet>, r: Roster): ClientFields {
    f.(planets := ps, remotePlayers := r.players, localPlayer := r.local, remoteStates := r.tracks)
  }

  /** The fields after an override from the server: the simulation runs
      again, from the override at its time, and an override with planets is
      recorded and taken over like a snapshot. */
  function Overridden(f: ClientFields, state: GameState, ps: seq<Planet>, r: Roster): ClientFields {
    var g := f.(simulationPaused := false, simulationTime := state.timestamp, localSimulation := state);
    if state.planets != [] then WithWorld(Recorded(g, state), ps, r) else g
  }

  /** The clock part of a tick of `update`: unless the simulation is paused
      its time advances by `dt`, and on a connected client the local
      simulation is then recorded at the new time from the local player's
      snapshot `snap` and the planets' states `vs` (`runLocalSimulation` does
      nothing on a client that is not connected). */
  function Advanced(f: ClientFields, dt: real, snap: Option<RocketState>, vs: seq<PlanetView>): ClientFields {
    if f.simulationPaused then f
    else
      var n := f.simulationTime + dt;
      f.(simulationTime := n,
         localSimulation := if IsConnected(f.connection, f.hasReceivedInitialState)
                            then LocalRun(f.localSimulation, snap, f.localPlayerId, vs, n)
                            else f.localSimulation)
  }

  /** The interpolation records a tick keeps: on a connected client those of
      players that still exist, otherwise all of them
      (`interpolateRemotePlayers` does nothing then). */
  function KeptTracks(f: ClientFields): map<int, RemotePlayerState> {
    if IsConnected(f.connection, f.hasReceivedInitialState) then LiveTracks(f.remoteStates, f.remotePlayers.Keys)
    else f.remoteStates
  }

  /** Whether a tick offers the local simulation to the server: the sync
      interval has elapsed on the clock, the simulation runs, no validation
      is pending, and there is a local player. */
  predicate Offers(f: ClientFields, elapsed: real, snap: Option<RocketState>) {
    elapsed >= f.syncInterval && !f.simulationPaused && !f.pendingValidation && snap.Some?
  }

  /** The end of a tick: an offer patches the local player's snapshot `snap`
      into the local simulation, stamps it with the simulation time and makes
      a validation pending. */
  function Offered(f: ClientFields, elapsed: real, snap: Option<RocketState>): ClientFields {
    if Offers(f, elapsed, snap) then
      f.(localSimulation := f.localSimulation.(rockets := Patched(f.localSimulation.rockets, f.localPlayerId, snap.value),
                                               timestamp := f.simulationTime),
         pendingValidation := true)
    else f
  }

  /** The fields a tick leaves: the clock advanced, the records of departed
      players dropped (on a connected client), then the offer, which has no
      connection test of its own. `before` and `after` are the local player's
      snapshots at the start and at the end of the tick, `vs` the planets'
      states at its start. */
  function Ticked(f: ClientFields, dt: real, elapsed: real, before: Option<RocketState>, vs: seq<PlanetView>,
                  after: Option<RocketState>): ClientFields {
    var g := Advanced(f, dt, before, vs);
    Offered(g.(remoteStates := KeptTracks(g)), elapsed, after)
  }

  /** The tick the guard as written lets through on a client that is not
      connected (WAITING_FOR_STATE after its first snapshot, as
      `setLocalPlayerId` leaves it) can still offer its local simulation and
      make a validation pending, which the corrected guard would not let
      happen. */
  lemma UnconnectedTickOffers(f: ClientFields, dt: real, elapsed: real, before: Option<RocketState>, vs: seq<PlanetView>,
                              after: Option<RocketState>)
    requires f.connection == WAITING_FOR_STATE && f.hasReceivedInitialState
    requires Offers(f, elapsed, after)
    ensures !SkipsUpdateAsWritten(f.connection, f.hasReceivedInitialState) && SkipsUpdate(f.connection, f.hasReceivedInitialState)
    ensures !f.pendingValidation && Ticked(f, dt, elapsed, before, vs, after).pendingValidation
  {
  }

  /** The five keys the client polls for its controls: W, S, A, D and L. */
  datatype Keys = Keys(w: bool, s: bool, a: bool, d: bool, l: bool)

  /** The input a client sends for one frame (`getLocalPlayerInput`), with the
      keyboard's state given as `keys` and the local player's state as
      `local`. The id, the frame time and both timestamps are always filled
      in; the intents come from the keys only on a connected client with a
      local player; the thrust only when that player flies its rocket, and
      the rocket's snapshot only when a validation is also pending. */
  function LocalPlayerInput(f: ClientFields, local: Option<ManagerView>, dt: real, keys: Keys): (input: PlayerInput)
    ensures input.playerId == f.localPlayerId && input.deltaTime == dt
    ensures input.clientTimestamp == f.simulationTime && input.lastServerStateTimestamp == f.stateTimestamp
    ensures var live := IsConnected(f.connection, f.hasReceivedInitialState) && local.Some?;
            (input.thrustForward, input.thrustBackward, input.rotateLeft, input.rotateRight, input.switchVehicle)
              == (if live then (keys.w, keys.s, keys.a, keys.d, keys.l) else (false, false, false, false, false))
    ensures var flying := IsConnected(f.connection, f.hasReceivedInitialState) && local.Some? && local.value.active == ROCKET;
            input.thrustLevel == (if flying then local.value.rocket.thrustLevel else 0.0)
            && input.clientRocketState == (if flying && f.pendingValidation then ManagerSnapshot(local.value) else DefaultRocketState)
  {
    var input := DefaultPlayerInput().(playerId := f.localPlayerId, deltaTime := dt, clientTimestamp := f.simulationTime,
                                       lastServerStateTimestamp := f.stateTimestamp);
    if f.connection != CONNECTED || !f.hasReceivedInitialState || local.None? then input
    else
      var polled := input.(thrustForward := keys.w, thrustBackward := keys.s, rotateLeft := keys.a, rotateRight := keys.d,
                           switchVehicle := keys.l);
      if local.value.active == ROCKET then
        var thrusting := polled.(thrustLevel := local.value.rocket.thrustLevel);
        if f.pendingValidation then thrusting.(clientRocketState := ManagerSnapshot(local.value)) else thrusting
      else polled
  }

  /** What a tick does to the client's fields. The clock advances by `dt`
      exactly when the simulation is not paused, and a running tick on a
      connected client, or one that offers, stamps the local simulation with
      the new time. A tick never clears a pending validation; it starts one
      exactly when it offers. A connected client keeps the records of players
      that still exist, any other keeps them all. Nothing else changes, and a
      paused tick changes nothing but the records. */
  lemma TickedShape(f: ClientFields, dt: real, elapsed: real, before: Option<RocketState>, vs: seq<PlanetView>,
                    after: Option<RocketState>)
    ensures var r := Ticked(f, dt, elapsed, before, vs, after);
            r.simulationTime == (if f.simulationPaused then f.simulationTime else f.simulationTime + dt)
            && ((!f.simulationPaused && IsConnected(f.connection, f.hasReceivedInitialState)) || Offers(f, elapsed, after)
                ==> r.localSimulation.timestamp == r.simulationTime)
            && (!IsConnected(f.connection, f.hasReceivedInitialState) && !Offers(f, elapsed, after)
                ==> r.localSimulation == f.localSimulation)
    ensures var r := Ticked(f, dt, elapsed, before, vs, after);
            r.pendingValidation <==> f.pendingValidation || Offers(f, elapsed, after)
    ensures var r := Ticked(f, dt, elapsed, before, vs, after);
            r.remoteStates.Keys == (if IsConnected(f.connection, f.hasReceivedInitialState)
                                    then f.remoteStates.Keys * f.remotePlayers.Keys else f.remoteStates.Keys)
            && forall id :: id in r.remoteStates ==> r.remoteStates[id] == f.remoteStates[id]
    ensures var r := Ticked(f, dt, elapsed, before, vs, after);
            r == f.(simulationTime := r.simulationTime, localSimulation := r.localSimulation,
                    remoteStates := r.remoteStates, pendingValidation := r.pendingValidation)
    ensures f.simulationPaused ==>
              Ticked(f, dt, elapsed, before, vs, after) == f.(remoteStates := KeptTracks(f))
  {
  }

  /** Which snapshot of the local player a tick leaves in the local
      simulation, when the snapshots carry the local player's id: an offer
      leaves the one from the end of the tick as that player's first entry, a
      running tick of a connected client without an offer the one from its
      start. */
  lemma TickedLocalEntry(f: ClientFields, dt: real, elapsed: real, before: Option<RocketState>, vs: seq<PlanetView>,
                         after: Option<RocketState>)
    requires before.Some? ==> before.value.playerId == f.localPlayerId
    requires after.Some? ==> after.value.playerId == f.localPlayerId
    ensures var r := Ticked(f, dt, elapsed, before, vs, after).localSimulation.rockets;
            Offers(f, elapsed, after) ==>
              var k := FirstWithId(r, f.localPlayerId);
              k < |r| && r[k] == after.value
    ensures var r := Ticked(f, dt, elapsed, before, vs, after).localSimulation.rockets;
            !f.simulationPaused && IsConnected(f.connection, f.hasReceivedInitialState) && !Offers(f, elapsed, after)
            && before.Some? ==>
              var k := FirstWithId(r, f.localPlayerId);
              k < |r| && r[k] == before.value
  {
    var g := Advanced(f, dt, before, vs);
    if before.Some? && !f.simulationPaused && IsConnected(f.connection, f.hasReceivedInitialState) {
      PatchedShape(f.localSimulation.rockets, f.localPlayerId, before.value);
    }
    if Offers(f, elapsed, after) {
      PatchedShape(g.localSimulation.rockets, f.localPlayerId, after.value);
    }
  }

  /** The client's fields other than the simulator, as one value. */
  datatype ClientFields = ClientFields(
    planets: seq<Planet>,                          // b
    remotePlayers: map<int, VehicleManager>,       // c
    localPlayer: VehicleManager?,                  // d
    localPlayerId: int,                            // e
    lastState: GameState,                          // f
    stateTimestamp: real,                          // g
    remoteStates: map<int, RemotePlayerState>,     // h
    latencyCompensation: real,                     // i
    connection: ConnectionState,                   // j
    hasReceivedInitialState: bool,                 // k
    localSimulation: GameState,                    // l
    simulationTime: real,                          // n
    simulationPaused: bool,                        // o
    lastServerSyncTime: real,                      // p
    syncInterval: real,                            // q
    pendingValidation: bool)                       // r

  class GameClient {
    const sim: GravitySimulator                          // a
    var planets: seq<Planet>                             // b
    var remotePlayers: map<int, VehicleManager>          // c
    var localPlayer: VehicleManager?                     // d
    var localPlayerId: int                               // e
    var lastState: GameState                             // f
    var stateTimestamp: real                             // g
    var remoteStates: map<int, RemotePlayerState>        // h
    var latencyCompensation: real                        // i
    var connection: ConnectionState                      // j
    var hasReceivedInitialState: bool                    // k
    var localSimulation: GameState                       // l
    var simulationTime: real                             // n
    var simulationPaused: bool                           // o
    var lastServerSyncTime: real                         // p
    var syncInterval: real                               // q
    var pendingValidation: bool                          // r

    function Fields(): ClientFields
      reads this
    {
      ClientFields(planets, remotePlayers, localPlayer, localPlayerId, lastState, stateTimestamp, remoteStates,
                   latencyCompensation, connection, hasReceivedInitialState, localSimulation, simulationTime,
                   simulationPaused, lastServerSyncTime, syncInterval, pendingValidation)
    }

    /** The players as one value. */
    function Players(): Roster
      reads this
    {
      Roster(remotePlayers, localPlayer, remoteStates)
    }

    /** The client's invariant: its planets are distinct objects, its players
        are separate, and the simulator holds no rockets (the client never
        hands it one). */
    ghost predicate Valid()
      reads this, sim
    {
      Distinct(planets) && Separate(Players()) && sim.rockets == []
    }

    /** The remote players' rockets. */
    ghost function RemoteRockets(): set<Rocket>
      reads this
    {
      RocketsOf(remotePlayers)
    }

    /** The local player, and its rocket, when there is one. */
    ghost function LocalObjects(): set<object>
      reads this
    {
      LocalObjectsOf(localPlayer)
    }

    /** The remote players' rockets and interpolation records as values. */
    ghost function Remote(): Remotes
      reads this, RemoteRockets()
    {
      RemotesOf(Players())
    }

    /** The local player as a value, `None` when there is none. */
    ghost function LocalView(): Option<ManagerView>
      reads this, LocalObjects()
    {
      LocalOf(localPlayer)
    }

    /** The remote players' managers. */
    ghost function RemoteManagers(): set<VehicleManager>
      reads this
    {
      set id | id in remotePlayers :: remotePlayers[id]
    }

    /** No planets, no players, disconnected, id 0, window 0.05 and interval 0.1. */
    constructor ()
      ensures Valid() && fresh(sim)
      ensures Fields() == ClientFields([], map[], null, 0, EmptyGameState, 0.0, map[], DEFAULT_LATENCY_COMPENSATION,
                                       DISCONNECTED, false, EmptyGameState, 0.0, false, 0.0, DEFAULT_SYNC_INTERVAL, false)
      ensures sim.planets == [] && sim.rockets == [] && sim.vehicleManager == null
    {
      sim := new GravitySimulator(-1);
      planets := [];
      remotePlayers := map[];
      localPlayer := null;
      localPlayerId := 0;
      lastState := EmptyGameState;
      stateTimestamp := 0.0;
      remoteStates := map[];
      latencyCompensation := DEFAULT_LATENCY_COMPENSATION;
      connection := DISCONNECTED;
      hasReceivedInitialState := false;
      localSimulation := EmptyGameState;
      simulationTime := 0.0;
      simulationPaused := false;
      lastServerSyncTime := 0.0;
      syncInterval := DEFAULT_SYNC_INTERVAL;
      pendingValidation := false;
    }

    /** Takes the id the server assigned: the client now waits for its first
        snapshot, and the local player, its rocket and the simulator are given
        the new owner. */
    method SetLocalPlayerId(id: int)
      modifies this, sim, LocalObjects()
      ensures Fields() == old(Fields()).(localPlayerId := id, connection := WAITING_FOR_STATE)
      ensures localPlayer != null ==>
                localPlayer.View() == old(localPlayer.View()).(ownerId := id, rocket := old(localPlayer.rocket.View()).(playerId := id))
      ensures sim.ownerId == id && sim.planets == old(sim.planets) && sim.rockets == old(sim.rockets)
      ensures sim.vehicleManager == old(sim.vehicleManager) && sim.simulatePlanetGravity == old(sim.simulatePlanetGravity)
    {
      localPlayerId := id;
      connection := WAITING_FOR_STATE;
      if localPlayer != null {
        localPlayer.SetOwnerId(id);
        localPlayer.rocket.SetOwnerId(id);
      }
      sim.SetOwnerId(id);
    }

    /** Sets the interpolation window; nothing else changes. */
    method SetLatencyCompensation(value: real)
      modifies this
      ensures Fields() == old(Fields()).(latencyCompensation := value)
    {
      latencyCompensation := value;
    }

    /** Starts the local simulation over: sequence 0 at time 0, the local
        player's snapshot if there is one, and one entry per planet under its
        list index at time 0; the simulation clock restarts unpaused. */
    method InitializeLocalSimulation()
      modifies this
      ensures Fields() == old(Fields()).(localSimulation := localSimulation, simulationTime := 0.0, simulationPaused := false)
      ensures localSimulation.sequence == 0 && localSimulation.timestamp == 0.0 && !localSimulation.initialState
      ensures localSimulation.rockets == if localPlayer != null then [ManagerSnapshot(localPlayer.View())] else []
      ensures |localSimulation.planets| == |planets|
      ensures forall k :: 0 <= k < |planets| ==> localSimulation.planets[k] == PlanetEntry(k, planets[k].View(), 0.0)
    {
      var rockets: seq<RocketState> := [];
      if localPlayer != null {
        var rocketState := localPlayer.CreateState();
        rockets := [rocketState];
      }
      var l := InitialSimulation(rockets, planets);
      localSimulation := l;
      simulationTime := 0.0;
      simulationPaused := false;
    }

    /** On a connected client, records the local player's current state and
        the live planets in the local simulation and stamps it with the
        simulation time; otherwise does nothing. */
    method RunLocalSimulation()
      modifies this
      ensures !IsConnected(old(connection), old(hasReceivedInitialState)) ==> Fields() == old(Fields())
      ensures IsConnected(old(connection), old(hasReceivedInitialState)) ==>
                Fields() == old(Fields()).(localSimulation := LocalRun(old(localSimulation),
                  if localPlayer != null then Some(ManagerSnapshot(localPlayer.View())) else None,
                  localPlayerId, Views(planets), simulationTime))
    {
      if connection != CONNECTED || !hasReceivedInitialState {
        return;
      }
      var rockets := localSimulation.rockets;
      if localPlayer != null {
        var rocketState := localPlayer.CreateState();
        rockets := ReplaceOrAppend(rockets, localPlayerId, rocketState);
      }
      var ps := RefreshPlanetStates(localSimulation.planets, planets);
      localSimulation := localSimulation.(rockets := rockets, planets := ps, timestamp := simulationTime);
    }

    /** Applies one input to the local player at once, when the client is
        connected and has a local player; otherwise does nothing. */
    method ApplyLocalInput(lib: MathLib, input: PlayerInput)
      modifies LocalObjects()
      ensures IsConnected(connection, hasReceivedInitialState) && localPlayer != null ==>
                ControlsApplied(lib, localPlayer, input)
      ensures !(IsConnected(connection, hasReceivedInitialState) && localPlayer != null) ==>
                LocalView() == old(LocalView())
    {
      if !hasReceivedInitialState || connection != CONNECTED || localPlayer == null {
        return;
      }
      ApplyControls(lib, localPlayer, input);
    }

    /** One frame of the client (`update`), behind the guard as the source
        writes it: only a client that is neither connected nor has had its
        first snapshot skips it (`SkipsUpdateAsWritten`). Otherwise the clock
        advances unless paused, and the local simulation is recorded if the
        client is also connected; the simulator and the client's planet list
        take their steps (`WorldStepped`); the local and then the remote
        players' managers step; on a connected client the remote rockets are
        drawn at the new simulation time; and the local simulation may be
        offered to the server (`Ticked`). `elapsed` is the reading of the
        client's clock. */
    method Update(lib: MathLib, dt: real, elapsed: real) returns (ghost simAfter: seq<PlanetView>, ghost mid: seq<PlanetView>)
      requires Valid()
      modifies this, sim, sim.planets, planets, RemoteManagers(), RemoteRockets(), LocalObjects()
      ensures Valid()
      ensures SkipsUpdateAsWritten(old(connection), old(hasReceivedInitialState)) ==>
                unchanged(this, sim) && unchanged(sim.planets) && unchanged(planets) && unchanged(RemoteManagers())
                && unchanged(RemoteRockets()) && unchanged(LocalObjects())
      ensures !SkipsUpdateAsWritten(old(connection), old(hasReceivedInitialState)) ==>
                Fields() == Ticked(old(Fields()), dt, elapsed, SnapshotOf(old(LocalView())), old(Views(planets)), SnapshotOf(LocalView()))
      ensures !SkipsUpdateAsWritten(old(connection), old(hasReceivedInitialState)) ==>
                WorldStepped(lib, dt, old(Before(sim, planets)), sim, planets, simAfter, mid)
                && (localPlayer != null ==> localPlayer.View() == ManagerStepped(old(localPlayer.View()), dt))
                && forall id :: id in remotePlayers ==>
                     remotePlayers[id].View() == RemoteTicked(old(remotePlayers[id].View()), id, old(remoteStates), dt,
                                                              simulationTime, latencyCompensation,
                                                              IsConnected(connection, hasReceivedInitialState))
    {
      if SkipsUpdateAsWritten(connection, hasReceivedInitialState) {
        simAfter, mid := [], [];
        return;
      }
      Advance(dt);
      simAfter, mid := Rest(lib, dt, elapsed);
    }

    /** `update` with the guard it evidently means (see the findings): a
        client that is not fully connected skips the whole tick; a connected
        one runs it as `Update` does, drawing the remote rockets. */
    method UpdateCorrected(lib: MathLib, dt: real, elapsed: real) returns (ghost simAfter: seq<PlanetView>, ghost mid: seq<PlanetView>)
      requires Valid()
      modifies this, sim, sim.planets, planets, RemoteManagers(), RemoteRockets(), LocalObjects()
      ensures Valid()
      ensures SkipsUpdate(old(connection), old(hasReceivedInitialState)) ==>
                unchanged(this, sim) && unchanged(sim.planets) && unchanged(planets) && unchanged(RemoteManagers())
                && unchanged(RemoteRockets()) && unchanged(LocalObjects())
      ensures !SkipsUpdate(old(connection), old(hasReceivedInitialState)) ==>
                pendingValidation == (old(pendingValidation) || Offers(old(Fields()), elapsed, SnapshotOf(LocalView())))
                && Fields() == Ticked(old(Fields()), dt, elapsed, SnapshotOf(old(LocalView())), old(Views(planets)), SnapshotOf(LocalView()))
      ensures !SkipsUpdate(old(connection), old(hasReceivedInitialState)) ==>
                WorldStepped(lib, dt, old(Before(sim, planets)), sim, planets, simAfter, mid)
                && (localPlayer != null ==> localPlayer.View() == ManagerStepped(old(localPlayer.View()), dt))
                && forall id :: id in remotePlayers ==>
                     remotePlayers[id].View() == RemoteTicked(old(remotePlayers[id].View()), id, old(remoteStates), dt,
                                                              simulationTime, latencyCompensation, true)
    {
      if SkipsUpdate(connection, hasReceivedInitialState) {
        simAfter, mid := [], [];
        return;
      }
      UpdateGuardCorrected(connection, hasReceivedInitialState);
      ghost var f0 := Fields();
      simAfter, mid := Update(lib, dt, elapsed);
      TickedShape(f0, dt, elapsed, SnapshotOf(old(LocalView())), old(Views(planets)), SnapshotOf(LocalView()));
    }

    /** A tick after the clock has advanced: the objects step, then `Finish`.
        The remote rockets are drawn at the (already advanced) time. */
    method Rest(lib: MathLib, dt: real, elapsed: real) returns (ghost simAfter: seq<PlanetView>, ghost mid: seq<PlanetView>)
      requires Valid()
      modifies this, sim, sim.planets, planets, RemoteManagers(), RemoteRockets(), LocalObjects()
      ensures Valid()
      ensures Fields() == Offered(old(Fields()).(remoteStates := KeptTracks(old(Fields()))), elapsed, SnapshotOf(LocalView()))
      ensures planets == old(planets) && remotePlayers == old(remotePlayers) && localPlayer == old(localPlayer)
      ensures WorldStepped(lib, dt, old(Before(sim, planets)), sim, planets, simAfter, mid)
      ensures localPlayer != null ==> localPlayer.View() == ManagerStepped(old(localPlayer.View()), dt)
      ensures forall id :: id in remotePlayers ==>
                remotePlayers[id].View() == RemoteTicked(old(remotePlayers[id].View()), id, old(remoteStates), dt,
                                                         simulationTime, latencyCompensation,
                                                         IsConnected(connection, hasReceivedInitialState))
    {
      simAfter, mid := TickObjects(lib, dt);
      label ticked:
      Finish(elapsed);
      forall id | id in remotePlayers
        ensures remotePlayers[id].View() == RemoteTicked(old(remotePlayers[id].View()), id, old(remoteStates), dt,
                                                         simulationTime, latencyCompensation,
                                                         IsConnected(connection, hasReceivedInitialState))
      {
        assert old@ticked(remotePlayers[id].View()) == ManagerStepped(old(remotePlayers[id].View()), dt);
      }
    }

    /** The last two steps of a tick: on a connected client the remote
        rockets are drawn at the simulation time, then the local simulation
        may be offered. */
    method Finish(elapsed: real)
      requires Valid()
      modifies this, RemoteRockets()
      ensures Valid()
      ensures Fields() == Offered(old(Fields()).(remoteStates := KeptTracks(old(Fields()))), elapsed, SnapshotOf(old(LocalView())))
      ensures planets == old(planets) && remotePlayers == old(remotePlayers) && localPlayer == old(localPlayer)
      ensures forall id :: id in remotePlayers ==>
                remotePlayers[id].View() ==
                  if IsConnected(connection, hasReceivedInitialState)
                  then ManagerDrawn(old(remotePlayers[id].View()), id, old(remoteStates), simulationTime, latencyCompensation)
                  else old(remotePlayers[id].View())
      ensures localPlayer != null ==> localPlayer.View() == old(localPlayer.View())
      ensures SnapshotOf(LocalView()) == SnapshotOf(old(LocalView()))
      ensures simulationTime == old(simulationTime) && latencyCompensation == old(latencyCompensation)
    {
      InterpolateRemotePlayers(simulationTime);
      OfferSync(elapsed);
    }

    /** The clock part of a tick (`Advanced`). */
    method Advance(dt: real)
      modifies this
      ensures Fields() == Advanced(old(Fields()), dt, SnapshotOf(old(LocalView())), old(Views(planets)))
      ensures forall id :: id in remotePlayers ==> remotePlayers[id].View() == old(remotePlayers[id].View())
      ensures planets == old(planets) && Players() == old(Players()) && localPlayerId == old(localPlayerId)
      ensures remotePlayers == old(remotePlayers) && localPlayer == old(localPlayer)
      ensures Views(planets) == old(Views(planets)) && Remote() == old(Remote()) && LocalView() == old(LocalView())
    {
      if !simulationPaused {
        simulationTime := simulationTime + dt;
        RunLocalSimulation();
      }
      KeptWorld();
    }

    /** The objects' part of a tick: the simulator and the planet list step,
        then the local player's manager, then the remote players' managers. */
    method TickObjects(lib: MathLib, dt: real) returns (ghost simAfter: seq<PlanetView>, ghost mid: seq<PlanetView>)
      requires Valid()
      modifies sim, sim.planets, planets, RemoteManagers(), RemoteRockets(), LocalObjects()
      ensures WorldStepped(lib, dt, old(Before(sim, planets)), sim, planets, simAfter, mid)
      ensures localPlayer != null ==> localPlayer.View() == ManagerStepped(old(localPlayer.View()), dt)
      ensures forall id :: id in remotePlayers ==> remotePlayers[id].View() == ManagerStepped(old(remotePlayers[id].View()), dt)
    {
      simAfter, mid := StepWorld(lib, sim, planets, dt, RemoteManagers());
      StepPlayers(dt);
    }

    /** The local player's manager steps, then the remote players' managers. */
    method StepPlayers(dt: real)
      requires Separate(Players())
      modifies RemoteManagers(), RemoteRockets(), LocalObjects()
      ensures localPlayer != null ==> localPlayer.View() == ManagerStepped(old(localPlayer.View()), dt)
      ensures forall id :: id in remotePlayers ==> remotePlayers[id].View() == ManagerStepped(old(remotePlayers[id].View()), dt)
    {
      if localPlayer != null {
        localPlayer.Update(dt);
      }
      StepRemotePlayers(dt);
    }

    /** Every remote player's manager takes one step, in id order; the local
        player is not touched. */
    method StepRemotePlayers(dt: real)
      requires Separate(Players())
      modifies RemoteManagers(), RemoteRockets()
      ensures forall id :: id in remotePlayers ==> remotePlayers[id].View() == ManagerStepped(old(remotePlayers[id].View()), dt)
      ensures localPlayer != null ==> localPlayer.View() == old(localPlayer.View())
    {
      var ids := KeysInOrder(remotePlayers.Keys);
      var table := remotePlayers;
      var ms: seq<VehicleManager> := seq(|ids|, t requires 0 <= t < |ids| && ids[t] in table => table[ids[t]]);
      forall t, u | 0 <= t < |ms| && 0 <= u < |ms| && t != u
        ensures ms[t] != ms[u] && ms[t].rocket != ms[u].rocket
      {
        assert ids[t] != ids[u];
      }
      forall t | 0 <= t < |ms|
        ensures ms[t] in RemoteManagers() && ms[t].rocket in RemoteRockets()
        ensures localPlayer != null ==> ms[t] != localPlayer && ms[t].rocket != localPlayer.rocket
      {
        var id := ids[t];
        assert id in remotePlayers && ms[t] == remotePlayers[id];
        assert remotePlayers[id] in RemoteManagers();
        assert remotePlayers[id].rocket in RemoteRockets();
      }
      StepAll(ms, dt);
      forall id | id in remotePlayers
        ensures remotePlayers[id].View() == ManagerStepped(old(remotePlayers[id].View()), dt)
      {
        var t :| 0 <= t < |ids| && ids[t] == id;
        assert ms[t] == remotePlayers[id];
      }
    }

    /** Draws each remote rocket between its last two snapshots at time `now`
        (`interpolateRemotePlayers`) and drops the records of players that no
        longer exist. Does nothing on a client that is not connected. */
    method InterpolateRemotePlayers(now: real)
      requires Separate(Players())
      modifies this, RemoteRockets()
      ensures IsConnected(connection, hasReceivedInitialState) ==>
                Fields() == old(Fields()).(remoteStates := LiveTracks(old(remoteStates), remotePlayers.Keys))
      ensures !IsConnected(connection, hasReceivedInitialState) ==> Fields() == old(Fields())
      ensures planets == old(planets) && remotePlayers == old(remotePlayers) && localPlayer == old(localPlayer)
      ensures localPlayerId == old(localPlayerId) && simulationTime == old(simulationTime)
      ensures forall id :: id in remotePlayers ==>
                remotePlayers[id].View() ==
                  if IsConnected(connection, hasReceivedInitialState)
                  then ManagerDrawn(old(remotePlayers[id].View()), id, old(remoteStates), now, latencyCompensation)
                  else old(remotePlayers[id].View())
      ensures localPlayer != null ==> localPlayer.View() == old(localPlayer.View())
    {
      if !hasReceivedInitialState || connection != CONNECTED {
        return;
      }
      var tracks := DrawRemoteRockets(remotePlayers, remoteStates, now, latencyCompensation);
      remoteStates := tracks;
    }

    /** The end of a tick (`Offered`) on the clock reading `elapsed`. */
    method OfferSync(elapsed: real)
      modifies this
      ensures Fields() == Offered(old(Fields()), elapsed, SnapshotOf(old(LocalView())))
      ensures planets == old(planets) && Players() == old(Players()) && localPlayerId == old(localPlayerId)
      ensures remotePlayers == old(remotePlayers) && localPlayer == old(localPlayer)
      ensures Views(planets) == old(Views(planets)) && Remote() == old(Remote()) && LocalView() == old(LocalView())
    {
      if elapsed >= syncInterval && !simulationPaused && !pendingValidation && localPlayer != null {
        var s := localPlayer.CreateState();
        var rockets := ReplaceOrAppend(localSimulation.rockets, localPlayerId, s);
        localSimulation, pendingValidation := localSimulation.(rockets := rockets, timestamp := simulationTime), true;
      }
      KeptWorld();
    }

    /** What taking over a snapshot with planets does to the planets and the
        players, given their states `vs0`, `rem0` and `loc0` before it: the
        planet entries are applied in order, the remote players become those
        of the rocket entries, and the local player follows the authoritative
        entries of its own id. */
    ghost predicate SnapshotTaken(lib: MathLib, state: GameState, vs0: seq<PlanetView>, rem0: Remotes, loc0: Option<ManagerView>)
      reads this, planets, RemoteRockets(), LocalObjects()
    {
      && Views(planets) == PlanetsSynced(lib, vs0, state.planets)
      && Remote() == Pruned(RemotesSynced(rem0, state.rockets, localPlayerId, state.timestamp), StateIds(state.rockets))
      && LocalView() == LocalSynced(loc0, state.rockets, localPlayerId, planets, SpawnOf(planets))
    }

    /** Takes over a snapshot from the server. One without planets is
        ignored. Otherwise it becomes the last state; the first one also
        completes the connection and starts the local simulation from it;
        then its planets and rockets are taken over (new planets appended to
        the client's list and the simulator's) and remote players missing
        from it are removed. */
    method ProcessGameState(lib: MathLib, state: GameState)
      requires Valid()
      modifies this, sim, planets, RemoteRockets(), LocalObjects()
      ensures Valid()
      ensures state.planets == [] ==> unchanged(this, sim) && unchanged(planets) && unchanged(RemoteRockets()) && unchanged(LocalObjects())
      ensures state.planets != [] ==>
                PlanetsExtended(sim, old(planets), planets)
                && SnapshotTaken(lib, state, old(Views(planets)), old(Remote()), old(LocalView()))
      ensures state.planets != [] ==> Fields() == WithWorld(Recorded(old(Fields()), state), planets, Players())
    {
      if state.planets == [] {
        return;
      }
      Record(state);
      TakeOver(lib, state);
    }

    /** A validation reply from the server: the pending flag drops and the
        sync time becomes the simulation time. A reply flagged as an override
        is then taken over like a snapshot, with the simulation paused, and
        the local simulation restarts from it at its time. */
    method ProcessServerValidation(lib: MathLib, validated: GameState)
      requires Valid()
      modifies this, sim, planets, RemoteRockets(), LocalObjects()
      ensures Valid()
      ensures !validated.initialState ==>
                Fields() == old(Fields()).(pendingValidation := false, lastServerSyncTime := old(simulationTime))
      ensures !validated.initialState || validated.planets == [] ==>
                planets == old(planets) && Players() == old(Players()) &&
                unchanged(sim) && unchanged(planets) && unchanged(RemoteRockets()) && unchanged(LocalObjects())
      ensures validated.initialState && validated.planets != [] ==>
                PlanetsExtended(sim, old(planets), planets)
                && SnapshotTaken(lib, validated, old(Views(planets)), old(Remote()), old(LocalView()))
      ensures validated.initialState ==>
                Fields() == Overridden(old(Fields()).(pendingValidation := false, lastServerSyncTime := old(simulationTime)),
                                       validated, planets, Players())
    {
      if validated.initialState {
        // The override's restart values are set before the takeover: the
        // takeover does not read them and, on a first snapshot, writes the
        // same ones, so the client ends as the source leaves it.
        Restart(validated);
        ProcessGameState(lib, validated);
      } else {
        Acknowledge();
      }
    }

    /** Records a snapshot with planets as the last state; the first one
        also completes the connection and starts the local simulation. */
    method Record(state: GameState)
      modifies this
      ensures Fields() == Recorded(old(Fields()), state)
      ensures planets == old(planets) && Players() == old(Players()) && localPlayerId == old(localPlayerId)
      ensures remotePlayers == old(remotePlayers) && localPlayer == old(localPlayer)
      ensures Views(planets) == old(Views(planets)) && Remote() == old(Remote()) && LocalView() == old(LocalView())
    {
      lastState, stateTimestamp := state, state.timestamp;
      if !hasReceivedInitialState {
        connection, hasReceivedInitialState, localSimulation, simulationTime := CONNECTED, true, state, state.timestamp;
      }
      KeptWorld();
    }

    /** A validation reply taken: no validation is pending and the sync time
        becomes the simulation time. */
    method Acknowledge()
      modifies this
      ensures Fields() == old(Fields()).(pendingValidation := false, lastServerSyncTime := old(simulationTime))
      ensures planets == old(planets) && Players() == old(Players()) && localPlayerId == old(localPlayerId)
      ensures remotePlayers == old(remotePlayers) && localPlayer == old(localPlayer)
      ensures Views(planets) == old(Views(planets)) && Remote() == old(Remote()) && LocalView() == old(LocalView())
    {
      pendingValidation, lastServerSyncTime := false, simulationTime;
      KeptWorld();
    }

    /** An override acknowledged and taken as the new start of the local
        simulation, which runs again from the override's time. */
    method Restart(validated: GameState)
      modifies this
      ensures Fields() == old(Fields()).(pendingValidation := false, lastServerSyncTime := old(simulationTime),
                                         simulationPaused := false, simulationTime := validated.timestamp, localSimulation := validated)
      ensures planets == old(planets) && Players() == old(Players()) && localPlayerId == old(localPlayerId)
      ensures remotePlayers == old(remotePlayers) && localPlayer == old(localPlayer)
      ensures Views(planets) == old(Views(planets)) && Remote() == old(Remote()) && LocalView() == old(LocalView())
    {
      pendingValidation, lastServerSyncTime := false, simulationTime;
      simulationPaused, simulationTime, localSimulation := false, validated.timestamp, validated;
      KeptWorld();
    }

    /** The planets and the players, and so their states, are those of the
        old state. */
    twostate lemma KeptWorld()
      requires old(planets) == planets && old(Players()) == Players()
      requires unchanged(planets) && unchanged(RemoteRockets()) && unchanged(LocalObjects())
      ensures Views(planets) == old(Views(planets)) && Remote() == old(Remote()) && LocalView() == old(LocalView())
    {
      RemotesKept(Players());
      LocalKept(localPlayer);
      PlanetsKept(planets);
    }

    /** The planets and rockets of a snapshot with planets. */
    method TakeOver(lib: MathLib, state: GameState)
      requires Valid()
      modifies this, sim, planets, RemoteRockets(), LocalObjects()
      ensures Valid() && PlanetsExtended(sim, old(planets), planets)
      ensures SnapshotTaken(lib, state, old(Views(planets)), old(Remote()), old(LocalView()))
      ensures Fields() == old(Fields()).(planets := planets, remotePlayers := remotePlayers, localPlayer := localPlayer,
                                         remoteStates := remoteStates)
    {
      var ps, q := TakeOverSnapshot(lib, sim, planets, Players(), localPlayerId, state);
      SetWorld(ps, q);
    }

    /** Installs the planet list and the players a takeover produced. */
    method SetWorld(ps: seq<Planet>, q: Roster)
      modifies this
      ensures Fields() == old(Fields()).(planets := ps, remotePlayers := q.players, localPlayer := q.local, remoteStates := q.tracks)
      ensures Valid() == (Distinct(ps) && Separate(q) && sim.rockets == [])
      ensures Views(planets) == old(Views(ps)) && SpawnOf(planets) == old(SpawnOf(ps))
      ensures Remote() == old(RemotesOf(q)) && LocalView() == old(LocalOf(q.local))
    {
      planets, remotePlayers, localPlayer, remoteStates := ps, q.players, q.local, q.tracks;
      assert Players() == q;
      RemotesKept(q);
      LocalKept(q.local);
      PlanetsKept(ps);
    }
  }

  // ----- Players taken over from a snapshot -----

  /** The client's players: remote managers and interpolation records by
      player id, and the local manager if there is one. */
  datatype Roster = Roster(players: map<int, VehicleManager>, local: VehicleManager?, tracks: map<int, RemotePlayerState>)

  /** The rockets of a map of managers. */
  ghost function RocketsOf(players: map<int, VehicleManager>): set<Rocket> {
    set id | id in players :: players[id].rocket
  }

  /** A manager and its rocket, when there is a manager. */
  ghost function LocalObjectsOf(m: VehicleManager?): set<object> {
    if m != null then {m, m.rocket} else {}
  }

  /** Every manager and every rocket belongs to one player only. */
  ghost predicate Separate(r: Roster) {
    (forall a, b :: a in r.players && b in r.players && a != b ==>
       r.players[a] != r.players[b] && r.players[a].rocket != r.players[b].rocket)
    && (r.local != null ==>
          forall a :: a in r.players ==> r.players[a] != r.local && r.players[a].rocket != r.local.rocket)
  }

  /** The remote rockets' states and the interpolation records. */
  ghost function RemotesOf(r: Roster): Remotes
    reads RocketsOf(r.players)
  {
    Remotes(map id | id in r.players :: r.players[id].rocket.View(), r.tracks)
  }

  /** The local player's state, `None` when there is none. */
  ghost function LocalOf(m: VehicleManager?): Option<ManagerView>
    reads LocalObjectsOf(m)
  {
    if m != null then Some(m.View()) else None
  }

  /** The simulator's rockets, owner and gravity switch are unchanged. */
  twostate predicate SimKept(sim: GravitySimulator)
    reads sim
  {
    sim.rockets == old(sim.rockets) && sim.ownerId == old(sim.ownerId)
    && sim.simulatePlanetGravity == old(sim.simulatePlanetGravity)
  }

  /** Where a local player created from a snapshot is put: above planet 0. */
  function SpawnOf(planets: seq<Planet>): Vec
    reads planets
  {
    if |planets| > 0 then SpawnPoint(planets[0].position, planets[0].radius) else Zero
  }

  /** Every remote player of `r` is still in `q`, the same object; the local
      player of `r`, if any, is kept; every manager that is new is a new
      object with a new rocket. */
  twostate predicate RosterGrown(r: Roster, new q: Roster) {
    (forall id :: id in r.players ==> id in q.players && q.players[id] == r.players[id])
    && (forall id :: id in q.players && id !in r.players ==> fresh(q.players[id]) && fresh(q.players[id].rocket))
    && (r.local != null ==> q.local == r.local)
    && (q.local != r.local ==> q.local != null && fresh(q.local) && fresh(q.local.rocket))
  }

  /** A new local player at `pos`, handed to the simulator. */
  method CreateLocalPlayer(sim: GravitySimulator, planets: seq<Planet>, localId: int, r: Roster, pos: Vec) returns (q: Roster)
    requires Separate(r) && r.local == null
    modifies sim
    ensures Separate(q) && SimKept(sim) && sim.planets == old(sim.planets) && RosterGrown(r, q)
    ensures q.players == r.players && q.tracks == r.tracks && q.local != null
    ensures LocalOf(q.local) == Some(NewManagerView(pos, planets, localId))
    ensures RemotesOf(q) == old(RemotesOf(r))
    ensures sim.vehicleManager == q.local
  {
    var m := new VehicleManager(pos, planets, localId);
    NonNullOfNonNull(planets);
    sim.AddVehicleManager(m);
    q := r.(local := m);
  }

  /** Before any rocket entry: a missing local player is created at `spawn`
      (the point above planet 0), when there are planets, and handed to the
      simulator. */
  method EnsureLocalPlayer(sim: GravitySimulator, planets: seq<Planet>, localId: int, r: Roster, spawn: Vec) returns (q: Roster)
    requires Separate(r)
    modifies sim
    ensures Separate(q) && SimKept(sim) && sim.planets == old(sim.planets) && RosterGrown(r, q)
    ensures q.players == r.players && q.tracks == r.tracks
    ensures LocalOf(q.local) == LocalEnsured(old(LocalOf(r.local)), localId, planets, spawn)
    ensures RemotesOf(q) == old(RemotesOf(r))
    ensures sim.vehicleManager == if q.local != r.local then q.local else old(sim.vehicleManager)
  {
    q := r;
    if r.local == null && |planets| > 0 {
      q := CreateLocalPlayer(sim, planets, localId, r, spawn);
    }
  }

  /** An entry of the local player: only an authoritative one is applied,
      through `applyState`, creating the local player at the entry's
      position first if there is none. */
  method TakeOverLocal(sim: GravitySimulator, planets: seq<Planet>, localId: int, r: Roster, x: RocketState) returns (q: Roster)
    requires Separate(r) && x.playerId == localId
    modifies sim, LocalObjectsOf(r.local)
    ensures Separate(q) && SimKept(sim) && sim.planets == old(sim.planets) && RosterGrown(r, q)
    ensures q.players == r.players && q.tracks == r.tracks
    ensures LocalOf(q.local) == LocalAuthoritative(old(LocalOf(r.local)), x, localId, planets)
    ensures RemotesOf(q) == old(RemotesOf(r))
    ensures sim.vehicleManager == if q.local != r.local then q.local else old(sim.vehicleManager)
  {
    q := r;
    if !x.authoritative {
      return;
    }
    if r.local == null {
      q := CreateLocalPlayer(sim, planets, localId, r, x.position);
    }
    ApplyLocalState(q, x);
  }

  /** `applyState` on the local player of a roster. */
  method ApplyLocalState(r: Roster, x: RocketState)
    requires Separate(r) && r.local != null
    modifies r.local, r.local.rocket
    ensures LocalOf(r.local) == Some(StateApplied(old(r.local.View()), x))
    ensures RemotesOf(r) == old(RemotesOf(r))
  {
    r.local.ApplyState(x);
    assert forall id :: id in r.players ==> r.players[id].rocket.View() == old(r.players[id].rocket.View());
  }

  /** An entry of another player: a new player gets a manager at the entry's
      position, painted in the entry's colour and handed to the simulator;
      then its rocket takes over position, velocity, rotation and thrust, and
      its interpolation record starts from where the rocket was. */
  method TakeOverRemote(sim: GravitySimulator, planets: seq<Planet>, r: Roster, x: RocketState, time: real) returns (q: Roster)
    requires Separate(r)
    modifies sim, RocketsOf(r.players)
    ensures Separate(q) && SimKept(sim) && sim.planets == old(sim.planets) && RosterGrown(r, q)
    ensures q.local == r.local && q.players.Keys == r.players.Keys + {x.playerId}
    ensures RemotesOf(q) == RemoteEntryApplied(old(RemotesOf(r)), x, time)
    ensures LocalOf(q.local) == old(LocalOf(r.local))
    ensures sim.vehicleManager == if x.playerId in r.players then old(sim.vehicleManager) else q.players[x.playerId]
  {
    ghost var r0 := RemotesOf(r);
    q := r;
    if x.playerId !in r.players {
      q := AddRemotePlayer(sim, planets, r, x);
      RemoteEntryAppliedToNew(r0, x, time);
    }
    ghost var mid := RemotesOf(q);
    assert RemoteEntryApplied(mid, x, time) == RemoteEntryApplied(r0, x, time);
    q := UpdateRemote(q, x, time);
  }

  /** A manager for a new remote player: at the entry's position, painted in
      the entry's colour, and handed to the simulator. */
  method AddRemotePlayer(sim: GravitySimulator, planets: seq<Planet>, r: Roster, x: RocketState) returns (q: Roster)
    requires Separate(r) && x.playerId !in r.players
    modifies sim
    ensures Separate(q) && SimKept(sim) && sim.planets == old(sim.planets) && RosterGrown(r, q)
    ensures q.local == r.local && q.tracks == r.tracks && q.players.Keys == r.players.Keys + {x.playerId}
    ensures RemotesOf(q).views == RemotesOf(r).views[x.playerId := NewRemoteView(x)]
    ensures sim.vehicleManager == q.players[x.playerId]
  {
    var player := new VehicleManager(x.position, planets, x.playerId);
    sim.AddVehicleManager(player);
    player.rocket.SetColor(x.color);
    q := r.(players := r.players[x.playerId := player]);
  }

  /** An existing remote player taking over an entry of a snapshot taken at
      `time`: its rocket takes the entry's values, and its interpolation
      record runs from the rocket's previous place to the entry's. */
  method UpdateRemote(r: Roster, x: RocketState, time: real) returns (q: Roster)
    requires Separate(r) && x.playerId in r.players
    modifies r.players[x.playerId].rocket
    ensures Separate(q)
    ensures q.players == r.players && q.local == r.local
    ensures RemotesOf(q) == RemoteEntryApplied(old(RemotesOf(r)), x, time)
  {
    ghost var views0 := RemotesOf(r).views;
    var id := x.playerId;
    var rocket := r.players[id].rocket;
    var prevPos := rocket.position;
    var prevVel := rocket.velocity;
    TakeOverRemoteRocket(rocket, x);
    q := r.(tracks := r.tracks[id := RemotePlayerState(prevPos, prevVel, x.position, x.velocity, x.rotation, time)]);
    forall k | k in q.players && k != id
      ensures q.players[k].rocket.View() == views0[k]
    {
      assert q.players[k].rocket != rocket;
    }
    assert RemotesOf(q).views == views0[id := RemoteTakenOver(views0[id], x)];
  }

  /** A remote rocket taking over an entry: position, velocity, rotation and
      thrust level. */
  method TakeOverRemoteRocket(rocket: Rocket, x: RocketState)
    modifies rocket
    ensures rocket.View() == RemoteTakenOver(old(rocket.View()), x)
  {
    rocket.SetPosition(x.position);
    rocket.SetVelocity(x.velocity);
    rocket.SetRotation(x.rotation);
    rocket.SetThrustLevel(x.thrustLevel);
  }

  /** One rocket entry: a missing local player is created first; then the
      entry goes to the local player or to a remote one by its id. */
  method TakeOverRocket(sim: GravitySimulator, planets: seq<Planet>, localId: int, r: Roster, x: RocketState, time: real, spawn: Vec)
    returns (q: Roster)
    requires Separate(r)
    modifies sim, RocketsOf(r.players), LocalObjectsOf(r.local)
    ensures Separate(q) && SimKept(sim) && sim.planets == old(sim.planets) && RosterGrown(r, q)
    ensures LocalOf(q.local) == LocalEntryApplied(old(LocalOf(r.local)), x, localId, planets, spawn)
    ensures RemotesOf(q) == if x.playerId == localId then old(RemotesOf(r)) else RemoteEntryApplied(old(RemotesOf(r)), x, time)
  {
    q := EnsureLocalPlayer(sim, planets, localId, r, spawn);
    if x.playerId == localId {
      q := TakeOverLocal(sim, planets, localId, q, x);
    } else {
      q := TakeOverRemote(sim, planets, q, x, time);
    }
  }

  /** The rocket entries of a snapshot, in order. */
  method TakeOverRocketList(sim: GravitySimulator, planets: seq<Planet>, localId: int, r: Roster, es: seq<RocketState>, time: real)
    returns (q: Roster)
    requires Separate(r)
    modifies sim, RocketsOf(r.players), LocalObjectsOf(r.local)
    ensures Separate(q) && SimKept(sim) && sim.planets == old(sim.planets) && RosterGrown(r, q)
    ensures LocalOf(q.local) == LocalSynced(old(LocalOf(r.local)), es, localId, planets, old(SpawnOf(planets)))
    ensures RemotesOf(q) == RemotesSynced(old(RemotesOf(r)), es, localId, time)
  {
    // No planet changes during the rocket entries, so the point a missing
    // local player is created at is the same for all of them.
    var spawn := SpawnOf(planets);
    ghost var local0 := LocalOf(r.local);
    ghost var remote0 := RemotesOf(r);
    q := r;
    var i := 0;
    while i < |es|
      invariant i <= |es|
      invariant Separate(q) && SimKept(sim) && sim.planets == old(sim.planets) && RosterGrown(r, q)
      invariant LocalOf(q.local) == LocalSynced(local0, es[..i], localId, planets, spawn)
      invariant RemotesOf(q) == RemotesSynced(remote0, es[..i], localId, time)
    {
      q := TakeOverRocket(sim, planets, localId, q, es[i], time, spawn);
      LocalSyncedSnoc(local0, es, i, localId, planets, spawn);
      RemotesSyncedSnoc(remote0, es, i, localId, time);
      i := i + 1;
    }
    assert es[..i] == es;
  }

  /** Whether some rocket entry belongs to player `id`. */
  method HasEntryFor(es: seq<RocketState>, id: int) returns (found: bool)
    ensures found <==> id in StateIds(es)
  {
    found := false;
    var k := 0;
    while k < |es| && !found
      invariant k <= |es|
      invariant !found ==> forall t :: 0 <= t < k ==> es[t].playerId != id
      invariant found ==> 0 < k && es[k - 1].playerId == id
    {
      if es[k].playerId == id {
        found := true;
      }
      k := k + 1;
    }
    if found {
      assert es[k - 1].playerId in StateIds(es);
    }
  }

  /** The ids of `ids` without a rocket entry in `es`, in order. */
  method DepartedIds(ids: seq<int>, es: seq<RocketState>) returns (toRemove: seq<int>)
    ensures forall id :: id in toRemove <==> id in ids && id !in StateIds(es)
  {
    toRemove := [];
    var i := 0;
    while i < |ids|
      invariant i <= |ids|
      invariant forall id :: id in toRemove <==> id in ids[..i] && id !in StateIds(es)
    {
      var found := HasEntryFor(es, ids[i]);
      if !found {
        toRemove := toRemove + [ids[i]];
      }
      assert ids[..i + 1] == ids[..i] + [ids[i]];
      i := i + 1;
    }
    assert ids[..i] == ids;
  }

  /** The removal pass: every remote player without an entry is taken out of
      the simulator and loses its manager and its record. */
  method RemoveDeparted(sim: GravitySimulator, r: Roster, es: seq<RocketState>) returns (q: Roster)
    requires Separate(r)
    modifies sim
    ensures Separate(q) && SimKept(sim) && sim.planets == old(sim.planets)
    ensures q.local == r.local
    ensures forall id :: id in q.players ==> id in r.players && q.players[id] == r.players[id]
    ensures RemotesOf(q) == Pruned(old(RemotesOf(r)), StateIds(es))
  {
    var ids := KeysInOrder(r.players.Keys);
    var toRemove := DepartedIds(ids, es);
    q := r;
    var j := 0;
    while j < |toRemove|
      invariant j <= |toRemove|
      invariant q.local == r.local
      invariant forall id :: id in q.players <==> id in r.players && id !in toRemove[..j]
      invariant forall id :: id in q.players ==> q.players[id] == r.players[id]
      invariant forall id :: id in q.tracks <==> id in r.tracks && id !in toRemove[..j]
      invariant forall id :: id in q.tracks ==> q.tracks[id] == r.tracks[id]
      invariant SimKept(sim) && sim.planets == old(sim.planets)
    {
      var id := toRemove[j];
      if id in q.players {
        sim.RemoveVehicleManager(q.players[id]);
      }
      q := Roster(q.players - {id}, q.local, q.tracks - {id});
      assert toRemove[..j + 1] == toRemove[..j] + [id];
      j := j + 1;
    }
    assert toRemove[..j] == toRemove;
    PrunedRoster(r, q, StateIds(es));
    RemotesKept(r);
  }

  /** The local player's state depends on its manager and rocket alone. */
  twostate lemma LocalKept(m: VehicleManager?)
    requires unchanged(LocalObjectsOf(m))
    ensures LocalOf(m) == old(LocalOf(m))
  {
  }

  /** The planets' states and the spawn point depend on the planets alone. */
  twostate lemma PlanetsKept(ps: seq<Planet>)
    requires unchanged(ps)
    ensures Views(ps) == old(Views(ps)) && SpawnOf(ps) == old(SpawnOf(ps))
  {
  }

  /** The remote states depend on the remote rockets alone. */
  twostate lemma RemotesKept(r: Roster)
    requires unchanged(RocketsOf(r.players))
    ensures RemotesOf(r) == old(RemotesOf(r))
  {
  }

  /** A roster cut down to the players in `ids`, records of players without
      a rocket kept, holds the pruned remote states. */
  lemma PrunedRoster(r: Roster, q: Roster, ids: set<int>)
    requires forall id :: id in q.players <==> id in r.players && id in ids
    requires forall id :: id in q.players ==> q.players[id] == r.players[id]
    requires forall id :: id in q.tracks <==> id in r.tracks && (id !in r.players || id in ids)
    requires forall id :: id in q.tracks ==> q.tracks[id] == r.tracks[id]
    ensures RemotesOf(q) == Pruned(RemotesOf(r), ids)
  {
    var p := Pruned(RemotesOf(r), ids);
    var v := RemotesOf(q).views;
    var w := RemotesOf(r).views;
    assert forall id :: id in w <==> id in r.players;
    assert forall id :: id in v <==> id in q.players;
    assert forall id :: id in p.views <==> id in w && id in ids;
    assert forall id :: id in v <==> id in p.views;
    assert v.Keys == p.views.Keys;
    forall id | id in v ensures v[id] == p.views[id] {
      assert v[id] == q.players[id].rocket.View();
    }
    assert forall id :: id in q.tracks <==> id in p.tracks;
    assert RemotesOf(q).tracks.Keys == p.tracks.Keys;
    assert v == p.views;
    assert RemotesOf(r).tracks == r.tracks;
    forall id | id in q.tracks ensures q.tracks[id] == p.tracks[id] { }
    assert q.tracks == p.tracks;
  }

  /** A whole snapshot with planets: the planet entries, then the rocket
      entries, then the removal pass. */
  method TakeOverSnapshot(lib: MathLib, sim: GravitySimulator, planets: seq<Planet>, r: Roster, localId: int, state: GameState)
    returns (ps: seq<Planet>, q: Roster)
    requires Distinct(planets) && Separate(r)
    modifies sim, planets, RocketsOf(r.players), LocalObjectsOf(r.local)
    ensures Distinct(ps) && Separate(q) && SimKept(sim) && PlanetsExtended(sim, planets, ps)
    ensures Views(ps) == PlanetsSynced(lib, old(Views(planets)), state.planets)
    ensures RemotesOf(q) == Pruned(RemotesSynced(old(RemotesOf(r)), state.rockets, localId, state.timestamp), StateIds(state.rockets))
    ensures LocalOf(q.local) == LocalSynced(old(LocalOf(r.local)), state.rockets, localId, ps, SpawnOf(ps))
  {
    ps := SyncPlanetList(lib, sim, planets, state.planets);
    RemotesKept(r);
    LocalKept(r.local);
    label Planets:
    q := SnapshotRockets(sim, ps, localId, r, state.rockets, state.timestamp);
    PlanetsKept@Planets(ps);
  }

  /** The rocket entries of a snapshot, then the removal pass. */
  method SnapshotRockets(sim: GravitySimulator, ps: seq<Planet>, localId: int, r: Roster, es: seq<RocketState>, time: real)
    returns (q: Roster)
    requires Separate(r)
    modifies sim, RocketsOf(r.players), LocalObjectsOf(r.local)
    ensures Separate(q) && SimKept(sim) && sim.planets == old(sim.planets)
    ensures RemotesOf(q) == Pruned(RemotesSynced(old(RemotesOf(r)), es, localId, time), StateIds(es))
    ensures LocalOf(q.local) == LocalSynced(old(LocalOf(r.local)), es, localId, ps, old(SpawnOf(ps)))
  {
    q := TakeOverRocketList(sim, ps, localId, r, es, time);
    label Rockets:
    ghost var local1 := q.local;
    q := RemoveDeparted(sim, q, es);
    LocalKept@Rockets(local1);
  }

  /** Creates planets (origin, at rest, mass 1, default colour) and hands
      each to the simulator until the list has at least `n` of them. */
  method GrowPlanets(lib: MathLib, sim: GravitySimulator, ps: seq<Planet>, n: int) returns (qs: seq<Planet>)
    requires Distinct(ps)
    modifies sim
    ensures Distinct(qs)
    ensures Views(qs) == Views(ps) + Padding(lib, n - |ps|)
    ensures |qs| >= |ps| && qs[..|ps|] == ps
    ensures forall k :: |ps| <= k < |qs| ==> fresh(qs[k])
    ensures sim.planets == old(sim.planets) + qs[|ps|..]
    ensures sim.rockets == old(sim.rockets) && sim.vehicleManager == old(sim.vehicleManager)
    ensures sim.ownerId == old(sim.ownerId) && sim.simulatePlanetGravity == old(sim.simulatePlanetGravity)
  {
    qs := ps;
    while n > |qs|
      invariant Distinct(qs)
      invariant |ps| <= |qs| <= if n <= |ps| then |ps| else n
      invariant qs[..|ps|] == ps
      invariant forall k :: |ps| <= k < |qs| ==> fresh(qs[k]) && qs[k].View() == NewPlanetView(lib)
      invariant sim.planets == old(sim.planets) + qs[|ps|..]
      invariant sim.rockets == old(sim.rockets) && sim.vehicleManager == old(sim.vehicleManager)
      invariant sim.ownerId == old(sim.ownerId) && sim.simulatePlanetGravity == old(sim.simulatePlanetGravity)
      decreases n - |qs|
    {
      var p := new Planet(lib, Zero, 0.0, 1.0, Blue);
      assert p !in qs;
      assert (qs + [p])[|ps|..] == qs[|ps|..] + [p];
      qs := qs + [p];
      sim.AddPlanet(p);
    }
    ghost var w := Views(ps) + Padding(lib, n - |ps|);
    assert forall k :: 0 <= k < |ps| ==> qs[k] == ps[k];
    ViewsAre(qs, w);
  }

  /** The planet at index `i` of a list of distinct planets takes over `e`. */
  method TakeOverAt(lib: MathLib, qs: seq<Planet>, i: nat, e: PlanetState)
    requires Distinct(qs) && i < |qs|
    modifies qs[i]
    ensures Views(qs) == old(Views(qs))[i := PlanetTakenOver(lib, old(qs[i].View()), e)]
  {
    ghost var w := Views(qs)[i := PlanetTakenOver(lib, qs[i].View(), e)];
    TakeOverEntry(lib, qs[i], e);
    ViewsAre(qs, w);
  }

  /** A planet taking over an entry: position, velocity, mass and owner. */
  method TakeOverEntry(lib: MathLib, planet: Planet, e: PlanetState)
    modifies planet
    ensures planet.View() == PlanetTakenOver(lib, old(planet.View()), e)
  {
    planet.SetPosition(e.position);
    planet.SetVelocity(e.velocity);
    planet.SetMass(lib, e.mass);
    planet.SetOwnerId(e.ownerId);
  }

  /** One planet entry of a snapshot: a negative id is skipped; otherwise the
      list grows until the id is an index, and that planet takes over the
      entry's position, velocity, mass and owner. */
  method ApplyPlanetEntry(lib: MathLib, sim: GravitySimulator, ps: seq<Planet>, e: PlanetState)
    returns (qs: seq<Planet>, ghost added: seq<Planet>)
    requires Distinct(ps)
    modifies sim, ps
    ensures Distinct(qs)
    ensures Views(qs) == PlanetEntryApplied(lib, old(Views(ps)), e)
    ensures qs == ps + added && forall k :: 0 <= k < |added| ==> fresh(added[k])
    ensures sim.planets == old(sim.planets) + added
    ensures sim.rockets == old(sim.rockets) && sim.vehicleManager == old(sim.vehicleManager)
    ensures sim.ownerId == old(sim.ownerId) && sim.simulatePlanetGravity == old(sim.simulatePlanetGravity)
  {
    if e.id < 0 {
      return ps, [];
    }
    ghost var vs0 := Views(ps);
    qs := GrowPlanets(lib, sim, ps, e.id + 1);
    added := qs[|ps|..];
    assert qs == ps + added;
    ghost var padded := Views(qs);
    assert padded == vs0 + Padding(lib, e.id + 1 - |vs0|);
    TakeOverAt(lib, qs, e.id, e);
    assert Views(qs) == padded[e.id := PlanetTakenOver(lib, padded[e.id], e)];
  }

  /** `qs` is `ps` with new planets appended, each of them also appended to
      the simulator's list. */
  twostate predicate PlanetsExtended(sim: GravitySimulator, ps: seq<Planet>, new qs: seq<Planet>)
    reads sim
  {
    |qs| >= |ps| && qs[..|ps|] == ps
    && (forall k :: |ps| <= k < |qs| ==> fresh(qs[k]))
    && sim.planets == old(sim.planets) + qs[|ps|..]
  }

  /** The planet entries of a snapshot, in order. */
  method SyncPlanetList(lib: MathLib, sim: GravitySimulator, ps: seq<Planet>, es: seq<PlanetState>) returns (qs: seq<Planet>)
    requires Distinct(ps)
    modifies sim, ps
    ensures Distinct(qs)
    ensures Views(qs) == PlanetsSynced(lib, old(Views(ps)), es)
    ensures PlanetsExtended(sim, ps, qs) && SimKept(sim) && sim.vehicleManager == old(sim.vehicleManager)
  {
    ghost var vs0 := Views(ps);
    ghost var added: seq<Planet> := [];
    qs := ps;
    var i := 0;
    while i < |es|
      invariant i <= |es|
      invariant Distinct(qs)
      invariant Views(qs) == PlanetsSynced(lib, vs0, es[..i])
      invariant qs == ps + added && forall k :: 0 <= k < |added| ==> fresh(added[k])
      invariant sim.planets == old(sim.planets) + added
      invariant SimKept(sim) && sim.vehicleManager == old(sim.vehicleManager)
    {
      ghost var more;
      qs, more := ApplyPlanetEntry(lib, sim, qs, es[i]);
      PlanetsSyncedSnoc(lib, vs0, es, i);
      assert ps + added + more == ps + (added + more);
      added := added + more;
      i := i + 1;
    }
    assert es[..i] == es;
    assert qs[..|ps|] == ps && qs[|ps|..] == added;

  }

  /** The loop that builds the initial local simulation: sequence 0 at time 0,
      the given rocket entries, and one entry per planet at time 0. */
  method InitialSimulation(rockets: seq<RocketState>, planets: seq<Planet>) returns (l: GameState)
    ensures l.sequence == 0 && l.timestamp == 0.0 && !l.initialState && l.rockets == rockets
    ensures |l.planets| == |planets|
    ensures forall k :: 0 <= k < |planets| ==> l.planets[k] == PlanetEntry(k, planets[k].View(), 0.0)
  {
    l := GameState(0, 0.0, rockets, [], false);
    var i := 0;
    while i < |planets|
      invariant i <= |planets| && |l.planets| == i
      invariant l.sequence == 0 && l.timestamp == 0.0 && !l.initialState && l.rockets == rockets
      invariant forall k :: 0 <= k < i ==> l.planets[k] == PlanetEntry(k, planets[k].View(), 0.0)
    {
      l := l.(planets := l.planets + [PlanetEntry(i, planets[i].View(), 0.0)]);
      i := i + 1;
    }
  }

  /** The loop that finds the first entry for `id` and overwrites it, or
      appends `s` when it finds none. */
  method ReplaceOrAppend(rs: seq<RocketState>, id: int, s: RocketState) returns (r: seq<RocketState>)
    ensures r == Patched(rs, id, s)
  {
    var found := false;
    var i := 0;
    while i < |rs| && !found
      invariant 0 <= i <= |rs|
      invariant !found ==> forall t :: 0 <= t < i ==> rs[t].playerId != id
      invariant found ==> 0 < i && FirstWithId(rs, id) == i - 1
    {
      if rs[i].playerId == id {
        found := true;
      }
      i := i + 1;
    }
    if found {
      r := rs[i - 1 := s];
    } else {
      r := rs + [s];
    }
  }

  /** The loop that copies position, velocity and mass of each live planet
      into the entry of the same index, as far as both lists go. */
  method RefreshPlanetStates(ps: seq<PlanetState>, planets: seq<Planet>) returns (r: seq<PlanetState>)
    ensures r == Refreshed(ps, Views(planets))
  {
    r := ps;
    var i := 0;
    while i < |planets| && i < |r|
      invariant 0 <= i <= |ps| && |r| == |ps|
      invariant forall k :: 0 <= k < |ps| ==> r[k] == if k < i then Refreshed(ps, Views(planets))[k] else ps[k]
    {
      var planet := planets[i];
      r := r[i := r[i].(position := planet.position, velocity := planet.velocity, mass := planet.mass)];
      i := i + 1;
    }
  }
}
