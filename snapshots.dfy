/**
 * Pieces shared by the server and the client when they build or consume
 * snapshots: where a new rocket is put, and the entry a planet contributes.
 */
module Snapshots {
  import opened Numerics
  import opened GameConstants
  import opened Planets
  import opened GameStates

  /** Where a new rocket starts: on the vertical through the planet's centre,
      one rocket size above its surface. */
  function SpawnPoint(mainPosition: Vec, mainRadius: real): Vec {
    mainPosition.Plus(Vec(0.0, -(mainRadius + ROCKET_SIZE)))
  }

  /** The entry a snapshot holds for the planet at list index `k`: its state,
      that index as its id, and the snapshot's time. */
  function PlanetEntry(k: int, p: PlanetView, time: real): (s: PlanetState)
    ensures s.id == k && s.timestamp == time
  {
    PlanetState(k, p.position, p.velocity, p.mass, p.radius, p.color, p.ownerId, time)
  }
}
