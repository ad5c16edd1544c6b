/**
 * What one player input does to a vehicle manager. The server applies a
 * client's input this way, and the client applies its own input the same way
 * for an immediate response.
 */
module Controls {
  import opened Numerics
  import opened Rockets
  import opened PlayerInputs
  import opened VehicleManagers

  /** What one input's controls do to a manager: its planets, car and owner
      stay; its mode changes only through the switch request, and car mode is
      never left; in rocket mode the thrust level ends up as the requested
      one, clamped. A rocket asked to switch becomes a car exactly when it is
      within reach of one of the manager's planets (the pushes and turns do
      not move it). A rocket gets the forward push (1.0) and the backward push
      (-0.5) if requested and both turn requests, whether or not it then
      switches, and the new thrust level only if it is still flown; nothing
      else of it changes. */
  twostate predicate ControlsApplied(lib: MathLib, player: VehicleManager, input: PlayerInput)
    reads player, player.rocket, player.planets
  {
    && player.planets == old(player.planets) && player.ownerId == old(player.ownerId) && player.car == old(player.car)
    && (!input.switchVehicle ==> player.active == old(player.active))
    && (old(player.active) == CAR ==> player.active == CAR && player.rocket.View() == old(player.rocket.View()))
    && (player.active == ROCKET ==> player.rocket.thrustLevel == Clamp01(input.thrustLevel))
    && (old(player.active) == ROCKET && input.switchVehicle ==>
          (player.active == CAR <==>
             exists k :: 0 <= k < |player.planets| &&
               CloseEnough(lib, old(player.rocket.position), player.planets[k].position, player.planets[k].radius)))
    && (old(player.active) == ROCKET ==>
          var r := old(player.rocket.View());
          var push := if input.thrustForward then ThrustImpulse(lib, r.rotation, 1.0, r.thrustLevel, r.mass) else Zero;
          var pull := if input.thrustBackward then ThrustImpulse(lib, r.rotation, -0.5, r.thrustLevel, r.mass) else Zero;
          var turn := (if input.rotateLeft then -6.0 * input.deltaTime * 60.0 else 0.0)
                      + (if input.rotateRight then 6.0 * input.deltaTime * 60.0 else 0.0);
          player.rocket.View() == r.(velocity := r.velocity.Plus(push).Plus(pull),
                                     angularVelocity := r.angularVelocity + turn,
                                     thrustLevel := if player.active == ROCKET then Clamp01(input.thrustLevel)
                                                    else r.thrustLevel))
  }

  /** The controls of one input applied to one manager, in the source's order. */
  method ApplyControls(lib: MathLib, player: VehicleManager, input: PlayerInput)
    modifies player, player.rocket
    ensures ControlsApplied(lib, player, input)
  {
    if input.thrustForward {
      player.ApplyThrust(lib, 1.0);
    }
    if input.thrustBackward {
      player.ApplyThrust(lib, -0.5);
    }
    if input.rotateLeft {
      player.Rotate(-6.0 * input.deltaTime * 60.0);
    }
    if input.rotateRight {
      player.Rotate(6.0 * input.deltaTime * 60.0);
    }
    if input.switchVehicle {
      player.SwitchVehicle(lib);
    }
    if player.active == ROCKET {
      player.rocket.SetThrustLevel(input.thrustLevel);
    }
  }
}
