/**
 * Positions and tween bookkeeping shared by the three patrol actors. Their
 * float coordinates are abstracted to named waypoints; tween completions
 * are events the actors receive. The tween service is not modelled: starting
 * a rotation tween on the actor's model is taken to replace the completion
 * callback of the rotation tween still pending on it.
 */
module Patrol {
  datatype Waypoint = Left | Right | Base

  /** Where an entity or a body stands: on a waypoint, or somewhere on the
      leg toward one (including where a cancelled leg left it). */
  datatype Spot = At(w: Waypoint) | Toward(w: Waypoint)

  /** The rotation tween on the actor's model whose completion callback is pending. */
  datatype RotationCallback = NoCallback | PopUpPending | PopDownPending

  /** A translation leg in flight: its target and its duration in seconds. */
  datatype Leg = Leg(target: Waypoint, duration: real)
}
