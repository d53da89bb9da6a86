/**
 * The defender of src/defender.ts, the earlier revision of the goaltender:
 * the same two-waypoint patrol, with `start` guarded only by "not ready"
 * (there is no started flag) and no timer removed on `stop`.
 */
module Defenders {
  import opened Wrappers
  import opened Patrol

  datatype DefenderState = DefenderState(
    isReadyToPlay: bool,
    direction: int,
    entity: Spot,
    body: Spot,
    /** the body sits 100 units above `body`, out of the puck's reach */
    bodyParked: bool,
    modelShown: bool,
    rotation: RotationCallback,
    leg: Option<Leg>)

  /** A newly built defender: at its left waypoint, body parked, hidden, heading right. */
  function Constructed(): DefenderState
  {
    DefenderState(false, 1, At(Left), At(Left), true, false, NoCallback, None)
  }

  /** `start()`: only when not ready. The body is put onto the entity's spot,
      the model shown and the pop-up (re)started; a pop-up still in flight is
      replaced. */
  function Started(s: DefenderState): (r: DefenderState)
    ensures s.isReadyToPlay ==> r == s
    ensures !s.isReadyToPlay ==>
      !r.isReadyToPlay && r.body == s.entity && !r.bodyParked && r.modelShown
      && r.rotation == PopUpPending && r.direction == s.direction && r.leg == s.leg
  {
    if !s.isReadyToPlay then
      s.(body := s.entity, bodyParked := false, modelShown := true, rotation := PopUpPending)
    else s
  }

  /** `move()`: only while ready; toward the right waypoint when the direction
      is 1, toward the left one otherwise. */
  function Moved(s: DefenderState, speed: real): (r: DefenderState)
    ensures !s.isReadyToPlay ==> r == s
    ensures s.isReadyToPlay ==>
      r.leg == Some(Leg(if s.direction == 1 then Right else Left, speed))
      && r.entity == Toward(r.leg.value.target)
      && r.(entity := s.entity, leg := s.leg) == s
  {
    if s.isReadyToPlay then
      var target := if s.direction == 1 then Right else Left;
      s.(entity := Toward(target), leg := Some(Leg(target, speed)))
    else s
  }

  /** The pop-up completes: ready, and the first leg starts. */
  function PoppedUp(s: DefenderState, speed: real): (r: DefenderState)
    requires s.rotation == PopUpPending
    ensures r.isReadyToPlay && r.rotation == NoCallback && r.leg.Some?
  {
    Moved(s.(isReadyToPlay := true, rotation := NoCallback), speed)
  }

  /** A leg completes: the entity is on the target; while still ready the
      direction flips and the next leg starts. */
  function LegEnded(s: DefenderState, speed: real): (r: DefenderState)
    requires s.leg.Some?
    ensures r.isReadyToPlay == s.isReadyToPlay
    ensures !s.isReadyToPlay ==> r == s.(entity := At(s.leg.value.target), leg := None)
    ensures s.isReadyToPlay ==> r.direction == -s.direction && r.leg.Some?
  {
    var arrived := s.(entity := At(s.leg.value.target), leg := None);
    if s.isReadyToPlay then
      Moved(arrived.(rotation := NoCallback, direction := -s.direction), speed)
    else arrived
  }

  /** `stop()`: not ready, the leg in flight cancelled, the pop-down begins. */
  function Stopped(s: DefenderState): (r: DefenderState)
    ensures !r.isReadyToPlay && r.leg == None && r.rotation == PopDownPending
    ensures r.entity == s.entity && r.body == s.body && r.direction == s.direction
  {
    s.(isReadyToPlay := false, leg := None, rotation := PopDownPending)
  }

  /** `reset()`, run when the pop-down completes: on the left waypoint,
      hidden, body parked, heading right. */
  function Reset(s: DefenderState): (r: DefenderState)
    ensures r.entity == At(Left) && r.body == At(Left) && r.bodyParked
    ensures r.direction == 1 && !r.modelShown && r.rotation == NoCallback
    ensures r.isReadyToPlay == s.isReadyToPlay && r.leg == s.leg
  {
    s.(entity := At(Left), modelShown := false, body := At(Left), bodyParked := true, direction := 1, rotation := NoCallback)
  }

  /** `update()`: the body follows the entity only while ready. */
  function Mirrored(s: DefenderState): (r: DefenderState)
    ensures !s.isReadyToPlay ==> r == s
    ensures s.isReadyToPlay ==> r == s.(body := s.entity, bodyParked := false)
  {
    if s.isReadyToPlay then s.(body := s.entity, bodyParked := false) else s
  }

  /** `stop` followed by the pop-down completion restores the constructed state. */
  lemma {:induction false} StopThenResetIsConstructed(s: DefenderState)
    ensures Reset(Stopped(s)) == Constructed()
  {
  }

  /** Without a started flag, a `start` during the pop-up restarts it: the
      pop-up is pending again and the defender is not yet ready, so repeated
      starts on every clock tick are harmless but do not make it ready. */
  lemma {:induction false} StartDuringPopUpRestartsIt(s: DefenderState)
    requires s.rotation == PopUpPending && !s.isReadyToPlay
    ensures Started(s).rotation == PopUpPending && !Started(s).isReadyToPlay
    ensures Started(Started(s)) == Started(s)
  {
  }

  /** The state after `n` consecutive leg completions. */
  function Patrolled(s: DefenderState, speed: real, n: nat): (r: DefenderState)
    requires s.isReadyToPlay && s.leg.Some?
    ensures r.isReadyToPlay && r.leg.Some?
  {
    if n == 0 then s else LegEnded(Patrolled(s, speed, n - 1), speed)
  }

  /** After the pop-up, the defender walks right first and then alternates. */
  lemma {:induction false} PatrolAlternates(speed: real, n: nat)
    ensures PoppedUp(Started(Constructed()), speed).isReadyToPlay
    ensures var r := Patrolled(PoppedUp(Started(Constructed()), speed), speed, n);
      && r.direction == (if n % 2 == 0 then 1 else -1)
      && r.leg == Some(Leg(if n % 2 == 0 then Right else Left, speed))
  {
    if n > 0 {
      PatrolAlternates(speed, n - 1);
    }
  }

  class Defender {
    const speed: real
    var isReadyToPlay: bool
    var direction: int
    var entity: Spot
    var body: Spot
    var bodyParked: bool
    var modelShown: bool
    var rotation: RotationCallback
    var leg: Option<Leg>

    function State(): DefenderState
      reads this
    {
      DefenderState(isReadyToPlay, direction, entity, body, bodyParked, modelShown, rotation, leg)
    }

    constructor (speed: real)
      ensures State() == Constructed() && this.speed == speed
    {
      this.speed := speed;
      isReadyToPlay, direction := false, 1;
      entity, body, bodyParked := At(Left), At(Left), true;
      modelShown, rotation, leg := false, NoCallback, None;
    }

    method Update()
      modifies this
      ensures State() == Mirrored(old(State()))
    {
      if isReadyToPlay {
        body, bodyParked := entity, false;
      }
    }

    method Start()
      modifies this
      ensures State() == Started(old(State()))
    {
      if !isReadyToPlay {
        body, bodyParked := entity, false;
        modelShown := true;
        rotation := PopUpPending;
      }
    }

    /** The pop-up rotation's completion callback. */
    method PopUpDone()
      requires rotation == PopUpPending
      modifies this
      ensures State() == PoppedUp(old(State()), speed)
    {
      rotation := NoCallback;
      isReadyToPlay := true;
      Move();
    }

    method Stop()
      modifies this
      ensures State() == Stopped(old(State()))
    {
      isReadyToPlay := false;
      leg := None;
      rotation := PopDownPending;
    }

    /** The pop-down rotation's completion callback: `reset()`. */
    method PopDownDone()
      requires rotation == PopDownPending
      modifies this
      ensures State() == Reset(old(State()))
    {
      rotation := NoCallback;
      entity := At(Left);
      modelShown := false;
      body, bodyParked := At(Left), true;
      direction := 1;
    }

    method Move()
      modifies this
      ensures State() == Moved(old(State()), speed)
    {
      if isReadyToPlay {
        var target := if direction == 1 then Right else Left;
        entity := Toward(target);
        leg := Some(Leg(target, speed));
      }
    }

    /** The translation leg's completion callback. */
    method LegDone()
      requires leg.Some?
      modifies this
      ensures State() == LegEnded(old(State()), speed)
    {
      entity := At(leg.value.target);
      leg := None;
      if isReadyToPlay {
        rotation := NoCallback;
        direction := -direction;
        Move();
      }
    }
  }
}
