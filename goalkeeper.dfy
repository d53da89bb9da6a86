/**
 * The goalkeeper of src/entites/goalkeeper.ts: a patrol actor with three
 * waypoints. It rests on the base waypoint with its body there too (never
 * parked), and once popped up walks between the left and right waypoints:
 * the first leg lasts 1 s, later ones 2 s. Its direction starts at 0 and is
 * not reset when it stops.
 */
module Goalkeepers {
  import opened Wrappers
  import opened Patrol

  const FIRST_LEG_DURATION: real := 1.0
  const LEG_DURATION: real := 2.0

  datatype KeeperState = KeeperState(
    isReadyToPlay: bool,
    direction: int,
    entity: Spot,
    body: Spot,
    modelShown: bool,
    rotation: RotationCallback,
    leg: Option<Leg>)

  /** A newly built goalkeeper: on the base waypoint with its body, hidden, direction 0. */
  function Constructed(): KeeperState
  {
    KeeperState(false, 0, At(Base), At(Base), false, NoCallback, None)
  }

  /** `start()`: guarded only by "not ready"; the body is put onto the
      entity's spot, the model shown and the pop-up begins. */
  function Started(s: KeeperState): (r: KeeperState)
    ensures s.isReadyToPlay ==> r == s
    ensures !s.isReadyToPlay ==>
      !r.isReadyToPlay && r.body == s.entity && r.modelShown && r.rotation == PopUpPending
      && r.direction == s.direction && r.leg == s.leg
  {
    if !s.isReadyToPlay then s.(body := s.entity, modelShown := true, rotation := PopUpPending) else s
  }

  /** `move(duration)`: only while ready. The direction becomes 1 if it was
      negative and -1 otherwise; the leg goes left on -1, right on 1. */
  function Moved(s: KeeperState, duration: real): (r: KeeperState)
    ensures !s.isReadyToPlay ==> r == s
    ensures s.isReadyToPlay ==>
      && r.direction == (if s.direction < 0 then 1 else -1)
      && r.leg == Some(Leg(if r.direction == -1 then Left else Right, duration))
      && r.entity == Toward(r.leg.value.target)
      && r.(direction := s.direction, entity := s.entity, leg := s.leg) == s
  {
    if s.isReadyToPlay then
      var d := if s.direction < 0 then 1 else -1;
      var target := if d == -1 then Left else Right;
      s.(direction := d, entity := Toward(target), leg := Some(Leg(target, duration)))
    else s
  }

  /** The pop-up completes: ready, and the first leg (1 s) starts. */
  function PoppedUp(s: KeeperState): (r: KeeperState)
    requires s.rotation == PopUpPending
    ensures r.isReadyToPlay && r.rotation == NoCallback
    ensures r.leg.Some? && r.leg.value.duration == FIRST_LEG_DURATION
  {
    Moved(s.(isReadyToPlay := true, rotation := NoCallback), FIRST_LEG_DURATION)
  }

  /** A leg completes: the entity is on the target and, only if still ready,
      the next leg (2 s) starts. */
  function LegEnded(s: KeeperState): (r: KeeperState)
    requires s.leg.Some?
    ensures r.isReadyToPlay == s.isReadyToPlay
    ensures !s.isReadyToPlay ==> r == s.(entity := At(s.leg.value.target), leg := None)
    ensures s.isReadyToPlay ==> r.leg.Some? && r.leg.value.duration == LEG_DURATION
  {
    var arrived := s.(entity := At(s.leg.value.target), leg := None);
    if s.isReadyToPlay then Moved(arrived, LEG_DURATION) else arrived
  }

  /** `stop()`: not ready, the leg in flight is cancelled and the pop-down begins. */
  function Stopped(s: KeeperState): (r: KeeperState)
    ensures !r.isReadyToPlay && r.leg == None && r.rotation == PopDownPending
    ensures r.entity == s.entity && r.body == s.body && r.direction == s.direction
  {
    s.(isReadyToPlay := false, leg := None, rotation := PopDownPending)
  }

  /** `reset()`, run when the pop-down completes: entity and body on the base
      waypoint, hidden; the direction is left as it was. */
  function Reset(s: KeeperState): (r: KeeperState)
    ensures r.entity == At(Base) && r.body == At(Base) && !r.modelShown
    ensures r.direction == s.direction && r.rotation == NoCallback
    ensures r.isReadyToPlay == s.isReadyToPlay && r.leg == s.leg
  {
    s.(entity := At(Base), modelShown := false, body := At(Base), rotation := NoCallback)
  }

  /** `update()`: the body follows the entity only while ready. */
  function Mirrored(s: KeeperState): (r: KeeperState)
    ensures !s.isReadyToPlay ==> r == s
    ensures s.isReadyToPlay ==> r == s.(body := s.entity)
  {
    if s.isReadyToPlay then s.(body := s.entity) else s
  }

  /** The state after `n` consecutive leg completions. */
  function Patrolled(s: KeeperState, n: nat): (r: KeeperState)
    requires s.isReadyToPlay && s.leg.Some?
    ensures r.isReadyToPlay && r.leg.Some?
  {
    if n == 0 then s else LegEnded(Patrolled(s, n - 1))
  }

  /** From the constructed state the first leg goes left in 1 s; after that
      the legs alternate right, left, … and last 2 s each. */
  lemma {:induction false} PatrolAlternates(n: nat)
    ensures PoppedUp(Started(Constructed())).isReadyToPlay
    ensures var r := Patrolled(PoppedUp(Started(Constructed())), n);
      && r.direction == (if n % 2 == 0 then -1 else 1)
      && r.leg == Some(Leg(if n % 2 == 0 then Left else Right, if n == 0 then FIRST_LEG_DURATION else LEG_DURATION))
  {
    if n > 0 {
      PatrolAlternates(n - 1);
    }
  }

  /** Because `reset` keeps the direction, a goalkeeper stopped while heading
      one way starts its next patrol heading the other way. */
  lemma {:induction false} RestartTurnsAround(s: KeeperState)
    requires s.direction == 1 || s.direction == -1
    ensures var r := PoppedUp(Started(Reset(Stopped(s))));
      r.direction == -s.direction && r.leg.Some?
      && r.leg.value.target == (if s.direction == 1 then Left else Right)
  {
  }

  class Goalkeeper {
    var isReadyToPlay: bool
    var direction: int
    var entity: Spot
    var body: Spot
    var modelShown: bool
    var rotation: RotationCallback
    var leg: Option<Leg>

    function State(): KeeperState
      reads this
    {
      KeeperState(isReadyToPlay, direction, entity, body, modelShown, rotation, leg)
    }

    constructor ()
      ensures State() == Constructed()
    {
      isReadyToPlay, direction := false, 0;
      entity, body := At(Base), At(Base);
      modelShown, rotation, leg := false, NoCallback, None;
    }

    method Update()
      modifies this
      ensures State() == Mirrored(old(State()))
    {
      if isReadyToPlay {
        body := entity;
      }
    }

    method Start()
      modifies this
      ensures State() == Started(old(State()))
    {
      if !isReadyToPlay {
        body := entity;
        modelShown := true;
        rotation := PopUpPending;
      }
    }

    /** The pop-up rotation's completion callback. */
    method PopUpDone()
      requires rotation == PopUpPending
      modifies this
      ensures State() == PoppedUp(old(State()))
    {
      rotation := NoCallback;
      isReadyToPlay := true;
      Move(FIRST_LEG_DURATION);
    }

    method Stop()
      modifies this
      ensures State() == Stopped(old(State()))
    {
      isReadyToPlay := false;
      leg := None;
      rotation := PopDownPending;
    }

    /** The pop-down rotation's completion callback: `reset()`. */
    method PopDownDone()
      requires rotation == PopDownPending
      modifies this
      ensures State() == Reset(old(State()))
    {
      rotation := NoCallback;
      entity := At(Base);
      modelShown := false;
      body := At(Base);
    }

    method Move(duration: real)
      modifies this
      ensures State() == Moved(old(State()), duration)
    {
      if isReadyToPlay {
        direction := if direction < 0 then 1 else -1;
        var target := if direction == -1 then Left else Right;
        entity := Toward(target);
        leg := Some(Leg(target, duration));
      }
    }

    /** The translation leg's completion callback. */
    method LegDone()
      requires leg.Some?
      modifies this
      ensures State() == LegEnded(old(State()))
    {
      entity := At(leg.value.target);
      leg := None;
      if isReadyToPlay {
        Move(LEG_DURATION);
      }
    }
  }
}
