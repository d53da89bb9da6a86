/**
 * The goaltender of src/entites/goaltender.ts: a patrol actor that, once
 * started, pops up, then walks left and right between two waypoints until
 * stopped. Its static collision body is parked 100 units above its spot
 * while it is out of play.
 */
module Goaltenders {
  import opened Wrappers
  import opened Patrol
  import Timers

  /** The name of the timer `stop` removes. */
  const KEEPER_TIMER: string := "goalkeeper"

  datatype TenderState = TenderState(
    isStarted: bool,
    isReadyToPlay: bool,
    direction: int,
    entity: Spot,
    body: Spot,
    /** the body sits 100 units above `body`, out of the puck's reach */
    bodyParked: bool,
    /** the model's scale is one rather than zero */
    modelShown: bool,
    rotation: RotationCallback,
    leg: Option<Leg>)

  /** A newly built goaltender: at its left waypoint, body parked, hidden, heading right. */
  function Constructed(): TenderState
  {
    TenderState(false, false, 1, At(Left), At(Left), true, false, NoCallback, None)
  }

  /** `start()`: only when neither started nor ready. The body is put onto the
      entity's spot, the model shown and the pop-up begins. */
  function Started(s: TenderState): (r: TenderState)
    ensures (s.isStarted || s.isReadyToPlay) ==> r == s
    ensures !s.isStarted && !s.isReadyToPlay ==>
      r.isStarted && !r.isReadyToPlay && r.body == s.entity && !r.bodyParked
      && r.modelShown && r.rotation == PopUpPending
  {
    if !s.isStarted && !s.isReadyToPlay then
      s.(isStarted := true, body := s.entity, bodyParked := false, modelShown := true, rotation := PopUpPending)
    else s
  }

  /** `move()`: only while ready, a leg toward the right waypoint when the
      direction is 1, toward the left one otherwise. */
  function Moved(s: TenderState, speed: real): (r: TenderState)
    ensures !s.isReadyToPlay ==> r == s
    ensures s.isReadyToPlay ==>
      r.leg == Some(Leg(if s.direction == 1 then Right else Left, speed))
      && r.entity == Toward(r.leg.value.target)
      && r.(entity := s.entity, leg := s.leg) == s
  {
    if s.isReadyToPlay then
      var target := if s.direction == 1 then Right else Left;
      s.(entity := Toward(target), leg := Some(Leg(target, speed)))
    else s
  }

  /** The pop-up rotation completes: ready, and the first leg starts. */
  function PoppedUp(s: TenderState, speed: real): (r: TenderState)
    requires s.rotation == PopUpPending
    ensures r.isReadyToPlay && r.rotation == NoCallback && r.leg.Some?
  {
    Moved(s.(isReadyToPlay := true, rotation := NoCallback), speed)
  }

  /** A leg completes: the entity is on the target; while still ready the
      turn-around rotation starts, the direction flips and the next leg
      starts. */
  function LegEnded(s: TenderState, speed: real): (r: TenderState)
    requires s.leg.Some?
    ensures r.isReadyToPlay == s.isReadyToPlay && r.isStarted == s.isStarted
    ensures !s.isReadyToPlay ==> r == s.(entity := At(s.leg.value.target), leg := None)
    ensures s.isReadyToPlay ==> r.direction == -s.direction && r.leg.Some?
  {
    var arrived := s.(entity := At(s.leg.value.target), leg := None);
    if s.isReadyToPlay then
      Moved(arrived.(rotation := NoCallback, direction := -s.direction), speed)
    else arrived
  }

  /** `stop()`: neither started nor ready, the leg in flight is cancelled
      (the entity stays where it is) and the pop-down begins. */
  function Stopped(s: TenderState): (r: TenderState)
    ensures !r.isStarted && !r.isReadyToPlay && r.leg == None && r.rotation == PopDownPending
    ensures r.entity == s.entity && r.body == s.body && r.direction == s.direction
  {
    s.(isStarted := false, isReadyToPlay := false, leg := None, rotation := PopDownPending)
  }

  /** `reset()`, run when the pop-down completes: back on the left waypoint,
      hidden, body parked, heading right again. */
  function Reset(s: TenderState): (r: TenderState)
    ensures r.entity == At(Left) && r.body == At(Left) && r.bodyParked
    ensures r.direction == 1 && !r.modelShown && r.rotation == NoCallback
    ensures r.isStarted == s.isStarted && r.isReadyToPlay == s.isReadyToPlay && r.leg == s.leg
  {
    s.(entity := At(Left), modelShown := false, body := At(Left), bodyParked := true, direction := 1, rotation := NoCallback)
  }

  /** `update()`: the body follows the entity only while ready. */
  function Mirrored(s: TenderState): (r: TenderState)
    ensures !s.isReadyToPlay ==> r == s
    ensures s.isReadyToPlay ==> r == s.(body := s.entity, bodyParked := false)
  {
    if s.isReadyToPlay then s.(body := s.entity, bodyParked := false) else s
  }

  /** A second `start` is a no-op, so a goaltender started on several clock
      ticks pops up once. */
  lemma {:induction false} StartIdempotent(s: TenderState)
    ensures Started(Started(s)) == Started(s)
  {
  }

  /** However it was moving, `stop` followed by the pop-down completion puts
      the goaltender back in its constructed state. */
  lemma {:induction false} StopThenResetIsConstructed(s: TenderState)
    ensures Reset(Stopped(s)) == Constructed()
  {
  }

  /** The state after `n` consecutive leg completions. */
  function Patrolled(s: TenderState, speed: real, n: nat): (r: TenderState)
    requires s.isReadyToPlay && s.leg.Some?
    ensures r.isReadyToPlay && r.leg.Some? && r.isStarted == s.isStarted
  {
    if n == 0 then s else LegEnded(Patrolled(s, speed, n - 1), speed)
  }

  /** After the pop-up, the goaltender walks right first and then alternates:
      after n completed legs it heads right when n is even, left when n is
      odd, and it is still ready. */
  lemma {:induction false} PatrolAlternates(speed: real, n: nat)
    ensures PoppedUp(Started(Constructed()), speed).isReadyToPlay
    ensures var r := Patrolled(PoppedUp(Started(Constructed()), speed), speed, n);
      && r.direction == (if n % 2 == 0 then 1 else -1)
      && r.leg == Some(Leg(if n % 2 == 0 then Right else Left, speed))
      && r.entity == Toward(r.leg.value.target)
  {
    if n > 0 {
      PatrolAlternates(speed, n - 1);
    }
  }

  class Goaltender {
    const speed: real
    var isStarted: bool
    var isReadyToPlay: bool
    var direction: int
    var entity: Spot
    var body: Spot
    var bodyParked: bool
    var modelShown: bool
    var rotation: RotationCallback
    var leg: Option<Leg>

    function State(): TenderState
      reads this
    {
      TenderState(isStarted, isReadyToPlay, direction, entity, body, bodyParked, modelShown, rotation, leg)
    }

    constructor (speed: real)
      ensures State() == Constructed() && this.speed == speed
    {
      this.speed := speed;
      isStarted, isReadyToPlay, direction := false, false, 1;
      entity, body, bodyParked := At(Left), At(Left), true;
      modelShown, rotation, leg := false, NoCallback, None;
    }

    method Update()
      modifies this
      ensures State() == Mirrored(old(State()))
    {
      if isReadyToPlay {
        body, bodyParked := entity, false;
      }
    }

    method Start()
      modifies this
      ensures State() == Started(old(State()))
    {
      if !isStarted && !isReadyToPlay {
        isStarted := true;
        body, bodyParked := entity, false;
        modelShown := true;
        rotation := PopUpPending;
      }
    }

    /** The pop-up rotation's completion callback. */
    method PopUpDone()
      requires rotation == PopUpPending
      modifies this
      ensures State() == PoppedUp(old(State()), speed)
    {
      rotation := NoCallback;
      isReadyToPlay := true;
      Move();
    }

    method Stop(timers: Timers.TimerRegistry)
      modifies this, timers
      ensures State() == Stopped(old(State()))
      ensures old(timers.Valid()) ==> timers.Valid()
      ensures timers.list == Timers.Removed(old(timers.list), KEEPER_TIMER)
    {
      isStarted := false;
      isReadyToPlay := false;
      timers.Remove(KEEPER_TIMER);
      leg := None;
      rotation := PopDownPending;
    }

    /** The pop-down rotation's completion callback: `reset()`. */
    method PopDownDone()
      requires rotation == PopDownPending
      modifies this
      ensures State() == Reset(old(State()))
    {
      rotation := NoCallback;
      entity := At(Left);
      modelShown := false;
      body, bodyParked := At(Left), true;
      direction := 1;
    }

    method Move()
      modifies this
      ensures State() == Moved(old(State()), speed)
    {
      if isReadyToPlay {
        var target := if direction == 1 then Right else Left;
        entity := Toward(target);
        leg := Some(Leg(target, speed));
      }
    }

    /** The translation leg's completion callback. */
    method LegDone()
      requires leg.Some?
      modifies this
      ensures State() == LegEnded(old(State()), speed)
    {
      entity := At(leg.value.target);
      leg := None;
      if isReadyToPlay {
        rotation := NoCallback;
        direction := -direction;
        Move();
      }
    }
  }
}
