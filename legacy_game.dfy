/**
 * The earlier match controller of src/game.ts: one puck held in front of
 * the player, a goaltender and two defenders, five sounds and a sign whose
 * own one-second clock drives the match.
 *
 * Entering the play zone plays the start and game sounds and schedules
 * `start` 9500 ms later; `start` puts 60 seconds on the sign's clock. Each
 * clock tick takes one second off and runs `update`, which ends the match
 * with "YOU LOSE" once the time is up and with "YOU WON" as soon as the
 * score reaches 30. A pointer press while the puck is started shoots it, or
 * recalls it when it is already fired. The recall and `end` use the
 * intended disc reset, `DiscReset`, which puts the puck back on the
 * player's holder; the code as written leaves it off the holder
 * (`DiscResetAsWritten`). Any entity entering the goal zone scores
 * while the puck is fired and time is left. Leaving the zone ends the
 * match with an empty caption.
 *
 * src/sign.ts and src/goaltender.ts are not part of this model: the sign is
 * its caption plus a running flag for its clock, the goaltender is the
 * goalkeeper actor of src/entites/goalkeeper.ts (same start/stop/update
 * shape), and the held puck is the puck of src/entites/puck.ts built by its
 * `Held` constructor. The physics step is recorded by its arguments; the
 * simulation and the shot direction are not modelled.
 */
module LegacyGame {
  import opened Pucks
  import Audio
  import Goalkeepers
  import Defenders
  import PhysWorld
  import LegacyPhysWorld
  import opened Wrappers
  import opened Materials

  const GOAL_TARGET: int := 30
  /** The controller's fixed physics step, in seconds. */
  const FIXED_TIME_STEPS: real := 1.0 / 60.0
  /** The controller's cap on physics sub-steps per frame. */
  const MAX_TIME_STEPS: int := 3
  /** The match length `start` puts on the clock, in seconds. */
  const GAME_DURATION: int := 60
  /** The delay between entering the zone and `start`, in ms. */
  const START_TIMEOUT_MS: int := 9500
  const WON_TEXT: string := "YOU WON"
  const LOST_TEXT: string := "YOU LOSE"
  const LEFT_SPEED: real := 2.0
  const RIGHT_SPEED: real := 1.6
  /** Below this many seconds the left defender is started on every update. */
  const LEFT_MARK: int := 45
  /** Below this many seconds the right defender is started on every update. */
  const RIGHT_MARK: int := 30

  /** What the sign shows: a caption, or the "time | score / 30" line. */
  datatype Board = Text(text: string) | ScoreLine(time: int, score: int)

  /** What `update(score, time)` decides: end the match with a caption, or
      go on, starting the left and/or right defender. */
  datatype Plan = Finish(text: string) | Continue(startLeft: bool, startRight: bool)

  /** The decision of `update(score, time)`: the caption is empty unless time
      is up ("YOU LOSE") or the target is reached ("YOU WON", which wins over
      a lost clock); a non-empty caption ends the match. */
  function UpdatePlan(score: int, time: int): (p: Plan)
    ensures p.Finish? <==> time <= 0 || score >= GOAL_TARGET
    ensures p.Finish? ==> (p.text == WON_TEXT <==> score >= GOAL_TARGET)
    ensures p.Finish? ==> (p.text == WON_TEXT || p.text == LOST_TEXT)
    ensures p.Continue? ==> (p.startLeft <==> time < LEFT_MARK) && (p.startRight <==> time < RIGHT_MARK)
  {
    var lost := if time <= 0 then LOST_TEXT else "";
    var finishedText := if score >= GOAL_TARGET then WON_TEXT else lost;
    if finishedText != "" then Finish(finishedText)
    else Continue(time < LEFT_MARK, time < RIGHT_MARK)
  }

  /** Reaching the target ends the match at once with "YOU WON", whatever
      is left on the clock (the other controller waits for the clock). */
  lemma WinEndsAtOnce(score: int, time: int)
    requires score >= GOAL_TARGET
    ensures UpdatePlan(score, time) == Finish(WON_TEXT)
  {
  }

  /** With `time` seconds on the clock and no goal in between, the number of
      clock ticks until `update` ends the match, and the caption it ends
      with. */
  function TicksUntilEnd(score: int, time: int): (r: (nat, string))
    decreases if time > 0 then time else 0
  {
    var p := UpdatePlan(score, time - 1);
    if p.Finish? then (1, p.text)
    else
      var rest := TicksUntilEnd(score, time - 1);
      (rest.0 + 1, rest.1)
  }

  /** Short of the target, a match without goals ends on its last tick with
      "YOU LOSE": 60 ticks after `start`. */
  lemma {:induction false} ClockRunsOut(score: int, time: int)
    requires time >= 1 && score < GOAL_TARGET
    ensures TicksUntilEnd(score, time) == (time, LOST_TEXT)
  {
    if time > 1 {
      ClockRunsOut(score, time - 1);
    }
  }

  /** `resetDisc()`: the body comes to rest and the puck goes back to the
      player's holder at the spawn offset; its body stays where it was. */
  function DiscReset(s: PuckState): (r: PuckState)
    ensures r.bodyAtRest && r.onPlayer && r.position == Spawn
    ensures r.(bodyAtRest := s.bodyAtRest, onPlayer := s.onPlayer, position := s.position) == s
  {
    s.(bodyAtRest := true, onPlayer := true, position := Spawn)
  }

  /** The shot: fired, taken off the player's holder, its body put at the
      shot origin and pushed. */
  function Shot(s: PuckState): (r: PuckState)
    ensures r.isFired && !r.onPlayer && r.bodyPosition == ShotOrigin && !r.bodyAtRest
    ensures r.(isFired := s.isFired, onPlayer := s.onPlayer, bodyPosition := s.bodyPosition, bodyAtRest := s.bodyAtRest) == s
  {
    s.(isFired := true, onPlayer := false, bodyPosition := ShotOrigin, bodyAtRest := false)
  }

  /** A pointer press on a started puck: a fired puck is recalled
      (`resetDisc` then unfired), any other is shot. */
  function Pressed(s: PuckState): (r: PuckState)
    ensures s.isFired ==> r == WithFired(DiscReset(s), false)
    ensures !s.isFired ==> r == Shot(s)
  {
    if s.isFired then WithFired(DiscReset(s), false) else Shot(s)
  }

  /** Presses alternate between shooting and recalling: two presses bring an
      unfired puck back to the holder, at rest and unfired, with only its
      body left at the shot origin. */
  lemma {:induction false} TwoPressesReturnThePuck(s: PuckState)
    requires !s.isFired
    ensures Pressed(Pressed(s)) == s.(onPlayer := true, position := Spawn, bodyPosition := ShotOrigin, bodyAtRest := true)
  {
    assert Pressed(s) == Shot(s);
  }

  /** `resetDisc()` as src/game.ts writes it: the transform's parent becomes
      the `puckParent` field, which no code assigns (the holder built in
      `setupGameObjects` is a local of the same name), so the puck is
      detached from the player and left at the spawn offset from the scene
      origin. */
  function DiscResetAsWritten(s: PuckState): (r: PuckState)
    ensures r.bodyAtRest && !r.onPlayer && r.position == Spawn
    ensures r.(bodyAtRest := s.bodyAtRest, onPlayer := s.onPlayer, position := s.position) == s
  {
    s.(bodyAtRest := true, onPlayer := false, position := Spawn)
  }

  /** A press on a fired puck as src/game.ts writes it. */
  function PressedAsWritten(s: PuckState): (r: PuckState)
    ensures s.isFired ==> r == WithFired(DiscResetAsWritten(s), false)
    ensures !s.isFired ==> r == Shot(s)
  {
    if s.isFired then WithFired(DiscResetAsWritten(s), false) else Shot(s)
  }

  /** As written, a shot and a recall never bring the puck back to the
      player: it stays off the holder, unlike the corrected `Pressed`. */
  lemma {:induction false} RecallAsWrittenStrandsThePuck(s: PuckState)
    requires !s.isFired
    ensures !PressedAsWritten(PressedAsWritten(s)).onPlayer
    ensures PressedAsWritten(PressedAsWritten(s)) != Pressed(Pressed(s))
  {
    assert PressedAsWritten(s) == Shot(s);
    TwoPressesReturnThePuck(s);
  }

  /** A snapshot of what `update` and `end` read: the controller's fields and
      the states of the sounds, actors and puck `end` touches. */
  datatype Stage = Stage(score: int, time: int, clockRunning: bool, pendingStarts: set<int>, startTimeout: int,
                         slapShots: nat, start: Audio.SoundState, game: Audio.SoundState, whistle: Audio.SoundState,
                         keeper: Goalkeepers.KeeperState, left: Defenders.DefenderState,
                         right: Defenders.DefenderState, puck: PuckState)

  class Game {
    var score: int
    var time: int
    /** The id of the last scheduled start timeout; -1 before the first. */
    var startTimeout: int
    /** The ids of the start timeouts still to fire. */
    var pendingStarts: set<int>
    var board: Board
    /** The sign's own clock is ticking. */
    var clockRunning: bool
    /** Slap sounds played through the engine's one-shot sound helper. */
    var slapShots: nat

    /** The physics world whose `world` the frame system steps. */
    const world: LegacyPhysWorld.World
    const goalkeeper: Goalkeepers.Goalkeeper
    const left: Defenders.Defender
    const right: Defenders.Defender
    const puck: Puck

    const startSound: Audio.Sound
    const hornSound: Audio.Sound
    const goalSound: Audio.Sound
    const whistleSound: Audio.Sound
    const gameSound: Audio.Sound

    /** The actors and sounds are distinct objects. */
    predicate Core()
    {
      && left != right
      && startSound != hornSound && startSound != goalSound && startSound != whistleSound && startSound != gameSound
      && hornSound != goalSound && hornSound != whistleSound && hornSound != gameSound
      && goalSound != whistleSound && goalSound != gameSound
      && whistleSound != gameSound
    }

    /** The controller's invariant between events: the clock ticks exactly
        while time is left and the puck is started exactly then; the clock
        stays within 0..60 and the score below the target. */
    ghost predicate Valid()
      reads this, puck
    {
      && Core()
      && 0 <= score < GOAL_TARGET && 0 <= time <= GAME_DURATION
      && (clockRunning <==> time > 0)
      && (puck.isStarted <==> clockRunning)
    }

    ghost function CurrentStage(): Stage
      reads this, startSound, gameSound, whistleSound, goalkeeper, left, right, puck
    {
      Stage(score, time, clockRunning, pendingStarts, startTimeout, slapShots,
            startSound.State(), gameSound.State(), whistleSound.State(),
            goalkeeper.State(), left.State(), right.State(), puck.State())
    }

    /** The objects `end` may change. */
    ghost function EndObjects(): set<object>
      reads this
    {
      {this, startSound, gameSound, whistleSound, puck, goalkeeper, left, right}
    }

    /** `new Game(debug)`: the sign is blank, the actors are built, the held
        puck sits hidden on the player's holder, the five sounds are set up
        and `new Base` registers the WALL material on the world; nothing is
        scheduled yet. */
    constructor (puckEntity: nat, world: LegacyPhysWorld.World)
      ensures Valid()
      ensures score == 0 && time == 0 && startTimeout == -1 && pendingStarts == {}
      ensures board == Text("") && !clockRunning && slapShots == 0
      ensures goalkeeper.State() == Goalkeepers.Constructed()
      ensures left.State() == Defenders.Constructed() && left.speed == LEFT_SPEED
      ensures right.State() == Defenders.Constructed() && right.speed == RIGHT_SPEED
      ensures puck.entity == puckEntity && puck.State() == PuckState(false, false, false, Spawn, Spawn, true, true)
      ensures startSound.State() == Audio.SoundState(false, 0) && gameSound.State() == Audio.SoundState(false, 0)
      ensures whistleSound.State() == Audio.SoundState(false, 0) && gameSound.loop
      ensures hornSound.State() == Audio.SoundState(false, 0) && goalSound.State() == Audio.SoundState(false, 0)
      ensures !startSound.loop && !hornSound.loop && !goalSound.loop && !whistleSound.loop
      ensures this.world == world
      ensures WallMaterial in world.materials && fresh(world.materials[WallMaterial])
      ensures world.materials == old(world.materials)[WallMaterial := world.materials[WallMaterial]]
      modifies world`materials
    {
      var keeper := new Goalkeepers.Goalkeeper();
      var l := new Defenders.Defender(LEFT_SPEED);
      var r := new Defenders.Defender(RIGHT_SPEED);
      var p := new Puck.Held(puckEntity);
      var start, horn, goal, whistle, game := SetupSounds();
      this.world := world;
      goalkeeper, left, right, puck := keeper, l, r, p;
      startSound, hornSound, goalSound, whistleSound, gameSound := start, horn, goal, whistle, game;
      score, time, startTimeout, pendingStarts := 0, 0, -1, {};
      board, clockRunning, slapShots := Text(""), false, 0;
      // `new Base(debug)` registers WALL on this world; its colliders and
      // the wall/puck contact are not modelled.
      var wall := world.CreateMaterial(WallMaterial);
    }

    /** `setupSounds()`: five new silent sounds, the game one looping. */
    static method SetupSounds() returns (start: Audio.Sound, horn: Audio.Sound, goal: Audio.Sound,
                                         whistle: Audio.Sound, game: Audio.Sound)
      ensures fresh(start) && fresh(horn) && fresh(goal) && fresh(whistle) && fresh(game)
      ensures && start != horn && start != goal && start != whistle && start != game
              && horn != goal && horn != whistle && horn != game
              && goal != whistle && goal != game
              && whistle != game
      ensures start.State() == Audio.SoundState(false, 0) && game.State() == Audio.SoundState(false, 0) && whistle.State() == Audio.SoundState(false, 0)
      ensures horn.State() == Audio.SoundState(false, 0) && goal.State() == Audio.SoundState(false, 0)
      ensures game.loop && !start.loop && !horn.loop && !goal.loop && !whistle.loop
    {
      start := new Audio.Sound(false);
      horn := new Audio.Sound(false);
      goal := new Audio.Sound(false);
      whistle := new Audio.Sound(false);
      game := new Audio.Sound(true);
    }
    /** `end(text)`: the last start timeout is cleared, the start and game
        sounds stop, the whistle always plays, the sign's clock stops, the
        puck and the three actors stop, the sign shows `text`, score and
        time are zeroed and the disc is reset onto the holder (the intended
        `DiscReset`). `before` is the state `end` started from. */
    ghost predicate Ended(text: string, before: Stage)
      reads this, startSound, gameSound, whistleSound, goalkeeper, left, right, puck
    {
      && pendingStarts == before.pendingStarts - {before.startTimeout} && startTimeout == before.startTimeout
      && startSound.State() == Audio.Stopped(before.start)
      && gameSound.State() == Audio.Stopped(before.game)
      && whistleSound.State() == Audio.Played(before.whistle)
      && !clockRunning
      && puck.State() == DiscReset(Pucks.Stopped(before.puck))
      && goalkeeper.State() == Goalkeepers.Stopped(before.keeper)
      && left.State() == Defenders.Stopped(before.left)
      && right.State() == Defenders.Stopped(before.right)
      && board == Text(text) && score == 0 && time == 0 && slapShots == before.slapShots
    }

    /** The first part of `end`: the start timeout, the sounds, the clock. */
    method StopMatch()
      requires Core()
      modifies this`pendingStarts, this`clockRunning, startSound, gameSound, whistleSound
      ensures pendingStarts == old(pendingStarts) - {startTimeout} && !clockRunning
      ensures startSound.State() == Audio.Stopped(old(startSound.State()))
      ensures gameSound.State() == Audio.Stopped(old(gameSound.State()))
      ensures whistleSound.State() == Audio.Played(old(whistleSound.State()))
    {
      pendingStarts := pendingStarts - {startTimeout};
      startSound.Stop();
      gameSound.Stop();
      whistleSound.Play();
      clockRunning := false;
    }

    /** The puck and the three actors stop. */
    method StopActors()
      requires Core()
      modifies puck, goalkeeper, left, right
      ensures puck.State() == Pucks.Stopped(old(puck.State()))
      ensures goalkeeper.State() == Goalkeepers.Stopped(old(goalkeeper.State()))
      ensures left.State() == Defenders.Stopped(old(left.State()))
      ensures right.State() == Defenders.Stopped(old(right.State()))
    {
      puck.Stop();
      goalkeeper.Stop();
      left.Stop();
      right.Stop();
    }

    /** `resetDisc()` as intended: the body comes to rest and the puck goes
        back to the holder at the spawn offset. */
    method ResetDisc()
      modifies puck`bodyAtRest, puck`onPlayer, puck`position
      ensures puck.State() == DiscReset(old(puck.State()))
    {
      puck.bodyAtRest := true;
      puck.onPlayer := true;
      puck.position := Spawn;
    }

    /** The last part of `end`: the caption, score and time, the disc reset. */
    method ResetBoard(text: string)
      modifies this`board, this`score, this`time, puck
      ensures board == Text(text) && score == 0 && time == 0
      ensures puck.State() == DiscReset(old(puck.State()))
    {
      board := Text(text);
      score := 0;
      time := 0;
      ResetDisc();
    }

    method End(text: string)
      requires Core()
      modifies EndObjects()
      ensures Valid() && Ended(text, old(CurrentStage()))
    {
      StopMatch();
      StopActors();
      ResetBoard(text);
    }

    /** The match goes on after `update`: the sign shows time and score, a
        defender starts while the clock is below its mark, the rest of the
        controller is kept. */
    ghost predicate Continued(plan: Plan, before: Stage)
      requires plan.Continue?
      reads this, left, right
    {
      && board == ScoreLine(before.time, before.score)
      && left.State() == (if plan.startLeft then Defenders.Started(before.left) else before.left)
      && right.State() == (if plan.startRight then Defenders.Started(before.right) else before.right)
      && score == before.score && time == before.time && clockRunning == before.clockRunning
      && pendingStarts == before.pendingStarts && startTimeout == before.startTimeout
      && slapShots == before.slapShots
    }

    /** `update(score, time)`; both callers pass the current score and time. */
    method Update()
      requires Core() && clockRunning && puck.isStarted
      requires 0 <= score && 0 <= time <= GAME_DURATION
      modifies if time <= 0 || score >= GOAL_TARGET then EndObjects() else {this, left, right}
      ensures Valid()
      ensures var plan := UpdatePlan(old(score), old(time));
        && (plan.Finish? ==> Ended(plan.text, old(CurrentStage())))
        && (plan.Continue? ==> Continued(plan, old(CurrentStage())))
    {
      var finishedText := "";
      if time <= 0 {
        finishedText := LOST_TEXT;
      }
      if score >= GOAL_TARGET {
        finishedText := WON_TEXT;
      }
      if finishedText != "" {
        End(finishedText);
        return;
      }
      Advance();
    }

    /** The rest of `update` while the match goes on. */
    method Advance()
      requires Core() && clockRunning && puck.isStarted
      requires 0 <= score < GOAL_TARGET && 0 < time <= GAME_DURATION
      modifies this`board, left, right
      ensures Valid()
      ensures Continued(UpdatePlan(old(score), old(time)), old(CurrentStage()))
    {
      board := ScoreLine(time, score);
      if time < LEFT_MARK {
        left.Start();
      }
      if time < RIGHT_MARK {
        right.Start();
      }
    }

    /** `start()`: the horn, score 0, a full clock, the sign's clock running,
        the goaltender up and the puck shown and started. */
    method Start()
      requires Core()
      modifies this`score, this`time, this`clockRunning, hornSound, goalkeeper, puck
      ensures Valid()
      ensures score == 0 && time == GAME_DURATION && clockRunning
      ensures hornSound.State() == Audio.Played(old(hornSound.State()))
      ensures goalkeeper.State() == Goalkeepers.Started(old(goalkeeper.State()))
      ensures puck.State() == Pucks.Started(old(puck.State()))
    {
      hornSound.Play();
      score := 0;
      time := GAME_DURATION;
      clockRunning := true;
      goalkeeper.Start();
      puck.Start();
    }

    /** Entering the play zone: the start and game sounds play and `start`
        is scheduled with the timeout `id`, which becomes the one `end`
        clears. */
    method EnterZone(id: nat)
      requires Valid()
      modifies this`pendingStarts, this`startTimeout, startSound, gameSound
      ensures Valid()
      ensures startSound.State() == Audio.Played(old(startSound.State()))
      ensures gameSound.State() == Audio.Played(old(gameSound.State()))
      ensures pendingStarts == old(pendingStarts) + {id} && startTimeout == id
    {
      startSound.Play();
      gameSound.Play();
      pendingStarts := pendingStarts + {id};
      startTimeout := id;
    }

    /** Leaving the play zone: `end()` with an empty caption. */
    method LeaveZone()
      requires Valid()
      modifies EndObjects()
      ensures Valid() && Ended("", old(CurrentStage()))
    {
      End("");
    }

    /** The start timeout `id` fires: `start()`. */
    method StartDue(id: int)
      requires Valid() && id in pendingStarts
      modifies this`pendingStarts, this`score, this`time, this`clockRunning, hornSound, goalkeeper, puck
      ensures Valid()
      ensures pendingStarts == old(pendingStarts) - {id}
      ensures score == 0 && time == GAME_DURATION && clockRunning
      ensures hornSound.State() == Audio.Played(old(hornSound.State()))
      ensures goalkeeper.State() == Goalkeepers.Started(old(goalkeeper.State()))
      ensures puck.State() == Pucks.Started(old(puck.State()))
    {
      pendingStarts := pendingStarts - {id};
      Start();
    }

    /** One tick of the sign's clock: one second off, then `update`. */
    method ClockTick()
      requires Valid() && clockRunning
      modifies if time <= 1 then EndObjects() else {this, left, right}
      ensures Valid()
      ensures var plan := UpdatePlan(old(score), old(time) - 1);
        && (plan.Finish? ==> plan.text == LOST_TEXT && Ended(plan.text, old(CurrentStage()).(time := old(time) - 1)))
        && (plan.Continue? ==> Continued(plan, old(CurrentStage()).(time := old(time) - 1)))
    {
      time := time - 1;
      Update();
    }

    /** An entity entering the goal zone: the trigger watches every layer
        and checks only that the puck is fired and time is left, so any
        entry then scores. The goal sound plays and `update` runs with the
        score one higher. The puck is not unfired, so every further entry
        scores too. */
    method Goal() returns (scored: bool)
      requires Valid()
      modifies if puck.isFired && time > 0 then EndObjects() + {goalSound} else {}
      ensures Valid()
      ensures scored <==> old(puck.isFired) && old(time) > 0
      ensures scored ==>
        var plan := UpdatePlan(old(score) + 1, old(time));
        var before := old(CurrentStage()).(score := old(score) + 1);
        && goalSound.State() == Audio.Played(old(goalSound.State()))
        && (plan.Finish? ==> plan.text == WON_TEXT && Ended(plan.text, before))
        && (plan.Continue? ==> Continued(plan, before) && unchanged(puck))
    {
      if puck.isFired && time > 0 {
        goalSound.Play();
        score := score + 1;
        Update();
        return true;
      }
      return false;
    }

    /** The pointer system for one frame: a press while the puck is started
        shoots an unfired puck (with the slap sound) or recalls a fired one
        through the intended `resetDisc`. */
    method PointerSystem(pointerDown: bool)
      requires Valid()
      modifies this`slapShots, puck
      ensures Valid()
      ensures var pressed := pointerDown && old(puck.isStarted);
        && puck.State() == (if pressed then Pressed(old(puck.State())) else old(puck.State()))
        && slapShots == old(slapShots) + (if pressed && !old(puck.isFired) then 1 else 0)
    {
      if pointerDown && puck.isStarted {
        if !puck.isFired {
          slapShots := slapShots + 1;
          puck.SetFired(true);
          puck.onPlayer := false;
          puck.bodyPosition := ShotOrigin;
          puck.bodyAtRest := false;
        } else {
          ResetDisc();
          puck.SetFired(false);
        }
      }
    }

    /** The game system for one frame: the physics world steps by the frame
        time, then the goaltender and both defenders mirror their entities
        onto their bodies and the puck syncs with its body. */
    method FrameSystem(dt: real)
      requires Valid()
      modifies world`lastStep, goalkeeper, left, right, puck`position
      ensures Valid()
      ensures world.lastStep == Some(PhysWorld.StepCall(FIXED_TIME_STEPS, dt, MAX_TIME_STEPS))
      ensures goalkeeper.State() == Goalkeepers.Mirrored(old(goalkeeper.State()))
      ensures left.State() == Defenders.Mirrored(old(left.State()))
      ensures right.State() == Defenders.Mirrored(old(right.State()))
      ensures puck.State() == Pucks.Synced(old(puck.State()))
    {
      world.Step(FIXED_TIME_STEPS, dt, MAX_TIME_STEPS);
      goalkeeper.Update();
      left.Update();
      right.Update();
      puck.Update();
    }
  }
}
