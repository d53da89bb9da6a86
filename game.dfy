/**
 * The match controller of src/core/game.ts.
 *
 * Entering the play zone starts a four-step countdown on the timer
 * "startTimer"; its fourth step starts the match: score 0, 60 seconds on
 * the clock ("updateTimer", one fire per second), the goalkeeper up. A
 * pointer-down while the match runs and no recall is in flight shoots a
 * puck from the pool and starts the recall timer. A puck entering the goal
 * zone scores while it is active and time is left. When the clock reaches
 * 0, or the player leaves the zone, `end` resets everything.
 *
 * Engine callbacks (trigger zones, timer fires, the two per-frame systems)
 * are the event methods of the class. Scene animations, the physics impulse
 * and the shot direction are not modelled.
 */
module CoreGame {
  import opened Wrappers
  import Timers
  import Audio
  import PhysWorld
  import Materials
  import opened Pucks
  import PuckPool
  import Goalkeepers
  import Goaltenders

  const GOAL_TARGET: int := 30
  /** The match length `start` puts on the clock, in seconds. */
  const GAME_DURATION: int := 60
  /** The recall cool-down after a shot, in ms. */
  const RECALL_SPEED: int := 500
  const START_DELAY_MS: int := 3100
  const UPDATE_DELAY_MS: int := 1000

  const START_TIMER: string := "startTimer"
  const UPDATE_TIMER: string := "updateTimer"
  const RECALL_TIMER: string := "recallTimer"

  const WINNER_TEXT: string := "WINNER!"
  const TRY_AGAIN_TEXT: string := "TRY AGAIN"
  /** The sign's default font size. */
  const DEFAULT_FONT_SIZE: int := 12

  /** What the scoreboard shows: a caption, or the clock and score display. */
  datatype SignView = Caption(text: string, fontSize: int) | ScoreTime(time: int, score: int, target: int)

  /** What `update(score, time)` decides: end the match with a caption, or go
      on, starting the far and/or near goaltender. */
  datatype Plan = Finish(text: string) | Continue(startFar: bool, startNear: bool)

  datatype ShotOutcome = NoShot | Shot(puck: Puck) | PoolExhausted
  datatype GoalOutcome = Scored | Ignored | UnknownEntity

  /** The decision of `update(score, time)`. */
  function UpdatePlan(score: int, time: int): (p: Plan)
    ensures p.Finish? <==> time <= 0
    ensures p.Finish? ==> (p.text == WINNER_TEXT <==> score >= GOAL_TARGET)
    ensures p.Finish? ==> (p.text == WINNER_TEXT || p.text == TRY_AGAIN_TEXT)
    ensures p.Continue? ==> (p.startFar <==> time == 45 || score == 10)
    ensures p.Continue? ==> (p.startNear <==> time == 30 || score == 15)
  {
    if time <= 0 then Finish(if score >= GOAL_TARGET then WINNER_TEXT else TRY_AGAIN_TEXT)
    else Continue(time == 45 || score == 10, time == 30 || score == 15)
  }

  /** With time left the match never ends, whatever the score: reaching the
      goal target early wins nothing until the clock runs out. */
  lemma NoEarlyFinish(score: int, time: int)
    requires time > 0
    ensures UpdatePlan(score, time).Continue?
  {
  }

  /** The caption `updateStartTimer` shows for a count of the start timer;
      counts outside 1..4 show nothing. The fourth also starts the match. */
  function CountdownCaption(count: int): (r: Option<SignView>)
    ensures r.Some? <==> 1 <= count <= 4
  {
    if count == 1 then Some(Caption("Score at least", 10))
    else if count == 2 then Some(Caption("30 goals", DEFAULT_FONT_SIZE))
    else if count == 3 then Some(Caption("in 1 minute", DEFAULT_FONT_SIZE))
    else if count == 4 then Some(Caption("GOOOO!!!", DEFAULT_FONT_SIZE))
    else None
  }

  /** The start timer is created with `immediately`, so its callback sees the
      counts 1, 2, 3, 4 at creation and after each of the next three fires:
      the four captions in order, the last one starting the match. */
  lemma CountdownSequence(list: Timers.Registry, id: nat, k: nat)
    requires k <= 3
    ensures START_TIMER in Timers.FiredTimes(Timers.Created(list, START_TIMER, START_DELAY_MS, id, true), START_TIMER, k)
    ensures var count := Timers.FiredTimes(Timers.Created(list, START_TIMER, START_DELAY_MS, id, true), START_TIMER, k)[START_TIMER].count;
      && count == k + 1
      && CountdownCaption(count) == Some([Caption("Score at least", 10), Caption("30 goals", DEFAULT_FONT_SIZE),
                                          Caption("in 1 minute", DEFAULT_FONT_SIZE), Caption("GOOOO!!!", DEFAULT_FONT_SIZE)][k])
  {
    Timers.CreatedThenFired(list, START_TIMER, START_DELAY_MS, id, true, k);
  }

  /** The recall timer is created without `immediately` and its `maxCount`
      is ignored: after k fires it is still registered with count k, so its
      callback keeps running every 500 ms until it is replaced or removed. */
  lemma RecallTimerKeepsFiring(list: Timers.Registry, id: nat, k: nat)
    ensures RECALL_TIMER in Timers.FiredTimes(Timers.Created(list, RECALL_TIMER, RECALL_SPEED, id, false), RECALL_TIMER, k)
    ensures Timers.FiredTimes(Timers.Created(list, RECALL_TIMER, RECALL_SPEED, id, false), RECALL_TIMER, k)[RECALL_TIMER].count == k
  {
    Timers.CreatedThenFired(list, RECALL_TIMER, RECALL_SPEED, id, false, k);
  }

  /** The record list once `end` has removed the three match timers and each
      goaltender the timer "goalkeeper": no match timer is left. */
  function EndRemovals(list: Timers.Registry): (r: Timers.Registry)
    ensures START_TIMER !in r && UPDATE_TIMER !in r && RECALL_TIMER !in r && Goaltenders.KEEPER_TIMER !in r
  {
    Timers.Removed(Timers.Removed(Timers.Removed(Timers.Removed(Timers.Removed(
      list, START_TIMER), UPDATE_TIMER), RECALL_TIMER), Goaltenders.KEEPER_TIMER), Goaltenders.KEEPER_TIMER)
  }

  /** A fire of a timer that `end` removes leaves no trace once `end` ran. */
  lemma EndRemovalsAfterFire(list: Timers.Registry, name: string)
    requires name in list && name in {START_TIMER, UPDATE_TIMER, RECALL_TIMER}
    ensures EndRemovals(Timers.Fired(list, name)) == EndRemovals(list)
  {
    assert EndRemovals(Timers.Fired(list, name)).Keys == EndRemovals(list).Keys;
  }

  /** With `time` seconds on the clock and no goal in between, the number of
      clock fires until `update` ends the match, and the caption it ends with. */
  function ClockRun(score: int, time: int): (r: (nat, string))
    decreases if time > 0 then time else 0
  {
    var p := UpdatePlan(score, time - 1);
    if p.Finish? then (1, p.text)
    else
      var rest := ClockRun(score, time - 1);
      (rest.0 + 1, rest.1)
  }

  /** Each clock fire takes exactly one second off before `update` runs, so a
      match started with 60 seconds ends on the 60th fire, with "WINNER!" iff
      the score reached the target and "TRY AGAIN" otherwise. */
  lemma {:induction false} ClockRunsOut(score: int, time: int)
    requires time >= 1
    ensures ClockRun(score, time) == (time, if score >= GOAL_TARGET then WINNER_TEXT else TRY_AGAIN_TEXT)
  {
    if time > 1 {
      ClockRunsOut(score, time - 1);
    }
  }

  /** A snapshot of what `update` and `end` read: the controller's fields,
      the timer records, and the states of the sounds and actors `end`
      touches. */
  datatype Stage = Stage(score: int, time: int, started: bool, recalling: bool, holder: bool,
                         list: Timers.Registry, whistle: Audio.SoundState, start: Audio.SoundState,
                         game: Audio.SoundState, keeper: Goalkeepers.KeeperState,
                         far: Goaltenders.TenderState, near: Goaltenders.TenderState)

  /** The stage after one clock fire: one second less, the clock timer's
      count one higher. */
  function Ticked(s: Stage): (r: Stage)
    requires UPDATE_TIMER in s.list
  {
    s.(time := s.time - 1, list := Timers.Fired(s.list, UPDATE_TIMER))
  }

  class Game {
    var score: int
    var time: int
    var isRecalling: bool
    var isGameStarted: bool
    var sign: SignView
    /** The puck shown in front of the player is visible (scale one). */
    var holderShown: bool

    const timers: Timers.TimerRegistry
    const world: PhysWorld.World
    const pool: PuckPool.Pool
    const goalkeeper: Goalkeepers.Goalkeeper
    const farTender: Goaltenders.Goaltender
    const nearTender: Goaltenders.Goaltender

    const startSound: Audio.Sound
    const hornSound: Audio.Sound
    const slapSound: Audio.Sound
    const goalSound: Audio.Sound
    const whistleSound: Audio.Sound
    const gameSound: Audio.Sound
    const ambientSound: Audio.Sound

    predicate SoundsDistinct()
    {
      && startSound != hornSound && startSound != slapSound && startSound != goalSound
      && startSound != whistleSound && startSound != gameSound && startSound != ambientSound
      && hornSound != slapSound && hornSound != goalSound && hornSound != whistleSound
      && hornSound != gameSound && hornSound != ambientSound
      && slapSound != goalSound && slapSound != whistleSound && slapSound != gameSound && slapSound != ambientSound
      && goalSound != whistleSound && goalSound != gameSound && goalSound != ambientSound
      && whistleSound != gameSound && whistleSound != ambientSound
      && gameSound != ambientSound
    }

    /** The part of the invariant that holds between the statements of an
        event too: the actors and sounds are distinct objects, the clock
        timer is live exactly while a match runs, a recall in flight has its
        timer, the clock stays within 0..60. (The registry's and the pool's
        own invariants are kept by their own methods.) */
    ghost predicate Core()
      reads this, timers, pool
    {
      && farTender != nearTender && SoundsDistinct()
      && 0 <= score && 0 <= time <= GAME_DURATION
      && (isGameStarted <==> UPDATE_TIMER in timers.list)
      && (isRecalling ==> RECALL_TIMER in timers.list)
    }

    /** The controller's invariant between events: besides `Core`, a match
        runs exactly while time is left, and the countdown never gets past
        its fourth step (at which its timer removes itself). */
    ghost predicate Valid()
      reads this, timers, pool
    {
      && Core()
      && (isGameStarted <==> time > 0)
      && (START_TIMER in timers.list ==> 1 <= timers.list[START_TIMER].count <= 3)
    }

    ghost function AllPucks(): set<Puck>
      reads this, pool
    {
      set p | p in pool.allObjects
    }

    /** The objects `end` may change besides the pucks, of which it changes
        only the visibility and the fired flag. */
    ghost function EndObjects(): set<object>
      reads this
    {
      {this, timers, whistleSound, startSound, gameSound, goalkeeper, farTender, nearTender}
    }

    /** The pucks a step clears: all of them when it ends the match. */
    ghost function PucksCleared(ends: bool): set<Puck>
      reads this, pool
    {
      if ends then AllPucks() else {}
    }

    /** The controller as `new Game(debug).run()` leaves it: the debug flag is
        handed to the physics world, the entities and sounds are created,
        and the ambient sound plays. */
    constructor (debug: bool, world: PhysWorld.World, timers: Timers.TimerRegistry)
      requires UPDATE_TIMER !in timers.list && START_TIMER !in timers.list
      modifies world`debug
      ensures Valid() && pool.Valid()
      ensures this.world == world && this.timers == timers && world.debug == debug
      ensures score == 0 && time == 0 && !isRecalling && !isGameStarted && !holderShown
      ensures sign == Caption("", DEFAULT_FONT_SIZE)
      ensures fresh(pool) && pool.allObjects == [] && pool.scheduled == multiset{}
      ensures goalkeeper.State() == Goalkeepers.Constructed()
      ensures farTender.State() == Goaltenders.Constructed() && farTender.speed == 2.0
      ensures nearTender.State() == Goaltenders.Constructed() && nearTender.speed == 1.6
      ensures ambientSound.State() == Audio.SoundState(true, 0) && ambientSound.loop && gameSound.loop
      ensures startSound.State() == Audio.SoundState(false, 0) && hornSound.State() == Audio.SoundState(false, 0)
      ensures slapSound.State() == Audio.SoundState(false, 0) && goalSound.State() == Audio.SoundState(false, 0)
      ensures whistleSound.State() == Audio.SoundState(false, 0) && gameSound.State() == Audio.SoundState(false, 0)
      ensures !startSound.loop && !hornSound.loop && !slapSound.loop && !goalSound.loop && !whistleSound.loop
    {
      world.SetDebugDraw(debug);
      var p := new PuckPool.Pool();
      var keeper := new Goalkeepers.Goalkeeper();
      var far := new Goaltenders.Goaltender(2.0);
      var near := new Goaltenders.Goaltender(1.6);
      var start, horn, slap, goal, whistle, game, ambient := SetupSounds();
      this.world, this.timers, pool := world, timers, p;
      goalkeeper, farTender, nearTender := keeper, far, near;
      startSound, hornSound, slapSound, goalSound := start, horn, slap, goal;
      whistleSound, gameSound, ambientSound := whistle, game, ambient;
      score, time, isRecalling, isGameStarted, holderShown := 0, 0, false, false, false;
      sign := Caption("", DEFAULT_FONT_SIZE);
    }

    /** `setupSounds()`: seven new sounds, the game and ambient ones looping;
        only the ambient sound starts playing, the other six stay silent. */
    static method SetupSounds() returns (start: Audio.Sound, horn: Audio.Sound, slap: Audio.Sound, goal: Audio.Sound,
                                         whistle: Audio.Sound, game: Audio.Sound, ambient: Audio.Sound)
      ensures fresh(start) && fresh(horn) && fresh(slap) && fresh(goal) && fresh(whistle) && fresh(game) && fresh(ambient)
      ensures && start != horn && start != slap && start != goal && start != whistle && start != game && start != ambient
              && horn != slap && horn != goal && horn != whistle && horn != game && horn != ambient
              && slap != goal && slap != whistle && slap != game && slap != ambient
              && goal != whistle && goal != game && goal != ambient
              && whistle != game && whistle != ambient
              && game != ambient
      ensures ambient.State() == Audio.SoundState(true, 0) && ambient.loop && game.loop
      ensures start.State() == Audio.SoundState(false, 0) && horn.State() == Audio.SoundState(false, 0)
      ensures slap.State() == Audio.SoundState(false, 0) && goal.State() == Audio.SoundState(false, 0)
      ensures whistle.State() == Audio.SoundState(false, 0) && game.State() == Audio.SoundState(false, 0)
      ensures !start.loop && !horn.loop && !slap.loop && !goal.loop && !whistle.loop
    {
      start := new Audio.Sound(false);
      horn := new Audio.Sound(false);
      slap := new Audio.Sound(false);
      goal := new Audio.Sound(false);
      whistle := new Audio.Sound(false);
      game := new Audio.Sound(true);
      ambient := new Audio.Sound(true);
      ambient.Play();
    }

    /** `end(text)`: the three timers are removed, the whistle plays only if a
        match was running, the start and game sounds stop, the three actors
        stop (each goaltender also removes the timer "goalkeeper"), the sign
        shows `text`, score and time are zeroed, every puck of the pool is
        hidden and unfired and the held puck hidden. `before` is the state
        `end` started from. */
    ghost predicate Ended(text: string, before: Stage)
      reads this, timers, pool, whistleSound, startSound, gameSound, goalkeeper, farTender, nearTender, AllPucks()
    {
      && timers.list == EndRemovals(before.list)
      && whistleSound.State() == (if before.started then Audio.Played(before.whistle) else before.whistle)
      && startSound.State() == Audio.Stopped(before.start)
      && gameSound.State() == Audio.Stopped(before.game)
      && goalkeeper.State() == Goalkeepers.Stopped(before.keeper)
      && farTender.State() == Goaltenders.Stopped(before.far)
      && nearTender.State() == Goaltenders.Stopped(before.near)
      && (forall p :: p in pool.allObjects ==> !p.visible && !p.isFired)
      && sign == Caption(text, DEFAULT_FONT_SIZE)
      && score == 0 && time == 0 && !isGameStarted && !isRecalling && !holderShown
    }

    /** The controller's state as `update` and `end` read it. */
    ghost function CurrentStage(): Stage
      reads this, timers, whistleSound, startSound, gameSound, goalkeeper, farTender, nearTender
    {
      Stage(score, time, isGameStarted, isRecalling, holderShown,
            timers.list, whistleSound.State(), startSound.State(), gameSound.State(),
            goalkeeper.State(), farTender.State(), nearTender.State())
    }

    method RemoveMatchTimers()
      modifies timers
      ensures timers.list == Timers.Removed(Timers.Removed(Timers.Removed(old(timers.list), START_TIMER), UPDATE_TIMER), RECALL_TIMER)
    {
      timers.Remove(START_TIMER);
      timers.Remove(UPDATE_TIMER);
      timers.Remove(RECALL_TIMER);
    }

    /** The goalkeeper stops; each goaltender stops and removes the timer
        "goalkeeper". */
    method StopActors()
      requires farTender != nearTender
      modifies timers, goalkeeper, farTender, nearTender
      ensures timers.list == Timers.Removed(Timers.Removed(old(timers.list), Goaltenders.KEEPER_TIMER), Goaltenders.KEEPER_TIMER)
      ensures goalkeeper.State() == Goalkeepers.Stopped(old(goalkeeper.State()))
      ensures farTender.State() == Goaltenders.Stopped(old(farTender.State()))
      ensures nearTender.State() == Goaltenders.Stopped(old(nearTender.State()))
    {
      goalkeeper.Stop();
      farTender.Stop(timers);
      nearTender.Stop(timers);
    }

    /** The first half of `end`: timers, sounds and actors. */
    method StopMatch()
      requires Core()
      modifies timers, whistleSound, startSound, gameSound, goalkeeper, farTender, nearTender
      ensures timers.list == EndRemovals(old(timers.list))
      ensures whistleSound.State() == (if isGameStarted then Audio.Played(old(whistleSound.State())) else old(whistleSound.State()))
      ensures startSound.State() == Audio.Stopped(old(startSound.State()))
      ensures gameSound.State() == Audio.Stopped(old(gameSound.State()))
      ensures goalkeeper.State() == Goalkeepers.Stopped(old(goalkeeper.State()))
      ensures farTender.State() == Goaltenders.Stopped(old(farTender.State()))
      ensures nearTender.State() == Goaltenders.Stopped(old(nearTender.State()))
    {
      RemoveMatchTimers();
      if isGameStarted {
        whistleSound.Play();
      }
      startSound.Stop();
      gameSound.Stop();
      StopActors();
    }

    /** The second half of `end`: the sign, score, time and flags, the pool. */
    method ResetBoard(text: string)
      modifies this, AllPucks()`visible, AllPucks()`isFired
      ensures sign == Caption(text, DEFAULT_FONT_SIZE)
      ensures score == 0 && time == 0 && !isGameStarted && !isRecalling && !holderShown
      ensures forall p :: p in pool.allObjects ==> !p.visible && !p.isFired
    {
      sign := Caption(text, DEFAULT_FONT_SIZE);
      score := 0;
      time := 0;
      isGameStarted := false;
      pool.Clear();
      holderShown := false;
      isRecalling := false;
    }

    method End(text: string)
      requires Core()
      modifies EndObjects(), AllPucks()`visible, AllPucks()`isFired
      ensures Valid() && Ended(text, old(CurrentStage()))
    {
      StopMatch();
      ResetBoard(text);
    }

    /** The match goes on after `update`: a goaltender starts when its time
        or score mark is hit, the sign shows time and score, the rest of the
        controller's fields are kept. */
    ghost predicate Continued(plan: Plan, before: Stage)
      requires plan.Continue?
      reads this, timers, farTender, nearTender
    {
      && farTender.State() == (if plan.startFar then Goaltenders.Started(before.far) else before.far)
      && nearTender.State() == (if plan.startNear then Goaltenders.Started(before.near) else before.near)
      && sign == ScoreTime(before.time, before.score, GOAL_TARGET)
      && timers.list == before.list
      && score == before.score && time == before.time && isGameStarted == before.started
      && isRecalling == before.recalling && holderShown == before.holder
    }

    /** `update(score, time)`; both callers pass the current score and time. */
    method Update()
      requires Core() && isGameStarted
      requires START_TIMER in timers.list ==> 1 <= timers.list[START_TIMER].count <= 3
      modifies if time <= 0 then EndObjects() else {this, farTender, nearTender}
      modifies PucksCleared(time <= 0)`visible, PucksCleared(time <= 0)`isFired
      ensures Valid()
      ensures var plan := UpdatePlan(old(score), old(time));
        && (plan.Finish? ==> Ended(plan.text, old(CurrentStage())))
        && (plan.Continue? ==> Continued(plan, old(CurrentStage())))
    {
      if time <= 0 {
        var finishedText := if score >= GOAL_TARGET then WINNER_TEXT else TRY_AGAIN_TEXT;
        End(finishedText);
        return;
      }
      Advance();
    }

    /** The rest of `update` while time is left: the goaltenders due to start
        start, the sign shows time and score. */
    method Advance()
      requires Core() && isGameStarted && time > 0
      requires START_TIMER in timers.list ==> 1 <= timers.list[START_TIMER].count <= 3
      modifies this`sign, farTender, nearTender
      ensures Valid()
      ensures Continued(UpdatePlan(old(score), old(time)), old(CurrentStage()))
    {
      if time == 45 || score == 10 {
        farTender.Start();
      }
      if time == 30 || score == 15 {
        nearTender.Start();
      }
      sign := ScoreTime(time, score, GOAL_TARGET);
    }

    /** `start()`: score 0, a full clock, the horn, the clock timer, the
        goalkeeper up, the held puck shown. */
    method Start()
      requires Core() && START_TIMER !in timers.list
      modifies this, timers, hornSound, goalkeeper
      ensures Valid()
      ensures score == 0 && time == GAME_DURATION && isGameStarted && holderShown
      ensures isRecalling == old(isRecalling) && sign == old(sign)
      ensures hornSound.State() == Audio.Played(old(hornSound.State()))
      ensures timers.list == Timers.Created(old(timers.list), UPDATE_TIMER, UPDATE_DELAY_MS, old(timers.nextId), false)
      ensures goalkeeper.State() == Goalkeepers.Started(old(goalkeeper.State()))
    {
      score := 0;
      time := GAME_DURATION;
      hornSound.Play();
      var _ := timers.Create(UPDATE_TIMER, UPDATE_DELAY_MS, false);
      goalkeeper.Start();
      holderShown := true;
      isGameStarted := true;
    }

    /** `updateStartTimer()`: the caption for the start timer's count; the
        fourth step also removes the start timer and starts the match. */
    method UpdateStartTimer()
      requires Core() && (isGameStarted <==> time > 0)
      requires START_TIMER in timers.list && 1 <= timers.list[START_TIMER].count <= 4
      modifies this, timers, hornSound, goalkeeper
      ensures Valid()
      ensures var count := old(timers.list[START_TIMER].count);
        && sign == CountdownCaption(count).value
        && isRecalling == old(isRecalling)
        && (count < 4 ==>
              && timers.list == old(timers.list)
              && score == old(score) && time == old(time)
              && isGameStarted == old(isGameStarted) && holderShown == old(holderShown)
              && unchanged(hornSound, goalkeeper))
        && (count == 4 ==>
              && timers.list == Timers.Created(Timers.Removed(old(timers.list), START_TIMER),
                                               UPDATE_TIMER, UPDATE_DELAY_MS, old(timers.nextId), false)
              && score == 0 && time == GAME_DURATION && isGameStarted && holderShown
              && hornSound.State() == Audio.Played(old(hornSound.State()))
              && goalkeeper.State() == Goalkeepers.Started(old(goalkeeper.State())))
    {
      var count := timers.list[START_TIMER].count;
      if count == 1 {
        sign := Caption("Score at least", 10);
      } else if count == 2 {
        sign := Caption("30 goals", DEFAULT_FONT_SIZE);
      } else if count == 3 {
        sign := Caption("in 1 minute", DEFAULT_FONT_SIZE);
      } else {
        sign := Caption("GOOOO!!!", DEFAULT_FONT_SIZE);
        timers.Remove(START_TIMER);
        Start();
      }
    }

    /** Entering the play zone: `init()` (start and game sounds, the start
        timer created with `immediately`, so the first caption shows at
        once), then the ambient sound stops. */
    method EnterZone()
      requires Valid()
      modifies this, timers, startSound, gameSound, ambientSound, hornSound, goalkeeper
      ensures Valid()
      ensures startSound.State() == Audio.Played(old(startSound.State()))
      ensures gameSound.State() == Audio.Played(old(gameSound.State()))
      ensures ambientSound.State() == Audio.Stopped(old(ambientSound.State()))
      ensures timers.list == Timers.Created(old(timers.list), START_TIMER, START_DELAY_MS, old(timers.nextId), true)
      ensures sign == Caption("Score at least", 10)
      ensures unchanged(hornSound, goalkeeper)
      ensures score == old(score) && time == old(time) && isGameStarted == old(isGameStarted)
      ensures isRecalling == old(isRecalling) && holderShown == old(holderShown)
    {
      startSound.Play();
      gameSound.Play();
      var runCallback := timers.Create(START_TIMER, START_DELAY_MS, true);
      if runCallback {
        UpdateStartTimer();
      }
      ambientSound.Stop();
    }

    /** Leaving the play zone: `end()` with an empty caption, then the
        ambient sound plays again. */
    method LeaveZone()
      requires Valid()
      modifies EndObjects(), ambientSound, AllPucks()`visible, AllPucks()`isFired
      ensures Valid() && Ended("", old(CurrentStage()))
      ensures ambientSound.State() == Audio.Played(old(ambientSound.State()))
    {
      End("");
      ambientSound.Play();
    }

    /** A fire of the start timer: the count goes up, then `updateStartTimer`. */
    method StartTimerFired()
      requires Valid() && START_TIMER in timers.list
      modifies this, timers, hornSound, goalkeeper
      ensures Valid()
      ensures var count := old(timers.list[START_TIMER].count) + 1;
        && sign == CountdownCaption(count).value
        && isRecalling == old(isRecalling)
        && (count < 4 ==>
              && timers.list == Timers.Fired(old(timers.list), START_TIMER)
              && score == old(score) && time == old(time)
              && isGameStarted == old(isGameStarted) && holderShown == old(holderShown)
              && unchanged(hornSound, goalkeeper))
        && (count == 4 ==>
              && timers.list == Timers.Created(Timers.Removed(old(timers.list), START_TIMER),
                                               UPDATE_TIMER, UPDATE_DELAY_MS, old(timers.nextId), false)
              && score == 0 && time == GAME_DURATION && isGameStarted && holderShown
              && hornSound.State() == Audio.Played(old(hornSound.State()))
              && goalkeeper.State() == Goalkeepers.Started(old(goalkeeper.State())))
    {
      timers.Fire(START_TIMER);
      UpdateStartTimer();
    }

    /** The clock timer's count goes up and one second comes off the clock. */
    method Tick()
      requires Valid() && UPDATE_TIMER in timers.list
      modifies this`time, timers`list
      ensures Core() && isGameStarted
      ensures START_TIMER in timers.list ==> 1 <= timers.list[START_TIMER].count <= 3
      ensures time == old(time) - 1 && timers.list == Timers.Fired(old(timers.list), UPDATE_TIMER)
    {
      timers.Fire(UPDATE_TIMER);
      time := time - 1;
    }

    /** A fire of the clock timer: one second off, then `update`. */
    method UpdateTimerFired()
      requires Valid() && UPDATE_TIMER in timers.list
      modifies timers, if time <= 1 then EndObjects() else {this, farTender, nearTender}
      modifies PucksCleared(time <= 1)`visible, PucksCleared(time <= 1)`isFired
      ensures Valid()
      ensures var plan := UpdatePlan(old(score), old(time) - 1);
        && (plan.Finish? ==> Ended(plan.text, old(CurrentStage())))
        && (plan.Continue? ==> Continued(plan, Ticked(old(CurrentStage()))))
    {
      ghost var before := CurrentStage();
      Tick();
      assert CurrentStage() == Ticked(before);
      Update();
      var plan := UpdatePlan(before.score, before.time - 1);
      if plan.Finish? {
        EndedIgnoresTick(plan.text, before);
      }
    }

    /** A clock fire leaves no trace once `end` ran. */
    lemma EndedIgnoresTick(text: string, before: Stage)
      requires UPDATE_TIMER in before.list
      ensures Ended(text, Ticked(before)) ==> Ended(text, before)
    {
      EndRemovalsAfterFire(before.list, UPDATE_TIMER);
    }

    /** A fire of the recall timer: the held puck shows again and shooting is
        allowed. The timer stays registered and keeps firing. */
    method RecallTimerFired()
      requires Valid() && RECALL_TIMER in timers.list
      modifies this, timers`list
      ensures Valid()
      ensures timers.list == Timers.Fired(old(timers.list), RECALL_TIMER)
      ensures holderShown && !isRecalling
      ensures score == old(score) && time == old(time) && isGameStarted == old(isGameStarted) && sign == old(sign)
    {
      timers.Fire(RECALL_TIMER);
      holderShown := true;
      isRecalling := false;
    }

    /** The goal zone reports `entity`: a fired puck of the pool scores while
        time is left; it is unfired, the goal sound plays and `update` runs
        with the new score (time is left, so the match goes on). An entity
        that is no puck of the pool makes the handler throw: nothing changes. */
    method Goal(entity: nat) returns (outcome: GoalOutcome)
      requires Valid()
      modifies this, goalSound, farTender, nearTender, if pool.GetBy(entity).Some? then {pool.GetBy(entity).value} else {}
      ensures Valid()
      ensures outcome == UnknownEntity <==> pool.GetBy(entity).None?
      ensures outcome == Scored <==> (pool.GetBy(entity).Some? && old(pool.GetBy(entity).value.isFired) && old(time) > 0)
      ensures outcome != Scored ==> unchanged(this, goalSound, farTender, nearTender)
      ensures outcome == Ignored ==> unchanged(pool.GetBy(entity).value)
      ensures outcome == Scored ==>
        var puck := pool.GetBy(entity).value;
        var plan := UpdatePlan(old(score) + 1, old(time));
        && plan.Continue?
        && puck.State() == old(puck.State()).(isFired := false)
        && goalSound.State() == Audio.Played(old(goalSound.State()))
        && Continued(plan, old(CurrentStage()).(score := old(score) + 1))
    {
      var found := pool.GetBy(entity);
      if found.None? {
        return UnknownEntity;
      }
      var puck := found.value;
      if puck.isFired && time > 0 {
        Score(puck);
        outcome := Scored;
      } else {
        outcome := Ignored;
      }
    }

    /** The scoring branch of the goal handler. */
    method Score(puck: Puck)
      requires Valid() && time > 0
      modifies this, goalSound, puck, farTender, nearTender
      ensures Valid()
      ensures var plan := UpdatePlan(old(score) + 1, old(time));
        && plan.Continue?
        && puck.State() == old(puck.State()).(isFired := false)
        && goalSound.State() == Audio.Played(old(goalSound.State()))
        && Continued(plan, old(CurrentStage()).(score := old(score) + 1))
    {
      ghost var before := CurrentStage();
      CountGoal(puck);
      assert CurrentStage() == before.(score := before.score + 1);
      Update();
    }

    /** The puck is unfired, the goal sound plays, the score goes up. */
    method CountGoal(puck: Puck)
      requires Valid() && time > 0
      modifies this`score, goalSound, puck`isFired
      ensures Core() && isGameStarted
      ensures START_TIMER in timers.list ==> 1 <= timers.list[START_TIMER].count <= 3
      ensures puck.State() == old(puck.State()).(isFired := false)
      ensures goalSound.State() == Audio.Played(old(goalSound.State()))
      ensures score == old(score) + 1
    {
      puck.SetFired(false);
      goalSound.Play();
      score := score + 1;
    }

    /** The state of a puck `gameSystem` has just shot: fired, its body at
        the shot origin and moving. */
    static function Launched(s: PuckState): (r: PuckState)
      ensures r.isFired && r.bodyPosition == ShotOrigin && !r.bodyAtRest
      ensures r.(isFired := s.isFired, bodyPosition := s.bodyPosition, bodyAtRest := s.bodyAtRest) == s
    {
      s.(isFired := true, bodyPosition := ShotOrigin, bodyAtRest := false)
    }

    /** `gameSystem()` for one frame. On a pointer-down while the match runs
        and no recall is in flight, a puck is taken from the pool, the slap
        plays, the puck is fired from the shot origin, the held puck hides
        and the recall timer is created. When the pool has nothing to give,
        `get` throws and the frame does nothing more (PoolExhausted).
        `newEntity` is the handle a newly allocated puck would get. */
    method GameSystem(pointerDown: bool, newEntity: nat) returns (outcome: ShotOutcome)
      requires Valid() && pool.Valid()
      modifies this, timers, pool, world`materials, slapSound, if |pool.pool| > 0 then {pool.pool[|pool.pool| - 1]} else {}
      ensures Valid() && pool.Valid()
      ensures var tries := pointerDown && old(isGameStarted) && !old(isRecalling);
        && (outcome.Shot? <==> tries && (|old(pool.pool)| > 0 || |old(pool.activeObjects)| < PuckPool.MAX_POOL))
        && (outcome.PoolExhausted? <==> tries && |old(pool.pool)| == 0 && |old(pool.activeObjects)| >= PuckPool.MAX_POOL)
      ensures !outcome.Shot? ==>
        && unchanged(this, timers, slapSound)
        && pool.pool == old(pool.pool) && pool.allObjects == old(pool.allObjects)
        && pool.activeObjects == old(pool.activeObjects) && pool.scheduled == old(pool.scheduled)
        && (|old(pool.pool)| > 0 ==> unchanged(old(pool.pool)[|old(pool.pool)| - 1]))
        && world.materials == old(world.materials)
      ensures outcome.Shot? ==>
        var puck := outcome.puck;
        && pool.activeObjects == old(pool.activeObjects) + [puck]
        && pool.scheduled == old(pool.scheduled) + multiset{puck}
        && (|old(pool.pool)| > 0 ==>
              && puck == old(pool.pool)[|old(pool.pool)| - 1]
              && puck.State() == Launched(old(puck.State()).(position := Spawn, visible := true, bodyAtRest := true))
              && pool.pool == old(pool.pool)[..|old(pool.pool)| - 1]
              && pool.allObjects == old(pool.allObjects)
              && world.materials == old(world.materials))
        && (|old(pool.pool)| == 0 ==>
              && fresh(puck) && puck.entity == newEntity
              && puck.State() == Launched(PuckState(false, false, true, Spawn, Spawn, true, false))
              && pool.pool == old(pool.pool)
              && pool.allObjects == old(pool.allObjects) + [puck]
              && Materials.PuckMaterial in world.materials && fresh(world.materials[Materials.PuckMaterial])
              && world.materials == old(world.materials)[Materials.PuckMaterial := world.materials[Materials.PuckMaterial]])
        && slapSound.State() == Audio.Played(old(slapSound.State()))
        && isRecalling && !holderShown
        && score == old(score) && time == old(time) && isGameStarted && sign == old(sign)
        && timers.list == Timers.Created(old(timers.list), RECALL_TIMER, RECALL_SPEED, old(timers.nextId), false)
    {
      if pointerDown && isGameStarted && !isRecalling {
        var got := pool.Get(world, newEntity);
        if got.None? {
          return PoolExhausted;
        }
        Shoot(got.value);
        outcome := Shot(got.value);
      } else {
        outcome := NoShot;
      }
    }

    /** The shot itself, once the pool has handed out `puck`. */
    method Shoot(puck: Puck)
      requires Valid()
      modifies this, timers, slapSound, puck
      ensures Valid()
      ensures puck.State() == Launched(old(puck.State()))
      ensures slapSound.State() == Audio.Played(old(slapSound.State()))
      ensures isRecalling && !holderShown
      ensures score == old(score) && time == old(time) && isGameStarted == old(isGameStarted) && sign == old(sign)
      ensures timers.list == Timers.Created(old(timers.list), RECALL_TIMER, RECALL_SPEED, old(timers.nextId), false)
    {
      slapSound.Play();
      puck.SetFired(true);
      puck.bodyPosition := ShotOrigin;
      puck.bodyAtRest := false;
      isRecalling := true;
      holderShown := false;
      var _ := timers.Create(RECALL_TIMER, RECALL_SPEED, false);
    }

    /** `updateSystem(dt)`: while a match runs, the three actors mirror their
        entities onto their bodies, the active pucks sync with their bodies
        and the physics world steps. */
    method UpdateSystem(dt: real)
      requires Valid()
      modifies goalkeeper, farTender, nearTender, world`lastStep, (set p | p in pool.activeObjects)`position
      ensures isGameStarted ==>
        && goalkeeper.State() == Goalkeepers.Mirrored(old(goalkeeper.State()))
        && farTender.State() == Goaltenders.Mirrored(old(farTender.State()))
        && nearTender.State() == Goaltenders.Mirrored(old(nearTender.State()))
        && (forall p :: p in pool.activeObjects ==> p.State() == Synced(old(p.State())))
        && world.lastStep == Some(PhysWorld.StepCall(PhysWorld.FIXED_TIME_STEPS, dt, PhysWorld.MAX_TIME_STEPS))
      ensures !isGameStarted ==>
        unchanged(goalkeeper, farTender, nearTender, world) && (forall p :: p in pool.activeObjects ==> unchanged(p))
    {
      if isGameStarted {
        goalkeeper.Update();
        farTender.Update();
        nearTender.Update();
        pool.Update();
        world.Update(dt);
      }
    }
  }
}
