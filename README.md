# Hockey shooting minigame: a Dafny model

This project models the game logic of a hockey shooting minigame for a
3D scene engine. The player walks into a play zone and a countdown runs on
the scoreboard. Then a 60-second match starts, and each pointer press
shoots a puck at a goal guarded by a goalkeeper and two goaltenders. Each
puck that reaches the goal zone while time is left scores a goal. Leaving
the zone, or the clock running out, ends the match.

The model covers two generations of the match controller:

- the current controller, `src/core/game.ts` (module `CoreGame`);
- the earlier controller, `src/game.ts` (module `LegacyGame`).

It also covers what the controllers use:

- the named interval registry, `src/core/timers.ts` (`Timers`);
- the puck pool, `src/entites/pool.ts` (`PuckPool`);
- the puck, `src/entites/puck.ts` (`Pucks`);
- the patrolling actors: `src/entites/goalkeeper.ts` (`Goalkeepers`), `src/entites/goaltender.ts` (`Goaltenders`) and `src/defender.ts` (`Defenders`);
- both physics-world wrappers, `src/core/physWorld.ts` (`PhysWorld`) and `src/physWorld.ts` (`LegacyPhysWorld`);
- the sound wrapper, `src/sound.ts` (`Audio`), which both controllers use (see "## Left out" for `src/core/sound.ts`).

Every source class whose fields change in place is a Dafny `class` with
the same fields. Each such class has a `State()` snapshot datatype. Each
method's `ensures` ties the new state to a pure function of the old one
(for example `Goaltenders.Started`), and lemmas prove the properties of
those functions. Engine callbacks become event methods whose `requires`
says that the event is pending. These callbacks are timer fires, tween
completions, trigger-zone entries and exits, the 100 ms sound restart,
the pool's 5000 ms expiry and the per-frame systems. Positions are
abstracted to named waypoints (`Patrol.Waypoint`) and to the two puck
spots (`Pucks.Position`).

In these places the model follows the code as written:

- `timers.create` reads only the `delay` and `immediately` options. The recall timer is created with `maxCount: 1`, an option `create` never reads, so it keeps firing until `end` removes it (`CoreGame.RecallTimerKeepsFiring`).
- In `src/core/game.ts`, `update` ends the match only when the clock reaches 0. Reaching 30 goals with time left does not end it (`CoreGame.NoEarlyFinish`). In `src/game.ts`, `update` ends the match at once on 30 goals (`LegacyGame.WinEndsAtOnce`).
- `getMaterial` returns `undefined` for a name that was never created, so it is modelled as an `Option`.
- The pool's `deactivate` filters the puck out of the active list and pushes it onto the recycle stack with no check, so a second call for the same puck would push it twice. The code schedules exactly one deactivation per activation, and the model delivers exactly that one. `get` pops the most recently recycled puck.
- The goalkeeper's `reset` keeps its direction and puts its body on the base waypoint. The goaltender and the defender park the body 100 units up and set the direction back to 1.
- The enter callback of the play zone runs `init` whether or not a match is running, so a second entry restarts the countdown (`CoreGame.Game.EnterZone`).
- The goal handler and the shot in `src/core/game.ts` use `puck.isActive` and `puck.setActive`. The puck class of `src/entites/puck.ts` defines `isFired` and `setFired`, which the model uses.
- `src/game.ts` imports `src/puck.ts`, whose puck has no body and no `isStarted`, `start`, `stop` or `update`. The calls the controller makes match the puck of `src/entites/puck.ts`, so the model uses that puck, built by its `Held` constructor.

## Model

| member | source | states |
|---|---|---|
| Timers.Created | src/core/timers.ts:17-43 | after `create`, the name has a record with the new handle, the delay and count 1 with `immediately` (0 without); other names keep their records |
| Timers.Fired | src/core/timers.ts:22-28 | a fire adds one to that timer's count only; no record is added or dropped |
| Timers.Removed | src/core/timers.ts:45-51 | `remove` drops the name's record and keeps the others; removing an absent name changes nothing |
| Timers.FiredTimes | src/core/timers.ts:22-28 | repeated fires keep the set of names |
| Timers.FiredTimesCount | src/core/timers.ts:22-28 | after k fires the count grew by exactly k and every other record is unchanged |
| Timers.CreatedThenFired | src/core/timers.ts:17-43 | a freshly created timer shows k fires after k fires, k+1 if created with `immediately` |
| Timers.ConsistentAfterCreate | src/core/timers.ts:22-34 | storing a record under a new name with a new handle keeps records and live intervals in one-to-one correspondence |
| Timers.TimerRegistry.constructor | src/core/timers.ts:13-15 | the registry starts empty, with no live interval |
| Timers.TimerRegistry.Get | src/core/timers.ts:53-55 | a record exists exactly for a name created and not removed, and its handle is a live interval that captured that name |
| Timers.TimerRegistry.Create | src/core/timers.ts:17-43 | the records become `Created(...)`; an old interval under the name is cleared before the new one is registered; the callback runs at once exactly with `immediately`; the registry invariant is kept |
| Timers.TimerRegistry.Store | src/core/timers.ts:22-34 | a new name gets a record and a fresh live interval, keeping the invariant |
| Timers.TimerRegistry.Remove | src/core/timers.ts:45-51 | the records become `Removed(...)` and the name's interval is cleared, keeping the invariant |
| Timers.TimerRegistry.Fire | src/core/timers.ts:22-28 | a fire of a live timer becomes `Fired(...)`, keeping the invariant |
| Timers.OneIntervalPerName | src/core/timers.ts:17-20 | at most one live interval belongs to any name |
| Audio.Played | src/sound.ts:22-29 | `play` on a silent sound starts it; on a playing one it stops it and schedules one restart |
| Audio.Stopped | src/sound.ts:31-33 | `stop` clears the playing flag and cancels no pending restart |
| Audio.Restarted | src/sound.ts:25 | a pending restart sets the flag again |
| Audio.StopDoesNotCancelRestart | src/sound.ts:22-33 | playing twice and then stopping leaves the sound silent, but the pending restart makes it play again |
| Audio.Sound.constructor | src/sound.ts:7-20 | a new sound is silent with nothing pending, looping as asked |
| Audio.Sound.Play | src/sound.ts:22-29 | the sound's state becomes `Played` of the old one |
| Audio.Sound.Stop | src/sound.ts:31-33 | the sound's state becomes `Stopped` of the old one |
| Audio.Sound.RestartDue | src/sound.ts:25 | a pending restart fires: `Restarted` of the old state |
| Pucks.WithFired | src/entites/puck.ts:46-48 | `setFired(b)` sets the fired flag to b and changes nothing else |
| Pucks.Started | src/entites/puck.ts:50-54 | `start` shows the puck and marks it started, keeping the fired flag |
| Pucks.Stopped | src/entites/puck.ts:56-61 | `stop` hides the puck and clears both the started and the fired flag |
| Pucks.Synced | src/entites/puck.ts:63-68 | `update` copies the body position onto the transform only while fired; nothing else changes |
| Pucks.SyncedIdempotent | src/entites/puck.ts:63-68 | syncing twice is the same as syncing once |
| Pucks.Puck.constructor | src/entites/puck.ts:14-43 | a pool puck starts at the spawn pose, shown, unfired, body at rest, and registers a new PUCK material in the world |
| Pucks.Puck.Held | src/game.ts:83-91 | the earlier controller's puck starts hidden at the spawn offset on the player's holder |
| Pucks.Puck.SetFired | src/entites/puck.ts:46-48 | the state becomes `WithFired` of the old one |
| Pucks.Puck.Start | src/entites/puck.ts:50-54 | the state becomes `Started` of the old one |
| Pucks.Puck.Stop | src/entites/puck.ts:56-61 | the state becomes `Stopped` of the old one |
| Pucks.Puck.Update | src/entites/puck.ts:63-68 | the state becomes `Synced` of the old one |
| PuckPool.Without | src/entites/pool.ts:47 | filtering out a puck removes it and keeps every other puck |
| PuckPool.WithoutMultiset | src/entites/pool.ts:47 | filtering removes every occurrence of the puck and only those |
| PuckPool.ExactlyOneHome | src/entites/pool.ts:8-10 | every allocated puck is either active or recycled, never both, and active at most once |
| PuckPool.PartitionSizes | src/entites/pool.ts:8-10 | the allocated count is the active count plus the recycled count |
| PuckPool.AllocationWithinBound | src/entites/pool.ts:24-31 | allocating with an empty recycle stack and fewer than 15 active pucks keeps at most 15 allocated |
| PuckPool.PartitionedAfterReuse | src/entites/pool.ts:15-23 | popping the recycle stack into the active list keeps the partition |
| PuckPool.PartitionedAfterAllocation | src/entites/pool.ts:24-31 | a new puck appended to the allocated and active lists keeps the partition and distinctness |
| PuckPool.PartitionedAfterDeactivation | src/entites/pool.ts:46-50 | moving an active puck onto the recycle stack keeps the partition |
| PuckPool.FirstWithEntity | src/entites/pool.ts:64-66 | `find` returns the first index whose puck has the entity, or none when no puck has it |
| PuckPool.Pool.constructor | src/entites/pool.ts:6-10 | the pool starts with all three lists empty and nothing scheduled |
| PuckPool.Pool.Get | src/entites/pool.ts:12-39 | `get` fails exactly when nothing is recycled and 15 pucks are active; otherwise it reuses the top of the recycle stack (reset to the spawn pose, shown, at rest) or allocates a new puck; the returned puck is active with one deactivation scheduled; the invariant is kept |
| PuckPool.Pool.Reuse | src/entites/pool.ts:15-23 | pops the top of the recycle stack and resets it to the spawn pose, shown and at rest |
| PuckPool.Pool.Allocate | src/entites/pool.ts:24-31 | a fresh puck in the spawn state is appended to the allocated list, within the bound |
| PuckPool.Pool.Activate | src/entites/pool.ts:41-44 | the puck is appended to the active list and one deactivation is scheduled for it |
| PuckPool.Pool.Expire | src/entites/pool.ts:46-50 | a scheduled deactivation takes the puck out of the active list, unfires it and pushes it onto the recycle stack; the allocated list is unchanged |
| PuckPool.Pool.Update | src/entites/pool.ts:52-54 | every active puck is synced and no other puck changes |
| PuckPool.Pool.Clear | src/entites/pool.ts:56-62 | every allocated puck is hidden and unfired, and the lists are unchanged |
| PuckPool.Pool.GetBy | src/entites/pool.ts:64-66 | finds an allocated puck, active or recycled, with the entity, and returns none exactly when no allocated puck has it |
| PuckPool.AllocatedWithinBound | src/entites/pool.ts:7 | the pool never holds more than 15 allocated pucks |
| PhysWorld.World.constructor | src/core/physWorld.ts:21-63 | the world registers new PUCK, WALL and GROUND materials; the debug plane is never added because the flag is still false |
| PhysWorld.World.CreateMaterial | src/core/physWorld.ts:69-73 | a new material replaces the name's entry and other names keep theirs |
| PhysWorld.World.GetMaterial | src/core/physWorld.ts:75-77 | returns the registered material, or none exactly when the name is unregistered |
| PhysWorld.World.SetDebugDraw | src/core/physWorld.ts:87-89 | stores the debug flag |
| PhysWorld.World.Update | src/core/physWorld.ts:65-67 | one step is handed to the physics library with step 1/60 s, the frame time and at most 3 sub-steps |
| LegacyPhysWorld.World.constructor | src/physWorld.ts:13-60 | only GROUND is registered, and the debug plane is always added |
| LegacyPhysWorld.World.CreateMaterial | src/physWorld.ts:62-66 | create-or-replace of one entry; the others are unchanged |
| LegacyPhysWorld.World.GetMaterial | src/physWorld.ts:68-70 | the registered material, or none exactly when unregistered |
| LegacyPhysWorld.World.Step | src/game.ts:188 | the step taken on the exposed world is recorded with its arguments |
| LegacyPhysWorld.PuckUnregisteredAtStart | src/physWorld.ts:24 | right after construction the PUCK and WALL materials are missing |
| Materials.Material.constructor | src/core/physWorld.ts:69-71 | a material carries the name it was created with |
| Goalkeepers.Started | src/entites/goalkeeper.ts:83-100 | `start` does nothing when ready; otherwise it puts the body on the entity, shows the model and starts the pop-up |
| Goalkeepers.Moved | src/entites/goalkeeper.ts:115-132 | while ready, a leg starts: the direction becomes 1 after a negative one and -1 otherwise, toward left on -1 and right on 1 |
| Goalkeepers.PoppedUp | src/entites/goalkeeper.ts:94-97 | after the pop-up the keeper is ready and walks its first leg, of 1 s |
| Goalkeepers.LegEnded | src/entites/goalkeeper.ts:125-129 | a finished leg leaves the keeper on its target and starts a 2 s leg only if it is still ready |
| Goalkeepers.Stopped | src/entites/goalkeeper.ts:102-113 | `stop` clears readiness, cancels the leg and starts the pop-down, keeping position and direction |
| Goalkeepers.Reset | src/entites/goalkeeper.ts:134-147 | the entity and the body go to the base waypoint and the model is hidden; the direction is kept |
| Goalkeepers.Mirrored | src/entites/goalkeeper.ts:73-81 | `update` copies the entity position onto the body only while ready |
| Goalkeepers.Patrolled | src/entites/goalkeeper.ts:115-132 | a ready keeper stays ready with a leg in flight after any number of leg ends |
| Goalkeepers.PatrolAlternates | src/entites/goalkeeper.ts:94-132 | from a new keeper the legs go left, right, left and so on, the first taking 1 s and the rest 2 s |
| Goalkeepers.RestartTurnsAround | src/entites/goalkeeper.ts:102-147 | since `reset` keeps the direction, a restarted keeper first walks the other way |
| Goalkeepers.Goalkeeper.constructor | src/entites/goalkeeper.ts:9-71 | a new keeper is on the base waypoint with its body, hidden, not ready, direction 0 |
| Goalkeepers.Goalkeeper.Update | src/entites/goalkeeper.ts:73-81 | the state becomes `Mirrored` of the old one |
| Goalkeepers.Goalkeeper.Start | src/entites/goalkeeper.ts:83-100 | the state becomes `Started` of the old one |
| Goalkeepers.Goalkeeper.PopUpDone | src/entites/goalkeeper.ts:94-97 | the state becomes `PoppedUp` of the old one |
| Goalkeepers.Goalkeeper.Stop | src/entites/goalkeeper.ts:102-113 | the state becomes `Stopped` of the old one |
| Goalkeepers.Goalkeeper.PopDownDone | src/entites/goalkeeper.ts:134-147 | the state becomes `Reset` of the old one |
| Goalkeepers.Goalkeeper.Move | src/entites/goalkeeper.ts:115-132 | the state becomes `Moved` of the old one |
| Goalkeepers.Goalkeeper.LegDone | src/entites/goalkeeper.ts:125-129 | the state becomes `LegEnded` of the old one |
| Goaltenders.Started | src/entites/goaltender.ts:88-106 | `start` does nothing when started or ready; otherwise it marks the tender started, unparks the body onto the entity, shows the model and starts the pop-up |
| Goaltenders.Moved | src/entites/goaltender.ts:138-163 | while ready, a leg starts toward right when the direction is 1 and toward left otherwise, at the tender's speed |
| Goaltenders.PoppedUp | src/entites/goaltender.ts:100-103 | after the pop-up the tender is ready and walks its first leg |
| Goaltenders.LegEnded | src/entites/goaltender.ts:147-160 | a finished leg leaves the tender on its target, and only if it is still ready the direction flips and the next leg starts |
| Goaltenders.Stopped | src/entites/goaltender.ts:108-121 | `stop` clears both flags, cancels the leg and starts the pop-down, keeping position and direction |
| Goaltenders.Reset | src/entites/goaltender.ts:123-136 | the entity goes to the left waypoint, the body is parked, the model hidden and the direction set back to 1 |
| Goaltenders.Mirrored | src/entites/goaltender.ts:78-86 | `update` unparks the body onto the entity only while ready |
| Goaltenders.StartIdempotent | src/entites/goaltender.ts:88-90 | starting twice is starting once |
| Goaltenders.StopThenResetIsConstructed | src/entites/goaltender.ts:108-136 | a stop followed by the pop-down's reset brings any tender back to the constructed state |
| Goaltenders.Patrolled | src/entites/goaltender.ts:138-163 | a ready tender stays ready with a leg in flight after any number of leg ends |
| Goaltenders.PatrolAlternates | src/entites/goaltender.ts:138-163 | from a new tender the legs go right, left, right and so on, with the direction alternating |
| Goaltenders.Goaltender.constructor | src/entites/goaltender.ts:29-76 | a new tender is on the left waypoint with its body parked, hidden, direction 1, at the given speed |
| Goaltenders.Goaltender.Update | src/entites/goaltender.ts:78-86 | the state becomes `Mirrored` of the old one |
| Goaltenders.Goaltender.Start | src/entites/goaltender.ts:88-106 | the state becomes `Started` of the old one |
| Goaltenders.Goaltender.PopUpDone | src/entites/goaltender.ts:100-103 | the state becomes `PoppedUp` of the old one |
| Goaltenders.Goaltender.Stop | src/entites/goaltender.ts:108-121 | the state becomes `Stopped` of the old one, and the tender's named timer is removed from the registry |
| Goaltenders.Goaltender.PopDownDone | src/entites/goaltender.ts:123-136 | the state becomes `Reset` of the old one |
| Goaltenders.Goaltender.Move | src/entites/goaltender.ts:138-163 | the state becomes `Moved` of the old one |
| Goaltenders.Goaltender.LegDone | src/entites/goaltender.ts:147-160 | the state becomes `LegEnded` of the old one |
| Defenders.Started | src/defender.ts:78-95 | `start` does nothing when ready; otherwise it unparks the body onto the entity, shows the model and starts the pop-up, also while a pop-up is already running |
| Defenders.Moved | src/defender.ts:133-158 | while ready, a leg starts toward right when the direction is 1 and toward left otherwise, at the defender's speed |
| Defenders.PoppedUp | src/defender.ts:89-92 | after the pop-up the defender is ready and walks its first leg |
| Defenders.LegEnded | src/defender.ts:142-155 | a finished leg leaves the defender on its target, and only if it is still ready the direction flips and the next leg starts |
| Defenders.Stopped | src/defender.ts:97-108 | `stop` clears readiness, cancels the leg and starts the pop-down, keeping position and direction |
| Defenders.Reset | src/defender.ts:110-131 | the entity goes to the left waypoint, the body is parked, the model hidden and the direction set back to 1 |
| Defenders.Mirrored | src/defender.ts:68-76 | `update` unparks the body onto the entity only while ready |
| Defenders.StopThenResetIsConstructed | src/defender.ts:97-131 | a stop followed by the pop-down's reset brings any defender back to the constructed state |
| Defenders.StartDuringPopUpRestartsIt | src/defender.ts:78-95 | a `start` during a pop-up, while not yet ready, restarts the pop-up, and a second `start` changes nothing more |
| Defenders.Patrolled | src/defender.ts:133-158 | a ready defender stays ready with a leg in flight after any number of leg ends |
| Defenders.PatrolAlternates | src/defender.ts:133-158 | from a new defender the legs go right, left, right and so on, with the direction alternating |
| Defenders.Defender.constructor | src/defender.ts:26-66 | a new defender is on the left waypoint with its body parked, hidden, direction 1, at the given speed |
| Defenders.Defender.Update | src/defender.ts:68-76 | the state becomes `Mirrored` of the old one |
| Defenders.Defender.Start | src/defender.ts:78-95 | the state becomes `Started` of the old one |
| Defenders.Defender.PopUpDone | src/defender.ts:89-92 | the state becomes `PoppedUp` of the old one |
| Defenders.Defender.Stop | src/defender.ts:97-108 | the state becomes `Stopped` of the old one |
| Defenders.Defender.PopDownDone | src/defender.ts:110-131 | the state becomes `Reset` of the old one |
| Defenders.Defender.Move | src/defender.ts:133-158 | the state becomes `Moved` of the old one |
| Defenders.Defender.LegDone | src/defender.ts:142-155 | the state becomes `LegEnded` of the old one |
| CoreGame.UpdatePlan | src/core/game.ts:253-269 | `update` ends the match exactly when no time is left, with "WINNER!" exactly when the score reached 30 and "TRY AGAIN" otherwise; the far tender starts exactly at 45 s or 10 goals, the near one exactly at 30 s or 15 goals |
| CoreGame.NoEarlyFinish | src/core/game.ts:254 | with time left, `update` never ends the match, whatever the score |
| CoreGame.CountdownCaption | src/core/game.ts:143-161 | the start timer shows a caption exactly on counts 1 to 4 |
| CoreGame.CountdownSequence | src/core/game.ts:276 | created with `immediately`, the start timer shows counts 1, 2, 3, 4 on its first callbacks |
| CoreGame.RecallTimerKeepsFiring | src/core/game.ts:232-239 | the recall timer's `maxCount: 1` is not honoured: after k fires its count is k and it is still registered |
| CoreGame.EndRemovals | src/core/game.ts:290-303 | after `end`, neither the three match timers nor the tenders' timer are registered |
| CoreGame.EndRemovalsAfterFire | src/core/game.ts:290-292 | a fire of a timer that `end` removes leaves no trace once `end` has run |
| CoreGame.ClockRunsOut | src/core/game.ts:253-258 | without goals, a match with t seconds left ends after exactly t clock fires, with the caption set by the score |
| CoreGame.Game.constructor | src/core/game.ts:54-101 | `new Game(debug).run()` hands the debug flag to the physics world, builds the sign, the pool, the keeper and the tenders at speeds 2 and 1.6; of the seven sounds only the looping ambient one plays |
| CoreGame.Game.SetupSounds | src/core/game.ts:185-194 | seven new, distinct sounds; only the game and ambient sounds loop; the ambient one plays and the other six are silent |
| CoreGame.Game.RemoveMatchTimers | src/core/game.ts:290-292 | the start, clock and recall timers are removed |
| CoreGame.Game.StopActors | src/core/game.ts:301-303 | the keeper and both tenders stop, and each tender removes its timer |
| CoreGame.Game.StopMatch | src/core/game.ts:290-303 | timers removed; the whistle plays only if a match was running; start and game sounds stop; the actors stop |
| CoreGame.Game.ResetBoard | src/core/game.ts:304-311 | the sign shows the caption; score, time and flags are zeroed; every puck is hidden and unfired; the holder is hidden |
| CoreGame.Game.End | src/core/game.ts:289-312 | `end(text)` leaves the controller idle as described by `Ended`, keeping its invariant |
| CoreGame.Game.Update | src/core/game.ts:253-269 | `update` follows `UpdatePlan`: it ends the match with the plan's caption (through `end`, with the intended disc reset), or shows time and score and starts the tenders the plan names, changing nothing else |
| CoreGame.Game.Advance | src/core/game.ts:260-268 | with time left, the tenders due start and the sign shows time and score against 30 |
| CoreGame.Game.Start | src/core/game.ts:279-287 | score 0, 60 s on the clock, the horn, the one-second clock timer, the keeper starts, the holder shows, the match runs |
| CoreGame.Game.UpdateStartTimer | src/core/game.ts:143-161 | counts 1 to 3 show their captions; count 4 shows "GOOOO!!!", removes the start timer and starts the match |
| CoreGame.Game.EnterZone | src/core/game.ts:120-123 | `init` plays the start and game sounds and creates the start timer with `immediately`, so the first caption shows at once; the ambient sound stops |
| CoreGame.Game.LeaveZone | src/core/game.ts:124-127 | `end()` with an empty caption, then the ambient sound plays |
| CoreGame.Game.StartTimerFired | src/core/game.ts:276 | a start-timer fire raises its count and runs the countdown step for the new count |
| CoreGame.Game.Tick | src/core/game.ts:283 | a clock fire raises the timer's count and takes one second off |
| CoreGame.Game.UpdateTimerFired | src/core/game.ts:283 | a clock fire takes one second off and then follows `UpdatePlan` for the new time: the match ends, or goes on with the tenders due |
| CoreGame.Game.EndedIgnoresTick | src/core/game.ts:283 | ending after a tick leaves the same state as ending before it |
| CoreGame.Game.RecallTimerFired | src/core/game.ts:234-237 | a recall fire shows the holder again and allows the next shot |
| CoreGame.Game.Goal | src/core/game.ts:171-179 | a goal scores exactly when the entity is a pool puck that is fired while time is left; then the puck is unfired, the goal sound plays and `update` runs with the score one higher; an unknown entity or an unfired puck changes nothing |
| CoreGame.Game.Score | src/core/game.ts:174-177 | the scoring branch unfires the puck, plays the goal sound and continues the match with one more goal |
| CoreGame.Game.CountGoal | src/core/game.ts:174-177 | the puck is unfired, the goal sound plays and the score rises by one |
| CoreGame.Game.Launched | src/core/game.ts:210-228 | a shot puck is fired, its body at the shot origin and moving; nothing else changes |
| CoreGame.Game.GameSystem | src/core/game.ts:201-241 | a press while the match runs and no recall is pending takes a puck from the pool and shoots it. A reused puck is popped off the recycle stack, with the allocated list and the materials unchanged. A new puck is appended to the allocated list and PUCK is re-created. Either way the puck joins the active list with one expiry scheduled. An exhausted pool or any other frame changes nothing |
| CoreGame.Game.Shoot | src/core/game.ts:206-239 | the slap sound plays, the puck is launched, the holder hides and the recall timer starts |
| CoreGame.Game.UpdateSystem | src/core/game.ts:243-251 | while the match runs the actors mirror, the active pucks sync and the world steps; otherwise nothing changes |
| LegacyGame.UpdatePlan | src/game.ts:206-224 | `update` ends the match exactly when time is out or the score reached 30, with "YOU WON" exactly at 30 and "YOU LOSE" otherwise; below 45 s the left defender is started and below 30 s the right one |
| LegacyGame.WinEndsAtOnce | src/game.ts:207-213 | reaching 30 goals ends the match at once with "YOU WON", whatever time is left |
| LegacyGame.ClockRunsOut | src/game.ts:206-213 | short of 30 goals, a match with t seconds left ends after exactly t ticks with "YOU LOSE" |
| LegacyGame.DiscReset | src/game.ts:272-278 | the corrected `resetDisc`: the body comes to rest and the puck goes back to the player's holder at the spawn offset |
| LegacyGame.Shot | src/game.ts:151-174 | a shot fires the puck, detaches it from the holder, and puts its body at the shot origin, moving |
| LegacyGame.Pressed | src/game.ts:148-183 | a press shoots an unfired puck and recalls a fired one |
| LegacyGame.TwoPressesReturnThePuck | src/game.ts:148-183 | with the corrected reset, a shot followed by a recall returns the puck to the holder, unfired and at rest |
| LegacyGame.DiscResetAsWritten | src/game.ts:272-278 | as written, `resetDisc` parents the puck to an unset field, so the puck leaves the player's holder |
| LegacyGame.PressedAsWritten | src/game.ts:148-183 | a press with the as-written reset |
| LegacyGame.RecallAsWrittenStrandsThePuck | src/game.ts:272-278 | as written, a shot followed by a recall leaves the puck off the holder, unlike the corrected model |
| LegacyGame.Game.constructor | src/game.ts:57-94 | a blank sign, the keeper, defenders at speeds 2 and 1.6, the held puck hidden on the holder, five silent sounds of which only the game one loops, and the physics world it steps, on which `new Base` (src/game.ts:93, src/base.ts:13) registers a fresh WALL material, other materials unchanged |
| LegacyGame.Game.SetupSounds | src/game.ts:198-204 | five new, distinct, silent sounds; only the game sound loops |
| LegacyGame.Game.StopMatch | src/game.ts:235-240 | the start timeout is cleared, the start and game sounds stop, the whistle always plays, the sign's clock stops |
| LegacyGame.Game.StopActors | src/game.ts:241-244 | the puck, the keeper and both defenders stop |
| LegacyGame.Game.ResetDisc | src/game.ts:272-278 | the puck's state becomes `DiscReset` of the old one: the intended reset, onto the holder (see Findings) |
| LegacyGame.Game.ResetBoard | src/game.ts:245-248 | the sign shows the caption, score and time are zeroed and the disc is reset |
| LegacyGame.Game.End | src/game.ts:235-249 | `end(text)` leaves the controller idle as described by `Ended`, keeping its invariant |
| LegacyGame.Game.Update | src/game.ts:206-224 | `update` follows `UpdatePlan`: it ends the match with the plan's caption, or shows "time \| score / 30" and starts the defenders due |
| LegacyGame.Game.Advance | src/game.ts:216-223 | the sign line and the defenders due while the match goes on |
| LegacyGame.Game.Start | src/game.ts:226-233 | the horn, score 0, 60 s, the sign's clock runs, the keeper and the puck start |
| LegacyGame.Game.EnterZone | src/game.ts:109-114 | the start and game sounds play and a start is scheduled 9500 ms later |
| LegacyGame.Game.LeaveZone | src/game.ts:115 | `end()` with an empty caption, with the intended disc reset |
| LegacyGame.Game.StartDue | src/game.ts:113 | a scheduled start fires and runs `start`, even when another entry has scheduled a later one |
| LegacyGame.Game.ClockTick | src/game.ts:230 | a tick takes one second off and follows `UpdatePlan` for the new time; an ending tick runs `end` with the intended disc reset |
| LegacyGame.Game.Goal | src/game.ts:132-137 | any entity entering the goal zone scores exactly when the puck is fired and time is left; the puck stays fired; then the goal sound plays and `update` runs with one more goal |
| LegacyGame.Game.PointerSystem | src/game.ts:144-184 | a press on a started puck acts as `Pressed`; any other frame changes nothing |
| LegacyGame.Game.FrameSystem | src/game.ts:187-193 | each frame the world steps with step 1/60 s, the frame time and at most 3 sub-steps; the keeper and the defenders mirror and the puck syncs |

## Left out

- Rendering, models, animations of the scene, camera-mode areas, avatar modifiers and the trigger-zone geometry: only the callbacks the zones run are modelled.
- The physics simulation: bodies move only through the game's own code, the shot impulse and its random vertical part are not modelled, and each `world.step` is recorded by its arguments only (`PhysWorld.World.Update`, `LegacyPhysWorld.World.Step`).
- The shot direction from the camera: the shot origin is one abstract position.
- Tween easing, rotation angles and durations other than the goalkeeper's leg times: tweens are modelled by the callback they schedule.
- Debug cubes and the debug ground plane's geometry: only whether the plane is added.
- `src/sign.ts` and `src/goaltender.ts` are not part of this model. The earlier controller's sign is its caption plus a running clock flag, and its goaltender is the goalkeeper of `src/entites/goalkeeper.ts`.
- `src/base.ts`: only its registration of the WALL material on the earlier world is modelled, in `LegacyGame.Game.constructor`. Its wall/puck contact material, its static colliders and both static-geometry factories are not part of this model, because the simulation they feed is not modelled.
- CoreGame: `src/core/sound.ts`, which `src/core/game.ts` imports, is not part of this model. Its `Sound` is modelled as the `Sound` of `src/sound.ts` (`Audio`).
- The earlier controller's `recallDiscSystem` and `isRecalling`: the system is never registered and the flag is never set.
- The earlier controller's slap sound goes through the engine's one-shot helper and is counted in `slapShots` only.
- Scoreboard rendering: the sign is the caption, or the time, score and target it is told to show.
- LegacyGame.Game.ResetDisc, End, ResetBoard, PointerSystem, Update, LeaveZone, ClockTick, Goal: use the corrected `resetDisc` (see Findings), so the puck goes back on the holder. As written, src/game.ts:276 parents it to an unassigned field, and after every recall and every `end` the puck sits detached at the spawn offset from the scene origin. `LegacyGame.DiscResetAsWritten` and `LegacyGame.PressedAsWritten` model that behaviour.
- LegacyGame.Game.Update: the ending branch ensures `Ended`, so it carries the corrected disc reset (see the line above).
- LegacyGame.Game.LeaveZone: `end('')` is ensured as `Ended`, with the corrected disc reset.
- LegacyGame.Game.ClockTick: the tick that ends the match ensures `Ended`, with the corrected disc reset.
- LegacyGame.Game.Goal: a goal that ends the match ensures `Ended`, with the corrected disc reset.
- CoreGame.Game: the timer registry's and the pool's own invariants are kept by their own modules' methods (as `old(Valid()) ==> Valid()`); of the controller's event methods only the constructor and `GameSystem` restate the pool invariant.

## Findings

| source | as written | input that shows it | evidently intended | confidence | as-written member | corrected member |
|---|---|---|---|---|---|---|
| src/game.ts:276 | `resetDisc` sets the puck's parent to the `puckParent` field, which is never assigned: `setupGameObjects` (line 83) builds the holder in a local of the same name | a press on an unfired started puck, then a second press: the puck ends detached from the player at the spawn offset from the scene origin | the recalled puck goes back onto the player's holder, where it was built | medium, not executed | LegacyGame.RecallAsWrittenStrandsThePuck | LegacyGame.TwoPressesReturnThePuck |
