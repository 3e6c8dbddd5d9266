# Ascension — a verified model of the game state

Ascension is a two-phase pygame arcade game. In phase one a runner jumps
and attacks orbs that scroll in from the right. A click that breaks at
least one orb adds 30 to an energy bar that loses a quarter every tick. At
250 the game switches to phase two, where a flyer collects orbs and dodges
fireballs: a tick in which the flyer touches any orb adds 30, and a tick in
which it touches any fireball takes 20, however many it touched. At
500 the game is won and the finish time is compared with the best time kept
in `best_score.txt`. At 0 the game is lost. A retry button on either end
screen starts a new game.

This project models the state beneath the drawing and the sound: the two
characters, the projectiles, the collide-and-remove registry, the energy
bar with its phase flags, the best-time rule, the event handling and one
whole tick of the main loop. It proves properties of that state. Two
versions of the game exist: the `src/` package and the older single-file
`main.py`. Both are modelled. `Variant.Current` selects `src/` and
`Variant.Legacy` selects `main.py`. They behave differently in two places:
- the legacy runner's move has no horizontal screen clamp;
- the legacy retry does not clear the victory flag.

Layout, one module per file:

- `geometry.dfy`: pygame rectangles, Python's `int()` on a float
  (truncation toward zero) and `random.randint` with the draw as a
  parameter.
- `controls.dfy`: the keys sampled each tick.
- `cursor.dfy`: fractional animation cursors that wrap at a track's
  length.
- `runner.dfy`, `flyer.dfy`: the two characters. Each is a class whose
  fields are updated in place, and each method is proved against a pure
  transition function (`State() == AfterX(old(State()))`).
- `projectiles.dfy`: orbs and fireballs, and a group update with its
  despawn rule.
- `groups.dfy`: the collide-and-remove queries, and the registry class
  that owns both characters and both groups.
- `energy.dfy`: the energy bar, the phase flags, `bar_progress` and the
  best-time rule.
- `game.dfy`: one tick as a function of the game state and the tick's
  input. That input is the event queue, keys, mouse, pointer and clock.
- `game_laws.dfy`: properties of ticks and runs, namely the validity
  invariant, depletion, the phase transitions and retry.
- `loop.dfy`: the `GameLoop` class. Its methods are proved against the
  functions of `game.dfy`.

Four behaviours of the code worth knowing:
- Both characters clamp their position *before* moving, not after, so a
  rectangle can end a tick off screen (`Flyer.MovementCanLeaveScreen`).
- The best-time file is rewritten when the stored time is greater than *or
  equal to* the finish time (`Energy.UpdateBest`).
- A record that `int()` cannot parse raises an exception that stops the
  program. It is not treated as "no record". The model reports this as the
  outcome `Crashed` (`GameLaws.FullBarWins`).
- `reset` moves a character back to its start and changes nothing else.
  Velocity, animation cursors and the attack latch are kept
  (`Runner.AfterReset`, `Flyer.AfterReset`).

## Model

| member | source | states |
|---|---|---|
| Geometry.Trunc | src/character_one.py:70-74 | `int()` of a velocity is the integer between 0 and the value that is less than one away from it, so it truncates toward zero for negative velocities as well |
| Geometry.RandInt | src/orb.py:13 | a spawn coordinate lies in the inclusive range, and every value of the range is the result of some draw |
| Geometry.OverlapsIffCommonPoint | src/groups_and_collison.py:21-37 | `Overlaps`, the `colliderect` test the collision queries use, holds exactly when some pixel lies inside both rectangles |
| Cursor.Advance | src/fireball.py:26-31 | a cursor step adds the increment and restarts at 0 exactly when the sum reaches the track length, so the cursor stays in [0, length) |
| Cursor.FrameAt | src/fireball.py:31 | the frame picked by `int()` of the cursor is a valid index and the cursor lies in [index, index + 1) |
| Cursor.IterateFirstCycle | src/fireball.py:26-31 | during the first cycle the cursor after j ticks is exactly j steps, with no wrap |
| Cursor.IteratePeriodic | src/fireball.py:26-31 | when the length is a whole number k of steps, the cursor repeats every k ticks, with no drift across cycles |
| Cursor.AfterCycles | src/fireball.py:26-31 | after q full cycles and j more ticks the cursor is where j ticks from 0 put it |
| Cursor.IterateIsModulo | src/fireball.py:26-31 | after q full cycles and j more ticks the cursor is j times the step, that is (ticks × step) mod length |
| Runner.AfterInput | src/character_one.py:39-56 | space sets the vertical velocity to −25 only on the ground; `d` and `a` add and subtract 0.25, cancelling when both are held; no key at all zeroes the horizontal velocity; the mouse latches the attack; nothing else changes |
| Runner.ClampX | src/character_one.py:64-67 | the left-then-right clamp snaps a rectangle past the left edge to x = 0 and one past the right edge to x = 1112, leaves an on-screen rectangle where it is, and always puts it on screen horizontally |
| Runner.Fall | src/character_one.py:69-72 | gravity adds 1, the move is by the truncated velocity, and the bottom ends at or above 605 |
| Runner.AfterMovement | src/character_one.py:59-74 | after `apply_movement` the bottom is at most 605; vy grows by 1 and y moves by its truncation, floored at 605; x is the clamped x moved by the truncated velocity, so an on-screen runner moves by exactly the truncated velocity |
| Runner.AfterGravity | main.py:80-87 | the legacy move has the same gravity (vy grows by 1), vertical move and floor, but moves horizontally by the truncated velocity without any clamp |
| Runner.GravityAgreesOnScreen | main.py:80-87 | on screen the legacy move and the current move give the same state |
| Runner.GravityLeavesScreen | main.py:80-87 | off screen they differ: from x = −10 with velocity −3 the legacy runner reaches −13, the current one −3 |
| Runner.AfterAnimation | src/character_one.py:76-93 | the track is attack, else jump while airborne, else run; the matching cursor steps by 0.2, 0.1 or 0.3 and wraps at 6, 8 or 6; completing the attack track clears the latch; the frame shown exists |
| Runner.AfterReset | src/character_one.py:95-97 | only the position changes, to midbottom (90, 605) |
| Runner.AfterUpdate | src/character_one.py:99-103 | after a tick the bottom is at most 605; the attack track shows exactly when the latch was set or the mouse is pressed; cursor validity is preserved |
| Runner.AfterLegacyUpdate | main.py:112-116 | the same three facts for the legacy update |
| Runner.CharacterOne.constructor | src/character_one.py:27-37 | a new runner starts at midbottom (90, 605) at rest with both cursors at 0 |
| Runner.CharacterOne.Input | src/character_one.py:39-56 | updates the fields in place to `AfterInput` of the old state |
| Runner.CharacterOne.ApplyMovement | src/character_one.py:59-74 | updates the fields in place to `AfterMovement` of the old state |
| Runner.CharacterOne.ApplyGravity | main.py:80-87 | updates the fields in place to `AfterGravity` of the old state |
| Runner.CharacterOne.Animation | src/character_one.py:76-93 | updates the fields in place to `AfterAnimation` of the old state |
| Runner.CharacterOne.Reset | src/character_one.py:95-97 | updates the fields in place to `AfterReset` of the old state |
| Runner.CharacterOne.Update | src/character_one.py:99-103 | updates the fields in place to `AfterUpdate` of the old state |
| Runner.CharacterOne.LegacyUpdate | main.py:112-116 | updates the fields in place to `AfterLegacyUpdate` of the old state |
| Flyer.AfterInput | src/character_two.py:36-54 | `w` and `s` subtract and add 0.3 vertically, `d` and `a` add and subtract 0.3 horizontally; no key at all zeroes both axes; nothing else changes |
| Flyer.ClampOnce | src/character_two.py:61-68 | at most one coordinate changes; the first edge crossed, in the order left, right, bottom, top, is the one corrected; an on-screen rectangle is left alone |
| Flyer.ClampTwiceOnScreen | src/character_two.py:61-68 | two passes of the clamp always put the rectangle on screen |
| Flyer.ClampOnceMissesCorner | src/character_two.py:61-68 | one pass may not: a rectangle past the left and bottom edges is pulled back from the left only |
| Flyer.AfterMovement | src/character_two.py:56-72 | the move by both truncated velocities comes after the clamp |
| Flyer.MovementCanLeaveScreen | src/character_two.py:61-72 | an on-screen flyer at the left edge moving left ends the tick at x = −5 |
| Flyer.AfterAnimation | src/character_two.py:74-95 | the track is up while `w` is held, else down while `s` is held, else neutral; the shared cursor steps by 0.2, 0.1 or 0.1 and wraps at 4, 4 or 3; the frame shown exists |
| Flyer.AfterReset | src/character_two.py:97-99 | only the position changes, to midbottom (120, 400) |
| Flyer.AfterUpdate | src/character_two.py:101-105 | no key held stops the flyer; the track follows the keys; cursor validity is preserved |
| Flyer.CharacterTwo.constructor | src/character_two.py:27-34 | a new flyer starts at midbottom (120, 400) at rest on the neutral track |
| Flyer.CharacterTwo.Input | src/character_two.py:36-54 | updates the fields in place to `AfterInput` of the old state |
| Flyer.CharacterTwo.ApplyMovement | src/character_two.py:56-72 | updates the fields in place to `AfterMovement` of the old state, through the same `elif` chain |
| Flyer.CharacterTwo.Animation | src/character_two.py:74-95 | updates the fields in place to `AfterAnimation` of the old state |
| Flyer.CharacterTwo.Reset | src/character_two.py:97-99 | updates the fields in place to `AfterReset` of the old state |
| Flyer.CharacterTwo.Update | src/character_two.py:101-105 | updates the fields in place to `AfterUpdate` of the old state |
| Projectiles.SpawnOrb | src/orb.py:9-13 | a new orb's top-left corner lies within both inclusive ranges |
| Projectiles.SpawnFireball | src/fireball.py:9-19 | a new fireball's top-left corner lies in [1500, 1700] × [250, 600] and its cursor starts at 0 |
| Projectiles.Updated | src/fireball.py:26-37 | a fireball moves left by 25 and its cursor steps by 0.05, wrapping at 8; an orb (src/orb.py:20-22) moves left by the speed given; y never changes and the kind is kept |
| Projectiles.DespawnAfterMove | src/orb.py:15-23 | `Despawned`, the test of `disappear`, runs on the moved rectangle: a projectile leaves on the update that brings x to −100 or below (also src/fireball.py:21-37) |
| Projectiles.Survivors | src/orb.py:15-23 | after a group update no member has x ≤ −100; every member left is the update of a member before; every updated member with x > −100 stays |
| Projectiles.UpdateGroup | src/orb.py:20-23 | the loop over the group computes `Survivors` |
| Groups.Hits | src/groups_and_collison.py:21-25 | a query returns exactly the members whose rectangle overlaps the actor's |
| Groups.Misses | src/groups_and_collison.py:21-25 | after a query the group holds exactly the members that do not overlap |
| Groups.CollidePartition | src/groups_and_collison.py:21-37 | what a query returns and what stays make up the old group, as a multiset |
| Groups.SecondQueryEmpty | src/groups_and_collison.py:21-37 | an immediate second identical query returns nothing |
| Groups.NoOverlapNoHits | src/groups_and_collison.py:21-37 | a group with no overlapping member yields no hits |
| Groups.ConsumedAtMostOnce | src/game_loop.py:252-256 | two queries in a row on one group never return the same member twice |
| Groups.SpriteCollide | src/groups_and_collison.py:21-37 | the loop over the group returns the hits and keeps the rest |
| Groups.Registry.constructor | src/groups_and_collison.py:8-19 | the registry starts with a fresh runner and flyer and both groups empty |
| Groups.Registry.CollisionRunnerOrb | src/groups_and_collison.py:21-25 | returns the orbs overlapping the runner and removes them; nothing else changes |
| Groups.Registry.CollisionFlyerOrb | src/groups_and_collison.py:27-31 | returns the orbs overlapping the flyer and removes them; the fireballs are untouched |
| Groups.Registry.CollisionFlyerFireball | src/groups_and_collison.py:33-37 | returns the fireballs overlapping the flyer and removes them; the orbs are untouched |
| Groups.Registry.UpdateOrbs | src/game_loop.py:198 | the orb group becomes `Survivors` at the given speed |
| Groups.Registry.UpdateFireballs | src/game_loop.py:224 | the fireball group becomes its `Survivors` |
| Groups.Registry.AddOrb | src/game_loop.py:258 | a spawned orb joins the end of the orb group |
| Groups.Registry.AddFireball | src/game_loop.py:263 | a spawned fireball joins the end of the fireball group |
| Groups.Registry.EmptyOrbs | src/game_loop.py:161 | the orb group becomes empty and nothing else changes |
| Groups.Registry.EmptyFireballs | src/game_loop.py:162 | the fireball group becomes empty and nothing else changes |
| Energy.UpdateBest | src/game_loop.py:102-116 | an empty record takes the finish time; otherwise the best is min(stored, finish), the file is rewritten exactly when stored ≥ finish and changes exactly when stored > finish; unreadable content raises |
| Energy.UpdateBestIdempotent | src/game_loop.py:102-116 | finishing again in the same time leaves the record as it is |
| Energy.UpdateBestExamples | src/game_loop.py:102-116 | with a finish time of 42: empty record gives 42, stored 30 stays, stored 50 becomes 42 |
| Energy.Progress | src/game_loop.py:87-119 | the bar first loses exactly 0.25; at ≤ 0 both play flags clear, victory is untouched and the finish time is taken; at ≥ 500 the bar is exactly 500, the second flag clears, victory is set and the best-time rule runs; otherwise only the bar changes |
| Energy.RetryFlags | src/game_loop.py:166-167 | retry sets the first flag; `src/` clears victory, `main.py` (main.py:495) keeps it |
| Game.RunnerUpdate | src/game_loop.py:194-195 | the runner's update in either version keeps the bottom at or above 605 and keeps the cursors valid |
| Game.Initial | src/game_loop.py:36-58 | a new game is in phase one with the bar at 100, both groups empty, the clock start at 0, the runner on the floor and the flyer at its start |
| Game.Elapsed | src/game_loop.py:61-63 | `display_time` is the whole number of seconds since the clock start, rounded down |
| Game.PhaseOneEvent | src/game_loop.py:251-258 | a click runs the runner-orb query, leaves the orbs it missed and adds 30 if it hit anything, and changes nothing else of the meter; the orb timer appends one orb in [1300, 1500] × [250, 475] and leaves the meter alone; other events change nothing |
| Game.PhaseTwoEvent | src/game_loop.py:259-263 | the orb timer appends one orb in [1500, 1700] × [200, 600]; the fireball timer appends one fireball; the bar and the characters are untouched |
| Game.OnEvent | src/game_loop.py:251-263 | events change no part of the meter but the bar, and never the flags; on the end screens they change nothing; they keep the registry valid |
| Game.Drain | src/game_loop.py:247-263 | the queue is handled in order; the program exits exactly when a quit event is in it; only the bar of the meter can change, and in phase two not even that |
| Game.PhaseOneTick | src/game_loop.py:176-200 | at ≥ 250 the orbs are emptied, the flags switch to phase two and the same tick still runs `bar_progress` on the switched meter and updates the runner; below 250 the meter is exactly `bar_progress` of the old one and the orbs are the group update at speed 10; the runner always takes its update |
| Game.CheckThreshold | src/game_loop.py:185-189 | at ≥ 250 the orbs are emptied and the flags become phase two with victory kept; below 250 nothing changes; the bar, the clock and the characters are never touched |
| Game.Collide | src/game_loop.py:226-232 | the flyer's hits leave both groups; the bar gains exactly 30 if any orb overlapped and loses exactly 20 if any fireball did, once per tick however many were hit |
| Game.PhaseTwoTick | src/game_loop.py:201-234 | the meter is `bar_progress` of the old one, with its bar then raised by 30 if an orb moved onto the updated flyer and lowered by 20 if a fireball did; the groups keep what the flyer missed after their update. Because the scoring comes after `bar_progress`, the bar can end a tick above 500 or below 0 (`GameLaws.PhaseTwoCanOvershoot`, `GameLaws.PhaseTwoCanUndershoot`) |
| Game.RetryClicked | src/game_loop.py:156-158 | the retry fires exactly when the primary button is held with the pointer in [475, 775) × [450, 530) |
| Game.RetryTick | src/game_loop.py:156-167 | only a press inside Rect(475, 450, 300, 80) does anything; it sets the bar to 100, the clock start to now, empties both groups, resets both characters and applies `RetryFlags` |
| Game.DrawPhases | src/game_loop.py:174-240 | exactly one branch runs, chosen by first phase > second phase > victory > game over |
| Game.Tick | src/game_loop.py:246-265 | one pass of the loop exits exactly when a quit event is queued; it crashes only when the record is unreadable, and never makes an unreadable record out of a readable one |
| Game.RunFrom | src/game_loop.py:242-268 | a run exits only if some tick queued a quit event, and crashes only if it started with an unreadable record |
| GameLaws.SurvivorsKeepKind | src/game_loop.py:198 | a group update keeps a group of orbs all orbs and a group of fireballs all fireballs with cursors in [0, 8) |
| GameLaws.PhaseOneKeepsValid | src/game_loop.py:176-200 | the phase-one branch keeps the registry valid and, in `src/`, keeps at most one phase flag set |
| GameLaws.PhaseTwoKeepsValid | src/game_loop.py:201-234 | the phase-two branch keeps the registry valid and, in `src/`, keeps at most one phase flag set |
| GameLaws.DrawPhasesKeepsValid | src/game_loop.py:174-240 | the drawn phase keeps the registry valid and, in `src/`, keeps at most one phase flag set |
| GameLaws.TickKeepsValid | src/game_loop.py:246-265 | every tick that does not end the program keeps that invariant |
| GameLaws.RunKeepsValid | src/game_loop.py:242-268 | so does every run of ticks |
| GameLaws.InitialValid | src/game_loop.py:51-53 | the game starts in phase one in a valid state |
| GameLaws.RunFromAppend | src/game_loop.py:246-265 | running two stretches of ticks is running the first, then the second from where it stopped |
| GameLaws.QuietPhaseOneDecays | src/game_loop.py:185-191 | below 250 in phase one, ticks without events lose exactly 0.25 each and leave the flags alone while the bar stays above 0 |
| GameLaws.FourHundredQuietTicksEndTheGame | src/game_loop.py:93-98 | from 100 with no events, the game is still in phase one after 399 ticks and over at the 400th, with the bar at 0 and the finish time taken at that tick |
| GameLaws.DepletionIsGameOver | src/game_loop.py:95-98 | in `src/`, a bar at or below 0.25 in either play phase with no events leads to the game-over screen |
| GameLaws.FullBarWins | src/game_loop.py:99-119 | with the bar at 500.25 or more in phase two, the next tick shows the victory screen with the finish time taken, unless the record is unreadable, which stops the program |
| GameLaws.PhaseTwoCanOvershoot | src/game_loop.py:214-229 | a phase-two tick from bar 500.25 in which an orb meets the idle flyer ends with victory and the bar at 530 |
| GameLaws.PhaseTwoCanUndershoot | src/game_loop.py:214-232 | a phase-two tick from bar 0.25 in which a fireball meets the idle flyer ends on game over with the bar at −20 |
| GameLaws.ThresholdStartsPhaseTwo | src/game_loop.py:185-191 | at ≥ 250 in phase one, the next tick is in phase two with no orbs and the bar 0.25 lower |
| GameLaws.EndScreensWait | src/game_loop.py:235-240 | the end screens change nothing until the retry button is clicked |
| GameLaws.DrainIdle | src/game_loop.py:251-263 | with no play flag set, draining the queue changes nothing |
| GameLaws.LossAfterRetry | src/game_loop.py:156-167 | after a retry click and 400 quiet ticks, the bar is 0 and the only flag left is the victory flag as the retry left it |
| GameLaws.LegacyLossAfterWinShowsVictory | main.py:488-495 | in `main.py`, a win, a retry, then a lost game shows the victory screen |
| GameLaws.LossAfterRetryIsGameOver | src/game_loop.py:166-167 | in `src/` the same run shows the game-over screen |
| GameLaws.QuitExits | src/game_loop.py:248-250 | a quit event in a tick's queue ends the program at that tick |
| Loop.GameLoop.constructor | src/game_loop.py:36-58 | the loop starts with the bar at 100, phase one, a zero clock and a fresh registry |
| Loop.GameLoop.BarProgress | src/game_loop.py:87-119 | updates the meter in place to `Progress` of the old one, and reports the exception exactly when `Progress` does |
| Loop.GameLoop.DrawRetryButton | src/game_loop.py:150-167 | updates the state in place to `RetryTick` of the old one |
| Loop.GameLoop.OnPhaseOneEvent | src/game_loop.py:251-258 | updates the state in place to `PhaseOneEvent` of the old one |
| Loop.GameLoop.OnPhaseTwoEvent | src/game_loop.py:259-263 | updates the state in place to `PhaseTwoEvent` of the old one |
| Loop.GameLoop.HandleEvent | src/game_loop.py:248-263 | reports a quit event, and otherwise updates the state to `OnEvent` of the old one |
| Loop.GameLoop.HandleEvents | src/game_loop.py:247-263 | the loop over the queue stops exactly at a quit event and otherwise computes `Drain` |
| Loop.GameLoop.PhaseOne | src/game_loop.py:176-200 | updates the state in place to `PhaseOneTick` of the old one |
| Loop.GameLoop.Collide | src/game_loop.py:226-232 | updates the state in place to `Collide` of the old one |
| Loop.GameLoop.PhaseTwo | src/game_loop.py:201-234 | updates the state in place to `PhaseTwoTick` of the old one |
| Loop.GameLoop.DrawPhases | src/game_loop.py:174-240 | updates the state in place to `DrawPhases` of the old one |
| Loop.GameLoop.Step | src/game_loop.py:246-265 | one pass of the loop has the outcome `Tick` gives |
| Loop.GameLoop.Run | src/game_loop.py:242-268 | the loop over the ticks has the outcome `RunFrom` gives, and the final state is the one it names |

## Left out

- Rendering is not modelled: backgrounds and their scrolling, sprites, text, the energy bar drawing and the end screens. `display_time` is kept only for the value it returns.
- Audio is not modelled: every sound played or stopped.
- pygame set-up is not modelled: the window, the 60 Hz clock and `pygame.quit`. A quit event ends a run with the outcome `Exited`.
- The event queue and the timers that fill it are inputs. Each tick receives its queued events, keys, mouse button, pointer and clock reading as a `Frame`.
- The `while True` loop is modelled over a finite sequence of ticks.
- Randomness is an input: each timer event carries the draws that place its projectile.
- `src/helper_funcs.py` and the private frame-cutting copies in `main.py` are not part of this model. A track is modelled by its length, and a frame by its index.
- The orb image `gfx/orb.png` is not part of this model. Its size is a parameter (`Config.orbWidth`, `Config.orbHeight`).
- Characters are only ever given one image rectangle. pygame never resizes a sprite's rect when its image changes, so each character keeps the rect of its first frame.
- Files are not modelled. `best_score.txt` is a value that holds an empty file, a stored integer, or text that `int()` rejects. The `a+`, seek and truncate mechanics are left out.
- Velocities, cursors and the bar are exact reals. Floating-point rounding is not modelled. For example, adding 0.1 eighty times in IEEE doubles gives a little less than 8, so a cursor can take one tick more to wrap than in this model.
- pygame stores rectangles in 32-bit C integers. That overflow is not modelled, and the model's integers are unbounded.
- Rectangles with negative width or height are not modelled. pygame normalises them in some operations; none arises here, since every size is a positive constant or the orb image's size.
- pygame's `Group` is modelled as a sequence in insertion order. A re-add is a no-op in pygame, but it never happens here, because every added sprite is new.
- Runner.AfterUpdate, Runner.AfterLegacyUpdate and Flyer.AfterUpdate state only the facts that hold across their three steps. The step-by-step behaviour is stated by the contracts of the step functions they compose.

## Findings

| source | as written | input that shows it | evidently intended | confidence | as-written member | corrected member |
|---|---|---|---|---|---|---|
| main.py:488-495 | the retry button sets `first_phase_active` but leaves `victory` as it was | win a game (victory set), click retry, then let 400 ticks pass without events: the bar reaches 0, the flags are (false, false, true) and the victory screen is drawn (main.py:563-568) | the retry also clears `victory`, as `src/game_loop.py:167` does, so a lost game ends on the game-over screen | not executed | GameLaws.LegacyLossAfterWinShowsVictory | GameLaws.LossAfterRetryIsGameOver |
