# Solar System Explorer — a verified model of the game's simulation core

Solar System Explorer is a React canvas game. The player flies a ship
around the Sun and can start three minigames:

- an Asteroids-style arcade shooter;
- an orbit simulator;
- a vertical "Raiden" shooter on Mars.

A ship computer describes the bodies the ship passes and answers chat
questions. This project models the state that changes from one animation
frame to the next. It covers:

- the arcade engine (`useArcadeEngine`): bullet and asteroid pools, wrap-around, splitting and scoring;
- the Raiden engine (`useRaidenEngine`): clamped movement, cooldown-gated volleys, the wave timer, capped powerups, enemy types, shield-first damage and the one-way game-over flag;
- the game-state reducer (`useGameState`): high scores that only rise, resets that touch only their own fields, and partial orbit-parameter updates;
- the host's frame loop (`SolarSystem`):
  - input aggregation and the unit clamp;
  - manual flight and the two-phase autopilot;
  - the fuel economy;
  - the solar speed clamp and trail caps;
  - the closest-body scan;
  - the arcade ship wrap and wave respawn;
  - the orbit simulator's `ready -> running -> crashed | escaped` machine;
- the ship computer's text services (`geminiService`):
  - the passive scan that interleaves and cycles pregenerated entries;
  - the offline, reply and failure answers;
  - the rate-limit classifier;
  - the chat context window.

Layout, one module per source file:

| file | module | source |
|---|---|---|
| `geometry.dfy` | `Geometry` | vectors, and the library maths as parameters |
| `seqs.dfy` | `Seqs` | `splice(i, 1)` on sequences |
| `arcade.dfy` | `Arcade` | `hooks/useArcadeEngine.ts` |
| `raiden.dfy` | `Raiden` | `hooks/useRaidenEngine.ts` |
| `gamestate.dfy` | `GameState` | `hooks/useGameState.ts` |
| `solarsystem.dfy` | `SolarSystem` | `components/SolarSystem.tsx` |
| `shipcomputer.dfy` | `ShipComputer` | `services/geminiService.ts` |

Both engines are classes whose fields the methods update in place, as the
hooks' refs are:

- `Arcade.ArcadeEngine`: bullets, asteroids, id counter, shot clock.
- `Raiden.RaidenEngine`: the state record and the id counter.
- The host's refs are the class `SolarSystem.Host`: ship, bodies, belt, camera, shake, autopilot target and orbit simulator.
- The ship computer's per-body counters are the class `ShipComputer.Computer`.

The reducer is a pure function. Loops the source has are `while` loops with invariants, proved
against a specification function. The reverse-index splice loops, the
`forEach` passes, the heading-wrap loops, the closest-body `forEach`, the
interleave loop and the chat-context `forEach` all follow this pattern.

External inputs are parameters:

- `Math.sqrt`, `Math.cos`, `Math.sin` and `Math.atan2` are the function values of a `MathLib`. Where the exact root matters, a ghost predicate `ExactSqrt` states that `sqrt` is the true non-negative root. `Math.hypot(a, b)` is `sqrt(a*a + b*b)`.
- Each `Math.random()` value is a parameter:
  - draws keyed by the id of the entity being created;
  - a finite sequence of position samples for the arcade spawn loop;
  - the trail roll of the orbit simulator;
  - the fallback-message roll.
- `Date.now()` is an `int` parameter.
- The canvas size is a parameter.
- The network reply of the Gemini client is an `Outcome` parameter.
- React `dispatch` calls made by the frame loop are returned as a sequence of `GameState.Action`s, in dispatch order.
- The frame reads a `GameState.State` snapshot, as the closure does.

Behaviour notes, each as the code has it:

- Solar friction (0.98) is applied on every solar frame, not only when the ship is idle.
- The Raiden wave timer spawns when it exceeds 60, so every 61 frames.
- A shield pickup adds 50 and is capped at 100.
- The trails hold up to 101 points (the ship's) and 501 points (the simulator's), because the shift is done before the push.
- The arcade safe zone is a 300x300 square test, not a circle.
- Arcade bullets whose life reached 0 are removed at the start of the next frame, not the frame where it reached 0.
- The speed clamp is at `1.5 * MAX_SPEED = 12`.
- The arcade wave size uses the score of the frame's state snapshot, not the score just gained.
- Fuel is a field of the ship. The fuel and chat fields that the host reads from the reducer do not exist in `useGameState`, so they are not modelled.

## Model

| member | source | states |
|---|---|---|
| Arcade.VertexCount | hooks/useArcadeEngine.ts:23 | `7 + floor(r * 5)` for a draw in [0, 1) gives 7 to 11 vertices |
| Arcade.MakeAsteroid | hooks/useArcadeEngine.ts:22-38 | the new asteroid has the given id, position and tier; size is 40/20/10 and speed 1/2/3 for tier 3/2/other, along the drawn heading; the rotation is the drawn turn; with draws in [0, 1) it has 7-11 vertex radii in [0.8, 1.2) and a spin in [-0.05, 0.05) |
| Arcade.Accepted | hooks/useArcadeEngine.ts:14-17 | the positions the rejection loop accepts are no more than the samples, and none lies in the square safe zone |
| Arcade.NextAccepted | hooks/useArcadeEngine.ts:14-17 | the do-while stops at the first sample outside the safe zone, after skipping only samples inside it, and what is accepted from there on is that position followed by the rest |
| Arcade.Wave | hooks/useArcadeEngine.ts:12-19 | a wave has one asteroid per position |
| Arcade.WaveAppend | hooks/useArcadeEngine.ts:12-19 | one more position appends one tier-3 asteroid numbered after the others |
| Arcade.WaveOutsideSafeZone | hooks/useArcadeEngine.ts:11-20 | a spawned wave has exactly `count` asteroids, all tier 3 and size 40, with consecutive ids, none inside the safe zone |
| Arcade.NoSpotOnSmallCanvas | hooks/useArcadeEngine.ts:14-17 | on a canvas under 300 wide and under 300 high, no `Math.random()` pair is ever accepted, so the do-while never ends (see Findings) |
| Arcade.SampleInCentre | hooks/useArcadeEngine.ts:14-16 | a draw in [0, 1) scaled to a side under 300 lands less than 150 from its middle, inside the zone on that axis |
| Arcade.BoundedSpot | hooks/useArcadeEngine.ts:14-17 | the corrected spawn position takes at most `tries` redraws and never consumes more draws than there are |
| Arcade.BoundedSpots | hooks/useArcadeEngine.ts:11-20 | the corrected spawn gives exactly `count` positions, one per asteroid |
| Arcade.BoundedSpotFacts | hooks/useArcadeEngine.ts:14-17 | a corrected position is an accepted draw or the corner (0, 0), and is outside the safe zone on a canvas 300 or more wide or high |
| Arcade.BoundedSpotsOutside | hooks/useArcadeEngine.ts:11-20 | every corrected position is the corner or outside the safe zone, and all are outside it on a canvas 300 or more wide or high |
| Arcade.BoundedWaveFacts | hooks/useArcadeEngine.ts:11-20 | the corrected wave ends on every canvas with exactly `count` tier-3 asteroids numbered in turn, each at an accepted draw or the corner, none inside the safe zone on a canvas 300 or more wide or high (see Findings) |
| Arcade.WrapCoord | hooks/useArcadeEngine.ts:71-74 | the wrapped coordinate lies in [lo, hi]; a coordinate in range is kept, one below jumps to `hi`, one above jumps to `lo` |
| Arcade.StepBullet | hooks/useArcadeEngine.ts:67-75 | a bullet moves by its velocity and loses exactly one life; it always ends inside [0, w] x [0, h], and the move is kept when it stays in the field |
| Arcade.StepAsteroid | hooks/useArcadeEngine.ts:78-86 | an asteroid moves and turns by its spin and ends inside [-50, w+50] x [-50, h+50]; the rest of it is unchanged |
| Arcade.Live | hooks/useArcadeEngine.ts:66 | the filter keeps exactly the bullets with life above 0 |
| Arcade.SpentPrefix | hooks/useArcadeEngine.ts:89-107 | changing a bullet at or after position `n` does not change how many of the first `n` were spent |
| Arcade.SpentAtMost | hooks/useArcadeEngine.ts:89-107 | at most `n` of the first `n` bullets are spent |
| Arcade.SpentStep | hooks/useArcadeEngine.ts:96 | spending one more bullet, and only that, adds exactly one to the spent count |
| Arcade.LastHit | hooks/useArcadeEngine.ts:91-95 | the reverse search gives -1 or an index in range whose asteroid the bullet hits |
| Arcade.LastHitIndex | hooks/useArcadeEngine.ts:91-106 | the reverse search returns the highest index whose asteroid the bullet hits, or -1 when none is hit |
| Arcade.LastHitHighest | hooks/useArcadeEngine.ts:91-95 | no asteroid after the one found is hit, so -1 means none is |
| Arcade.Shattered | hooks/useArcadeEngine.ts:98-103 | destroying one asteroid changes the pool size by +1 (split) or -1 (tier 1), and adds only the two fragments of the next tier at its position |
| Arcade.Shatter | hooks/useArcadeEngine.ts:96-104 | destroying an asteroid leaves the bullets, records it as destroyed and adds its tier's points |
| Arcade.HitPass | hooks/useArcadeEngine.ts:89-107 | the pass over the first `n` bullets keeps the number of bullets |
| Arcade.HitStepSkip | hooks/useArcadeEngine.ts:90-91 | a bullet that reaches nothing, or has no life, changes nothing |
| Arcade.HitStepSpend | hooks/useArcadeEngine.ts:96-104 | a spent bullet's turn sets only that bullet to life 0 and destroys the highest-index asteroid it hits, a member of the pool, adding its points and changing the pool by its split delta |
| Arcade.SpentOnIff | hooks/useArcadeEngine.ts:90-96 | a bullet is spent at its turn exactly when it has life and some asteroid is within reach |
| Arcade.BulletStep | hooks/useArcadeEngine.ts:96 | a turn changes only its own bullet, not at all or by spending one that had life |
| Arcade.ReachStep | hooks/useArcadeEngine.ts:90-96 | a live bullet is spent exactly when some asteroid of the current pool is within reach |
| Arcade.TotalsStep | hooks/useArcadeEngine.ts:96-104 | a turn keeps the totals: points of the destroyed tiers, pool size by their net change, ids only rising |
| Arcade.CountStep | hooks/useArcadeEngine.ts:96-97 | a turn destroys one asteroid exactly when it spends its bullet |
| Arcade.DestroyStep | hooks/useArcadeEngine.ts:96-104 | a turn destroys nothing, or one asteroid of the pool its bullet hits |
| Arcade.HitPassBullets | hooks/useArcadeEngine.ts:89-107 | after the pass every bullet is as it was or, having had life, is spent |
| Arcade.HitPassTotals | hooks/useArcadeEngine.ts:89-107 | the pass's gain is the points of the destroyed tiers, the pool changes by their split delta, ids only rise |
| Arcade.HitPassSpent | hooks/useArcadeEngine.ts:89-107 | one asteroid is destroyed per spent bullet |
| Arcade.HitPassReach | hooks/useArcadeEngine.ts:89-107 | no hit is missed: a live bullet is spent exactly when some asteroid of the pool at its turn is in reach |
| Arcade.HitPassDestroyed | hooks/useArcadeEngine.ts:89-107 | none is invented: every destroyed asteroid was in the pool at the turn of a bullet that hit it |
| Arcade.ShatteredInField | hooks/useArcadeEngine.ts:98-103 | fragments stand where their asteroid stood, so a pool within the wrap margin stays within it |
| Arcade.ShipCollides | hooks/useArcadeEngine.ts:111-119 | the `for ... of` with `break` reports a hit exactly when some asteroid is within its size plus 10 of the ship |
| Arcade.HitsBySquares | hooks/useArcadeEngine.ts:93-95 | under an exact root, the hit test is the squared-distance comparison |
| Arcade.PointsAppend | hooks/useArcadeEngine.ts:99-103 | each destroyed asteroid adds 20/50/100 points for tier 3/2/1 and changes the pool size by +1 (split) or -1 (tier 1) |
| Arcade.WrapExample | hooks/useArcadeEngine.ts:82 | an asteroid at rest at x = -60 on an 800-wide field reappears at x = 850 |
| Arcade.BulletsStayOnScreen | hooks/useArcadeEngine.ts:71-74 | a moved bullet is always on screen |
| Arcade.MovedBullets | hooks/useArcadeEngine.ts:67-75 | the bullet `forEach` keeps the number of bullets |
| Arcade.MovedAsteroids | hooks/useArcadeEngine.ts:78-86 | the asteroid `forEach` keeps the number of asteroids |
| Arcade.NoseBullet | hooks/useArcadeEngine.ts:49-57 | the new bullet has the counter's id and 60 frames of life |
| Arcade.ArcadeEngine.constructor | hooks/useArcadeEngine.ts:6-9 | empty pools, counter 0, shot clock 0 |
| Arcade.ArcadeEngine.CreateAsteroid | hooks/useArcadeEngine.ts:22-38 | appends exactly one asteroid, numbered with the current counter, and raises the counter by one |
| Arcade.ArcadeEngine.SpawnNext | hooks/useArcadeEngine.ts:12-19 | one loop turn consumes the draws up to the next accepted position, appends the wave's next asteroid and raises the counter by one; bullets and shot clock unchanged |
| Arcade.ArcadeEngine.SpawnAsteroids | hooks/useArcadeEngine.ts:11-20 | appends exactly the wave for the first `count` accepted positions and raises the counter by `count`; bullets and the shot clock are unchanged |
| Arcade.ArcadeEngine.FireBullet | hooks/useArcadeEngine.ts:41-58 | when the game is over or less than 250 ms have passed, nothing changes; otherwise exactly one bullet with life 60 is appended at the ship's nose, moving at 10 along the heading plus the ship's velocity, and the shot clock records `now` |
| Arcade.ArcadeEngine.MoveBullets | hooks/useArcadeEngine.ts:67-75 | every bullet is replaced by its step, in place |
| Arcade.ArcadeEngine.MoveAsteroids | hooks/useArcadeEngine.ts:78-86 | every asteroid is replaced by its step, in place |
| Arcade.ArcadeEngine.Destroy | hooks/useArcadeEngine.ts:98-103 | the hit asteroid is spliced out; one above tier 1 is replaced by exactly two of the next tier at its position, with the next two ids; the gain is the tier's points |
| Arcade.ArcadeEngine.HitTurn | hooks/useArcadeEngine.ts:89-107 | one bullet's turn leaves the engine in the pass's next state and keeps the pool within the wrap margin |
| Arcade.ArcadeEngine.ResolveHits | hooks/useArcadeEngine.ts:89-107 | the engine ends in the state of `HitPass` over all bullets; each bullet stays or, if it had life, is set to life 0; one asteroid destroyed per spent bullet; the gain is their points and the pool changes by their split delta; the pool stays within the wrap margin |
| Arcade.ArcadeEngine.UpdatePhysics | hooks/useArcadeEngine.ts:61-123 | the pools, counter and gain are `PhysicsNext`'s; the bullets are the live ones, each on screen and aged by one (or spent); every asteroid is within the wrap margin; the gain is the destroyed asteroids' points; at most one asteroid per bullet; a collision is reported exactly when the game is not over and some asteroid touches the ship |
| Arcade.ArcadeEngine.Reset | hooks/useArcadeEngine.ts:125-128 | both pools are emptied and the counters keep their values |
| Raiden.MakeEnemy | hooks/useRaidenEngine.ts:19-46 | the new enemy has the given id and full hit points by type (scout 1, interceptor 2, heavy 5); it enters at y = -50 with the type's size and velocity |
| Raiden.Map | hooks/useRaidenEngine.ts:155 | `map` keeps the length and rewrites every element |
| Raiden.MakeParticle | hooks/useRaidenEngine.ts:59-70 | a particle starts at the burst point with max life 50; for draws in [0, 1) its life is in [30, 50) and its size in [2, 6) |
| Raiden.Burst | hooks/useRaidenEngine.ts:57-72 | a burst has exactly `count` particles with consecutive ids, all at the burst point |
| Raiden.MakePowerUp | hooks/useRaidenEngine.ts:48-55 | the powerup has the given id and position, falls at 2, and its type comes from the draw |
| Raiden.PlayerSpeed | hooks/useRaidenEngine.ts:92 | the speed for levels 1-3 lies in [8, 12] |
| Raiden.MovedPlayer | hooks/useRaidenEngine.ts:93-96 | only the position changes, and it is clamped into [20, w-20] x [20, h-20] (at least 20 on a small canvas) |
| Raiden.Volley | hooks/useRaidenEngine.ts:103-141 | 1, 3 or 5 shots for weapon level 1, 2 or at least 3; all are player shots of damage 1, numbered in turn and moving upward |
| Raiden.TakeDamage | hooks/useRaidenEngine.ts:231-240 | only hp and shield change; with a non-negative shield and damage, shield plus hp falls by exactly the damage and the shield stays non-negative; without a shield the hull takes all of it, and a shield that covers the hit takes all of it |
| Raiden.TakeDamageExample | hooks/useRaidenEngine.ts:231-240 | shield 30 and a 50-point hit leave shield 0 and take 20 off the hull |
| Raiden.DamageNTotal | hooks/useRaidenEngine.ts:231-240 | any number of hits keep the shield in [0, its start], never raise the hull, and touch nothing else |
| Raiden.StruckTotal | hooks/useRaidenEngine.ts:246-260 | ramming and enemy shots take exactly 20 per ram and 10 per hitting shot off hull plus shield, shield first, and touch nothing else |
| Raiden.Cap | hooks/useRaidenEngine.ts:163-169 | `min(cap, v)` |
| Raiden.ApplyPowerUp | hooks/useRaidenEngine.ts:162-170 | health +25 capped at max hp, spread and speed +1 capped at 3, shield +50 capped at 100; each field only rises and stays within its cap |
| Raiden.SweepPlayer | hooks/useRaidenEngine.ts:158-176 | pickups only raise hull, levels and shield within their caps and change nothing else; with nothing in reach, the player is unchanged |
| Raiden.SweepKept | hooks/useRaidenEngine.ts:158-176 | the powerups left are exactly those out of reach that have not fallen 50 below the canvas |
| Raiden.SweepLast | hooks/useRaidenEngine.ts:158-176 | one step of the reverse loop handles index `i` before the lower ones |
| Raiden.PickUp | hooks/useRaidenEngine.ts:158-176 | the reverse splice loop computes exactly the sweep |
| Raiden.StepEnemy | hooks/useRaidenEngine.ts:180-185 | an enemy advances and its cooldown drops by one; an interceptor outside the side margins reverses `vx` |
| Raiden.AimedShot | hooks/useRaidenEngine.ts:187-193 | a heavy's shot is an enemy shot of damage 10, 20 below the heavy |
| Raiden.EnemyShotsShape | hooks/useRaidenEngine.ts:179-196 | at most one shot per enemy; all are enemy shots of damage 10, numbered in turn |
| Raiden.EnemyShotsNext | hooks/useRaidenEngine.ts:186-195 | the shots for the first `k+1` enemies are those for the first `k`, plus one if enemy `k` fires |
| Raiden.AdvanceEnemies | hooks/useRaidenEngine.ts:179-196 | every enemy is advanced (a firing heavy rearms at 120), and the shots are exactly the enemies' aimed shots |
| Raiden.AdvancedAlive | hooks/useRaidenEngine.ts:179-196 | moving keeps every enemy's hit points |
| Raiden.AdvancedAll | hooks/useRaidenEngine.ts:179-185 | every enemy is replaced by its advanced self, in order |
| Raiden.TotalHpUpdate | hooks/useRaidenEngine.ts:213 | replacing one enemy changes the hp sum by the difference |
| Raiden.TotalHpRemove | hooks/useRaidenEngine.ts:218 | splicing an enemy out removes its hp from the sum |
| Raiden.KillScore | hooks/useRaidenEngine.ts:219 | the score for the kills is non-negative |
| Raiden.KillScoreAppend | hooks/useRaidenEngine.ts:219 | each kill adds 50/20/10 for heavy/interceptor/scout |
| Raiden.HitShotOnCanvas | hooks/useRaidenEngine.ts:255-259 | a shot that hits a player on the canvas is never more than 50 below the bottom |
| Raiden.RamCount | hooks/useRaidenEngine.ts:246-251 | no more rams than enemies |
| Raiden.RamNext | hooks/useRaidenEngine.ts:246-251 | one more enemy adds its id and one ram exactly when the player touches it |
| Raiden.RammedIdsCover | hooks/useRaidenEngine.ts:246-251 | every rammed enemy's id is among the removed ids |
| Raiden.RemoveId | hooks/useRaidenEngine.ts:249 | the filter keeps exactly the enemies with another id |
| Raiden.OnScreen | hooks/useRaidenEngine.ts:275 | the filter keeps exactly the enemies above `height + 100` |
| Raiden.Alive | hooks/useRaidenEngine.ts:274 | the filter keeps exactly the particles with life above 0 |
| Raiden.LastEnemyHit | hooks/useRaidenEngine.ts:210-227 | the reverse search returns the highest-index enemy whose widened box the shot touches, or -1 |
| Raiden.WornTrans | hooks/useRaidenEngine.ts:210-227 | being worn down by the pass composes over two stretches |
| Raiden.MissesWorn | hooks/useRaidenEngine.ts:210-227 | wearing enemies down moves none, so a shot that missed them all still does |
| Raiden.MissAll | hooks/useRaidenEngine.ts:210-227 | a shot for which the reverse search finds no enemy misses them all |
| Raiden.LastTouched | hooks/useRaidenEngine.ts:210-212 | the reverse search as a function: -1 or an index in range whose enemy the shot touches, with no later enemy touched |
| Raiden.MissesIff | hooks/useRaidenEngine.ts:210-227 | a shot misses every enemy exactly when the reverse search finds none |
| Raiden.StrikeSpelled | hooks/useRaidenEngine.ts:212-224 | a 1-damage shot on a live enemy: it takes 1 hp and is removed, scored and counted dead with 10 more sparks and the drop roll exactly when it had 1 hp; 3 sparks at the shot in any case |
| Raiden.OutcomeCases | hooks/useRaidenEngine.ts:206-228 | an enemy shot is passed over; a player shot touching nothing stays unless over 50 above the top; a touching player shot strikes the last enemy it touches |
| Raiden.StrikeOutcome | hooks/useRaidenEngine.ts:210-224 | a touching player shot takes one hp off the enemy list, scores the struck enemy's kind exactly when that was its last hp, and leaves live, worn-down enemies |
| Raiden.KillFacts | hooks/useRaidenEngine.ts:216-218 | removing an enemy with 1 hp takes that point off the sum and leaves live enemies of the list |
| Raiden.WoundFacts | hooks/useRaidenEngine.ts:213 | wounding an enemy with more hp takes one off the sum and leaves live, worn-down enemies |
| Raiden.ShotOutcomeFacts | hooks/useRaidenEngine.ts:206-228 | one turn neither misses nor invents a hit: the shot leaves exactly when it is a player's and touches an enemy or is over 50 above the top; a touching one takes one hp and scores a kill; any other changes no enemy and produces nothing |
| Raiden.StrikeKeeps | hooks/useRaidenEngine.ts:212-224 | a strike keeps the pass facts: enemies left are worn-down originals, shots that missed still miss, a kill is an original with no hp |
| Raiden.StrikeTallied | hooks/useRaidenEngine.ts:212-224 | a strike's exact tallies: the shot is spent with one hit, the sum falls by 1, a kill is the struck enemy at 0 hp with its score, 3 sparks plus 10 per kill, a drop only with a kill |
| Raiden.StrikeKept | hooks/useRaidenEngine.ts:205-229 | a strike keeps the pass's facts about the shots ahead and the enemy shots still to come, with the strike's tallies |
| Raiden.OutcomeKeeps | hooks/useRaidenEngine.ts:205-229 | any turn keeps the pass's facts: enemies worn-down originals, kept shots ahead missing them, no enemy shot dropped, hit, kill, sparks, drops and ids in agreement |
| Raiden.PassStep | hooks/useRaidenEngine.ts:206-228 | a turn splices out at most the shot whose turn it is |
| Raiden.ShotPass | hooks/useRaidenEngine.ts:205-229 | the reverse pass as a function never grows the shot list, and the shots before the turns done are still there |
| Raiden.KeptStep | hooks/useRaidenEngine.ts:228 | a turn keeps the list around its shot and removes that shot exactly when it is spent |
| Raiden.ShotPassBullets | hooks/useRaidenEngine.ts:205-229 | the pass keeps the list's order: the shots not yet reached are untouched and are followed by the kept ones in their original order |
| Raiden.ShotPassAlive | hooks/useRaidenEngine.ts:205-229 | every enemy left at any point of the pass still has hit points |
| Raiden.ShotPassReady | hooks/useRaidenEngine.ts:205-207 | when a shot's turn comes it is still at its index, and it and the enemies it faces are fit for the turn |
| Raiden.ShotPassTurn | hooks/useRaidenEngine.ts:205-229 | no hit missed and none invented: at its turn a shot leaves exactly when it is a player's and touches one of the enemies as they then stand, or is over 50 above the top; a touching player shot takes one hp off them; any other shot changes no enemy and adds no spark, drop or point |
| Raiden.PassedStep | hooks/useRaidenEngine.ts:205-229 | one more turn keeps the pass relation `Passed` |
| Raiden.ShotPassPassed | hooks/useRaidenEngine.ts:205-229 | the reverse pass meets `Passed` at every index |
| Raiden.ShotTurn | hooks/useRaidenEngine.ts:206-228 | the turn's outcome is exactly `ShotOutcome`: an enemy shot stays and changes nothing; a player shot strikes the last enemy it touches (by `StrikeEnemy`) and is spent with one hit; one touching nothing changes no enemy and stays exactly when not over 50 above the top |
| Raiden.PassTurn | hooks/useRaidenEngine.ts:206-228 | one turn of the reverse loop leaves the pass in `PassStep` of its state: the shot's `ShotOutcome`, spliced out when spent |
| Raiden.PassedStart | hooks/useRaidenEngine.ts:205 | before the loop the pass relation holds with nothing done |
| Raiden.PassedDone | hooks/useRaidenEngine.ts:205-229 | the totals `Passed` keeps at the end: the hp sum falls by the hits; kills score their points, leave the list and are at most the hits; at most one hit per removed shot; enemy shots all kept; surviving player shots at most 50 above the top and missing every enemy left; 3 sparks per hit plus 10 per kill; at most one drop per kill |
| Raiden.PlayerShotsHit | hooks/useRaidenEngine.ts:205-229 | the reverse loop computes `ShotPass` at 0 (so each turn is `ShotPassTurn`'s: no hit missed, none invented, kept shots in order) and ends in `Passed`, whose totals `PassedDone` states |
| Raiden.StrikeEnemy | hooks/useRaidenEngine.ts:212-224 | one hit takes 1 hp; the enemy dies, leaves and scores exactly when it had 1 hp; 3 sparks, plus 10 and at most one drop on a kill |
| Raiden.KillScoreConcat | hooks/useRaidenEngine.ts:219 | scores of kills add up over concatenation |
| Raiden.RamEnemies | hooks/useRaidenEngine.ts:246-251 | the loop computes `RamFold` over all enemies: the player takes 20 damage per rammed enemy; the enemies left are exactly those whose id was not rammed, and none of them touches the player; 5 sparks per ram |
| Raiden.RamStepParts | hooks/useRaidenEngine.ts:247-250 | one enemy's turn: a rammed enemy costs 20 damage and 5 sparks and its id leaves; otherwise nothing changes |
| Raiden.RamFoldPlayer | hooks/useRaidenEngine.ts:246-251 | after the first `k` turns the player has taken 20 per enemy rammed so far, has not moved, and 5 sparks per ram fly |
| Raiden.RamFoldEnemies | hooks/useRaidenEngine.ts:246-251 | after the first `k` turns the enemies left are exactly the originals whose id was not rammed so far |
| Raiden.ShotCount | hooks/useRaidenEngine.ts:252-260 | no more hitting shots than shots |
| Raiden.SurvivorsFacts | hooks/useRaidenEngine.ts:252-260 | the shots that stay are exactly the player shots and the enemy shots that neither hit nor are more than 50 below the bottom; each hit is one shot fewer |
| Raiden.DodgeStepShape | hooks/useRaidenEngine.ts:253-259 | with the player on the canvas a turn splices only its own shot: a hit or a shot far below leaves once, the player takes a hit's damage, 5 sparks per hit |
| Raiden.DodgeStep | hooks/useRaidenEngine.ts:253-259 | a turn never grows the list and keeps the shots before its index |
| Raiden.DodgePass | hooks/useRaidenEngine.ts:252-260 | the loop as a function never grows the list |
| Raiden.DodgePassPos | hooks/useRaidenEngine.ts:252-260 | the player never moves during the loop |
| Raiden.DodgeStepBullets | hooks/useRaidenEngine.ts:253-259 | a turn removes its shot exactly when the shot does not stay, and keeps the rest in place |
| Raiden.DodgePassBullets | hooks/useRaidenEngine.ts:252-260 | the loop keeps the list's order: the shots left are the survivors, in their original order |
| Raiden.DodgePassTally | hooks/useRaidenEngine.ts:252-260 | the loop's hits are the enemy shots within 15 of the player, which takes 10 per hit, with 5 sparks per hit numbered in turn |
| Raiden.DodgeTurn | hooks/useRaidenEngine.ts:253-259 | one turn of the loop, a `ShotStep` for an enemy shot, keeps the relation one shot further |
| Raiden.ShotsHitPlayer | hooks/useRaidenEngine.ts:252-260 | the loop computes `DodgePass`: the hits are exactly the enemy shots within 15 of the player, which takes 10 per hit; the shots left are exactly `Survivors`, in order: all player shots and the enemy shots that missed and are at most 50 below the bottom; 5 sparks per hit |
| Raiden.ShotStep | hooks/useRaidenEngine.ts:253-259 | one enemy shot hits exactly when within 15 on both axes; a hit or a shot far below is spliced out once; otherwise the list is unchanged |
| Raiden.AgeParticles | hooks/useRaidenEngine.ts:269-274 | the particles are the moved and aged ones with life left, all of which have life above 0 |
| Raiden.ClashedOf | hooks/useRaidenEngine.ts:204-260 | the three collision passes in turn add up to the combined relation `Clashed` |
| Raiden.RaidenEngine.constructor | hooks/useRaidenEngine.ts:6-17 | the initial state: player at the origin with 100 hp, levels 1, no shield; empty lists; counter 0 |
| Raiden.RaidenEngine.Reset | hooks/useRaidenEngine.ts:285-297 | a fresh state with the player at (w/2, h-100); the game-over flag is cleared; the id counter keeps counting |
| Raiden.RaidenEngine.SpawnParticles | hooks/useRaidenEngine.ts:57-72 | appends exactly the burst and raises the counter by `count` |
| Raiden.RaidenEngine.SpawnPowerUp | hooks/useRaidenEngine.ts:48-55 | appends exactly one powerup and raises the counter by one |
| Raiden.RaidenEngine.MovePlayer | hooks/useRaidenEngine.ts:92-96 | only the player's position changes, to the clamped move |
| Raiden.RaidenEngine.Shoot | hooks/useRaidenEngine.ts:99-145 | the cooldown drops by one; a volley fires exactly when asked to and the cooldown is at most 0, and then the volley is appended and the cooldown is 8 |
| Raiden.RaidenEngine.AdvanceWave | hooks/useRaidenEngine.ts:147-152 | the timer rises by one, and when it passes 60 exactly one enemy is appended and the timer is back at 0 |
| Raiden.RaidenEngine.Ready | hooks/useRaidenEngine.ts:88-152 | the engine ends in `ReadyPhase`: the backdrop scrolls by 3; the player moves to the clamped position and fires exactly when asked with cooldown at most 0, rearming at 8; exactly that volley is appended; the wave timer advances, and past 60 resets and appends exactly one new enemy numbered after the volley |
| Raiden.RaidenEngine.MovePowerUps | hooks/useRaidenEngine.ts:155 | the powerups become their `map` by the fall step, and nothing else changes |
| Raiden.RaidenEngine.CollectPowerUps | hooks/useRaidenEngine.ts:158-176 | player and powerups become the sweep's result; position unchanged; levels never drop |
| Raiden.RaidenEngine.UpdateEnemies | hooks/useRaidenEngine.ts:179-196 | every enemy advanced and the heavies' shots appended |
| Raiden.RaidenEngine.MoveBullets | hooks/useRaidenEngine.ts:199-202 | the shots become their `map` by the move step, and nothing else changes |
| Raiden.RaidenEngine.ResolvePlayerShots | hooks/useRaidenEngine.ts:205-229 | the engine ends in `HitPhase`: shots and enemies are `ShotPass`'s, its sparks and drops appended, its points added to the score; the hp sum falls by the hits; kills leave the list and score; enemy shots all kept; player shots left miss every enemy; only bullets, enemies, particles, powerups and score change |
| Raiden.RaidenEngine.RamPlayer | hooks/useRaidenEngine.ts:246-251 | the player takes 20 per rammed enemy, only in hp and shield; rammed ids leave the list |
| Raiden.RaidenEngine.EnemyFire | hooks/useRaidenEngine.ts:252-260 | the player takes 10 per hitting shot, only in hp and shield; every shot left was there before |
| Raiden.RaidenEngine.Pickups | hooks/useRaidenEngine.ts:154-176 | the engine ends in `PickupPhase`: the player and powerups become the sweep of the fallen powerups; score and levels never drop; position, flag, scroll and timer unchanged |
| Raiden.RaidenEngine.Combat | hooks/useRaidenEngine.ts:178-260 | the engine ends in `CollidePhase` of `ArmPhase`: enemies advance and the heavies' aimed shots join the moved shots; then the player-shot pass (exactly `ShotPass`), the ramming loop and the enemy-shot loop, each written back; `Clashed` states the totals |
| Raiden.RaidenEngine.Collide | hooks/useRaidenEngine.ts:204-260 | the engine ends in `CollidePhase`: exactly the player-shot pass `ShotPass`, then the ramming loop `RamFold`, then the enemy-shot loop `DodgePass`, each written back; `Clashed` states the totals; only player, bullets, enemies, particles, powerups and score change |
| Raiden.RaidenEngine.Advance | hooks/useRaidenEngine.ts:88-260 | the live part of a tick ends in `CollidePhase` of `ArmPhase` of `PickupPhase` of `ReadyPhase`, with `armed` the state after movement; scroll, timer, score and levels as in `Ready`; the player stays on the canvas |
| Raiden.RaidenEngine.Settle | hooks/useRaidenEngine.ts:262-275 | the engine ends in `SettlePhase`: a hull at or below 0 is set to 0 and ends the game; the particles are the moved and aged ones with life left; the enemies are those above `height + 100` |
| Raiden.RaidenEngine.UpdatePhysics | hooks/useRaidenEngine.ts:74-283 | the engine ends in `PhysicsNext`: once the game is over nothing changes; otherwise `armed` is the state after `ReadyPhase`, `PickupPhase` and `ArmPhase` (volley and spawn appended, enemies advanced, shots moved), `clashed` is `CollidePhase` of it (the exact passes), and the result is `SettlePhase` of that; the report is the new score, hp, shield and flag |
| GameState.MergeOrbit | hooks/useGameState.ts:88-92 | each orbit field takes the patch's value when present and keeps the old one otherwise |
| GameState.MergeOrbitLaws | hooks/useGameState.ts:88-92 | two merges equal one merge of the overlaid patches; the empty patch is the identity; a merge is idempotent |
| GameState.Reduce | hooks/useGameState.ts:57-133 | high scores never decrease; a score action sets the score and leaves the high score at least the payload; the mute flag changes exactly on `TOGGLE_MUTE` |
| GameState.SettingsWrite | hooks/useGameState.ts:110-113 | the settings write happens exactly for `TOGGLE_MUTE` and stores the new mute flag |
| GameState.ArcadeHighScoreIsMaximum | hooks/useGameState.ts:78-83 | over any run of actions, the arcade high score is at least the start and every payload, and equals one of them |
| GameState.RaidenHighScoreIsMaximum | hooks/useGameState.ts:97-102 | the same for the Raiden high score |
| GameState.ResetsTouchOnlyTheirFields | hooks/useGameState.ts:115-128 | `RESET_ARCADE` sets only score 0 and game-over false; `RESET_RAIDEN` only score 0, hp 100 and shield 0; both are idempotent |
| GameState.ModeSwitchRoundTrip | hooks/useGameState.ts:59-60 | a mode switch changes only the mode, and switching back restores the whole state |
| GameState.ToggleMuteTwice | hooks/useGameState.ts:110-113 | toggling negates the flag, and two toggles restore the state |
| GameState.UnrecognisedIsIdentity | hooks/useGameState.ts:130-131 | an unknown action leaves the state unchanged |
| GameState.OrbitPatchOnly | hooks/useGameState.ts:88-92 | `SET_ORBIT_PARAMS` changes only `orbitParams`, by the merge |
| GameState.Initial | hooks/useGameState.ts:139-160 | solar mode, autopilot off, no target; orbit parameters {3.0, 250, 0}; zoom 0.8; Raiden hp 100; the stored high scores and mute flag |
| GameState.InitialIsReset | hooks/useGameState.ts:115-160 | both resets leave the initial state unchanged |
| GameState.SetAutopilotAction | hooks/useGameState.ts:169-171 | the dispatched action carries the flag and the target, which defaults to none |
| GameState.SetAutopilotDefault | hooks/useGameState.ts:62-67 | without a target, the stored target is none; with one, it is that one |
| SolarSystem.TouchIsUnit | components/SolarSystem.tsx:316-325 | in solar and arcade mode, a touch farther than 30 gives a unit direction |
| SolarSystem.TouchIgnored | components/SolarSystem.tsx:316 | without a touch, or in another mode, the joystick vector is kept |
| SolarSystem.ClampInputIsUnit | components/SolarSystem.tsx:334-335 | after the clamp the direction has length at most 1; `inputMag` is the length before; a vector within unit length is kept; a longer one is rescaled along its direction |
| SolarSystem.WrapUpFacts | components/SolarSystem.tsx:347 | the first loop ends at or above -π, differs from its input by whole turns, and keeps an input already at or above -π |
| SolarSystem.WrapDownFacts | components/SolarSystem.tsx:348 | the second loop ends at or below π, differs from its input by whole turns, and keeps an input already at or below π |
| SolarSystem.WrapInRange | components/SolarSystem.tsx:346-348 | the wrapped heading error lies in [-π, π], differs from the error by whole turns, and an error in range is kept |
| SolarSystem.WrapAngle | components/SolarSystem.tsx:346-348 | the two `while` loops compute the wrap |
| SolarSystem.ManualShipFacts | components/SolarSystem.tsx:345-368 | the heading turns by at most 0.15π; the ship thrusts exactly in arcade mode or with fuel; the arcade never drains fuel; without fuel in solar mode the velocity is kept; solar fuel becomes `max(0, fuel - 0.1 * inputMag)` and stays in [0, fuel] |
| SolarSystem.AutopilotShipFacts | components/SolarSystem.tsx:371-413 | the heading turns by at most 0.1π; beyond radius+150 with fuel, the ship accelerates at 0.8 times `SHIP_ACCELERATION` and burns; without fuel nothing moves; at rendezvous it thrusts exactly when the correction exceeds 0.05 and fuel is left; fuel stays in [0, fuel] |
| SolarSystem.FindBody | components/SolarSystem.tsx:371 | `find` returns a body with that name from the list, or none exactly when no body has the name |
| SolarSystem.PushTrail | components/SolarSystem.tsx:485-486 | the oldest point goes only when the trail is over the limit, the new one is appended only when asked, the newest points are kept, and the trail stays within limit+1 |
| SolarSystem.ArcadeDrift | components/SolarSystem.tsx:429-438 | the ship moves, wraps into [0, w] x [0, h] (below 0 to the far edge, beyond to 0) and keeps 99% of its velocity |
| SolarSystem.WaveSize | components/SolarSystem.tsx:453 | a new wave has `5 + floor(score / 1000)` asteroids, at least 5 |
| SolarSystem.WaveSizeGrows | components/SolarSystem.tsx:453 | every thousand points add one asteroid; under 1000 points it is 5 |
| SolarSystem.InverseSquare | components/SolarSystem.tsx:476-478 | gravity points at the centre with magnitude `1800 / r^2` |
| SolarSystem.Pull | components/SolarSystem.tsx:476-478 | the pull along the position, divided by the root, is the position scaled by `-(1800/rSq)/r`, whose squared length is `(1800/rSq)^2` |
| SolarSystem.PullAlong | components/SolarSystem.tsx:477-478 | `-f * (x / r)` componentwise is the position scaled by `-f / r` |
| SolarSystem.FarFromCentre | components/SolarSystem.tsx:470-476 | beyond the crash radius, `rSq` is non-zero, so the division is safe |
| SolarSystem.OrbitStatusMachine | components/SolarSystem.tsx:456-488 | a ready satellite is pinned at (distance, 0) at rest; crashed and escaped ones never change; a running one crashes exactly inside 45 and escapes exactly beyond 5000 without moving; otherwise velocity is updated by the pull and then position by the new velocity; no frame returns to ready; the trail stays within 501 |
| SolarSystem.LaunchSpeed | components/SolarSystem.tsx:229-231 | the launch velocity has magnitude `speed`, and at angle 0 it is (0, speed) |
| SolarSystem.PresetOverridesAll | components/SolarSystem.tsx:243-272 | a preset sets all three orbit parameters whatever they were; distance 250/200/200/300, and angle -45 only for the crash preset |
| SolarSystem.Spin | components/SolarSystem.tsx:501-503 | a body turns only when its orbit speed is positive; a speed of 0 never turns |
| SolarSystem.RockStaysOnOrbit | components/SolarSystem.tsx:504-509 | a belt rock stays on its orbit circle |
| SolarSystem.SpinBodies | components/SolarSystem.tsx:501-503 | every body is turned, in place |
| SolarSystem.RollRocks | components/SolarSystem.tsx:504-509 | every rock is moved, in place |
| SolarSystem.RechargeRate | components/SolarSystem.tsx:531-538 | 0.02 from 200 out; inside that at least 0.1 and at least `(200 - d) / 400`; never above 0.5 |
| SolarSystem.SpeedCap | components/SolarSystem.tsx:517-530 | a velocity over 12 is rescaled to exactly 12 and a slower one is kept; the trail test `speed > 0.5` is a test on the squared speed |
| SolarSystem.SolarShipFacts | components/SolarSystem.tsx:511-540 | after friction, a speed above 12 is rescaled to exactly 12 and a lower one is kept; the ship moves by the new velocity; a trail point is added only above speed 0.5; the trail stays within 101; fuel rises (strictly below 100) and stays in [0, 100] |
| SolarSystem.Follow | components/SolarSystem.tsx:542-543 | the camera closes 10% of its gap to the ship |
| SolarSystem.ScanNoneIff | components/SolarSystem.tsx:545-555 | the scan as written answers none exactly when no body is within 300 + radius, and otherwise names a scanned body |
| SolarSystem.ScanPicksOutOfRange | components/SolarSystem.tsx:545-555 | the scan as written can name a body that is farther and out of its own range (see Findings) |
| SolarSystem.DistanceAtAngleZero | components/SolarSystem.tsx:548-550 | a body at angle 0 stands at its orbit radius from the centre |
| SolarSystem.Clearance | components/SolarSystem.tsx:551 | a body is in scan range exactly when its clearance (distance minus radius) is below 300 |
| SolarSystem.NearestScanFacts | components/SolarSystem.tsx:545-555 | the corrected scan answers none exactly when no body is in range; otherwise it names a body in range whose clearance is the least of all |
| SolarSystem.ClosestBody | components/SolarSystem.tsx:545-555 | the `forEach` as written computes `Scan`: none exactly when no body is within 300 + its radius, otherwise the name of one of the bodies |
| SolarSystem.DecayedShake | components/SolarSystem.tsx:582-586 | a positive shake shrinks, a non-negative one stays non-negative, and at most 0.1 it becomes exactly 0 |
| SolarSystem.Host.constructor | components/SolarSystem.tsx:58-84 | the refs' initial values: ship at (800, 0) moving (0, 2) with full fuel; satellite ready at (250, 0) |
| SolarSystem.Host.Manual | components/SolarSystem.tsx:339-368 | the ship is the manual step; in solar mode with the autopilot on, it is switched off by dispatch and its target cleared |
| SolarSystem.Host.Autopilot | components/SolarSystem.tsx:371-413 | the ship is the autopilot step towards the body |
| SolarSystem.Host.Steer | components/SolarSystem.tsx:338-419 | only in solar and arcade mode; input takes manual control; with no input, an engaged autopilot flies to its target if that body exists and changes nothing otherwise; with no autopilot the thruster is off |
| SolarSystem.SteerShipCases | components/SolarSystem.tsx:338-419 | steering by cases: nothing outside solar and arcade mode; manual control on a non-zero input; otherwise the autopilot's step to a known target, no change for an unknown one, and thrust off without the autopilot |
| SolarSystem.Host.ArcadeTick | components/SolarSystem.tsx:422-454 | fire on space; drift and wrap unless the game is over; a crash dispatches game-over, stops the thruster and shakes 15; points dispatch the new score and shake 5; the pools are `PhysicsNext` of the fired bullets; an empty field gets a wave of the snapshot score's size |
| SolarSystem.Host.FlyArcade | components/SolarSystem.tsx:422-440 | fire on space after 250 ms; the pools become `PhysicsNext` of those bullets; the ship drifts and wraps unless the game is over; a crash is reported exactly when an asteroid of the new pool touches it |
| SolarSystem.Host.ReportArcade | components/SolarSystem.tsx:441-449 | points shake the camera by 5 and dispatch the new score; a crash stops the thruster, shakes by 15 and dispatches game-over |
| SolarSystem.Host.ArcadeFrame | components/SolarSystem.tsx:422-454 | the arcade engine runs one frame from its old pools (`ArcadeRun`: the nose bullet on space after 250 ms, `Arcade.PhysicsNext`, a respawned wave on an emptied field); the ship drifts unless over; crash and points dispatched and shaken; the shake decays |
| SolarSystem.Host.OrbitTick | components/SolarSystem.tsx:456-488 | the simulator takes one frame of the status machine; nothing else changes |
| SolarSystem.Host.OrbitFrame | components/SolarSystem.tsx:456-488 | the simulator takes one frame and the shake decays; nothing else changes |
| SolarSystem.Host.ResetOrbitSim | components/SolarSystem.tsx:218-224 | ready at (distance, 0) moving at (0, speed) with an empty trail |
| SolarSystem.Host.LaunchOrbitSim | components/SolarSystem.tsx:226-241 | only from ready: placed at (distance, 0) with the launch velocity and running, trail kept; from any other status nothing changes |
| SolarSystem.Host.ApplyPreset | components/SolarSystem.tsx:243-276 | dispatches the preset's parameters; back to ready with the satellite at the preset distance on x (y and velocity untouched) and an empty trail |
| SolarSystem.Host.SolarTick | components/SolarSystem.tsx:500-556 | bodies turned, belt moved, ship flown and recharged (fuel never drops), camera following; the scan as written over the turned bodies is none exactly when no body is in range, otherwise names one of them, and is dispatched only when it differs from the state's |
| SolarSystem.Host.SolarFrame | components/SolarSystem.tsx:500-586 | the solar frame's ship, camera, bodies and belt, the closest-body dispatch when it changed, and the decayed shake |
| SolarSystem.Host.OtherFrame | components/SolarSystem.tsx:456-586 | outside arcade mode: the Raiden frame (`RaidenRun`), the orbit frame (`OrbitNext`, no dispatches) or the solar frame (`SolarStep`); each other mode's refs and engine unchanged; the shake decays |
| SolarSystem.Host.RaidenFrame | components/SolarSystem.tsx:490-498 | the Raiden engine ticks once from its old state (`RaidenRun`: `Raiden.PhysicsNext` with fire on space, `f`, enter or an input above 0.1); its report dispatched as score, hp and shield in that order; the shake decays; the host's other refs unchanged |
| SolarSystem.Host.DecayShake | components/SolarSystem.tsx:582-586 | the shake decays, and nothing else changes |
| SolarSystem.Host.ModeStep | components/SolarSystem.tsx:421-586 | the current mode's physics only: solar by `SolarStep`, arcade by `ArcadeStep` and `ArcadeRun` (the engine's frame), orbit by `OrbitNext`, Raiden by `RaidenRun` with its report dispatched; outside arcade mode the arcade engine is unchanged, outside Raiden mode the Raiden engine; the other modes' refs unchanged; the shake decays after any crash or points shake |
| SolarSystem.Host.Tick | components/SolarSystem.tsx:303-586 | one frame: the input is the aggregate; the ship is first steered; the dispatches are the autopilot switch-off (when manual input disengages it) followed by the mode's; from the steered ship, a solar frame is `SolarStep`, an arcade frame `ArcadeStep` with the engine's `ArcadeRun` (gain and crash dispatched from the engine's pass), an orbit frame `OrbitNext`, a Raiden frame `RaidenRun` with its report dispatched; each engine is unchanged outside its mode; the shake decays after any crash or points shake |
| ShipComputer.InterleavedIsPermutation | services/geminiService.ts:56-63 | the combined list holds each entry of the three lists as often as they do, and its length is the sum of theirs |
| ShipComputer.InterleavedOpening | services/geminiService.ts:59-63 | with three non-empty lists it starts science, fun, scale |
| ShipComputer.RoundsContents | services/geminiService.ts:59-63 | after `n` rounds exactly the first `n` entries of each list have been taken |
| ShipComputer.RoundsPrefix | services/geminiService.ts:59-63 | later rounds only append |
| ShipComputer.Interleave | services/geminiService.ts:56-63 | the loop builds the interleaving, a permutation of the three lists |
| ShipComputer.ScanStepFacts | services/geminiService.ts:47-74 | a scan changes only that body's counter, raising it by one and returning one of its entries; a body with no entries gets the no-data text and its counter does not move |
| ShipComputer.ScanRun | services/geminiService.ts:47-68 | over repeated scans the counter never falls |
| ShipComputer.ScansCycle | services/geminiService.ts:47-74 | successive scans return `combined[(c + k) mod len]`; the counter rises by one per scan (none without entries); other bodies' counters stay |
| ShipComputer.FirstScansInOrder | services/geminiService.ts:47-68 | from a body's first scan, the entries come back in order |
| ShipComputer.DeepScan | services/geminiService.ts:78-119 | no client gives the offline text; a reply gives its text or the default; a failure gives the rate-limit warning or one of the four fallback messages |
| ShipComputer.ContainsInside | services/geminiService.ts:111-113 | `includes` finds a string wherever it is written |
| ShipComputer.RateLimitExamples | services/geminiService.ts:108-113 | a message mentioning 'quota' anywhere is a rate limit; no fields, or status 500 alone, is not |
| ShipComputer.ChatAnswer | services/geminiService.ts:134-184 | no client gives the offline text; a reply gives its text or "Communications error."; a failure gives the bandwidth text exactly when it is a rate limit, and the interference text otherwise |
| ShipComputer.SystemContextNamesPlanet | services/geminiService.ts:141-143 | near a named planet the opening line names it; no planet or an empty name gives the deep-space line |
| ShipComputer.LastWindow | services/geminiService.ts:147 | `slice(-6)` is the last `min(len, 6)` entries |
| ShipComputer.RenderAppend | services/geminiService.ts:147-149 | rendering distributes over concatenation |
| ShipComputer.ContextUsesLastSix | services/geminiService.ts:147-149 | older history never reaches the context; a user line renders as "Pilot: ", any other as "Computer: ", then the content and a newline |
| ShipComputer.ChatContext | services/geminiService.ts:146-149 | the `forEach` builds the rendering of the last six entries |
| ShipComputer.Computer.constructor | services/geminiService.ts:36 | no counters |
| ShipComputer.Computer.PassiveScan | services/geminiService.ts:46-74 | text and new counters are the scan step's: the entry at the counter modulo the length, and the counter + 1 |
| ShipComputer.Computer.Describe | services/geminiService.ts:43-120 | without `forceAI` the passive scan; with it the deep-scan answer, with the counters untouched |

## Findings

| source | as written | input that shows it | evidently intended | confidence | as-written member | corrected member |
|---|---|---|---|---|---|---|
| components/SolarSystem.tsx:545-555 | after a body is found, `minDist` becomes that body's centre distance, and a later body is compared against `minDist + its radius` | ship at the origin; body A (radius 60) at distance 350; then body B (radius 10) at distance 355: A is in range (350 < 360), but B is also accepted (355 < 350 + 10) although it is farther and outside its own range (355 > 310) | the closest body reported is in range and is the one nearest the ship (here A); keeping `minDist` as the clearance `dist - radius` makes both hold | medium, not executed | SolarSystem.ScanPicksOutOfRange | SolarSystem.NearestScanFacts |
| hooks/useArcadeEngine.ts:14-17 | the spawn do-while redraws a position until it lies outside the 300x300 square around the centre | a canvas under 300 wide and under 300 high, e.g. a 0x0 canvas: every `Math.random()` pair lands inside the square, so the loop never ends and the frame hangs | spawning ends on any canvas, e.g. by bounding the redraws per asteroid and falling back to a fixed spot | medium, not executed | Arcade.NoSpotOnSmallCanvas | Arcade.BoundedWaveFacts |

The frame loop (`ClosestBody`, `Host.SolarTick`, `Host.Tick`) keeps the scan as written, `SolarSystem.Scan`, so that it does what the code does; the corrected scan `SolarSystem.NearestScan` stands beside it with its property proved.
The engine (`Arcade.ArcadeEngine.SpawnAsteroids`, the host's arcade frame) keeps the do-while as written, with the square test of `Arcade.Accepted`: it draws from a finite supply of samples and requires enough acceptable ones. The corrected spawn `Arcade.BoundedSpots` gives each asteroid at most 100 redraws (`Arcade.MAX_REDRAWS`) and falls back to the canvas corner (0, 0); `Arcade.BoundedWaveFacts` proves it always yields the full wave, outside the safe zone whenever the canvas is 300 or more wide or high.

## Left out

- Rendering, colours, the star field, the HUDs, the JSX and the touch and mouse handlers are not modelled: they draw, and change no simulation state.
- Audio cues are not modelled (`audioService` calls are no-ops).
- Building the belt and bodies at start-up is not modelled; the host takes both as constructor arguments.
- Gemini client calls, persona choice, prompt text, `async` and the 800 ms delay are not modelled. The reply is an `Outcome` parameter, and `Computer.Describe` returns at once.
- The fuel-sync throttle and `setFuel`, plus the chat state the host reads, are not modelled: `useGameState` defines none of them. Fuel is a ship field.
- `localStorage`: the initial high scores and mute flag are parameters of `GameState.Initial`, and the `saveSettings` write is the value `GameState.SettingsWrite` returns.
- React scheduling is not modelled: `requestAnimationFrame`, effect re-subscription and stale closures. Canvas sizes are parameters and must be at least 0.
- The preset speeds come from `Math.sqrt` and `toFixed(2)`, which are parameters (`m.sqrt`, `fixed2`); their floating-point values are not verified.
- Floating-point rounding is not modelled; all coordinates are `real`.
- SolarSystem.OrbitNext, SolarSystem.OrbitStatusMachine, SolarSystem.InverseSquare, SolarSystem.FarFromCentre, SolarSystem.ClampInputIsUnit, SolarSystem.TouchIsUnit, SolarSystem.SpeedCap, SolarSystem.SolarShipFacts, SolarSystem.DistanceAtAngleZero, SolarSystem.ScanPicksOutOfRange, Arcade.HitsBySquares, SolarSystem.Host.OrbitTick, SolarSystem.Host.OrbitFrame, SolarSystem.Host.SolarTick, SolarSystem.Host.SolarFrame, SolarSystem.Host.OtherFrame, SolarSystem.Host.ModeStep, SolarSystem.Host.Tick: these require `ExactSqrt`, that `Math.sqrt` is the exact root. The source does not promise this; the floating-point root differs.
- Arcade.ArcadeEngine.SpawnAsteroids: requires that the samples hold at least `count` acceptable positions. The do-while loop itself keeps drawing until it finds one, and on a canvas under 300 by 300 it never does (see Findings), so there the requirement cannot be met.
- SolarSystem.Host.ArcadeTick and SolarSystem.Host.ArcadeFrame, and SolarSystem.Host.ModeStep and SolarSystem.Host.Tick in arcade mode: the same requirement for the respawned wave, which likewise cannot be met on a canvas under 300 by 300.
- PassedDone: states only the totals the pass relation `Passed` keeps at the end; that each touching player shot strikes the last enemy it touches and is removed is stated turn by turn by `Raiden.ShotPassTurn`, and `Raiden.PlayerShotsHit` ends exactly in `Raiden.ShotPass`.
- Raiden.ShotsHitPlayer: requires the player to be on the canvas. Raiden.RaidenEngine.UpdatePhysics establishes this by clamping before the collision passes, so the second splice at line 259 never removes a neighbour. The double splice is modelled as written.
- ShipComputer.ErrorInfo: the thrown error is a record with optional `status`, `code` and `message`. Non-number or non-string values of these fields, which the optional chaining in the source also tolerates, are not modelled.
- `inputMag` is the length of the input before the clamp, so a keyboard diagonal thrusts with magnitude √2. This is modelled as written.
- SolarSystem.Host.Steer: the audio thrust level set at lines 364, 367, 394, 397, 412 and 417 is not modelled.
