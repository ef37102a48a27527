# Bunny Hop: a verified model of the game core

Bunny Hop is a browser game in which a square "bunny" bounces up an endless
column of platforms. Each frame, `Game.update` in `game.js`:

1. runs the player's physics step;
2. moves the platforms;
3. lets every platform in turn catch a falling player and bounce it up;
4. scrolls the camera and ratchets the distance score;
5. tracks the highest point;
6. drops platforms that scrolled below the screen;
7. tops the array back up to 15 platforms;
8. recomputes the speed multiplier from the distance;
9. stops the game when the player has fallen more than a screen height below its best point.

`LeaderboardManager.isTopTen` in `leaderboard.js` decides whether a final distance earns a place on the stored top-ten board.

The model has two layers.

- **Values.** Module `Physics` models the player (`PlayerState`, `PlayerStep`, `Collides`, `LandOn`, `Resolve`). Module `Platforms` models one platform (`PlatformState`, `NewPlatform`, `PlatformStep`). Module `Registry` models the platform array: creation above the top, the ladder shape, eviction and top-up. `Difficulty` holds the milestone ladder, and `Simulation` is one whole tick (`World`, `Tick`) with the invariant `WellFormed` that every tick keeps.
- **Objects.** The classes `Physics.Player`, `Platforms.Platform` and `Engine.Game` have the source's fields and methods. Each method is proved against the value layer. For example, `Player.Update` leaves `Model() == PlayerStep(old(Model()), left, right)`. `Game.Update` leaves the game's abstract value equal to `Tick` of the old one and keeps `Valid()`. `Valid()` says the platform objects are distinct and the abstract state is well formed.

Randomness enters only as parameters. Each platform built takes one `Draw` record with four fields, each a real in [0, 1): the gap, the x position, the moving coin and the constructor's direction coin. Not every field stands for a call the source makes. The starting platform draws only its direction (game.js:409), so its gap, x and coin fields go unused. `generateInitialPlatforms` never flips the moving coin (game.js:184), so that field goes unused for the initial platforms. `generateNewPlatform` flips the coin only when the multiplier is at least 1.6, because `&&` short-circuits (game.js:197); below that the field goes unused. An unused field has no effect on the result. `init` takes 16 draws and `update` takes 14. No tick builds more than 14 platforms: the top platform is never evicted, and this is proved.

The `keys` map is reduced to two flags. `left` means ArrowLeft or `a` is held; `right` means ArrowRight or `d` is held.

Positions and velocities are exact reals, and `Math.floor` is `.Floor`.

The well-formedness invariant (`Simulation.Arranged` and `Simulation.WellFormed`) is what lets the model prove, rather than assume, that `generateNewPlatform` always finds a last platform. It has three parts:

- The array is a *ladder*: every platform is well built, and each one sits a gap in [60, 120) above the one before it.
- The player's `Reach` bound is never more than `Clearance` (30 + 12²/(2·0.5) = 174) above the top platform. `Reach` is y − v²/(2·gravity), the peak of the continuous-time trajectory. The source's discrete step (speed first, then position) peaks lower: a bounce at −12 rises 138, not 144. So `Reach` is a height the player never rises above, and `Clearance` bounds the bounce rather than equalling it.
- The camera never scrolls the top platform more than `Clearance` below the middle of the screen.

## Model

| member | source | states |
|---|---|---|
| Physics.PlayerStep | game.js:325-355 | velocityX is -5 if left is held, else +5 if right is held, else 0 (left wins a tie); velocityY is the old one plus gravity, capped at 15; y moves by exactly the new velocityY; isOnGround is false; x wraps to 375 past -30 and to -30 past 375, so an x in [-30, 375] stays there |
| Physics.Player.constructor | game.js:315-323 | a new player is at the given position, at rest, not on the ground |
| Physics.Player.Update | game.js:325-355 | the field-by-field update leaves the player's value equal to PlayerStep of the old value |
| Physics.Collides | game.js:357-371 | a collision is reported only while falling (velocityY > 0), when the bottom edge was at or above the platform top before the step, lies between the platform's top and bottom now, and the two overlap horizontally |
| Physics.Player.CheckCollision | game.js:357-371 | the method answers exactly Collides of the player's and the platform's values, and true only while falling |
| Physics.LandOn | game.js:373-377 | landing puts the bottom edge on the platform top, sets velocityY to -12 and isOnGround, keeps x and velocityX; the player's Reach bound is then exactly 174 above the platform top |
| Physics.Touch | game.js:226-228 | defines one test-and-land step of the collision pass: land on the platform when Collides, else leave the player as it is; its properties are the Resolve lemmas below |
| Physics.Resolve | game.js:224-229 | defines the collision pass as a Touch per platform, in array order, each on the result of the one before; the Resolve lemmas below state what it does |
| Physics.Player.Land | game.js:373-377 | the method leaves the player's value equal to LandOn of the old value |
| Physics.NoCollisionAfterLanding | game.js:357-377 | a player that has just landed cannot collide with any platform |
| Physics.ResolveSnoc | game.js:224-229 | the collision pass over one more platform is one more test-and-land step at the end |
| Physics.ResolveAfterLanding | game.js:224-229 | once the player has landed, the rest of the pass leaves it unchanged |
| Physics.ResolveNoHit | game.js:224-229 | a pass in which no platform catches the player changes nothing |
| Physics.ResolveFirstHit | game.js:224-229 | the pass lands the player on the first platform that catches it and on no later one |
| Physics.ResolveCases | game.js:224-229 | after the pass the player is either unchanged or landed on one platform of the array |
| Physics.ReachBelowPlayer | game.js:336-345 | the Reach bound, y − v²/(2·gravity), is never below the player |
| Physics.ReachAtRest | game.js:320-321 | for a player at rest the Reach bound is exactly where it is |
| Physics.StepKeepsReach | game.js:336-345 | a physics step, with or without the terminal-speed cap, never moves the Reach bound up the screen, so the player never rises above it |
| Platforms.NewPlatform | game.js:402-412 | the constructor stores x, y, width and isMoving, starts at originalX = x, faces -1 for a draw below 0.5 and 1 otherwise, and builds a well-built platform from the standard width and an x inside the canvas |
| Platforms.PlatformStep | game.js:414-432 | defines Platform.update: a static platform is left alone; a moving one advances by moveSpeed · moveDirection, reverses once farther than moveRange from originalX, and is clamped to the canvas edge facing inward; PlatformStepSpec, StepKeepsSwing and NewPlatformSwings state its properties |
| Platforms.Platform.constructor | game.js:402-412 | the new object's value is NewPlatform of the arguments |
| Platforms.PlatformStepSpec | game.js:414-432 | a static platform is unchanged; a moving one changes only x and moveDirection, keeps the direction in {-1, 1}, ends with 0 ≤ x ≤ 375 - width, and after crossing an edge sits on it facing inward; inside the canvas it moves by exactly one stride and reverses exactly when it ends farther than moveRange from originalX (game.js:419-421); a well-built platform stays well built |
| Platforms.StepKeepsSwing | game.js:414-432 | a moving well-built platform that is swinging keeps swinging: it never strays more than moveRange + moveSpeed from originalX, once beyond moveRange it heads back toward originalX, and originalX stays inside the canvas |
| Platforms.NewPlatformSwings | game.js:402-412 | a new moving platform of the standard width at any x in [0, 295] starts swinging about its x, whichever way the draw makes it face |
| Platforms.Platform.Update | game.js:414-432 | the method leaves the platform's value equal to PlatformStep of the old value |
| Platforms.Advance | game.js:222 | defines the motion pass: every platform of the array takes one PlatformStep, in place; AdvanceKeepsHeights states its properties |
| Platforms.AdvanceKeepsHeights | game.js:221-222 | the motion pass keeps the array's length and every platform's y, and keeps well-built platforms well built |
| Difficulty.ReachedMonotone | game.js:206-212 | a larger distance reaches at least as many milestones |
| Difficulty.ReachedNone | game.js:206-212 | a distance below every milestone reaches none |
| Difficulty.ReachedExactly | game.js:206-212 | on an ascending list, a distance at milestone i and below every later one reaches exactly i + 1 milestones |
| Difficulty.Multiplier | game.js:202-213 | the multiplier for a distance is one of the six configured multipliers |
| Difficulty.MultiplierBase | game.js:212 | below distance 500 the multiplier is 1.0 |
| Difficulty.MultiplierTop | game.js:206-209 | from distance 2500 on the multiplier is 3.0 |
| Difficulty.MultiplierMonotone | game.js:202-213 | the multiplier never falls as the distance grows |
| Difficulty.MovingThresholdDistance | game.js:197 | the multiplier reaches the moving-platform threshold 1.6 exactly from distance 1000 on |
| Engine.Game.UpdateDifficulty | game.js:202-213 | the reverse scan with early return leaves speedMultiplier equal to the entry whose index is the number of milestones the distance has reached; nothing else changes |
| Registry.GapOf | game.js:180 | a drawn gap lies in [60, 120) |
| Registry.SpawnX | game.js:183 | a drawn x lies in [0, 295) |
| Registry.StartPlatform | game.js:169-174 | the starting platform is static, well built, at y = 600 and centred on the canvas |
| Registry.Above | game.js:180-186 | a platform built from a draw is well built and one gap in [60, 120) above the platform below it |
| Registry.Spawn | game.js:190-200 | generateNewPlatform builds a well-built platform one gap above the top one, moving exactly when the multiplier is at least 1.6 and the coin is below 0.3 |
| Registry.LadderSpan | game.js:167-199 | along a ladder, platform j is at least (j - i) minimum gaps above platform i |
| Registry.LadderDescends | game.js:167-199 | along a ladder y strictly decreases, so the last platform of the array is the topmost |
| Registry.OnScreen | game.js:247 | defines the eviction test: a platform survives when its y plus the camera offset is below 767, the canvas height plus 100 |
| Registry.Survivors | game.js:245-248 | the filter never lengthens the array |
| Registry.SurvivorsAll | game.js:245-248 | the filter keeps an array whose platforms are all on screen |
| Registry.SurvivorsNone | game.js:245-248 | the filter empties an array none of whose platforms is on screen |
| Registry.EvictionDropsPrefix | game.js:245-248 | on a ladder the filter removes exactly a prefix of platforms that are below the screen, and every platform after it is on screen |
| Registry.EvictionKeepsTop | game.js:245-248 | when the top platform is on screen, the filter leaves a non-empty ladder with the same top |
| Registry.LadderSnoc | game.js:199 | pushing a well-built platform one gap above the top extends a ladder |
| Registry.TopUp | game.js:250-253 | the top-up loop ends with exactly 15 platforms if there were fewer, and otherwise adds nothing |
| Registry.TopUpShape | game.js:250-253 | the top-up keeps the old platforms in place, stacks each new one above the one before it, extends a ladder and never lowers the top |
| Registry.TopUpMovingGate | game.js:197 | below multiplier 1.6 the top-up creates no moving platform |
| Registry.EvictThenTopUp | game.js:245-253 | filter then top-up: a prefix below the screen is dropped, the rest stay in order, new platforms are stacked above them until 15 are live |
| Engine.Game.GenerateNewPlatform | game.js:190-200 | the method appends exactly Spawn of the old top platform, at the current multiplier, and keeps the objects distinct |
| Engine.Game.Push | game.js:186 | pushing a new Platform appends its NewPlatform value and keeps the objects distinct |
| Engine.Game.GenerateInitialPlatforms | game.js:167-188 | the loop builds exactly InitialPlatforms: the starting platform, then 15 static platforms each one drawn gap above the one before |
| Engine.InitialWorld | game.js:152-165 | defines the state init leaves: the player at (187.5, 567) and at rest (StartPlayer), the initial platforms, distance 0, multiplier 1.0, camera 0, the highest point at the player's y, and isRunning untouched; InitialWellFormed and Game.Init state its properties |
| Engine.Rung | game.js:176-186 | defines platform k of the initial stack: the starting platform for k = 0, else a static platform one drawn gap above platform k - 1; RungShape and RungHeight state its properties |
| Engine.InitialPlatforms | game.js:167-188 | initialisation builds 16 platforms |
| Engine.RungShape | game.js:167-188 | every platform initialisation builds is well built and static |
| Engine.RungHeight | game.js:176-181 | platform k of the initial stack is at least k minimum gaps above y = 600 |
| Engine.FirstRungs | game.js:179-187 | after n pushes the array holds n platforms |
| Engine.InitialLadder | game.js:167-188 | the 16 initial platforms form a ladder of static platforms that starts with the centred starting platform, with the top at least 900 above it |
| Engine.InitialWellFormed | game.js:152-165 | the state init builds satisfies the tick invariant |
| Engine.Game.constructor | game.js:36-43 | a new game has no player, no platforms, zero counters, multiplier 1.0, and is stopped |
| Engine.Game.ResetCounters | game.js:160-164 | distance, multiplier, camera and highest point are reset, the highest point to the player's y; nothing else changes |
| Engine.Game.Init | game.js:152-165 | init creates a fresh player at (187.5, 567), builds the initial platforms as distinct objects, resets the counters and leaves isRunning as it was |
| Engine.Game.Start | game.js:134-141 | start is init followed by setting isRunning; the result is the initial world, running and valid |
| Engine.Game.GameOver | game.js:306-307 | game over stops the game |
| Engine.Game.MovePlayer | game.js:218-219 | the player object takes exactly one physics step |
| Engine.Game.MovePlatforms | game.js:221-222 | every platform object takes exactly one step, one step per distinct object, in array order |
| Engine.Game.CheckCollisions | game.js:224-229 | the loop over the array leaves the player equal to the value-level collision pass |
| Engine.Game.FollowCamera | game.js:231-238 | above mid-screen the camera offset becomes 333.5 - y and the distance becomes the larger of itself and a tenth of the offset, rounded down |
| Engine.Game.TrackHighest | game.js:240-243 | the highest point becomes the player's y when the player is higher |
| Engine.Surviving | game.js:246-248 | the object filter only keeps objects of the array |
| Engine.SurvivingModels | game.js:246-248 | the object filter keeps exactly the objects whose values the value-level filter keeps, in order |
| Engine.Game.RemoveOffscreen | game.js:245-248 | the method leaves the game equal to Evict of the old state, with the objects still distinct |
| Engine.Game.Replenish | game.js:250-253 | the while loop of generateNewPlatform calls leaves exactly TopUp of the old array |
| Engine.Game.CheckGameOver | game.js:258-262 | the game stops exactly when the player is more than 667 below its highest point |
| Engine.Game.Move | game.js:218-243 | the first five phases leave the game equal to Prelude of the old state |
| Engine.Game.Settle | game.js:245-262 | the last four phases leave the game equal to eviction, top-up, difficulty and the game-over test applied to the old state |
| Engine.Game.Step | game.js:217-262 | a running game's update leaves it equal to Tick of the old state and keeps it valid |
| Engine.Game.Update | game.js:215-262 | update keeps the game valid, leaves it equal to Tick of the old state, and touches nothing while the game is not running |
| Simulation.MovePlayer | game.js:218-219 | defines the first phase: the player takes one PlayerStep from the held keys |
| Simulation.MovePlatforms | game.js:221-222 | defines the second phase: every platform takes one step (Advance) |
| Simulation.Collide | game.js:224-229 | defines the third phase: the collision pass (Resolve) over the moved platforms |
| Simulation.FollowCamera | game.js:231-238 | defines the fourth phase: above mid-screen the camera offset becomes 333.5 - y and the distance the larger of itself and a tenth of the offset rounded down; otherwise nothing changes |
| Simulation.TrackHighest | game.js:240-243 | defines the fifth phase: the highest point becomes the player's y when the player is higher |
| Simulation.Evict | game.js:245-248 | defines the sixth phase: the array is filtered by OnScreen at the current camera offset |
| Simulation.Replenish | game.js:250-253 | defines the seventh phase: the array is topped up to 15 platforms (TopUp) at the current multiplier |
| Simulation.UpdateDifficulty | game.js:255-256 | defines the eighth phase: the multiplier becomes Multiplier of the distance |
| Simulation.CheckGameOver | game.js:258-262 | defines the last phase: the game stops when the player is more than 667 below its highest point |
| Simulation.Prelude | game.js:218-243 | defines the first five phases, composed in the order update runs them |
| Simulation.Tick | game.js:215-262 | defines one call of update: nothing while the game is not running, else the nine phases in order; the Tick lemmas below state its properties |
| Simulation.MovePlayerKeeps | game.js:218-219 | the physics step keeps the tick's geometry |
| Simulation.MovePlatformsKeeps | game.js:221-222 | platform motion keeps the geometry and the array's length |
| Simulation.CollideKeeps | game.js:224-229 | whatever the collision pass does, the player's Reach bound stays at most 174 above the top platform |
| Simulation.FollowCameraKeeps | game.js:231-238 | the camera step keeps the geometry and never lowers the distance |
| Simulation.EvictKeeps | game.js:245-248 | eviction keeps the geometry and the top platform |
| Simulation.ReplenishKeeps | game.js:250-253 | the top-up keeps the geometry and leaves at least 15 platforms |
| Simulation.PreludeKeeps | game.js:218-243 | the first five phases keep the geometry and the array's length, and never lower the distance |
| Simulation.PreludeLeavesTop | game.js:191 | eviction never empties the array, so generateNewPlatform always has a last platform to read |
| Simulation.TickPlatforms | game.js:221-253 | a running tick's array is the moved array, filtered at the new camera offset and topped up, and the filter keeps the top |
| Simulation.TickIdle | game.js:216 | update changes nothing while the game is not running |
| Simulation.TickKeepsWellFormed | game.js:215-262 | every tick keeps the invariant: at least 15 platforms, y strictly decreasing along the array |
| Simulation.TickRatchetsDistance | game.js:231-238 | the distance never decreases, and when it rises it is a tenth of the camera offset, rounded down |
| Simulation.TickTracksHighest | game.js:240-243 | the highest point never moves down, ends at or above the player, and is either unchanged or the player's y |
| Simulation.TickGameOver | game.js:258-262 | a running game stops exactly when the player ends more than 667 below the highest point |
| Simulation.TickLandsOnFirstHit | game.js:224-229 | after a tick the player stands on the first platform of the moved array that catches its physics step, and is exactly where that step put it if no platform does; so it lands at most once per tick |
| Simulation.TickRegistry | game.js:245-253 | the tick's array is the moved array with a prefix below the screen dropped and new platforms appended up to 15, each one gap above the one before, at the multiplier the tick started with |
| Simulation.TickStaticBelowThreshold | game.js:197 | below distance 1000, a game with only static platforms keeps only static platforms |
| Leaderboard.IsTopTen | leaderboard.js:59-68 | with fewer than 10 stored scores any score qualifies; with 10 or more, exactly a score strictly above the tenth one qualifies, so a tie is rejected |
| Leaderboard.AtLeast | leaderboard.js:59-68 | the number of entries at least as good as a score is at most the board's length |
| Leaderboard.AtLeastAppend | leaderboard.js:59-68 | counting over two halves of a board adds up |
| Leaderboard.AtLeastAll | leaderboard.js:61-63 | when every entry is at least as good as the score, all of them count |
| Leaderboard.AtLeastNone | leaderboard.js:65-67 | when every entry is worse than the score, none of them counts |
| Leaderboard.TopTenIsRank | leaderboard.js:59-68 | on a board ranked best first, a score qualifies exactly when fewer than ten stored entries are at least as good as it, that is, when it would rank in the first ten places |
| Leaderboard.TopTenMonotone | leaderboard.js:65-67 | a higher score qualifies whenever a lower one does |
| Leaderboard.TopTenReadsTenth | leaderboard.js:61-67 | the answer depends only on the board's length and its tenth entry, not on entries beyond it |

## Left out

- Drawing: `Game.draw`, `Player.draw` and `Platform.draw` only produce pixels.
- The DOM: input event handlers, the touch controls, the screen changes and the text writes of `update` and `gameOver` (the distance and speed labels, the final-distance text).
- Scheduling: the `requestAnimationFrame` loop (`gameLoop`) and `restart`. A frame loop owned by the browser is not a core operation. `restart` is `start` without the start screen, so its model would be `Engine.Game.Start` again.
- The `keys` map: it is two flags per tick. Touch input only sets the same keys.
- Numbers: positions are exact reals, not IEEE doubles. Rounding in, for example, 0.5-step gravity or the gap arithmetic is not modelled.
- Randomness: `Math.random()` values are inputs (`Registry.Draw`, `Platforms.NewPlatform`'s direction draw), not generated.
- The networked leaderboard: `loadScores`, `submitScore`, `displayLeaderboard` and `LeaderboardUI` are fetch and HTML plumbing. The stored board is the parameter of `Leaderboard.IsTopTen`. Being a function, `IsTopTen` cannot modify the board.
- The game has no check against near-duplicate platforms, no "climbing started" flag that suppresses game over, no guard against re-entrant ticks and no recovery from an empty platform array; the model adds none. Instead it proves the top platform is never evicted, so the array is never empty when `generateNewPlatform` reads it.
- Engine.Game.GenerateInitialPlatforms: requires an empty array, which `init` always provides just before. The source would push onto whatever array it found.
- Engine.Game.GenerateNewPlatform: requires a non-empty array. The source would throw when reading the last element of an empty one. The model proves this never happens during `update` (`Simulation.PreludeLeavesTop`).
- Registry.TopUp: requires a non-empty array for the same reason.
- Simulation.Tick: defined only on well-formed states. Every state reachable from `init` is well formed (`Engine.InitialWellFormed`, `Simulation.TickKeepsWellFormed`). `Engine.Game.Update` requires `Valid()` accordingly.
- Engine.Game.Update: takes at least 14 draws, enough for any tick. A tick uses draws only for the platforms it builds, in order.
- The split of `update` into `Move`, `Settle` and `Step`, of `init` into `ResetCounters`, and of `push(new Platform(...))` into `Push` is a factoring of inline code for the proofs. The statements and their order are the source's.
- `isOnGround` is written but never read by the core, so no property depends on it.
