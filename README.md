# Tolya runner: a verified model of the per-frame simulation

Tolya is a side-scrolling runner. The player moves left and right, jumps
over beds that scroll in from the right, and picks up a mushroom that makes
jumps stronger for five passes. A group of three minibosses may appear, at most
once per game, after a score of 25. The game is won at 50 points and lost on the
first touch of any obstacle other than the mushroom. All of the game logic
is in `tolya/src/App.tsx`:

- `startGame` resets the session.
- `gameLoop` runs once per animation frame. It guards on the game state,
  handles the win and arms the miniboss phase.
- `updatePhysics` does the rest, in this order: the speed tier, the
  player's motion, the spawn policy, the trees, the scroll and cleanup of
  the obstacles, and one collision-and-scoring scan.

The model has two layers.

- **Value level:** modules `Entities`, `Sequences`, `Lineage`, `Physics`,
  `Spawner`, `Movement`, `Collision` and `Session`.
  - The game's refs form one `World` record.
  - Every stage of a tick is a function on it, and `Session.TickStep` is
    one whole frame.
  - The properties the game promises are lemmas about these functions:
    - bounds, landing, spawn limits and lineage of the obstacles
    - the first lethal hit decides the loss, and the exact score gained
    - power-up decay, and monotone flags over any run of ticks
- **Object level:** module `Simulation`.
  - Class `Game` holds the same refs as mutable fields.
  - Its methods follow the source statement by statement: `StartGame`,
    `GameLoop`, `UpdatePhysics` and its stages. The one exception is the
    high-score update on a loss, which uses the corrected comparison (see
    "## Findings").
  - Each method is proved to leave exactly the state the value-level
    function computes, so every lemma of the value level holds of the
    object.
  - The loops of `updatePhysics` are module-level methods with loop
    invariants, proved against the same functions:
    - the miniboss push
    - the two scrolls
    - the collision loop, including the splice and the `i--` of the
      mushroom pickup

Inputs the game takes from its host are parameters of each tick:

- **Keys:** the held keys are three booleans, left, right, and up-or-space.
- **Random draws:** every `Math.random()` call site has its own field in a
  `Draws` record, each value in [0, 1).
- **Clock:** `Date.now()` is an integer `now`. The source calls it several
  times in a tick (for each miniboss, each bed or mushroom, and each tree);
  all the calls of one tick are taken as the same value.

Positions and velocities are exact `real` numbers. `GRAVITY` = 0.6 and the
other constants are as in the source (App.tsx lines 7-27).

## Model

| member | source | states |
|---|---|---|
| Physics.SpeedFor | tolya/src/App.tsx:218-224 | the speed is 6 exactly below 25 points, 7 exactly from 25 to 39, 8 exactly from 40 on |
| Physics.MinSpawnTime | tolya/src/App.tsx:262 | the dwell time between spawns is 40 or 60 frames |
| Physics.SpeedMonotone | tolya/src/App.tsx:219-224 | a higher score never lowers the speed nor lengthens the dwell time |
| Physics.DwellTimeByScore | tolya/src/App.tsx:262 | the dwell time is 40 frames from score 25 on and 60 before |
| Physics.ClampX | tolya/src/App.tsx:236-238 | the result lies in [0, 760], is the input when that lies there, and is the nearer bound otherwise |
| Physics.PlayerStep | tolya/src/App.tsx:226-257 | after every tick: x is the clamp of x + 5·right − 5·left; the last key applied sets the direction; y ≤ the ground line; on the ground line vy = 0 and not jumping |
| Physics.SettledPreserved | tolya/src/App.tsx:240-257 | a tick keeps the player consistent with the ground clamp: jumping exactly when above the ground, at rest when on it |
| Physics.JumpStart | tolya/src/App.tsx:240-248 | a jump starts exactly when the jump key is held and no jump is under way; its first move is −18 with the power-up and −12 without, then vy gains 0.6 |
| Physics.RestsOnGround | tolya/src/App.tsx:246-257 | a grounded player with no keys held is unchanged by a tick |
| Physics.IdleRun | tolya/src/App.tsx:246-257 | any number of idle ticks leave a grounded player unchanged |
| Physics.AirTime | tolya/src/App.tsx:242-248 | in exact arithmetic, the flight length n satisfies 0.3·(n − 1) = −jump force, so 41 ticks normally and 61 with the power-up |
| Physics.FlightOffsetClosedForm | tolya/src/App.tsx:247-248 | the height k ticks after the jump is J·k + 0.3·k·(k − 1), by induction over the move-then-gravity update |
| Physics.FlightAboveGround | tolya/src/App.tsx:247-257 | the player is strictly above the ground for every tick of the flight but the last |
| Physics.FlightLands | tolya/src/App.tsx:247-257 | in exact arithmetic, the flight returns exactly to the ground line at tick AirTime |
| Physics.Airborne | tolya/src/App.tsx:240-257 | k ticks after a jump, before landing and whatever keys are held, the player is jumping, at the parabola's height and velocity |
| Physics.JumpLands | tolya/src/App.tsx:240-257 | in exact arithmetic, after a jump the player is airborne for AirTime − 1 ticks and then lands on the ground line, at rest and not jumping |
| Spawner.MinibossAt | tolya/src/App.tsx:275-286 | the i-th miniboss is a well-formed, unpassed 100 × 70 miniboss standing on the floor line at x = 800 + 350·i, with id now + i |
| Spawner.MushroomAt | tolya/src/App.tsx:296-307 | the mushroom is a well-formed, unpassed 40 × 40 mushroom on the floor line at the right edge |
| Spawner.BedFor | tolya/src/App.tsx:311-329 | a bed at the right edge, neither miniboss nor mushroom, giant exactly when the giant draw is below 1%, and well-formed for draws in [0, 1) |
| Spawner.TreeFor | tolya/src/App.tsx:336-346 | a square tree at the right edge whose base is 10 pixels below the floor line, 50 to under 100 pixels wide for a scale draw in [0, 1) |
| Spawner.MinibossGroup | tolya/src/App.tsx:273-288 | the miniboss group has three obstacles |
| Spawner.MinibossPositions | tolya/src/App.tsx:273-277 | the group spawns at x = 800, 1150 and 1500 |
| Spawner.SpawnStep | tolya/src/App.tsx:259-333 | only the list, the frame counter and the two one-shot flags change; obstacles are appended and never altered; without a spawn the counter rises by one and after one it is ≤ 0 (−150 after the minibosses); the miniboss flag is set exactly when the miniboss roll wins; the mushroom flag is set exactly when the mushroom roll wins on a tick without minibosses |
| Spawner.SpawnedWellFormed | tolya/src/App.tsx:266-330 | every spawned obstacle is well-formed (its kind's size and variant, standing on the floor line) and not passed |
| Spawner.SpawnedCounts | tolya/src/App.tsx:266-330 | a spawn adds three minibosses exactly when the miniboss roll wins, and one mushroom exactly when the mushroom roll wins instead |
| Spawner.ScrollTrees | tolya/src/App.tsx:350-352 | every tree moves left by dx, nothing else about it changes |
| Spawner.BackgroundStep | tolya/src/App.tsx:335-353 | after the tree step every tree is on screen, and at most one tree was added |
| Spawner.TreesScrollAtHalfSpeed | tolya/src/App.tsx:349-353 | a tree still on screen after moving half the speed is kept, at exactly that position |
| Sequences.Filter | tolya/src/App.tsx:361 | the cleanup keeps only elements that pass its test, never more than it had |
| Sequences.FilterMembers | tolya/src/App.tsx:361 | an element is in the cleaned list exactly when it was in the list and passes the test |
| Sequences.FilterIdempotent | tolya/src/App.tsx:360-361 | running the cleanup twice removes nothing the second time |
| Movement.ScrollObstacles | tolya/src/App.tsx:355-358 | every obstacle moves left by exactly the speed, nothing else about it changes |
| Movement.ScrollStep | tolya/src/App.tsx:355-361 | only the obstacle list changes, and every obstacle left in it is on screen |
| Movement.ScrollStepEmbeds | tolya/src/App.tsx:355-361 | scroll and cleanup keep the order, move every survivor by exactly the speed and change nothing else |
| Movement.ScrollStepKeepsOnScreen | tolya/src/App.tsx:360-361 | every obstacle still on screen after the move is kept |
| Movement.CleanupIdempotent | tolya/src/App.tsx:360-361 | a second cleanup of the scrolled list removes nothing |
| Entities.Overlaps | tolya/src/App.tsx:366-371 | the strict four-sided box overlap; its symmetry is Collision.OverlapsSymmetric |
| Collision.Hits | tolya/src/App.tsx:366-371 | the player's 40 × 60 box overlaps the obstacle's box; Collision.HitsDoNotScore shows a touched obstacle is not also passed |
| Collision.OverlapsSymmetric | tolya/src/App.tsx:366-371 | the strict box-overlap test does not depend on the order of its boxes |
| Collision.HitsDoNotScore | tolya/src/App.tsx:366-371 | an obstacle that is touched cannot also be passed on the same tick |
| Collision.ReasonOf | tolya/src/App.tsx:383-385 | the loss reason of a non-mushroom obstacle names its kind: giant bed, else miniboss, else normal |
| Collision.Pass | tolya/src/App.tsx:394-408 | a pass adds exactly 1 to the score; while powered, a non-mushroom pass adds 1 to the counter and the power-up stays on exactly while the counter is below 5; otherwise the power-up is unchanged |
| Collision.Scan | tolya/src/App.tsx:363-409 | the scan adds at most one point per obstacle and never shrinks the score or grows the list |
| Collision.FirstLethal | tolya/src/App.tsx:364-392 | the index of the first lethal obstacle, or the length of the list when there is none: everything before it is not lethal |
| Collision.ScanLoss | tolya/src/App.tsx:364-392 | the scan reports a loss exactly when some obstacle is lethal, with the reason of the first such obstacle in spawn order |
| Collision.ScanScore | tolya/src/App.tsx:394-398 | the score rises by exactly the number of obstacles before the first lethal one that are passed for the first time |
| Collision.ScanKept | tolya/src/App.tsx:372-381 | the list after the scan: before the first lethal obstacle, all but the touched mushrooms, each scored one marked passed; from the lethal obstacle on, the list unchanged |
| Collision.ScanEmbeds | tolya/src/App.tsx:363-409 | the scan only drops obstacles and sets passed flags: order, position, size and kind are kept and a passed flag is never cleared |
| Collision.ScanPower | tolya/src/App.tsx:372-376 | the power-up comes on only after touching a mushroom, and while it is on the counter stays below 5 |
| Collision.ScanUntouched | tolya/src/App.tsx:364-409 | obstacles the player neither touches nor gets past are kept as they are, with no score, no power-up change and no loss |
| Collision.PickUpOnly | tolya/src/App.tsx:372-380 | touching a mushroom anywhere in a list whose other obstacles are neither touched nor passed removes just that mushroom, turns the power-up on with counter 0, leaves the score, and is not a loss |
| Collision.HighScoreAfterLoss | tolya/src/App.tsx:390 | after a loss the high score is at least the old high score and the score, and is one of the two |
| Collision.StaleHighScoreDrops | tolya/src/App.tsx:390 | the update as the loop runs it (against the captured 0) sets the high score 10 to 3 after losing at 3; the corrected update keeps 10 |
| Collision.ApplyScan | tolya/src/App.tsx:374-398 | stores the scan's list, score and power-up and, on a loss, the state, the reason and the high score; Simulation.Game.StoreScan is proved to leave exactly this state |
| Collision.CollisionStep | tolya/src/App.tsx:363-409 | the collision step keeps the player, the trees, the frame counter and the miniboss, mushroom and warning flags; it never lowers the score or the high score; the state stays or becomes lost |
| Session.InitialWorld | tolya/src/App.tsx:60-104 | the first render: the menu, score and high score 0, no obstacles or trees, the player at (50, 0) not jumping; Session.InitialInv shows it satisfies the invariant |
| Session.StartState | tolya/src/App.tsx:148-181 | a new game is playing with score 0, frame counter 0, no obstacles, every one-shot flag and the power-up cleared, and the player at rest on the ground at x = 50; the high score and the trees are kept |
| Session.ArmMiniboss | tolya/src/App.tsx:195-202 | the miniboss phase is armed once the score is at least 25; the warning shows only when arming before the group spawned; nothing else changes |
| Session.Prepared | tolya/src/App.tsx:215-353 | the player's move, the spawn step and the tree step at the speed of the current score; Session.PreparedInv keeps the invariant through it and Session.PreparedObstacles shows the list only gains the spawns |
| Session.PhysicsStep | tolya/src/App.tsx:215-410 | updatePhysics in the source's order: move, spawn, trees, scroll and cleanup, collision scan; Session.PhysicsLineage states the obstacle lineage through scroll and scan |
| Session.TickStep | tolya/src/App.tsx:187-204 | one tick of gameLoop; its properties are Session.TickGuards, Session.TickLoss, Session.TickScore, Session.TickLineage, Session.TickMonotone and Session.TickInv |
| Session.InitialInv | tolya/src/App.tsx:60-104 | the first-render state satisfies the session invariant |
| Session.StartInv | tolya/src/App.tsx:148-181 | a new game satisfies the session invariant |
| Session.TickInv | tolya/src/App.tsx:187-410 | each tick keeps the session invariant: the player in [0, 760] × (−∞, 290] and, once a game has started, clamp-consistent; every obstacle well-formed; the flags consistent with the score; at most three minibosses and one mushroom in the list, and none before their flags are set; the power counter below 5 while the power-up is on |
| Session.TickGuards | tolya/src/App.tsx:188-193 | a tick changes nothing unless the game is playing; at a score of 50 or more it only sets the state to won |
| Session.TickLoss | tolya/src/App.tsx:364-392 | a played tick ends lost exactly when the scanned list holds a lethal obstacle; the reason is that of the first such obstacle and the high score is updated; otherwise the game is still playing |
| Session.TickScore | tolya/src/App.tsx:394-398 | a played tick raises the score by exactly the number of first-time passes before the first lethal obstacle |
| Session.TickLineage | tolya/src/App.tsx:259-361 | the obstacle list after a tick is the old list plus the new spawns, in order, some dropped, the rest moved left by exactly the tick's speed with width, height, y, id, variant and kind kept and passed never cleared |
| Session.TickMonotone | tolya/src/App.tsx:187-410 | a tick never lowers the score or the high score, and never clears the miniboss-active, miniboss-spawned or mushroom-spawned flags |
| Session.PlayKeeps | tolya/src/App.tsx:187-213 | over any run of ticks the invariant holds, the score and high score never fall, and the once-per-game flags stay set |
| Session.PlayAfterEnd | tolya/src/App.tsx:188 | once the game is won or lost, further ticks change nothing |
| Simulation.PushMinibosses | tolya/src/App.tsx:273-288 | the loop appends the miniboss group to the list and keeps the existing obstacles in front |
| Simulation.ScrollEach | tolya/src/App.tsx:356-358 | the in-place loop leaves every obstacle moved by the speed, the same as the scroll function |
| Simulation.ScrollEachTree | tolya/src/App.tsx:350-352 | the in-place loop leaves every tree moved by half the speed, the same as the tree scroll |
| Simulation.StepPlayer | tolya/src/App.tsx:226-257 | the statement-by-statement update of the player gives exactly the player step |
| Simulation.AdvanceTrees | tolya/src/App.tsx:335-353 | the tree spawn, the loop and the cleanup give exactly the tree step |
| Simulation.DetectCollisions | tolya/src/App.tsx:363-409 | the collision loop, with its splice on a pickup and early return on a loss, gives exactly the scan's list, score, power-up and loss |
| Simulation.Game.constructor | tolya/src/App.tsx:59-99 | the component starts in the menu, score and high score 0, the player at (50, 0), no obstacles, and it satisfies the invariant |
| Simulation.Game.StartGame | tolya/src/App.tsx:148-181 | startGame, from any state, leaves exactly the new-game state and a valid object |
| Simulation.Game.ResetSession | tolya/src/App.tsx:149-180 | the state, the loss reason, the score and the frame counter are reset, the player is placed at the start and the obstacles are emptied; nothing else changes |
| Simulation.Game.ResetPowerUps | tolya/src/App.tsx:156-162 | the miniboss, mushroom and warning flags and the power counter are cleared; nothing else changes |
| Simulation.Game.Frame | tolya/src/App.tsx:187-213 | one frame on a valid object leaves exactly the tick's state and keeps the object valid |
| Simulation.Game.GameLoop | tolya/src/App.tsx:187-204 | gameLoop leaves exactly the state of one tick |
| Simulation.Game.UpdatePhysics | tolya/src/App.tsx:215-410 | updatePhysics leaves exactly the state of the physics step at the speed tier of the current score |
| Simulation.Game.MovePlayer | tolya/src/App.tsx:216-257 | only the player changes, to the player step under the held keys and the power-up |
| Simulation.Game.SpawnObstacles | tolya/src/App.tsx:259-333 | the fields change exactly as the spawn step says |
| Simulation.Game.UpdateBackground | tolya/src/App.tsx:335-353 | only the trees change, to the tree step |
| Simulation.Game.UpdateObstacles | tolya/src/App.tsx:355-361 | only the obstacles change, to the scroll step |
| Simulation.Game.Collide | tolya/src/App.tsx:363-409 | the fields change exactly as the collision step says |
| Simulation.Game.StoreScan | tolya/src/App.tsx:374-406 | the list, score and power-up become the scan's; on a loss the reason, the state and the high score are set; nothing else changes |

## Left out

- Rendering: the JSX, overlays and touch buttons, `CloudIcon`, the window-resize scaling, and all of `tolya/src/components/GameAssets.tsx`. These are presentation with no game logic.
- Input listeners: the keyboard and pointer handlers and the stuck-key effect are I/O. The held keys are an input of each tick. Clearing `keysPressed` on start and on a loss corresponds to the host passing no keys.
- Frame scheduling: `requestAnimationFrame`, `cancelAnimationFrame` and the 3-second warning timer depend on the host. The model sets `showWarning` as the loop does and clears it in `startGame`; the timer's clearing after 3 seconds is not modelled.
- React state: the setState copies (`setTolya`, `setObstacles`, `setScore` and so on) are not modelled. Only the authoritative ref values are kept.
- Loss timing: on a loss the source changes only the React state, and the ref is synced later by an effect. Until then `gameLoop` may request one more frame. The model sets the state to lost at once.
- Win timing: winning likewise changes only the React state. The model sets the state to won at once, and the loop stops as in the source.
- Randomness and the clock: `Math.random()` and `Date.now()` are inputs. All `Date.now()` calls of one tick are one value `now`, so the ids of a miniboss group are `now`, `now + 1`, `now + 2` even where the source's separate calls fall in different milliseconds. Ids have no effect on the simulation, and they are not unique, as in the source.
- Numbers: JavaScript doubles are modelled as exact reals. `Math.floor` is `Floor` on a real.
- Player size: the player's width and height never change in the source, so they are the constants `TOLYA_WIDTH` and `TOLYA_HEIGHT` rather than fields.
- Aliasing: the player ref and the obstacle objects change in place in the source. The model holds them as values in fields, and each loop works on a local copy of the list that the class then stores. In the source the presentation copies share these objects: `setObstacles([...obstaclesRef.current])` is a shallow copy, and `startGame` hands the same player object to `setTolya` and to the ref. The presentation only reads them, so the sharing does not change the simulation, but the model does not represent it.
- Absent features: a second level, falling branches, a double jump, a paused state and a cheat score multiplier are not in this version of the game's source.
- Collision.CollisionStep: on a loss it applies the corrected high-score update (the larger of the high score and the score), not the comparison against the captured 0 that the source makes; so its "never lowers the high score" holds of the corrected game only. The as-written rule is Collision.HighScoreAsWritten (see "## Findings").
- Collision.ApplyScan: on a loss it stores the high score by the corrected rule, not by the source's comparison against the captured 0.
- Session.TickLoss: the high score it states after a loss is the corrected maximum, not the source's comparison against the captured 0, which can lower it.
- Session.TickMonotone: its "the high score never falls" clause holds of the corrected update only; as written the source takes a high score of 10 to 3 after a loss at 3.
- Session.PlayKeeps: its high-score clause holds of the corrected update only, for the same reason as Session.TickMonotone.
- Simulation.Game.StoreScan: compares the score against the current high-score field, where the source compares against the captured 0.
- Physics.AirTime, Physics.FlightLands and Physics.JumpLands: the landing tick they state (41, or 61 with the power-up) is the one in exact arithmetic. In IEEE doubles 0.6 is not exact: from y = 290 the player is at 289.99999999999983 at that tick, just above the ground line, so the `>=` test fails and the program lands one tick later (42, or 62).
- Session.TickInv: the invariant bounds the miniboss and mushroom counts in the list, not over the whole game. The flags `hasSpawnedMiniboss` and `hasSpawnedMushroom`, proved never to clear in Session.TickMonotone and Session.PlayKeeps, give the once-per-game guarantee.

## Findings

| source | as written | input that shows it | evidently intended | confidence | as-written member | corrected member |
|---|---|---|---|---|---|---|
| tolya/src/App.tsx:390 | `gameLoop` is memoised with an empty dependency list (line 213). So it keeps the first render's `updatePhysics`, and the comparison is against that render's `highScore`, which is 0: any losing score above 0 replaces the high score. | high score 10, then a game lost at score 3: the high score becomes 3 | the high score becomes the score only when the score beats the current high score | not executed | Collision.HighScoreAsWritten, Collision.StaleHighScoreDrops | Collision.HighScoreAfterLoss |
