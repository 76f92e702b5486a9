# World ID arcade: leaderboard and canvas shooters, modelled in Dafny

This project models the core of a World ID mini-app: a space shooter game
whose high scores are only accepted with a World ID proof.

- **Leaderboard backend.** There are two copies of it.
  - The Express server, `frontend/server.ts`.
  - The Next.js API route, `frontend/pages/api/verify-score.ts`.

  Both keep a list of verified scores. GET answers the ten best. POST
  upserts one record keyed by the World ID nullifier hash and reports the
  record's 1-based leaderboard position. The Next.js route also dispatches
  on the HTTP method.
- **React shooter,** `frontend/src/SpaceInvaders.tsx`. It has a grid of
  enemies with three motion patterns, a boss on every fifth level, level
  progress, keyboard and touch controls, pause, and level-up.
- **Older shooter,** `frontend/src/Game.tsx`. It is a single closure with
  randomly entering enemies, a level transition deferred by a timer, and
  held-key movement.

## Modules

| file | module | what it holds |
|---|---|---|
| `common.dfy` | `Common` | `Option`, and `RemoveAt`, which is JavaScript's one-element `splice` |
| `geometry.dfy` | `Geometry` | the strict point-in-box test of SpaceInvaders.tsx and the strict box-overlap test of Game.tsx |
| `scoreboard.dfy` | `ScoreBoard` | the records, find, the stable descending sort, top ten, upsert, position, and the GET and POST of `server.ts` |
| `next_route.dfy` | `NextRoute` | the method dispatch of `verify-score.ts` |
| `invader_rules.dfy` | `InvaderRules` | every rule of SpaceInvaders.tsx as a function of one snapshot `World`, plus the properties of those rules |
| `invader_session.dfy` | `InvaderSession` | the class `Session`, whose fields are the React state and the effect's locals; the loops of `render` as methods proved equal to the rules |
| `arcade_rules.dfy` | `ArcadeRules` | every rule of Game.tsx as a function of one snapshot `Stage`, plus the properties of those rules |
| `arcade_game.dfy` | `ArcadeGame` | the class `Game`, whose fields are the closure variables of `initializeGame`; its loops and handlers as methods |

## How the models are built

- **Collections and loops.**
  - Lists that the source mutates (`enemies`, `projectiles`, `bossProjectiles`) are `seq` fields.
  - `forEach` loops are `while` loops over them.
  - Every `splice(index, 1)` inside a `forEach` is modelled exactly. The element that moves into the freed slot is skipped by that pass, as JavaScript's `forEach` skips it.
  - The inner collision loops test the value read at the start of the outer step, even after it has been removed.
- **Proof structure.** Each loop method is proved equal to a recursive specification function. The properties are proved about that function. Each class method ensures that the new `Snapshot()` is the rule function applied to the old one.
- **Inputs.** Trigonometry, random draws, the boss's clock-driven drift and fire cadence, and the proof check are all inputs:
  - `Motion` and `FrameInput` carry them for SpaceInvaders.tsx.
  - `Motion` and `Draw` carry them for Game.tsx.
  - The proof check is the boolean `verified`.
- **Numbers and the file.**
  - Coordinates are exact reals.
  - Scores and levels are integers.
  - The scores file is an input list (what `readScores` returned) and an output option (what `writeScores` would store).

## Model

| member | source | states |
|---|---|---|
| Common.RemoveAt | frontend/src/SpaceInvaders.tsx:210-213 | `splice(i, 1)` shortens the list by one when `i` is an index of it and leaves it as is otherwise |
| Common.RemoveAtShifts | frontend/src/SpaceInvaders.tsx:210-213 | after `splice(i, 1)` the elements before `i` are unchanged, every later element sits one slot to the left, and exactly the element at `i` is gone (multiset) |
| Common.RemoveAtSubset | frontend/src/Game.tsx:173-174 | `splice` never introduces an element |
| Geometry.WithinExcludesEdges | frontend/src/SpaceInvaders.tsx:267-272 | the hit test is strict: a point on any edge of a box is not inside it |
| Geometry.OverlapSymmetric | frontend/src/Game.tsx:167-172 | the projectile/enemy overlap test gives the same answer with the two boxes swapped |
| Geometry.WithinIsPointOverlap | frontend/src/SpaceInvaders.tsx:267-272 | the point test of SpaceInvaders.tsx is the overlap test of Game.tsx applied to a zero-size box |
| Geometry.OverlapIffSharedPoint | frontend/src/Game.tsx:167-172 | two boxes of positive size overlap exactly when some point lies strictly inside both |
| ScoreBoard.FindIndex | frontend/server.ts:81-83 | the index of the first record with the nullifier hash, or -1 exactly when no record has it |
| ScoreBoard.Insert | frontend/server.ts:101-102 | one insertion step of the sort adds exactly that record to the list |
| ScoreBoard.InsertKeepsOrder | frontend/server.ts:101-102 | inserting a record into a list in descending score order keeps it descending |
| ScoreBoard.SortByScore | frontend/server.ts:60-61 | the sort with comparator `b.score - a.score` returns a permutation of the records in descending score order |
| ScoreBoard.Above | frontend/server.ts:101-103 | the number of records scoring strictly above a value is at most the number of records |
| ScoreBoard.Ties | frontend/server.ts:101-103 | the records tied at a value are records of the list that score exactly that value |
| ScoreBoard.AboveInsert | frontend/server.ts:101-102 | an insertion step does not change how many records score above any value |
| ScoreBoard.SortKeepsAbove | frontend/server.ts:101-102 | sorting does not change how many records score above any value |
| ScoreBoard.TiesInsert | frontend/server.ts:101-102 | an insertion step keeps equal-scoring records in their original relative order (stability) |
| ScoreBoard.SortKeepsTies | frontend/server.ts:101-102 | the sort is stable: records with equal scores keep their stored order |
| ScoreBoard.AboveNone | frontend/server.ts:101-103 | when no record scores above a value, none is counted above it |
| ScoreBoard.TiesContains | frontend/server.ts:101-103 | every record is among the records tied at its own score |
| ScoreBoard.RankInSorted | frontend/server.ts:101-103 | in a descending list, a record's index is the number of records scoring more, plus the number of equal-scoring records listed before it |
| ScoreBoard.SortedRank | frontend/server.ts:101-103 | for a stored hash, `findIndex` on the sorted list plus one is the reference position: 1 + records scoring strictly more + equal-scoring records stored earlier; it is at least 1 |
| ScoreBoard.TopTen | frontend/server.ts:60-62 | sort then `slice(0, 10)` gives min(10, n) records, in descending order, all taken from the stored list |
| ScoreBoard.TopTenHoldsBest | frontend/server.ts:60-62 | no record left out of the top ten scores more than a record in it |
| ScoreBoard.Get | frontend/server.ts:58-64 | GET answers status 200 with at most ten records from the file, in descending score order |
| ScoreBoard.UpsertAppendsNew | frontend/server.ts:91-99 | an unknown hash appends exactly one record, with the submitted score, hash and verification level and the current timestamp |
| ScoreBoard.UpsertRaisesOnly | frontend/server.ts:85-90 | a known hash writes only when the new score is strictly higher; then it changes only that record, to the new score and the current time as its timestamp; otherwise the record is unchanged, so the stored score never goes down |
| ScoreBoard.UpsertKeepsUnique | frontend/server.ts:81-99 | starting from a list with one record per hash, the list after the POST still has one record per hash, contains the submitted hash, and grew by at most one |
| ScoreBoard.NewLeaderRanksFirst | frontend/server.ts:91-103 | a first submission that beats every stored score is reported at position 1 |
| ScoreBoard.Post | frontend/server.ts:66-110 | a failed proof check answers 400 "Invalid proof" and writes nothing; otherwise the POST writes the upsert and answers 200 echoing the score and hash, always with a position of at least 1, and, on a file with one record per hash, with the submitted hash's reference position in the list after the upsert |
| ScoreBoard.SortedFinds | frontend/server.ts:101-103 | a hash present in the list is found again after the sort |
| NextRoute.Handler | frontend/pages/api/verify-score.ts:35-104 | GET answers 200 with the top ten and writes nothing; a method other than GET or POST answers 405 "Method not allowed"; POST refuses an invalid proof with 400 and otherwise upserts and reports a position of at least 1 (its rank when the stored hashes are unique), as `ScoreBoard.Post` does |
| NextRoute.ResubmissionIsIdempotent | frontend/pages/api/verify-score.ts:74-80 | submitting the same score again under the same hash writes nothing |
| InvaderRules.Rows | frontend/src/SpaceInvaders.tsx:95 | a wave has between 2 and 5 rows |
| InvaderRules.Cols | frontend/src/SpaceInvaders.tsx:96 | a wave has between 4 and 8 columns |
| InvaderRules.Spacing | frontend/src/SpaceInvaders.tsx:99 | the column spacing is positive, because there are at least 4 columns |
| InvaderRules.Row | frontend/src/SpaceInvaders.tsx:102-111 | one pass of the inner loop places one enemy per column, cell j holding the enemy placed at (i, j) |
| InvaderRules.GridSize | frontend/src/SpaceInvaders.tsx:94-113 | a wave has rows × columns enemies, between 8 and 40, and 8 on level 1 |
| InvaderRules.RowsUpToSize | frontend/src/SpaceInvaders.tsx:101-112 | the first n rows hold n × columns enemies |
| InvaderRules.GridCells | frontend/src/SpaceInvaders.tsx:101-112 | an enemy belongs to the first n rows exactly when it is the enemy placed at some cell (i, j) with i < n |
| InvaderRules.SpacedColumn | frontend/src/SpaceInvaders.tsx:99-104 | every column offset lies between 0 and the canvas width minus the 100 px margin |
| InvaderRules.GridInField | frontend/src/SpaceInvaders.tsx:101-112 | every spawned enemy lies wholly on the canvas, with 50 ≤ x ≤ width − 50 and 50 ≤ y ≤ 290 |
| InvaderRules.MoveEnemy | frontend/src/SpaceInvaders.tsx:224-258 | movement keeps the pattern. A sine enemy's x is clamped to the canvas and its y is unchanged. A circling enemy moves on each axis only to a place within bounds. A diving enemy drops exactly 5 and only while staying above the bottom. An enemy on the field stays on it |
| InvaderRules.Rise | frontend/src/SpaceInvaders.tsx:207-219 | the player's projectile pass never adds a projectile |
| InvaderRules.RiseKeepsPrefix | frontend/src/SpaceInvaders.tsx:207-219 | the pass from index k leaves the projectiles before k untouched |
| InvaderRules.RiseOrigins | frontend/src/SpaceInvaders.tsx:207-219 | every projectile the pass leaves from index k on is either one of the originals from k on, or such an original raised by 7 that is still on screen |
| InvaderRules.DroppedOrigins | frontend/src/SpaceInvaders.tsx:210-213 | the same origin property when the visited projectile leaves the top and is spliced |
| InvaderRules.LiftedOrigins | frontend/src/SpaceInvaders.tsx:208-213 | the same origin property when the visited projectile stays on screen |
| InvaderRules.RiseLiftsAll | frontend/src/SpaceInvaders.tsx:207-219 | when no projectile leaves the top, every projectile rises exactly 7 and none is removed |
| InvaderRules.RiseIsAscent | frontend/src/SpaceInvaders.tsx:207-219 | the in-place pass from index k keeps the projectiles before k and leaves after them exactly what a pass over the not-yet-visited projectiles gives: one that would leave the top is dropped and its successor is carried past the visit unmoved; every other one rises 7 |
| InvaderRules.DroppedAscent | frontend/src/SpaceInvaders.tsx:210-213 | the same equality, for the step where the visited projectile leaves the top and is spliced |
| InvaderRules.LiftedAscent | frontend/src/SpaceInvaders.tsx:208-209 | the same equality, for the step where the visited projectile rises and stays |
| InvaderRules.RiseSkipsSuccessor | frontend/src/SpaceInvaders.tsx:210-213 | whenever the projectile at k leaves the top, the one after it ends up at index k, unmoved and never checked, whatever its position |
| InvaderRules.RiseSkipsShifted | frontend/src/SpaceInvaders.tsx:210-213 | of two projectiles about to leave, the first is spliced and the second, shifted into its slot, is skipped: it neither rises nor is removed in that frame |
| InvaderRules.Strike | frontend/src/SpaceInvaders.tsx:267-288 | testing one enemy against the projectiles never adds a projectile or an enemy |
| InvaderRules.StrikeScores | frontend/src/SpaceInvaders.tsx:267-288 | each projectile spent on an enemy adds 100 points and one burst of 8 particles |
| InvaderRules.StrikeSpendsHits | frontend/src/SpaceInvaders.tsx:267-288 | only projectiles whose centre is strictly inside the moved enemy are removed, each at most once |
| InvaderRules.HitSpendsHits | frontend/src/SpaceInvaders.tsx:278-279 | the same, for the step where the projectile at j hits |
| InvaderRules.StrikeSpendsIff | frontend/src/SpaceInvaders.tsx:267-288 | a projectile is spent exactly when some projectile from index j on hits the enemy |
| InvaderRules.StrikeEnemies | frontend/src/SpaceInvaders.tsx:267-288 | each hit splices the enemy list at the visited index again, so n hits remove the block of n enemies starting there, not just the enemy that was hit |
| InvaderRules.HitEnemies | frontend/src/SpaceInvaders.tsx:278-279 | the same block removal, for the step where the projectile at j hits |
| InvaderRules.Visit | frontend/src/SpaceInvaders.tsx:222-289 | one enemy step never adds a projectile or an enemy |
| InvaderRules.Sweep | frontend/src/SpaceInvaders.tsx:222-289 | the enemy pass never adds a projectile or an enemy |
| InvaderRules.VisitAccounts | frontend/src/SpaceInvaders.tsx:222-289 | one enemy step scores 100 and makes 8 particles per spent projectile, loses at most one enemy per spent projectile, only removes projectiles, and leaves only old enemies or the moved one |
| InvaderRules.SweepAccounts | frontend/src/SpaceInvaders.tsx:222-289 | the enemy pass scores 100 and makes 8 particles per spent projectile, loses no more enemies than projectiles spent, only removes projectiles, and keeps enemies on the field |
| InvaderRules.SweepKeepsField | frontend/src/SpaceInvaders.tsx:222-289 | when every enemy is on the field before the enemy pass, every enemy left after it is on the field |
| InvaderRules.Fire | frontend/src/SpaceInvaders.tsx:295-312 | a volley is three projectiles starting at the middle of the boss's bottom edge |
| InvaderRules.Barrage | frontend/src/SpaceInvaders.tsx:315-366 | the boss projectile pass never adds a projectile |
| InvaderRules.BarrageSparks | frontend/src/SpaceInvaders.tsx:315-366 | particles are made only for hits on the player, and the player is reported hit exactly when particles were made (or a hit was already reported) |
| InvaderRules.BarrageHitHasCause | frontend/src/SpaceInvaders.tsx:315-366 | the player is only hit if some boss projectile, after travelling, is on screen and strictly inside the player; and the first projectile visited does set the hit when it reaches the player |
| InvaderRules.DroppedCause | frontend/src/SpaceInvaders.tsx:320-328 | the same cause, for the step where the visited projectile leaves the screen |
| InvaderRules.PassedCause | frontend/src/SpaceInvaders.tsx:343-348 | the same cause, for the step where the visited projectile misses the player |
| InvaderRules.BarrageKeepsPrefix | frontend/src/SpaceInvaders.tsx:315-366 | the pass from index k leaves the boss projectiles before k untouched |
| InvaderRules.BarrageKeeps | frontend/src/SpaceInvaders.tsx:315-366 | every boss projectile kept from index k on is either one of the originals from k on, or such an original that travelled and is on screen and clear of the player |
| InvaderRules.DroppedKeeps | frontend/src/SpaceInvaders.tsx:320-328 | the same, for the steps that splice the visited projectile |
| InvaderRules.BarrageIsOnslaught | frontend/src/SpaceInvaders.tsx:315-366 | the in-place pass from index k keeps the projectiles before k and leaves after them exactly what a pass over the not-yet-visited projectiles gives: one that leaves the screen or strikes the player is dropped and its successor is carried past the visit unmoved, every other one travels; the player is reported hit exactly when it already was or a visited projectile struck it, and each strike adds 8 particles |
| InvaderRules.LeftOnslaught | frontend/src/SpaceInvaders.tsx:320-328 | the same equality, for the step where the visited projectile leaves the screen and is spliced |
| InvaderRules.StruckOnslaught | frontend/src/SpaceInvaders.tsx:343-364 | the same equality, for the step where the visited projectile strikes the player and is spliced |
| InvaderRules.MovedOnslaught | frontend/src/SpaceInvaders.tsx:315-319 | the same equality, for the step where the visited projectile travels on |
| InvaderRules.BarrageReachHits | frontend/src/SpaceInvaders.tsx:343-364 | a hit already reported stays reported, and a projectile reaching the player at the first visited slot sets the hit and makes at least one burst of particles |
| InvaderRules.Pummel | frontend/src/SpaceInvaders.tsx:369-395 | the pass of the player's projectiles against the boss never adds a projectile |
| InvaderRules.PummelAccounts | frontend/src/SpaceInvaders.tsx:369-395 | each projectile inside the boss costs it 10 health and makes 8 particles. The boss survives with its reduced, positive health, or it is gone exactly when the last hit took its health to 0 or below |
| InvaderRules.FullBossTakesTenHits | frontend/src/SpaceInvaders.tsx:80-91 | a boss created with 100 health is destroyed by exactly its tenth hit |
| InvaderRules.WaveProgressIsZero | frontend/src/SpaceInvaders.tsx:411-419 | on an ordinary level the progress bar shows 0 while any enemy is left, and NaN when only a boss is left |
| InvaderRules.BossProgressCountsHits | frontend/src/SpaceInvaders.tsx:411-419 | on a boss level the bar shows the boss's lost health, 0 to 90 in steps of 10. Without a boss it shows 0 once the enemies are gone and NaN before |
| InvaderRules.FinishKeepsSound | frontend/src/SpaceInvaders.tsx:410-433 | the progress and level completion step keeps the player in its lane, the enemies on the field and the boss's health valid |
| InvaderRules.AdvanceAccounts | frontend/src/SpaceInvaders.tsx:207-289 | the projectile and enemy passes never lower the score, keep the state valid, and leave the boss and the game state alone |
| InvaderRules.ConfrontAccounts | frontend/src/SpaceInvaders.tsx:292-408 | the boss part of a frame never lowers the score and keeps the state valid |
| InvaderRules.FrameKeepsSound | frontend/src/SpaceInvaders.tsx:173-436 | a frame keeps the player between 0 and width − 50, every enemy on the field, and a living boss's health between 10 and 100 in steps of 10 |
| InvaderRules.FrameNeverLosesScore | frontend/src/SpaceInvaders.tsx:173-436 | a frame never lowers the score |
| InvaderRules.ShelledEndsGame | frontend/src/SpaceInvaders.tsx:315-366 | after the boss projectiles travel, the game is over exactly when it was over before or a visited projectile struck the player; in particular a first projectile that reaches the player ends the game |
| InvaderRules.FrameEndsGame | frontend/src/SpaceInvaders.tsx:173-366 | in a running frame with a boss, a first boss projectile that reaches the player ends the game |
| InvaderRules.IdleFrame | frontend/src/SpaceInvaders.tsx:174 | a frame changes nothing unless the game is playing and the loop is alive |
| InvaderRules.LevelUpOnClear | frontend/src/SpaceInvaders.tsx:421-433 | a frame raises the level by at most one, and it raises it exactly when the game is playing, the loop is alive, there was no boss at the start of the frame, and the enemy pass leaves no enemy. A raise shows the level-up overlay and brings a boss on a level that is a multiple of 5, or a new grid for the closure's level otherwise |
| InvaderRules.FinishLevels | frontend/src/SpaceInvaders.tsx:421-433 | the completion step raises the level by one exactly when no enemy and no boss is left, and otherwise leaves it; on a raise it shows the overlay and brings the boss or the grid |
| InvaderRules.MountIsSound | frontend/src/SpaceInvaders.tsx:29-113 | the effect starts a valid run for the current level with no boss and a full grid |
| InvaderRules.RemountDropsBoss | frontend/src/SpaceInvaders.tsx:445-455 | after a level up the effect re-runs for the new level and discards the boss the old run created, placing a grid instead |
| InvaderRules.Clamp | frontend/src/SpaceInvaders.tsx:126 | the touch clamp keeps the player in its lane and leaves a position already in the lane alone |
| InvaderRules.KeyStepMeaning | frontend/src/SpaceInvaders.tsx:146-170 | keys do nothing unless playing. Arrows move the player at most 5 in their own direction and keep it in its lane; exactly, an arrow moves it by its speed of 5 and then clamps it to the lane. Space adds exactly one projectile at the player's centre. "p" is the only key that changes the game state, and it pauses. Enemies, boss and score are untouched |
| InvaderRules.TouchMoveMeaning | frontend/src/SpaceInvaders.tsx:120-129 | a drag of more than 10 px moves the player one step its way, inside the lane, and re-anchors; the move is exactly the one the arrow key of that direction makes while playing. A smaller drag changes nothing |
| InvaderRules.TouchEndStep | frontend/src/SpaceInvaders.tsx:131-143 | lifting a finger fires one projectile from the player's centre, whatever the game state, and changes nothing else |
| InvaderRules.ResumeStep | frontend/src/SpaceInvaders.tsx:478 | the overlay's resume button sets the state to playing and changes nothing else |
| InvaderRules.LevelUpEnds | frontend/src/SpaceInvaders.tsx:432 | the 2 s timer hides the level-up overlay and changes nothing else |
| InvaderSession.SpawnLoop | frontend/src/SpaceInvaders.tsx:101-112 | the nested loops append exactly the grid for the level |
| InvaderSession.RowLoop | frontend/src/SpaceInvaders.tsx:102-111 | one pass of the inner loop appends exactly the row for `i`, left to right |
| InvaderSession.RiseLoop | frontend/src/SpaceInvaders.tsx:207-219 | the in-place `forEach` with `splice` leaves exactly the projectiles `Rise` prescribes |
| InvaderSession.SweepLoop | frontend/src/SpaceInvaders.tsx:222-289 | the nested enemy and projectile loops leave exactly the enemies, projectiles, score and particles `Sweep` prescribes |
| InvaderSession.BarrageLoop | frontend/src/SpaceInvaders.tsx:315-366 | the boss projectile loop leaves exactly the projectiles, hit flag and particles `Barrage` prescribes |
| InvaderSession.PummelLoop | frontend/src/SpaceInvaders.tsx:369-395 | the loop against the boss, stopped where a destroyed boss makes it throw, yields what `Pummel` prescribes |
| InvaderSession.Session.constructor | frontend/src/SpaceInvaders.tsx:19-27 | the component mounts playing, with score 0, level 1 and a first grid, in a valid state |
| InvaderSession.Session.Mount | frontend/src/SpaceInvaders.tsx:29-113 | the effect body leaves the state `Mount` prescribes |
| InvaderSession.Session.Capture | frontend/src/SpaceInvaders.tsx:29 | the effect captures the current level and its loop starts; nothing else changes |
| InvaderSession.Session.PlacePlayer | frontend/src/SpaceInvaders.tsx:38-50 | the player is recreated with its left edge at half the canvas width and the touch anchor at 0; nothing else changes |
| InvaderSession.Session.EmptyLists | frontend/src/SpaceInvaders.tsx:38-61 | the effect's lists start empty and there is no boss; nothing else changes |
| InvaderSession.Session.ClearPlayerSide | frontend/src/SpaceInvaders.tsx:38-61 | the projectile and enemy lists start empty; nothing else changes |
| InvaderSession.Session.ClearBossSide | frontend/src/SpaceInvaders.tsx:38-61 | there is no boss, and no boss projectiles or particles; nothing else changes |
| InvaderSession.Session.SpawnEnemies | frontend/src/SpaceInvaders.tsx:94-113 | a grid for the closure's level is appended to the enemies |
| InvaderSession.Session.Frame | frontend/src/SpaceInvaders.tsx:173-436 | one `render` leaves the state `Frame` prescribes and keeps the state valid |
| InvaderSession.Session.MoveShots | frontend/src/SpaceInvaders.tsx:207-219 | the player's projectiles rise as `Rise` prescribes; nothing else changes |
| InvaderSession.Session.MoveEnemies | frontend/src/SpaceInvaders.tsx:222-289 | the enemy pass updates enemies, projectiles, score and particles as `Sweep` prescribes |
| InvaderSession.Session.BossTurn | frontend/src/SpaceInvaders.tsx:292-408 | the boss block leaves the state `Confront` prescribes |
| InvaderSession.Session.BossAim | frontend/src/SpaceInvaders.tsx:293-312 | the boss drifts and, when the cadence allows, adds a volley |
| InvaderSession.Session.BossShelling | frontend/src/SpaceInvaders.tsx:315-366 | the boss projectiles travel, and a hit on the player ends the game |
| InvaderSession.Session.BossHit | frontend/src/SpaceInvaders.tsx:369-395 | the player's projectiles damage the boss as `Pummel` prescribes |
| InvaderSession.Session.BossDown | frontend/src/SpaceInvaders.tsx:384-393 | a destroyed boss adds 1000 points, clears the boss level flag, and the loop dies |
| InvaderSession.Session.Conclude | frontend/src/SpaceInvaders.tsx:410-433 | the progress bar and the level completion check leave the state `Finish` prescribes |
| InvaderSession.Session.NextLevel | frontend/src/SpaceInvaders.tsx:423-424 | the level goes up by one and the level-up overlay shows |
| InvaderSession.Session.CreateBoss | frontend/src/SpaceInvaders.tsx:80-91 | a boss with 100 health appears centred at the top, and the boss level flag is set |
| InvaderSession.Session.KeyDown | frontend/src/SpaceInvaders.tsx:146-170 | the key handler leaves the state `KeyStep` prescribes |
| InvaderSession.Session.TouchStart | frontend/src/SpaceInvaders.tsx:116-118 | a touch sets the anchor and nothing else |
| InvaderSession.Session.TouchMove | frontend/src/SpaceInvaders.tsx:120-129 | the drag handler leaves the state `TouchMoveStep` prescribes |
| InvaderSession.Session.TouchEnd | frontend/src/SpaceInvaders.tsx:131-143 | lifting a finger appends one projectile at the player's centre |
| InvaderSession.Session.Resume | frontend/src/SpaceInvaders.tsx:478 | the resume button sets the state to playing |
| InvaderSession.Session.EndLevelUp | frontend/src/SpaceInvaders.tsx:432 | the timer hides the level-up overlay |
| ArcadeRules.WaveRows | frontend/src/Game.tsx:49 | a wave has between 3 and 6 rows |
| ArcadeRules.Speed | frontend/src/Game.tsx:50 | enemies move at least 1 px per step |
| ArcadeRules.Wave | frontend/src/Game.tsx:52-82 | a wave has rows × `floor(width / 60)` enemies |
| ArcadeRules.WaveLayout | frontend/src/Game.tsx:52-82 | every enemy starts with vertical speed 2, angle 0, its drawn pattern, and a horizontal speed of ± the level speed, positive exactly when the side draw is below 0.5. A top entrant starts 50 px above the canvas, in its column's slot, at least 10 px inside both edges |
| ArcadeRules.March | frontend/src/Game.tsx:114-152 | the enemy pass keeps the number of enemies |
| ArcadeRules.MarchKeepsPatterns | frontend/src/Game.tsx:114-152 | every enemy keeps its motion pattern |
| ArcadeRules.DiverOnlyTurns | frontend/src/Game.tsx:121-150 | a diving enemy's position changes only by the push back; a dive sets only its velocity, and without a dive only the push back applies |
| ArcadeRules.LinearBounce | frontend/src/Game.tsx:132-150 | a linear enemy reverses a velocity component exactly when it touches that edge (the vertical edge at half the height), and ends within 2 px of its straight-line step |
| ArcadeRules.NudgeTowardsCanvas | frontend/src/Game.tsx:146-150 | an enemy outside the canvas on an axis is pushed 2 px back towards it on that axis; one inside stays put; velocities and pattern are kept |
| ArcadeRules.Climb | frontend/src/Game.tsx:154-162 | the projectile pass never adds a projectile |
| ArcadeRules.ClimbKeepsAloft | frontend/src/Game.tsx:154-162 | the pass never leaves a projectile wholly above the canvas |
| ArcadeRules.Lift | frontend/src/Game.tsx:156 | raising every projectile keeps their number |
| ArcadeRules.ClimbWithoutExit | frontend/src/Game.tsx:154-162 | when no projectile leaves the top, the pass raises every one by exactly 5 and removes none |
| ArcadeRules.ClimbStays | frontend/src/Game.tsx:154-162 | the same, for the pass from any index k: earlier projectiles untouched, the rest raised by 5 |
| ArcadeRules.ClimbIsSoar | frontend/src/Game.tsx:154-162 | the pass from k keeps the projectiles before k and leaves exactly `Soar` of the rest: a leaving projectile is spliced and its successor slides past the visit unmoved, any other rises by 5 |
| ArcadeRules.ExitSoar | frontend/src/Game.tsx:154-162 | the step of that equality where the projectile at k leaves the top |
| ArcadeRules.UpSoar | frontend/src/Game.tsx:154-162 | the step of that equality where the projectile at k rises |
| ArcadeRules.ClimbSkipsSuccessor | frontend/src/Game.tsx:154-162 | wherever the projectile at k leaves and another follows it, that next one ends at index k unmoved |
| ArcadeRules.Clash | frontend/src/Game.tsx:166-177 | testing one projectile against the enemies never adds a projectile |
| ArcadeRules.ClashAccounts | frontend/src/Game.tsx:166-177 | each enemy removed scores 10; no more projectiles than enemies go; nothing new appears; and if an enemy goes, a projectile goes too |
| ArcadeRules.CollideAccounts | frontend/src/Game.tsx:164-179 | the collision pass scores exactly 10 per enemy removed; it removes no more projectiles than enemies; and it removes a projectile whenever it removes an enemy |
| ArcadeRules.CollideWithoutOverlap | frontend/src/Game.tsx:164-179 | when no projectile overlaps an enemy, the collision pass changes nothing |
| ArcadeRules.ClashMisses | frontend/src/Game.tsx:166-177 | a projectile overlapping no enemy changes nothing |
| ArcadeRules.ClashCause | frontend/src/Game.tsx:166-177 | an enemy the inner pass removes overlapped the projectile being tested |
| ArcadeRules.CollideCause | frontend/src/Game.tsx:164-179 | an enemy the collision pass removes overlapped some projectile present before the pass |
| ArcadeRules.ClashHits | frontend/src/Game.tsx:166-177 | an inner pass that reaches an enemy overlapping the projectile removes at least one enemy |
| ArcadeRules.CollideFirstHits | frontend/src/Game.tsx:164-179 | if the first projectile the pass visits overlaps any enemy, the pass removes at least one enemy |
| ArcadeRules.CollideOne | frontend/src/Game.tsx:164-179 | one projectile and one enemy destroy each other for 10 points exactly when their boxes overlap |
| ArcadeRules.PromoteOnce | frontend/src/Game.tsx:181-201 | `levelUp` raises the level exactly when no enemy is left and no transition is under way. It then starts the transition, and a second call changes nothing |
| ArcadeRules.TickInTransition | frontend/src/Game.tsx:217-221 | during a transition `update` only moves the player |
| ArcadeRules.TickLevels | frontend/src/Game.tsx:210-234 | `update` raises the level by at most one. A raise happens only when a transition starts with the wave cleared. Outside a transition the score grows by exactly 10 per enemy destroyed |
| ArcadeRules.WalkKeepsLane | frontend/src/Game.tsx:226-231 | held arrows move the player at most 5 and keep it within one step of the canvas edges. A held left arrow alone moves it exactly 5 left while x > 0; a held right arrow alone exactly 5 right while its right edge is inside the canvas; with neither held, or with both held and x > 0, it stays. Only the position changes |
| ArcadeRules.TickKeepsSound | frontend/src/Game.tsx:210-234 | `update` keeps the player within one step of the edges and no projectile wholly above the canvas |
| ArcadeRules.CompletedReady | frontend/src/Game.tsx:193-199 | the deferred completion centres the player, clears the projectiles and the flag, and brings a full wave for the new level. Level and score are unchanged |
| ArcadeRules.SpaceFires | frontend/src/Game.tsx:236-248 | Space outside a transition appends one projectile at the player's top, whose centre is 2.5 px left of the player's centre; during a transition it fires nothing |
| ArcadeRules.OtherKeysOnlyHold | frontend/src/Game.tsx:236-252 | any other key is only recorded as held, and releasing it forgets it |
| ArcadeRules.StartIsSound | frontend/src/Game.tsx:16-45 | on a canvas wider than 40 (any height, as there are no projectiles yet) the game starts valid, with a first wave of 4 rows |
| ArcadeGame.MarchLoop | frontend/src/Game.tsx:114-152 | the in-place enemy loop yields exactly `March` |
| ArcadeGame.ClimbLoop | frontend/src/Game.tsx:154-162 | the in-place projectile loop with `splice` yields exactly `Climb` |
| ArcadeGame.CollideLoop | frontend/src/Game.tsx:164-179 | the nested collision loops yield exactly `Collide` |
| ArcadeGame.Game.constructor | frontend/src/Game.tsx:16-45 | `initializeGame` starts with the player centred, score 0, level 1 and a first wave, in a valid state on a canvas wider than 40 |
| ArcadeGame.Game.SpawnEnemies | frontend/src/Game.tsx:47-83 | the enemies are replaced by a wave for the current level |
| ArcadeGame.Game.Update | frontend/src/Game.tsx:210-234 | one `update` leaves the state `Tick` prescribes and keeps the state valid |
| ArcadeGame.Game.MoveEnemies | frontend/src/Game.tsx:114-152 | the enemies move as `March` prescribes; nothing else changes |
| ArcadeGame.Game.MoveProjectiles | frontend/src/Game.tsx:154-162 | the projectiles rise as `Climb` prescribes; nothing else changes |
| ArcadeGame.Game.CheckCollisions | frontend/src/Game.tsx:164-179 | projectiles, enemies and score change as `Collide` prescribes |
| ArcadeGame.Game.LevelUp | frontend/src/Game.tsx:181-201 | `levelUp` leaves the state `Promote` prescribes |
| ArcadeGame.Game.MovePlayer | frontend/src/Game.tsx:226-231 | the held arrows move the player as `Walk` prescribes |
| ArcadeGame.Game.FinishTransition | frontend/src/Game.tsx:193-199 | the timer callback leaves the state `Completed` prescribes, which is valid on a canvas wider than 40 |
| ArcadeGame.Game.ResetPlayer | frontend/src/Game.tsx:85-87 | the player is centred; nothing else changes |
| ArcadeGame.Game.ClearTransition | frontend/src/Game.tsx:196-197 | the transition flag is cleared and the projectiles emptied |
| ArcadeGame.Game.KeyDown | frontend/src/Game.tsx:236-248 | the key handler leaves the state `Pressed` prescribes and, on a canvas at least 40 high, keeps it valid |
| ArcadeGame.Game.KeyUp | frontend/src/Game.tsx:250-252 | the key is no longer held; the state stays valid |

## Left out

- Reading and writing the scores file (`readScores`, `writeScores`) is left out. The list read is an input and what would be written is an output. A missing or unparsable file, which reads as an empty list, is therefore just an empty input.
- The 500 "Internal server error" path is left out: it answers an exception thrown by the proof check or the file system, which are not modelled.
- `verifyCloudProof` is left out: it is a network call, modelled as the boolean `verified`. The app id and action string it receives are not modelled.
- The request body is assumed to be well formed: the score is an integer and the hash and verification level are strings. JavaScript's comparison of non-numeric scores is not modelled.
- CORS setup, `app.listen`, the Express default 404 for other methods on `server.ts`, and the creation of an empty scores file at start-up are left out. They are framework and I/O.
- Concurrent requests interleaving a read and a write of the file are left out.
- Drawing on the canvas is left out. This covers paths, colours, the boss health bar, `ctx.save`/`restore`, `navigator.vibrate`, the DOM score and level text and the `#level-up` message of Game.tsx, and the `localStorage` high score of SpaceInvaders.tsx.
- Particles are left out except for the number made (`sparks`), which counts every particle created since the effect last ran; each burst adds 8. Their drift, their fade, and their removal from the `particles` list once faded are left out, so `sparks` is not that list's length.
- `Math.sin`, `Math.cos`, `Math.atan2`, `Math.sqrt` and every `Math.random()` draw are inputs of the model (`Motion`, `Roll`, `Volley`, `Draw`), not computed. So are `Date.now()` (the boss drift and the 1000 ms fire cadence) and `new Date().toISOString()`.
- The React scheduler is left out: batching, the timing of the effect's re-run after `setLevel` or `setGameState`, and `requestAnimationFrame`/`cancelAnimationFrame`.
  - A frame, a handler and a remount are separate method calls that the caller sequences.
  - The closure's `gameState` and the React state are one field. So the "p" toggle's callback form is modelled as the pause it is whenever the handler is not ignored.
- The timers are left out. The 2 s level-up timer and the 2000 ms deferred completion of Game.tsx are explicit methods (`EndLevelUp`, `FinishTransition`) that the caller invokes.
- Floating point is left out: coordinates are exact reals, so rounding in `enemy.x += ...` and in `Math.floor` of the progress is not modelled.
- The Game.tsx resize listener and the early return when no 2D context exists are left out. The canvas size is a constant of each `Game`. It is a whole number, as the canvas element's `width` and `height` properties are.
- The enemy's `color` field in Game.tsx is drawing only and is left out, as is `drawEnemies`'s choice of orange.
- `highScore`, `ScoreDisplay`, `LevelProgress` and `GameOverlay` are not part of this model. Only the state they read is modelled.
- InvaderRules.Frame: after a boss is destroyed, the rest of the projectile pass and the boss drawing read the cleared `boss` and throw. The model ends the run there (`live` becomes false) instead of modelling the exception. A later effect re-run (a new `Mount`) revives it.
- InvaderRules.RiseOrigins: `Risen` places each projectile left at index k or later among the originals from k on, raised or not. It does not say that an unmoved one was skipped rather than visited; `RiseIsAscent` states the pass exactly.
- InvaderRules.DroppedOrigins: `Risen` places each projectile left at index k or later among the originals from k on, raised or not. It does not say that an unmoved one was skipped rather than visited; `RiseIsAscent` states the pass exactly.
- InvaderRules.LiftedOrigins: `Risen` places each projectile left at index k or later among the originals from k on, raised or not. It does not say that an unmoved one was skipped rather than visited; `RiseIsAscent` states the pass exactly.
- InvaderRules.BarrageKeeps: `KeptShot` places each kept boss projectile among the originals from k on, travelled or not. It does not say that an unmoved one was skipped rather than visited; `BarrageIsOnslaught` states the pass exactly.
- InvaderRules.DroppedKeeps: `KeptShot` places each kept boss projectile among the originals from k on, travelled or not. It does not say that an unmoved one was skipped rather than visited; `BarrageIsOnslaught` states the pass exactly.
- InvaderRules.Defeated: the 1000-point bonus is added when the pass throws, not at the exact point of the `setScore` call. Nothing reads the score in between, so the final state is the same.
- InvaderRules.Progress: the `Math.floor` of a NaN or of an exact ratio is modelled only for the values the code can reach: 0, the boss's lost health, and `None` for NaN.

## Behaviour of the code that differs from what its comments suggest

The model follows the code in each of these cases:

- On an ordinary level, the progress bar of SpaceInvaders.tsx shows 0 while any enemy is left. The expression divides the enemy count by itself. It shows NaN when the enemies are gone but a boss is present (`WaveProgressIsZero`).
- Several splices in one SpaceInvaders.tsx pass interact:
  - A projectile that hits an enemy splices that enemy's index again for every later hit in the same pass. Several hits therefore remove the following enemies too (`StrikeEnemies`).
  - After any splice inside a `forEach`, the element that moves into the freed slot is skipped for that frame (`RiseSkipsSuccessor`, `RiseSkipsShifted`; `RiseIsAscent` and `BarrageIsOnslaught` state the whole passes).
- The level-up remount of SpaceInvaders.tsx discards the boss created at the end of a fifth level. The effect depends on `level`, so it re-runs and creates a fresh grid instead (`RemountDropsBoss`).
- In SpaceInvaders.tsx the player starts with its left edge, not its centre, at half the canvas width: at 175, so its centre is at 200, 25 px right of the canvas centre (`Fresh`, `Session.PlacePlayer`).
- A SpaceInvaders.tsx frame that starts with a boss never raises the level. While the boss lives it is not clear; the frame in which it falls ends with the loop dead before the completion check (`LevelUpOnClear`).
- In Game.tsx the Space projectile's centre is 2.5 px left of the player's centre. It is placed at the player's centre minus its full width rather than half of it (`SpaceFires`).
- In Game.tsx the inner collision loop keeps testing the projectile it read at the start of the outer step, even after splicing it away. Only one projectile is removed per overlapping enemy, and the projectile removed is whichever one then sits at that index.
- In Game.tsx the projectile pass splices inside its `forEach` too, so the projectile after one that leaves the top is skipped for that frame (`ClimbSkipsSuccessor`; `ClimbIsSoar` states the whole pass).
- In Game.tsx a "Diving" enemy never moves by its velocity. A dive only sets a new velocity towards the player, and the enemy's position changes only by the 2 px push back towards the canvas (`DiverOnlyTurns`).
