# Mysterions — a Dafny model of the game rules

This project models the rules of the pygame arcade game *Attack of the
Mysterions* (`src/mysterions.py`), with pygame stripped away. A robot,
steered by the arrow keys, collects coins on a board of doors, while
monsters chase it. Each monster charges straight at the robot. When a
door or the window edge blocks it, it replans an L-shaped "knight move"
around the obstacle. The player's score, health, lives and round are
updated as coins are collected and monsters are met. Game.set_board
deals the objects onto a 15 × 8 grid.

Modules, following the classes of the program:

- `Geometry` (geometry.dfy): a pygame `Rect` as a datatype (left, top,
  width, height), pygame's strict `contains` and `colliderect`, and the
  game's tolerant `Moving.is_overlap`.
- `Moving` (moving.dfy): `Moving.is_collision`, the blocked-move test the
  robot and the monsters share.
- `Navigation` (navigation.dfy): `Monster.charge`, and
  `Monster.best_direction` with its four probe loops.
- `Knight` (knight.dfy): the nested `Monster.Straight` object, as a class
  and as specification functions.
- `MonsterMove` (monster.dfy): `Monster.move` as a function of the
  monster's state (`MoveStep`), and the `Monster` class whose `Move`
  method is proved equal to it.
- `Session` (player.dfy): `Player`, `Button.run_command` and `is_between`.
- `RobotMove` (robot.dfy): `Robot.move`, `found_coin` and `monster_mash`.
- `Board` (board.dfy): `Game.set_board`'s grid filling and object placement.

Modelling choices:

- Positions are integers and velocities are integers of at least 1. The
  game's velocities are 1.0 and 2.0 and start positions are grid
  multiples, so `int(finex) == finex` throughout.
- Leg lengths (`paces`, `move_count`) are reals, because the best
  distance halved may be fractional.
- `best_direction`'s probe step 0.5, 1.0, 1.5, … is written k/2 for
  k = 1, 2, 3, …. The probe's pixel offset is `(width * k) / 2`, truncated
  as `Rect.move` truncates; the recorded distance is the exact
  `width * k / 2`.
- Every random draw (`randrange`, `randint`, `sample`) is a parameter
  constrained to its range.
- The `monsters_are_go` flag, which a timer thread sets, is a boolean
  parameter of `Monster.move`.
- `found_coin` and `monster_mash` call `items.remove(item)` inside
  `for item in items`. Python's list iterator walks an index, so the
  item right after each removed one is never examined. The model keeps
  this behaviour. `KeptFrom` and `RemovedFrom` give the resulting list and
  the number removed, and the loops are proved against them with a ghost
  cursor into the original list.
- Pressing left and right together does not cancel. The later assignment
  wins, so left beats right and up beats down (`KeyChange`,
  `OppositeKeysDoNotCancel`).

## Model

| member | source | states |
|---|---|---|
| Geometry.MoveRect | src/mysterions.py:208-211 | moving a rect keeps its size and shifts its right and bottom edges by the change |
| Geometry.Contains | src/mysterions.py:220 | definition: pygame's `Rect.contains`, the inner rect lies within the outer one, with its left and top edges strictly before the outer right and bottom edges |
| Geometry.CollideRect | src/mysterions.py:405 | definition: pygame's `Rect.colliderect`, the rects share an area, never for a rect of zero size |
| Geometry.InclusiveCount | src/mysterions.py:233-238 | the number of integers from lo through hi: zero when hi < lo, and hi − lo + 1 otherwise |
| Geometry.RangeList | src/mysterions.py:233-238 | definition: `list(range(lo, hi))` as a sequence built one integer at a time |
| Geometry.InclusiveCountIsRangeLength | src/mysterions.py:233-238 | InclusiveCount(lo, hi) is the length of `list(range(lo, hi + 1))`, proved by induction over the range |
| Geometry.IsOverlap | src/mysterions.py:224-239 | definition: both inclusive shared lengths exceed MOVING_OVERLAP_FACTOR = 20 |
| Geometry.IsOverlapSymmetric | src/mysterions.py:224-239 | is_overlap, and both shared lengths, do not depend on argument order |
| Geometry.IsOverlapExactly | src/mysterions.py:231-239 | is_overlap holds iff min(right) − max(left) + 1 and min(bottom) − max(top) + 1 both exceed MOVING_OVERLAP_FACTOR = 20 |
| Geometry.ThinContactIsNoOverlap | src/mysterions.py:233-239 | touching rects, or rects sharing a strip of at most 20 pixels on either axis, never overlap |
| Geometry.IsOverlapImpliesCollideRect | src/mysterions.py:224-239 | a tolerant overlap is always also a strict colliderect collision |
| Geometry.ContainedOverlap | src/mysterions.py:231-239 | for a rect inside another, is_overlap holds iff the inner rect is at least 20 wide and 20 high |
| Moving.HitsDoor | src/mysterions.py:214-218 | definition: some door overlaps the rect in the tolerant sense of is_overlap |
| Moving.Blocked | src/mysterions.py:199-222 | definition: the moved rect overlaps a door or is not contained in the window |
| Moving.IsCollision | src/mysterions.py:199-222 | the door scan with break plus the window check report blocked iff the moved rect overlaps some door or leaves the window |
| Moving.UnblockedStaysOnBoard | src/mysterions.py:199-222 | a direct reading of Blocked: an unblocked change lands inside the window and overlaps no door |
| Moving.NoDoorsOnlyWindowBlocks | src/mysterions.py:213-221 | a direct reading of Blocked: with no doors, only leaving the window blocks |
| Navigation.Sign | src/mysterions.py:463-466 | `int(d / abs(d))` is in {−1, 0, 1}, is 0 iff d is 0, and times d gives abs(d) |
| Navigation.Charge | src/mysterions.py:447-483 | each axis moves by velocity towards the robot or not at all; when both gaps are below 40 the change is velocity·sign on both axes; otherwise exactly one axis moves, the horizontal one iff the horizontal gap is at least 40 |
| Navigation.ChargeCloses | src/mysterions.py:460-483 | at the monster velocity 1 a charge never overshoots and strictly shrinks the Manhattan distance unless the monster is on the robot |
| Navigation.ProbeOffset | src/mysterions.py:397-401 | definition: the pixel offset `width * step` for step k/2, truncated to an integer as Rect.move truncates |
| Navigation.HalfWidths | src/mysterions.py:397-398 | definition: the untruncated distance `width * step` for step k/2 |
| Navigation.ProbeRect | src/mysterions.py:397-401 | definition: the monster's rect moved by the probe offset along path p |
| Navigation.DoorCollides | src/mysterions.py:403-411 | definition: some door collides with the probe rect in pygame's strict colliderect sense |
| Navigation.ProbeStops | src/mysterions.py:403-419 | definition: the probe loop stops at step k when a door colliderects the probe rect or the window does not contain it |
| Navigation.ContainedBelowBound | src/mysterions.py:391-423 | a probe step still inside the window is below a bound fixed by the window, so the probe loop terminates for width > 0 |
| Navigation.FirstStop | src/mysterions.py:393-423 | the first step at which the probe hits a door (colliderect) or leaves the window, with no earlier step stopping |
| Navigation.ProbePath | src/mysterions.py:389-423 | a probe's distance is k·width/2 for some k ≥ 1, and a direction is not clear only when its distance is at most MONSTER_CLEAR_THRESHOLD = 50 |
| Navigation.FirstMaxIndex | src/mysterions.py:430 | `max(paths, key=distance)` picks a largest distance, and the first one among ties |
| Navigation.AllPaths | src/mysterions.py:382-423 | the four probe results in the order down, right, up, left |
| Navigation.Distances | src/mysterions.py:430 | the distances `max` compares, one per path and in the same order |
| Navigation.AllClear | src/mysterions.py:425 | definition: `all(p[2] == True for p in paths)` |
| Navigation.BestDirectionOf | src/mysterions.py:368-444 | the best direction is one of the four; its distance is k·width/2 with k ≥ 2, so at least one width; clear implies every direction's probe is clear, and a probe that stops on a door (colliderect) within 50 makes it false; when every distance is below one width, the fallback direction with one width and clear false; otherwise the first longest direction and clear iff all four are clear |
| Navigation.CollidesAnyDoor | src/mysterions.py:403-411 | the door loop with break reports a hit iff some door collides strictly with the probe rect |
| Navigation.Probe | src/mysterions.py:387-423 | the `while not collision` loop computes exactly ProbePath |
| Navigation.BestDirection | src/mysterions.py:368-444 | the loops over the four paths compute exactly BestDirectionOf |
| Knight.ValidTurnDraw | src/mysterions.py:313-320 | definition: each `randrange(2)` draw is 0 or 1 and the `randint` paces lie in [100, 250] |
| Knight.Pick | src/mysterions.py:313-317 | definition: `[-1.0, 1.0][randrange(2)]`, −1 for draw 0 and 1 for draw 1 |
| Knight.RandomTurn | src/mysterions.py:303-323 | the new direction is 0 on each axis where the old one was non-zero and ±1 where it was zero; paces lie in [100, 250] |
| Knight.RandomTurnPerpendicular | src/mysterions.py:303-319 | a turn is perpendicular to the old direction, a unit direction, and cardinal when the old direction was cardinal |
| Knight.RandomTurnFromRestIsDiagonal | src/mysterions.py:312-319 | a turn from direction [0, 0] is diagonal |
| Knight.StraightTick | src/mysterions.py:281-301 | when move_count ≥ paces and paces ≠ 0 the change is [0, 0], completed is set and paces and move_count are reset; otherwise the change is velocity·direction and nothing changes |
| Knight.KnightMovesOf | src/mysterions.py:325-366 | the returned stage is the new stage; "start" sets the first leg to the best direction for half its distance with counters reset; "next" sets the second leg to a random turn; "finish" only clears the stage; no command changes nothing |
| Knight.KnightMovesKeepUnitDirection | src/mysterions.py:281-366 | the Straight operations keep the direction a unit direction |
| Knight.Straight.constructor | src/mysterions.py:266-279 | a new Straight is at rest with no leg and stage none |
| Knight.Straight.Step | src/mysterions.py:281-301 | the change and new fields are StraightTick of the old fields |
| Knight.Straight.RandomTurnOf | src/mysterions.py:303-323 | returns RandomTurn of the current direction and leaves the fields alone |
| Knight.Straight.KnightMoves | src/mysterions.py:325-366 | the returned stage and new fields are KnightMovesOf of the old fields |
| MonsterMove.Proposal | src/mysterions.py:521-526 | held back, the change is [0, 0]; released, it is the charge vector or the straight leg's change |
| MonsterMove.AdvanceLegs | src/mysterions.py:545-573 | definition: a completed first leg turns into the second, a completed second leg returns to charging, an unfinished leg adds velocity to move_count |
| MonsterMove.MoveStep | src/mysterions.py:511-580 | a tick never changes the monster's size or velocity |
| MonsterMove.BlockedRestartsKnightMove | src/mysterions.py:534-543 | a blocked proposal leaves the position unchanged and starts a knight move: maneuver straight, stage first, direction the best direction, paces half its distance (at least width/2), counters reset |
| MonsterMove.FirstLegTurns | src/mysterions.py:549-555 | a completed first leg moves to stage second with a turned direction and 100 to 250 paces |
| MonsterMove.SecondLegCharges | src/mysterions.py:556-563 | a completed second leg ends the knight move and returns to charging |
| MonsterMove.UnfinishedLegCounts | src/mysterions.py:570-573 | an unfinished leg adds velocity to move_count, also while the monsters are held back |
| MonsterMove.HeldBackNeverMoves | src/mysterions.py:521-534 | while monsters_are_go is false the monster does not move, and an unblocked charging monster stays exactly as it was |
| MonsterMove.ChargingMovesByCharge | src/mysterions.py:521-580 | an unblocked charging monster moves by the charge vector and keeps charging |
| MonsterMove.MoveStepKeepsInvariant | src/mysterions.py:511-580 | a tick keeps: charging iff stage none, a unit direction, and non-negative leg counters |
| MonsterMove.MoveStepStaysOnBoard | src/mysterions.py:533-580 | a monster inside the window stays inside it, and lands clear of every door when it moves |
| MonsterMove.Monster.constructor | src/mysterions.py:246-259 | a new monster charges and owns a fresh Straight at rest |
| MonsterMove.Monster.Bounds | src/mysterions.py:579-580 | definition: the monster's rect, placed at its fine position |
| MonsterMove.Monster.Propose | src/mysterions.py:521-526 | the change and the Straight fields are those of Proposal |
| MonsterMove.Monster.Replan | src/mysterions.py:536-543 | maneuver straight and the Straight reset by "start" with the best direction |
| MonsterMove.Monster.Advance | src/mysterions.py:545-573 | the maneuver and Straight fields advance as the unblocked branch says |
| MonsterMove.Monster.Move | src/mysterions.py:511-580 | the new state of the monster and its Straight is MoveStep of the old state |
| MonsterMove.NewMonster | src/mysterions.py:193-195 | no monster is built iff the velocity is below 1; otherwise a charging monster at rest |
| Session.RoundSyncOf | src/mysterions.py:770-781 | round_current becomes round and nothing else changes |
| Session.RoundSyncIdempotent | src/mysterions.py:770-781 | a small sanity fact about RoundSyncOf: syncing twice is syncing once |
| Session.RunCommandOf | src/mysterions.py:729-754 | every click records a choice; New Game resets score, round, lives and health and runs; Continue refills lives and health, keeps score and round, and runs; Quit stops and leaves the player alone; other text changes nothing more |
| Session.IsBetween | src/mysterions.py:681-685 | definition: i lies in the inclusive range lo through hi, with the bounds not reordered |
| Session.Player.constructor | src/mysterions.py:762-768 | score 0, round 1, round_current 1, three lives, health 100 |
| Session.Status.constructor | src/mysterions.py:789-792 | the game's status flags start with run true and choice_made false |
| Session.Button.constructor | src/mysterions.py:693-703 | a button keeps the text it is given |
| Session.Player.RoundSync | src/mysterions.py:770-781 | the new player state is RoundSyncOf of the old |
| Session.Button.RunCommand | src/mysterions.py:729-754 | the new player and status are RunCommandOf of the old |
| RobotMove.KeptFrom | src/mysterions.py:622-630 | removing while iterating keeps at most the items it starts from |
| RobotMove.RemovedFrom | src/mysterions.py:622-630 | the number of items of s[o..] that remove-while-iterating removes, at most the number of items there |
| RobotMove.Kept | src/mysterions.py:622-630 | definition: the list left by the loop over the whole list |
| RobotMove.Removed | src/mysterions.py:622-646 | definition: how many items the loop removes from the whole list |
| RobotMove.KeptPlusRemoved | src/mysterions.py:622-630 | each item is either kept or removed, never both |
| RobotMove.NoHitKeepsAll | src/mysterions.py:622-630 | when nothing overlaps, the list is unchanged and nothing is removed |
| RobotMove.EmptiedOnlyFromSingleHit | src/mysterions.py:622-630 | the loop empties a non-empty list iff it holds exactly one item and that item overlaps |
| RobotMove.AdjacentHitsSkipSecond | src/mysterions.py:622-625 | of two overlapping items side by side only the first is removed |
| RobotMove.NonHitKept | src/mysterions.py:622-630 | an item that does not overlap is always kept, whether it is examined or skipped |
| RobotMove.CoinTaken | src/mysterions.py:627-630 | one coin gives +100 score; when it was the last coin, life + 1 capped at 5 and round + 1, otherwise life and round unchanged |
| RobotMove.Collected | src/mysterions.py:624-630 | after n coins: +100·n score, health untouched, and life + 1 capped at 5 and round + 1 exactly when the list was emptied |
| RobotMove.CollectedStep | src/mysterions.py:624-630 | the closed form after n + 1 coins is one more CoinTaken after n coins that left the list non-empty |
| RobotMove.TakeCoin | src/mysterions.py:627-630 | the player afterwards is CoinTaken of the player before |
| RobotMove.AfterCoins | src/mysterions.py:624-630 | +100 score per coin removed; when the list becomes empty, life + 1 capped at 5 and round + 1; otherwise life and round unchanged; health untouched |
| RobotMove.MonsterHit | src/mysterions.py:640-646 | one monster costs 20 health, and a life and a round only when health lands on exactly 0 |
| RobotMove.HitsZero | src/mysterions.py:643-646 | definition: one of n successive 20-point hits on the health lands on exactly zero |
| RobotMove.Damaged | src/mysterions.py:640-646 | n hits cost 20·n health, and a life and a round iff health passes through exactly 0 |
| RobotMove.DamagedStep | src/mysterions.py:640-646 | the closed form after n + 1 hits is one more MonsterHit after n |
| RobotMove.AfterMonsters | src/mysterions.py:632-646 | −20 health per monster removed; a life lost and round + 1 only when health lands on exactly 0 |
| RobotMove.OvershootCostsNoLife | src/mysterions.py:643-646 | health 10 and one monster gives health −10 with lives and round unchanged |
| RobotMove.ExactZeroCostsLife | src/mysterions.py:643-646 | health 20 and one monster gives health 0, one life fewer and the next round |
| RobotMove.HitsZeroBound | src/mysterions.py:643-646 | health that lands on exactly zero within n hits lies between 20 and 20·n, so no later hit lands on zero again |
| RobotMove.HitsZeroClosedForm | src/mysterions.py:643-646 | some one of n hits lands on exactly zero iff the health is a positive multiple of 20 and at most 20·n |
| RobotMove.TakeMonsterHit | src/mysterions.py:643-646 | the player afterwards is MonsterHit of the player before |
| RobotMove.KeyChange | src/mysterions.py:655-663 | left gives −velocity, else right gives +velocity, else 0; up gives −velocity, else down gives +velocity, else 0 |
| RobotMove.OppositeKeysDoNotCancel | src/mysterions.py:655-663 | all four keys together give (−velocity, −velocity), not (0, 0) |
| RobotMove.RobotPosition | src/mysterions.py:665-673 | a blocked change leaves the position unchanged; an unblocked one is applied and stays in the window |
| RobotMove.RobotStaysOnBoard | src/mysterions.py:665-673 | a robot inside the window stays inside it |
| RobotMove.MonsterRects | src/mysterions.py:639-641 | the monsters' rects, one per monster and in list order |
| RobotMove.Hits | src/mysterions.py:624-625 | the overlap mask: entry i says whether the new location overlaps item i, one entry per item |
| RobotMove.Things.constructor | src/mysterions.py:937-941 | the things dictionary holds the given doors, coins and monsters |
| RobotMove.Robot.constructor | src/mysterions.py:587-596 | a new robot holds no key |
| RobotMove.Robot.Bounds | src/mysterions.py:672-673 | definition: the robot's rect, placed at its fine position |
| RobotMove.Robot.FoundCoin | src/mysterions.py:616-630 | the coin list becomes KeptFrom of the old list under the overlap mask, and the player becomes AfterCoins |
| RobotMove.Robot.MonsterMash | src/mysterions.py:632-646 | the monster list becomes KeptFrom of the old list under the overlap mask, and the player becomes AfterMonsters |
| RobotMove.Robot.Walk | src/mysterions.py:655-673 | the new position is RobotPosition of the old rectangle, the held keys, the velocity, the doors and the window |
| RobotMove.Robot.Move | src/mysterions.py:648-678 | the position is RobotPosition, the key flags are untouched, and the player is round-synced, then updated for coins, then for monsters, all at the new position |
| RobotMove.NewRobot | src/mysterions.py:193-195 | no robot is built iff the velocity is below 1; otherwise a robot at the given position holding no key |
| Board.Repeat | src/mysterions.py:873-879 | `[k] * n` has n entries, each equal to k |
| Board.ValidCounts | src/mysterions.py:862-864 | definition: the count draws `randrange(10, 20)`, `randrange(10, 30)` and `randrange(5, 15)` |
| Board.IsPermutation | src/mysterions.py:870 | definition: `sample(range(0, n), n)` lists every cell index from 0 to n − 1 exactly once |
| Board.ZipDict | src/mysterions.py:884 | definition: `dict(zip(keys, vals))`, later keys overriding earlier ones |
| Board.ObjectList | src/mysterions.py:872-879 | 120 entries: the coins first, then the doors, then the monsters, then blanks |
| Board.ObjectDict | src/mysterions.py:884 | definition: `objdict = dict(zip(li, tmplist))` |
| Board.ZipDictLookup | src/mysterions.py:884 | with distinct keys, `dict(zip(keys, vals))` maps each key to the value beside it and holds no other key |
| Board.ObjectDictOfPermutation | src/mysterions.py:867-884 | under a permutation of the 120 cells, every cell index is a key, and cell li[j] holds tmplist[j] |
| Board.FillGrid | src/mysterions.py:887-892 | a 15 × 8 grid whose cell (b, a) holds objdict[b·15 + a] |
| Board.Pixel | src/mysterions.py:906-907 | definition: the pixel of grid cell (x, y) is x·square_x + left and y·square_y + top |
| Board.RowPlaced | src/mysterions.py:914-935 | definition: the inner placement loop over one grid row, skipping the robot's cell |
| Board.Placed | src/mysterions.py:914-935 | definition: the outer placement loop over the rows |
| Board.RowPlacedIff | src/mysterions.py:914-935 | a position is listed for a row iff it is the pixel of a cell of that kind other than the robot's |
| Board.PlacedIff | src/mysterions.py:914-935 | a position is listed iff it is the pixel of a grid cell of that kind other than the robot's |
| Board.PixelInjective | src/mysterions.py:907-935 | with positive squares, distinct cells have distinct pixel positions |
| Board.RobotCellKeptFree | src/mysterions.py:917 | no object is created at the robot's position |
| Board.PlaceObjects | src/mysterions.py:914-935 | the three lists are the row-major placements of each kind, skipping the robot's cell |
| Board.BoardLayout | src/mysterions.py:846-853 | squares are exactly the door width plus 15 and the door height plus 20, the board starts one square below the window top, and the robot's cell is the one given |
| Board.ValidRobotCell | src/mysterions.py:901-905 | definition: the robot's cell is drawn by `randint(2, 12)` and `randint(2, 5)`, two cells away from the border |
| Board.SetBoard | src/mysterions.py:836-935 | the grid cell li[j] holds tmplist[j]; the robot sits on its cell's pixel; the lists are the placements of the grid |
| Board.DealtObjectsArePlaced | src/mysterions.py:870-935 | an object position is created iff some entry of tmplist of that kind is dealt to a cell other than the robot's, at that cell's pixel |

## Left out

- pygame I/O is not modelled: drawing, fonts, images, `pygame.event` polling, `clock.tick`, `time.sleep` and window creation. `Mysterions.__init__`, `Game.__init__` and `Game.play_game` are game-loop plumbing around the rules.
- `threading.Timer` and `release_monsters` are concurrency; `monsters_are_go` is a parameter instead.
- `Robot.keys` decodes pygame events and calls `exit()`; the key flags are the `to` field, which `Robot.Move` reads.
- `Button.__init__` (beyond its text), `Button.draw` and `Button.handle_event` are rendering and mouse hit-testing.
- `Monster.wobble` is not modelled: its only call is commented out.
- The `print` at the start of `Monster.move` has no effect on the rules.
- `Stationary`, `Door` and `Coin` only hold a rect, and doors and coins are `Rect` values here. `items.remove(item)` removes by equality, and the model removes the item at the cursor. This is the same item, because each sprite appears once and sprites compare by identity.
- Real randomness is not modelled: the draws are parameters constrained to their ranges.
- Only integral velocities are modelled. A fractional velocity would make `int(finex)` truncation matter.
- The robot's `rect.x = int(finex)` and the monster's equivalent are identities under integral positions, so `Bounds()` is computed from `finex` and `finey`.
- `random_turn` builds a three-element direction `[x, y, 0]`; only its first two components are ever read, and the model keeps just those.
- The Straight object's back-reference to its monster is not modelled. The Straight keeps a copy of the monster's velocity, and `knight_moves("start")` setting the monster's maneuver to "straight" is done by `Monster.Replan` right after the call.
- pygame's `Rect.move` with fractional offsets truncates. The model applies this to the probe offsets, which are the only fractional offsets.
- MonsterMove.Monster.constructor: requires a positive width, which the probe loop of `best_direction` needs to terminate (with width 0 the probe rectangle never moves); `NewMonster` passes the same requirement on.
- Board.SetBoard: returns the positions of the created monsters, doors and coins rather than building the sprite objects, and does not model the window rectangle or the `status["choice_made"]` and `monsters_are_go` resets.
- The `Status` flags live in a dictionary of the game; `Session.Status` is a record of the two flags with their start values.
