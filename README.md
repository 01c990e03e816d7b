# Battleship engine models

This project models the game engine of a Discord Battleship bot, and proves properties of the model. The engine comes in two variants.

- **The live bot** (`battleshipbot.py`).
  - `place_ships` lays the sizes 5, 4, 3, 3, 2 horizontally or vertically on a grid of `"water"` cells. Each size gets up to 100 random tries, and placing stops once enough tiles are down.
  - `is_ship_sunk` and `all_ships_sunk` are the sink predicates.
  - `shoot` resolves a shot against the stored game record and updates it.
  - `join` binds a Discord channel to one of the two teams.
- **The prototype generator** (`test.py`).
  - `generate_ship_pool` repeats the standard lengths and trims them to a tile target.
  - `place_ships` places every length of the pool in one of four directions: horizontal, vertical and the two diagonals. It clamps the start cell, checks bounds and emptiness, allows 200 tries per ship, and fails as a whole when one ship cannot be placed.

Randomness is an input. Each attempt reads its `random.choice`/`random.choices` result and its `randint` values from a sequence of draws. A raw draw value `v` stands for `v % (n + 1)` when the source calls `randint(0, n)`, so every value `randint` can return is covered. Every property is proved for every sequence of draws.

Modules:
- `Grid` (`grid.dfy`): coordinates, grid shapes, ship runs, and the in-place cell stamping both generators do.
- `BotLayout` (`bot_layout.dfy`): the live bot's `place_ships`. Cells are `Water` or `ShipTile(k)`, standing for the strings `"water"` and `"ship-k"`.
- `BotGame` (`bot_game.dfy`): the sink predicates, the game record, and the `start`, `join` and `shoot` steps on that record once it has been looked up.
- `ProtoPool` (`proto_pool.dfy`): `generate_ship_pool`.
- `ProtoLayout` (`proto_layout.dfy`): the prototype's `place_ships`. Cells are `0` for empty, or `k + 1` for ship `k`.

The source's loops are methods with loops and invariants, and boards are sequences the methods rebuild cell by cell. Each layout loop also has a reference definition as a function of the draws: `SizeOutcome` and `ShipOutcome` for one retry loop, `Layout` for the whole of `place_ships`. The methods are proved to compute exactly that value, and the properties are proved as lemmas about it. A `randint` call that raises `ValueError` is an explicit error result, not a precondition. The same holds for `ord` raising on a row that is not one character, and for `pop` on an empty list.

## Model

| member | source | states |
|---|---|---|
| Grid.Fill | battleshipbot.py:29 | The fresh board has `height` rows of `width` cells (none for a negative count, as `range` gives), all holding the fill value. |
| Grid.Run | battleshipbot.py:43 | The comprehension `[(y, x + i) for i in range(n)]` and its vertical and diagonal forms: max(n, 0) cells, cell i being the anchor moved i steps in the direction. |
| Grid.RunShape | battleshipbot.py:43 | A run of n cells from an anchor has max(n, 0) cells, all different, on a straight line in its direction. |
| Grid.RunInBoundsByEnds | test.py:61 | A straight run lies inside the board exactly when its first and last cells do. |
| Grid.Painted | battleshipbot.py:41-42 | The board after the write loop sets each listed cell to a value in turn; a cell off the board is left alone. The result keeps the grid shape. |
| Grid.PaintedCells | battleshipbot.py:41-42 | After a list of cells is written with a value one by one, a board cell holds the value exactly when the list names it, and every other cell keeps its old content. |
| Grid.Stamp | battleshipbot.py:41-42 | Writing a value into a list of in-bounds cells one by one keeps the grid shape; a cell then holds the value exactly when it is in the list, and every other cell keeps its old content. |
| BotLayout.SubsequenceEntries | battleshipbot.py:32-34 | Ship lengths that form a subsequence of the size list each come from that list, and there are no more of them than sizes. |
| BotLayout.CellMeaning | battleshipbot.py:40-52 | On a board that agrees with its ship list, a cell is "ship-k" exactly when ship k covers it, and "water" exactly when no ship does. |
| BotLayout.ConsistentDisjoint | battleshipbot.py:40-52 | A board that agrees with its ship list has no cell shared by two ships. |
| BotLayout.StampAgrees | battleshipbot.py:40-43 | Stamping an all-water run with the next ship index and appending the run keeps board and ship list in agreement. |
| BotLayout.AllWater | battleshipbot.py:40-49 | The generator `all(board[..][..] == "water" for i in range(size))` of either direction: every cell of the run holds water. |
| BotLayout.RaisesOn | battleshipbot.py:36-48 | Whether the attempt's `randint` calls raise: `randint(0, width - size)` or `randint(0, height - 1)` for a horizontal draw, `randint(0, width - 1)` or `randint(0, height - size)` for a vertical one, each raising when its upper end is below 0. |
| BotLayout.Candidate | battleshipbot.py:36-39 | When the draws do not raise, the proposed run has exactly `size` cells, is horizontal or vertical, and lies on the board. |
| BotLayout.AttemptOn | battleshipbot.py:36-54 | One attempt of the `for _ in range(100)` body: the ValueError when its `randint` range is empty, else the drawn run when it is all water, else a miss that meets a ship. |
| BotLayout.SizeOutcome | battleshipbot.py:35-54 | The 100-try loop for one size, starting at `draws[d]`: the first attempt that raises or finds all water ends it, and 100 attempts that meet ships drop the size. It also gives the number of attempts used, between 1 and 100, all 100 for a dropped size. |
| BotLayout.TryPlace | battleshipbot.py:36-54 | Raises exactly when the horizontal or vertical `randint` range is empty. Places exactly when the proposed run is all water, and the run recorded is that proposal. The board returned has the run written in as "ship-{len(ships)}", and is the old board when nothing was placed. |
| BotLayout.OutcomeMeaning | battleshipbot.py:35-54 | For the retry loop of one size, from attempt i on after i attempts that met ships: every attempt before the last met a ship. Raising means the last draw's range was empty, which needs a side shorter than the size. Giving up means all 100 draws met a ship. Placing means the last draw proposed an all-water run, and that run is the one placed. |
| BotLayout.OutcomeShape | battleshipbot.py:35-54 | A run the retry loop places has exactly `size` cells, is horizontal or vertical, lies on the board and was all water; raising needs a side shorter than the size. |
| BotLayout.PlaceSize | battleshipbot.py:35-54 | Makes 1 to 100 attempts and ends exactly as the retry loop's value `SizeOutcome` for the same board and draws, whose meaning OutcomeMeaning states. The board returned has a placed run written in as "ship-{len(ships)}" and is unchanged otherwise. |
| BotLayout.TakeStep | battleshipbot.py:44 | Appending a ship of the next size keeps the lengths a subsequence of the sizes tried, and adds its length to `placed_tiles`. |
| BotLayout.SkipStep | battleshipbot.py:34-35 | Skipping a size that failed its 100 attempts keeps the lengths a subsequence of the sizes tried. |
| BotLayout.TallyDone | battleshipbot.py:23 | At the end of the loop the placed lengths are an in-order subsequence of `SHIP_SIZES`. |
| BotLayout.LayoutFrom | battleshipbot.py:33-54 | The `while sizes and placed_tiles < total_tiles` loop from a given state: it returns the board and ships once the sizes run out or the target is reached, and otherwise runs the retry loop of the next size on the next 100 draws. |
| BotLayout.AfterPass | battleshipbot.py:33-54 | How the size loop goes on after one size's retry loop: the ValueError propagates, a dropped size leaves the state, and a placed run is written as "ship-{len(ships)}", appended, and its size added to `placed_tiles`. The next pass starts at d + used. |
| BotLayout.Layout | battleshipbot.py:28-55 | What `place_ships(width, height, total_tiles)` returns on the draws: the size loop from an all-water board, no ships and no tiles placed. |
| BotLayout.LayoutStep | battleshipbot.py:33-54 | One pass of the size loop against the loop's value: a raise makes the ValueError the result. A dropped size goes on with the next size and the draws after its 100. A placed run goes on with the run written into the board and appended, its length added, and the draws after the ones used. |
| BotLayout.PrefixFrom | battleshipbot.py:43 | Later passes only append: the ships down at any point are the first ships of the result. |
| BotLayout.RaisesFrom | battleshipbot.py:33-48 | From any state the size loop raises only on a board narrower or shorter than the carrier. |
| BotLayout.AgreesFrom | battleshipbot.py:40-52 | From a board that agrees with its straight ships, the size loop returns a board that agrees with its ships, all straight. |
| BotLayout.TallyFrom | battleshipbot.py:32-45 | From a state whose lengths are a subsequence of the sizes tried and sum to `placed_tiles`, the loop returns lengths forming an in-order subsequence of `SHIP_SIZES`, the last placed while fewer than `total_tiles` tiles were down. |
| BotLayout.LayoutValid | battleshipbot.py:28-55 | Every result of `place_ships`: the board agrees with straight ships that do not overlap, their lengths are an in-order subsequence of `SHIP_SIZES`, and the last was placed below the target. A ValueError needs a side shorter than 5. A nonpositive target gives the all-water board with no ships. |
| BotLayout.SafeDrawsFrom | battleshipbot.py:33-48 | From any state whose remaining draws all have nonempty ranges for the carrier, the size loop does not raise. |
| BotLayout.RaisesOnlyOnDraw | battleshipbot.py:36-48 | `place_ships` raises only when one of the MaxDraws (500) draws it may consult has an empty `randint` range for the carrier. |
| BotLayout.VerticalNeverRaises | battleshipbot.py:46-48 | A board at least 5 tall never raises when every draw is vertical, however narrow it is. |
| BotLayout.PlaceNextSize | battleshipbot.py:33-54 | One pass pops the next size and continues the loop's value. If it raises, the loop's value is the ValueError. A dropped size leaves board, ships and `placed_tiles` unchanged. A placed run is written in as the next ship and appended, and its size is added. Unless it raises, the loop from the new state, on the draws after those used, has the same value as before the pass. |
| BotLayout.PlaceShips | battleshipbot.py:28-55 | Returns exactly the value of the size loop (`Layout`) on the draws. On success the board and ship list agree and no two ships overlap. Every ship is straight. The lengths are an in-order subsequence of `SHIP_SIZES`, and the last ship was placed below the target. A nonpositive target gives the all-water board with no ships. A ValueError needs a positive target, a side shorter than 5, and one of the draws raising for the carrier. |
| BotLayout.FirstShipIsCarrier | battleshipbot.py:32-54 | For a positive target, a first draw whose range is empty for the carrier makes `place_ships` raise. A layout returned has a ship, and its first ship is the carrier run of the first draw. |
| BotLayout.CornerDrawsGiveCarrier | battleshipbot.py:33-45 | When every draw is horizontal at the corner of a 10 x 10 board, a layout is returned, and its first ship is the carrier (0,0)-(0,4). |
| BotGame.IsShipSunk | battleshipbot.py:75-76 | A ship is sunk exactly when every one of its cells is in the hit set, that is, when its cell set is a subset of the hit set. |
| BotGame.AllShipsSunk | battleshipbot.py:78-79 | The fleet is sunk exactly when every ship is sunk, exactly when every ship cell is in the hit set; true for no ships. |
| BotGame.Start | battleshipbot.py:83-100 | Raises exactly when `place_ships` raises on either team's draws. Otherwise the record holds, for each team, exactly the board and ships `place_ships` returns on that team's draws, with the dimensions as given, empty hit sets and no channels bound. Each board agrees with straight ships whose lengths are an in-order subsequence of `SHIP_SIZES`, the last placed below the target. With a positive target each team's first ship is the carrier run of its first draw. Boards of at least 5 x 5 never raise. |
| BotGame.Join | battleshipbot.py:111-121 | Refuses exactly when both channels are bound (truthy). Otherwise it binds team 1 exactly when `channel1` is unbound, else team 2. The bound slot was unbound and now holds the caller's channel, the other slot is untouched, and nothing else changes. |
| BotGame.ParseShot | battleshipbot.py:131 | A shot names a cell exactly when the row is one character (otherwise `ord` raises). |
| BotGame.Upper | battleshipbot.py:131 | `str.upper()` on one character: a to z become A to Z, and every other character is left as it is. |
| BotGame.ParseShotRoundTrip | battleshipbot.py:145-146 | Row letter `chr(65 + y)` in either case and 1-based column `x + 1` name the cell (y, x). |
| BotGame.ShooterTeam | battleshipbot.py:138-143 | The shooting team: team 1 exactly when `channel1` is the command's channel, team 2 otherwise. |
| BotGame.Classify | battleshipbot.py:167-175 | The shot's result against the updated hit set: a miss on water, and on a "ship-k" cell sunk when ship k is sunk under the hits, hit otherwise. |
| BotGame.Shoot | battleshipbot.py:138-162 | Rejects a malformed row, an off-board cell, and a cell already in the shooter's hit set, each exactly when it occurs, leaving the record unchanged. Otherwise it adds exactly that cell to the shooter's hit set, which grows by one, and changes nothing else. |
| BotGame.ClassifyMeaning | battleshipbot.py:167-175 | On an agreeing board a cell is a miss exactly when no ship covers it, and otherwise sunk or hit as the covering ship is or is not all in the hit set. |
| BotGame.ShotOutcome | battleshipbot.py:164-177 | A shot that fires is a miss exactly when no enemy ship covers the cell. Otherwise it is sunk or hit as that ship is or is not wholly hit after the shot. The all-sunk flag holds exactly when every enemy ship is wholly hit. |
| BotGame.SunkOnlyOnLastCell | battleshipbot.py:155-175 | A shot reports Sunk exactly when the ship it lands on was afloat before it and is sunk after it. |
| BotGame.NoSecondSinking | battleshipbot.py:155-161 | No shot that fires lands on a ship the shooter has already sunk. |
| BotGame.RepeatShotRejected | battleshipbot.py:155-159 | Repeating a shot that fired is rejected as "already shot". |
| BotGame.Play | battleshipbot.py:151-162 | Any sequence of shots keeps both boards agreeing, only grows the hit sets, and changes nothing but the hit sets. |
| BotGame.JoinedChannelShootsAs | battleshipbot.py:138-143 | A channel that joined shoots as the team it joined as, except when it joined team 2 from the channel already bound to team 1. |
| BotGame.JoinSequence | battleshipbot.py:111-121 | On a new record two joins from nonzero channels bind team 1 and then team 2, and a third join is refused. |
| BotGame.JoinViewAsWritten | battleshipbot.py:123-124 | The view `join` sends as written: the opponent's board with the opponent's hit list. |
| BotGame.JoinViewTracksOwnShots | battleshipbot.py:123-124 | With the corrected join view, a team's target view gains exactly the shots that team fires, and the other team's view is unchanged. |
| BotGame.JoinViewAsWrittenMisplacesShots | battleshipbot.py:123-124 | With the view as written, a team's shot appears in the other team's view, drawn over the shooter's own board. |
| BotGame.JoinViewAsWrittenWitness | battleshipbot.py:123-124 | In a concrete game team 1 fires A1 and then team 2 joins. Team 2's view as written marks A1 although team 2 has fired nothing. |
| BotGame.TwoCellWellFormed | battleshipbot.py:88-99 | The two-cell scenario record has agreeing boards. |
| BotGame.TwoCellFirstShot | battleshipbot.py:145-177 | On a 2 x 1 board holding one two-cell ship, firing A1 reports Hit, the fleet is not all sunk, and the hit set is {A1}. |
| BotGame.TwoCellSecondShot | battleshipbot.py:145-177 | Then firing a2 reports Sunk, the fleet is all sunk, and the hit set is {A1, A2}. |
| BotGame.TwoCellRejections | battleshipbot.py:145-159 | Then A1 again is "already shot"; row Z, column 3 and an empty row are rejected. |
| ProtoPool.Cycle | test.py:10-15 | The first n entries of `BASE_SHIP_LENGTHS` repeated without end, which is what the `extend` loop builds and the `pop` loop cuts back. |
| ProtoPool.CycleStep | test.py:15 | Each further entry of the repetition of `BASE_SHIP_LENGTHS` adds one base length, between 2 and 5, to the sum. |
| ProtoPool.CycleBlock | test.py:15 | One `extend` appends the five base lengths and adds 17 to the sum. |
| ProtoPool.CycleSumGrows | test.py:14-17 | A longer prefix of the repetition sums to at least 2 more per extra entry. |
| ProtoPool.PoolUnique | test.py:12-18 | At most one prefix of the repetition is the longest one within a target. |
| ProtoPool.StandardPool | test.py:7-10 | For the standard 17 tiles the pool is exactly `[5, 4, 3, 3, 2]`. |
| ProtoPool.ZeroPool | test.py:14-17 | For a target of 0 the pool is empty. |
| ProtoPool.ExtendPool | test.py:13-15 | The first loop ends with a whole number of repetitions (a multiple of 5 entries, in base order) whose sum reaches the target. They are empty exactly when the target is not positive, and overshoot by less than one block. |
| ProtoPool.GenerateShipPool | test.py:12-18 | Raises IndexError exactly when the target is negative. Otherwise the pool is the longest prefix of the repetition whose sum does not exceed the target. |
| ProtoLayout.Raises | test.py:37 | `randint(0, width - 1)` or `randint(0, height - 1)` raises exactly when the board has no column or no row. |
| ProtoLayout.Anchor | test.py:39-56 | The clamping step: H pulls x back to `width - length` when the ship runs off the right edge; V pulls y back to `height - length`; D+ takes the minimum with those bounds when either edge is crossed; D- takes `max(x, length - 1)` and the minimum for y. |
| ProtoLayout.Proposal | test.py:37-56 | The cells one attempt proposes: the drawn start cell, clamped by `Anchor`, then the run of `length` cells in the drawn orientation. |
| ProtoLayout.ProposalShape | test.py:39-56 | A proposal has max(length, 0) cells on a straight line in the drawn direction: (y, x+i), (y+i, x), (y+i, x+i) or (y+i, x-i). |
| ProtoLayout.ProposalInBounds | test.py:39-61 | For a positive length the clamped proposal lies on the board exactly when the ship fits its direction. Horizontal needs length ≤ width, vertical length ≤ height, and a diagonal both. |
| ProtoLayout.RunFits | test.py:61 | A straight run on the board is no longer than the board's extent in its direction. |
| ProtoLayout.OverlongRefused | test.py:40-61 | A ship with no room in its direction is refused for every draw, for example a horizontal ship longer than the width. |
| ProtoLayout.CellMeaning | test.py:61-64 | On a board that agrees with its coordinate list, a cell holds k + 1 exactly when ship k covers it, and 0 exactly when no ship does. |
| ProtoLayout.ConsistentDisjoint | test.py:61-63 | A board that agrees with its coordinate list has no cell shared by two ships. |
| ProtoLayout.StampAgrees | test.py:61-64 | Stamping an available proposal with the next ship id and appending it keeps board and list in agreement. |
| ProtoLayout.Available | test.py:61 | The availability test: every proposed cell is inside the board and holds 0. |
| ProtoLayout.AttemptOn | test.py:37-67 | One pass of the `while` body: the ValueError on a board with no row or no column, else the proposal and its orientation when it is available, else a refusal. |
| ProtoLayout.AttemptMeaning | test.py:37-67 | One attempt raises exactly when the board has no row or no column. It is refused exactly when some proposed cell is off the board or not 0. Otherwise it is the proposal, available, in the drawn orientation. |
| ProtoLayout.TryPlace | test.py:32-67 | Raises exactly when the board has no row or no column. Places exactly when every proposed cell is on the board and 0, recording the proposal and the drawn orientation. The board returned has the cells written as `ship_id`, and is the old board when nothing was placed. |
| ProtoLayout.ShipOutcome | test.py:31-69 | The `while not placed and attempts < attempts_limit` loop for one ship, starting at `draws[d]`: the first attempt that raises or is available ends it, and 200 refused attempts leave the ship unplaced. It also gives the number of attempts used, between 1 and 200, all 200 for an unplaced ship. |
| ProtoLayout.OutcomeLast | test.py:31-69 | The retry loop's value is that of its last attempt unless all 200 were refused. It raises exactly on a board with no row or no column, and then on the first attempt. |
| ProtoLayout.OutcomeRefused | test.py:31-69 | Every proposal of the retry loop before its last was refused, and a ship that is not placed had all 200 refused. |
| ProtoLayout.OutcomeMeaning | test.py:28-69 | The retry loop for one ship raises exactly on a board with no row or no column, on the first attempt. Not placing it means 200 refused proposals. Placing it means the earlier proposals were refused and the one of the last draw used was available, and that proposal and its orientation are recorded. |
| ProtoLayout.OutcomeShape | test.py:39-69 | A ship the retry loop places has max(length, 0) cells on a straight line in its orientation, all available. |
| ProtoLayout.PlaceShip | test.py:28-69 | Makes 1 to 200 attempts and ends exactly as the retry loop's value `ShipOutcome` for the same board and draws, whose meaning OutcomeMeaning states. The board returned has a placed ship written in as `ship_id` and is unchanged otherwise. |
| ProtoLayout.LayoutFrom | test.py:27-72 | The `for ship_length in ships` loop from ship s on: it returns the board, coordinates and orientations once every ship is placed, and otherwise runs the retry loop of ship s on the next 200 draws. |
| ProtoLayout.AfterShip | test.py:61-72 | How the ship loop goes on after one ship's retry loop: the ValueError propagates, an unplaced ship ends the layout with `(None, None, None)`, and a placed ship is written as `ship_id`, and its cells and orientation are appended. The next ship starts at d + used. |
| ProtoLayout.Layout | test.py:20-74 | What `place_ships(width, height, ships)` returns on the draws: the ship loop from an all-0 board with empty lists and `ship_id` 1. |
| ProtoLayout.LayoutStep | test.py:27-72 | One pass of the ship loop against the loop's value: a raise makes the ValueError the result, and a ship that is not placed makes `(None, None, None)` the result. A placed ship goes on with its cells written in as the next id, both lists extended, and the draws after the ones used. |
| ProtoLayout.RaisesFrom | test.py:27-72 | From any state the ship loop raises exactly when a ship remains and the board has no row or no column, and fails only on a board with both. |
| ProtoLayout.ConsistentFrom | test.py:60-66 | From a board that agrees with its coordinate list, the ship loop returns a board that agrees with the list it returns. |
| ProtoLayout.ShapeFrom | test.py:39-65 | The ship loop returns one coordinate list and one orientation per ship, each ship max(length, 0) cells on a straight line in its orientation. |
| ProtoLayout.PlacedValid | test.py:61-74 | A finished board that agrees with its straight, full-length ships has no cell shared by two ships, and every ship fits the board in its direction. |
| ProtoLayout.LayoutValid | test.py:20-74 | Every result of `place_ships`: the ValueError exactly when there is a ship and the board has no row or no column; `(None, None, None)` only on a board with both; no ships gives the all-zero board. A layout has a board agreeing with its lists, ships that do not overlap, one list and one orientation per ship, each of its length on a straight line and fitting the board. A ship longer than both sides means no layout. |
| ProtoLayout.TwoDestroyers | test.py:27-69 | Two destroyers on a 10 x 10 board whose draw 0 is the corner and draw 1 the middle: both are placed on their first attempt, at (0,0)-(0,1) and (5,5)-(5,6), so each ship's attempts start at the draw after the last one used. |
| ProtoLayout.PlaceShips | test.py:20-74 | Returns exactly the value of the ship loop (`Layout`) on the draws. It raises exactly when there is a ship and the board has no row or no column, and fails only on a board with both. No ships gives the all-zero board. On success board and lists agree, with ids 1, 2, ... in pool order, and ships do not overlap. There is one coordinate list and one orientation per pool entry, each of exactly its length on a straight line in its orientation, fitting the board in that direction. A ship too long for both sides means no board is returned. |

## Left out

- The Discord bot, its slash commands, replies and embeds, `render_board` and the tile emojis: user interface only.
- The MongoDB store and looking a record up by game id or by channel. The `join` and `shoot` steps start from the record found. The "Game not found" and "not in a valid game" replies belong to that lookup.
- `generate_game_id`: a random string with no stated behaviour.
- The read-modify-write race on a stored hit set: it belongs to the store, and the model runs one command at a time.
- The distribution of the random draws: the 40/40/10/10 orientation weights and uniform `randint`. Any draw is allowed, so the model covers every possible sequence of draws but says nothing about frequencies.
- The statistics driver at the end of `test.py` (the 20-run loop, `Counter`, printing).
- The `else: continue` branch of the prototype's orientation test: `random.choices` never returns anything but the four listed orientations.
- BotGame.ParseShot: `str.upper` is modelled for ASCII letters only; characters whose Unicode upper case is longer than one character are not modelled.
- BotLayout.PlaceSize, ProtoLayout.PlaceShip: the methods state their outcome as the value of the retry loop (`SizeOutcome`, `ShipOutcome`). What that value means is stated by the lemmas OutcomeMeaning and OutcomeShape next to them, not repeated on the methods.
- ProtoLayout.PlaceShip: the `placed` flag and the `attempts` counter are the exit from the `for` loop over the 200 attempts and its index.
- BotLayout.PlaceShips, ProtoLayout.PlaceShips: these take a draw sequence at least as long as the most attempts the loops can make (100 per size, 200 per ship). That is a bound on the modelled random source, not on the source's inputs.
- BotGame.Shoot: the stored hit list is modelled as a set, because the source rebuilds it from a set (`list(hits)`), so its order carries nothing.
- BotGame.Shoot: coordinates are modelled as the pairs `place_ships` builds. A MongoDB round trip returns them as lists. Then `cell in hits` (battleshipbot.py:76, called at lines 173 and 177) tests a list for membership in a set of tuples, which raises TypeError. This happens on every fired shot at a nonempty fleet, after the new hit is written at line 162. The model therefore states the outcome the code computes on pairs, not the error the stored record leads to.
- BotGame.JoinView: with stored lists, `(i, j) in hits` (battleshipbot.py:65) never matches, so the grid `join` shows marks no cell. The model keeps pairs and marks the cells in the hit set.
- BotGame.Start: whether a generated layout reaches the tile target is not stated, because the source silently skips a size after 100 failed tries.
- Adjacency-based clustering of ships, a cached set of sunk ships, game deletion and dimension checks before placement: neither source file has them.
- A negative target for `generate_ship_pool` raises IndexError from `pop` on the empty list (test.py:16-17). So only a target of 0 gives the empty pool, not every target ≤ 0.

## Findings

| source | as written | input that shows it | evidently intended | confidence | as-written member | corrected member |
|---|---|---|---|---|---|---|
| battleshipbot.py:123-124 | `join` shows the opponent's board together with the opponent's hit list. That list is the shots the opponent fired at the joining team's own board, not at the board shown. | Team 1 joins from channel 7 and fires A1 at team 2's board. Team 2 then joins. Its target grid shows team 1's board with team 1's hits: with coordinates kept as pairs, A1 is marked although team 2 has fired nothing. Through the MongoDB store the hits come back as lists and render nothing, but the grid still pairs team 1's board with team 1's shots. | Show the opponent's board with the joining team's own hits (`hits{team}`), as `shoot` does under the same "Target Grid" title (battleshipbot.py:151-152, 184). | not executed | BotGame.JoinViewAsWrittenWitness | BotGame.JoinViewTracksOwnShots |
