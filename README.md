# Battleship rules engine in Dafny

This project models the rules engine of a Battleship game, which has two parts.

A **Ship** has a fixed size, set by one of the named factories (`boat`, `submarine`, `destroyer`, `warrior`, `aircraft_carrier`). It also has a hit counter that `get_hit` raises by one. The ship is `sunk?` once the counter reaches its size.

A **Board** has a grid size (`DEFAULT_GRID_SIZE`, 10, unless another size is given). It maps every occupied cell to the ship that covers it, and it keeps two ordered logs of shots: `hits` and `misses`. It can:

- generate the cells a ship covers (`coordinates_for`);
- place a ship after checking that every cell is on the grid and that no cell is taken (`place_ship`);
- resolve a shot (`checks`);
- report `"HIT!"` for a cell that was hit (`collect_hits`);
- tell whether every occupied cell has been hit (`all_ships_sunk?`).

The Ruby implementation files `lib/board.rb` and `lib/ship.rb` are not part of this model. The behaviour modelled is the behaviour pinned down by the two RSpec files `spec/board_spec.rb` and `spec/ship_spec.rb`.

Files:

- `results.dfy` (module `Results`): `Option` (Ruby's `nil` or a value) and `Result` (a value, or a raised error).
- `coords.dfy` (module `Coords`): covers the following.
  - A cell is `Coord(row, col)`. Row 0 is the letter `A`, and `col` is the number of the label.
  - A direction is the name of the Ruby symbol passed in (`"horizontal"`, `"vertical"`, `"spaghetti"`, ...). Only `"horizontal"` advances the number; every other token advances the row letter.
  - The function `CoordinatesFor` generates a ship's cells.
  - The `InBounds` predicate checks that a cell is on the grid.
  - `Label` and `ParseLabel` convert between a cell and its text label (`"A2"`, `"Z50"`). A label is one upper-case letter followed by the number in decimal without leading zeros, and cells and labels correspond one to one.
- `ships.dfy` (module `Ships`): class `Ship`, with a `const size`, a mutable `hits` field, the factories, `GetHit` and `Sunk`.
- `boards.dfy` (module `Boards`): class `Board`.
  - Its mutable fields are `ships: map<Coord, Ship>`, `hits: seq<Coord>` and `misses: seq<Coord>`.
  - `Valid()` is the object invariant. Every occupied cell is on the grid, and every logged hit is an occupied cell. Every ship on the board covers at least `size` cells, and its counter is at least the number of logged hits on its cells.
  - It holds `Validate`, `PlaceShip`, `Checks`, `AllShipsSunk`, `CollectHits` and the lemma `ClearedBoardSinksEveryShip`.
  - Lemmas about counting shots on a set of cells carry the proofs that `PlaceShip` and `Checks` keep the invariant.
- `scenarios.dfy` (module `Scenarios`): client methods that replay each RSpec example against the model.

`DEFAULT_GRID_SIZE` is 10: a 10 by 10 grid, rows `A` to `J`, numbers 1 to 10. The tests only compare `grid_size` with the constant, so the value 10 comes from the game's design, not from an assertion.

Several cells of one ship map to the same `Ship` object. A hit through any of those cells updates that one shared counter.

`all_ships_sunk?` is computed from the board's own state: it holds when every key of `ships` appears in `hits`. It does not ask each ship whether it is `sunk?`. In the tests, the ship passed to the board is a double that has only `size` and a stubbed `get_hit`. It has no `sunk?` and no `hits`, yet `all_ships_sunk?` answers `true` once both of its cells have been checked. So the answer cannot come from the ships.

One could instead decide game over by asking every distinct ship whether it is sunk. The model does not, because the double above could not answer. The two answers are still related. `Boards.Board.ClearedBoardSinksEveryShip` proves that on a valid board, a cleared board has sunk every ship on it. The converse is not claimed. For example, one ship placed twice, on two separate pairs of cells, is sunk after two hits while two of its cells are still unhit.

The model does not claim that a cell never appears in both `hits` and `misses`. Nothing in the tests enforces it, and a cell that missed and later received a ship can be hit afterwards.

## Model

| member | source | states |
|---|---|---|
| `Coords.CoordinatesFor` | spec/board_spec.rb:22-28 | the result has exactly `size` cells, and cell `i` is the start cell moved `i` steps along the direction: the number rises for horizontal; the row letter rises for anything else |
| `Coords.HorizontalLayout` | spec/board_spec.rb:22-24 | a horizontal layout keeps the row letter and raises the number by one per cell |
| `Coords.OtherLayout` | spec/board_spec.rb:26-28 | any direction token other than horizontal keeps the number and advances the row letter by one per cell |
| `Coords.CellsDistinct` | spec/board_spec.rb:22-28 | the generated cells of one ship are pairwise distinct |
| `Coords.InBounds` | spec/board_spec.rb:41-47 | a cell on the grid has a row below the grid size and a number from 1 to the grid size: number 0 is never on the grid (`Z0`), and on a grid of at most 26 rows every cell has a single-letter label |
| `Coords.OnGridIffEnds` | spec/board_spec.rb:41-47 | a laid-out ship lies on the grid if and only if its first and last cells do |
| `Coords.Decimal` | spec/board_spec.rb:45-46 | the number of a label is written as one or more decimal digits with no leading zero |
| `Coords.DecimalRoundTrip` | spec/board_spec.rb:45-46 | reading a number's decimal digits back gives the number (multi-digit labels such as `Z50`) |
| `Coords.CanonicalRoundTrip` | spec/board_spec.rb:45-46 | writing out the number that a run of digits without leading zeros denotes gives the same run |
| `Coords.Label` | spec/board_spec.rb:22-28 | a cell's label is one upper-case letter followed by the number's decimal digits, without leading zeros |
| `Coords.ParseLabel` | spec/board_spec.rb:41-47 | a string names a cell exactly when it is the label of some cell, and then the label of the cell it names is the string itself |
| `Coords.LabelRoundTrip` | spec/board_spec.rb:13-16 | parsing the label of a cell gives that cell back |
| `Coords.LabelInjective` | spec/board_spec.rb:13-16 | two cells with the same label are the same cell; together with `ParseLabel`, cells and labels correspond one to one, so a board keyed by cells is keyed by labels |
| `Coords.Labels` | spec/board_spec.rb:18-20 | the label list has one label per cell, in order |
| `Coords.HorizontalExample` | spec/board_spec.rb:22-24 | `coordinates_for(2, 'A1', :horizontal)` is `['A1', 'A2']` |
| `Coords.OtherExample` | spec/board_spec.rb:26-28 | `coordinates_for(2, 'A1', :vertically)` is `['A1', 'B1']` |
| `Ships.Ship.constructor` | spec/ship_spec.rb:5-8 | a new ship has the given size and zero hits |
| `Ships.Ship.Boat` | spec/ship_spec.rb:27-29 | a boat is a fresh ship of size 2 with no hits |
| `Ships.Ship.Submarine` | spec/ship_spec.rb:31-33 | a submarine is a fresh ship of size 3 with no hits |
| `Ships.Ship.Destroyer` | spec/ship_spec.rb:35-37 | a destroyer is a fresh ship of size 3 with no hits |
| `Ships.Ship.Warrior` | spec/ship_spec.rb:39-41 | a warrior is a fresh ship of size 4 with no hits |
| `Ships.Ship.AircraftCarrier` | spec/ship_spec.rb:43-45 | an aircraft carrier is a fresh ship of size 5 with no hits |
| `Ships.Ship.Sunk` | spec/ship_spec.rb:18-22 | an unhit ship of positive size is afloat; that it sinks exactly when its count reaches its size is stated after each hit by `GetHit` |
| `Ships.Ship.GetHit` | spec/ship_spec.rb:11-22 | the counter rises by exactly one; a sunk ship stays sunk; the ship is sunk afterwards if and only if the new count reaches its size |
| `Boards.PlaceError.Message` | spec/board_spec.rb:30-47 | the raised text is `Invalid coordinate` exactly for the off-grid error and `Ships cannot overlap` exactly for the overlap error |
| `Boards.ShotsOnAppend` | spec/board_spec.rb:50-56 | a shot appended to the log adds one to the count of shots on a set of cells exactly when it lands in the set |
| `Boards.ShotsOnAtLeastReached` | spec/board_spec.rb:66-73 | the shots landing on a set of cells are at least as many as the distinct cells of that set they reached |
| `Boards.ShotsOnUnreachedCells` | spec/board_spec.rb:13-16 | adding to a set cells that no shot reached leaves the count of shots on it unchanged |
| `Boards.DistinctCellsCount` | spec/board_spec.rb:18-20 | a run of pairwise distinct cells reaches exactly as many cells as it has elements |
| `Boards.CoveredShipIsSunk` | spec/board_spec.rb:66-73 | when every cell of a ship has been shot, its size is at most its number of cells and its counter is at least the number of shots on them, the ship is sunk |
| `Boards.MissLeavesShipUncovered` | spec/board_spec.rb:75-81 | with a ship on `A2` and `B2`, shots at `A2` and `C2` leave it uncovered, with one shot of the two it needs |
| `Boards.CellsOfAfterPlacement` | spec/board_spec.rb:13-20 | after a placement on free cells, the placed ship owns its old cells plus the new ones, and every other ship keeps exactly its cells |
| `Boards.PlacedShipAccounted` | spec/board_spec.rb:13-20 | a ship placed on its size in distinct, free, unshot cells covers at least its size and has counted every logged hit on its cells |
| `Boards.PlacementKeepsAccount` | spec/board_spec.rb:13-20 | placing a ship on free, distinct cells, when every logged hit is an occupied cell, keeps every ship's size and hit account |
| `Boards.Board.constructor` | spec/board_spec.rb:36-39 | a board built with a grid size starts with no ships and empty hit and miss logs |
| `Boards.Board.Default` | spec/board_spec.rb:36-39 | a board built without a size has grid size `DEFAULT_GRID_SIZE` (the constant 10), no ships and empty logs |
| `Boards.Board.Validate` | spec/board_spec.rb:30-47 | the placement check reports `InvalidCoordinate` exactly when some cell is off the grid, reports `ShipsOverlap` exactly when all cells are on the grid but some cell is taken, and reports nothing otherwise |
| `Boards.Board.PlaceShip` | spec/board_spec.rb:13-33 | when the generated cells are on the grid and free, it returns them, makes each of them a key mapped to the ship and keeps all other entries; off-grid cells give `Invalid coordinate`; an occupied cell gives `Ships cannot overlap`; a refusal leaves `ships` unchanged; the hit and miss logs are untouched; the invariant, including every ship's size and hit account, is kept |
| `Boards.Board.AllShipsSunk` | spec/board_spec.rb:66-81 | true exactly when every occupied cell is among the hit cells; a board with no ships counts as cleared |
| `Boards.Board.CollectHits` | spec/board_spec.rb:84-89 | `"HIT!"` exactly for cells in the hit log |
| `Boards.Board.Checks` | spec/board_spec.rb:50-63 | a shot at an occupied cell is appended to `hits` and raises that ship's counter by one; any other cell, on the grid or not, is appended to `misses`; no other ship changes; afterwards a hit cell reports `"HIT!"`; a cleared board stays cleared; a miss never changes whether the board is cleared; the invariant, including every ship's hit account, is kept |
| `Boards.Board.ClearedBoardSinksEveryShip` | spec/board_spec.rb:66-73 | on a valid board, when every occupied cell has been hit, every ship on the board is sunk |
| `Scenarios.ExampleLabels` | spec/board_spec.rb:13-81 | the labels `A2`, `B2`, `C2`, `Z0`, `Z10` and `Z50` name the cells the scenarios use |
| `Scenarios.FactorySizes` | spec/ship_spec.rb:26-46 | the five factories give sizes 2, 3, 3, 4 and 5, all with zero hits |
| `Scenarios.SinkBoat` | spec/ship_spec.rb:10-24 | one `get_hit` leaves a boat with one hit; `size` calls sink it |
| `Scenarios.PlaceWithUnknownToken` | spec/board_spec.rb:13-20 | placing a two-cell ship at `A2` with the token `spaghetti` returns `['A2', 'B2']` and makes `A2` a key |
| `Scenarios.OverlapRefused` | spec/board_spec.rb:30-33 | a horizontal ship from `A2` across a vertical ship at `A2` is refused with `Ships cannot overlap` |
| `Scenarios.OffGridRefused` | spec/board_spec.rb:36-47 | a default board has grid size `DEFAULT_GRID_SIZE`, and ships at `Z0` and at `Z50` are refused with `Invalid coordinate` |
| `Scenarios.ShotsLogged` | spec/board_spec.rb:50-63 | a shot at `A2` is in `hits` and reports `"HIT!"`; a shot at `Z10` is in `misses` |
| `Scenarios.ClearedAfterBothCells` | spec/board_spec.rb:67-73 | with a ship at `A2` and `B2`, shots at both cells clear the board and sink the ship |
| `Scenarios.NotClearedAfterMiss` | spec/board_spec.rb:75-81 | with a ship at `A2` and `B2`, shots at `A2` and `C2` do not clear the board |

## Left out

- Board operations take a `Coord`, not a label string. `ParseLabel` accepts exactly the labels `Label` writes: one upper-case letter followed by decimal digits without leading zeros. Anything else Ruby's own label handling might accept or reject (`"A01"`, lower-case letters) is not modelled.
- `Label` exists only for rows `A` to `Z`. Rows past `Z` (Ruby's `'Z'.next` is `'AA'`) are not modelled. With the default grid size they are off the grid anyway.
- `Boards.Board.CollectHits`: the model returns `None` (Ruby's `nil`) for a cell that was never hit. The tests only pin down the hit case, so this is a chosen policy, not a promise of the source.
- `Boards.Board.PlaceShip`: the model leaves `ships` unchanged when a placement fails. The tests only check that the error is raised, so this atomicity is a modelling choice. When a layout is both off the grid and overlapping, the model reports `Invalid coordinate`, because the bounds pass runs first.
- `Boards.Board.Checks`: repeated shots at the same cell are appended again and raise the counter again. The tests never exercise this. No return value is modelled because the tests never read one.
- `Ships.Ship.GetHit`: the counter is not capped at `size`. The tests never hit a ship past its size, and `Sunk` only compares with `>=`.
- Ruby exceptions are modelled as `Err` values of `PlaceError`, whose `Message` gives the raised text. A direction symbol is modelled by its name, a string.
- The board invariant constrains each ship's counter only from below. Code outside the board may also call `get_hit`, and the board never relies on the exact count.
- The RSpec machinery (doubles, stubs, the arity check `respond_to(:place_ship).with(3).arguments`) and the unused `player` double with `fire` have no rules to model.
