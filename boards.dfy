/**
 * The board: which ship occupies which cell, and the log of shots that hit
 * and that missed. Ships are placed along a direction after bounds and
 * overlap checks; shots are resolved one cell at a time.
 */
module Boards {
  import opened Results
  import opened Coords
  import opened Ships

  /** The side of the square grid of a board built without an explicit size. */
  const DEFAULT_GRID_SIZE: nat := 10

  /** The two reasons a placement is refused, with the messages the game raises. */
  datatype PlaceError = InvalidCoordinate | ShipsOverlap
  {
    /** The text raised; each error has its own. */
    function Message(): (m: string)
      ensures m == "Invalid coordinate" <==> InvalidCoordinate?
      ensures m == "Ships cannot overlap" <==> ShipsOverlap?
    {
      match this
      case InvalidCoordinate => "Invalid coordinate"
      case ShipsOverlap => "Ships cannot overlap"
    }
  }

  /** None of `cells` is already occupied. */
  predicate Free(cells: seq<Coord>, occupied: set<Coord>)
  {
    forall i :: 0 <= i < |cells| ==> cells[i] !in occupied
  }

  /** Every occupied cell has been shot at: the game-over condition. */
  predicate Covered(occupied: set<Coord>, shots: seq<Coord>)
  {
    forall c :: c in occupied ==> c in shots
  }

  /** The cells a log of shots has reached. */
  function Reached(shots: seq<Coord>): set<Coord>
  {
    set c | c in shots
  }

  /** How many shots of the log landed on `cells` (a cell shot twice counts twice). */
  function ShotsOn(cells: set<Coord>, shots: seq<Coord>): nat
    decreases |shots|
  {
    if shots == [] then 0
    else ShotsOn(cells, shots[..|shots| - 1]) + (if shots[|shots| - 1] in cells then 1 else 0)
  }

  /** A shot appended to the log adds one to the count of every set of cells it lands on. */
  lemma ShotsOnAppend(cells: set<Coord>, shots: seq<Coord>, x: Coord)
    ensures ShotsOn(cells, shots + [x]) == ShotsOn(cells, shots) + (if x in cells then 1 else 0)
  {
    assert (shots + [x])[..|shots|] == shots;
  }

  /** Shots on a set of cells are at least as many as the distinct cells of it they reached. */
  lemma {:induction false} ShotsOnAtLeastReached(cells: set<Coord>, shots: seq<Coord>)
    ensures ShotsOn(cells, shots) >= |cells * Reached(shots)|
    decreases |shots|
  {
    if shots != [] {
      var init, last := shots[..|shots| - 1], shots[|shots| - 1];
      assert shots == init + [last];
      ShotsOnAtLeastReached(cells, init);
      assert Reached(shots) == Reached(init) + {last};
      if last in cells {
        assert cells * Reached(shots) == cells * Reached(init) + {last};
      } else {
        assert cells * Reached(shots) == cells * Reached(init);
      }
    }
  }

  /** Adding cells that no shot reached does not change the count of shots on a set. */
  lemma {:induction false} ShotsOnUnreachedCells(cells: set<Coord>, extra: set<Coord>, shots: seq<Coord>)
    requires extra !! Reached(shots)
    ensures ShotsOn(cells + extra, shots) == ShotsOn(cells, shots)
    decreases |shots|
  {
    if shots != [] {
      var init := shots[..|shots| - 1];
      assert shots == init + [shots[|shots| - 1]];
      assert Reached(init) <= Reached(shots);
      ShotsOnUnreachedCells(cells, extra, init);
    }
  }

  /** A run of pairwise distinct cells reaches as many cells as it has elements. */
  lemma {:induction false} DistinctCellsCount(cells: seq<Coord>)
    requires forall i, j :: 0 <= i < j < |cells| ==> cells[i] != cells[j]
    ensures |Reached(cells)| == |cells|
    decreases |cells|
  {
    if cells != [] {
      var init, last := cells[..|cells| - 1], cells[|cells| - 1];
      assert cells == init + [last];
      DistinctCellsCount(init);
      assert last !in Reached(init);
      assert Reached(cells) == Reached(init) + {last};
    }
  }

  /**
   * A ship whose hit counter is at least the number of shots on its cells,
   * and whose size is at most its number of cells, is sunk once every one of
   * its cells has been shot at.
   */
  lemma CoveredShipIsSunk(ship: Ship, cells: set<Coord>, shots: seq<Coord>)
    requires ship.size <= |cells| && ShotsOn(cells, shots) <= ship.hits
    requires Covered(cells, shots)
    ensures ship.Sunk()
  {
    ShotsOnAtLeastReached(cells, shots);
    assert cells * Reached(shots) == cells;
  }

  /**
   * With a ship on A2 and B2, shots at A2 and then C2 (a miss) leave B2
   * unshot: the ship has taken one shot of the two it needs.
   */
  lemma MissLeavesShipUncovered()
    ensures var cells := {Coord(0, 2), Coord(1, 2)};
      var shots := [Coord(0, 2), Coord(2, 2)];
      !Covered(cells, shots) && ShotsOn(cells, shots) == 1 < |cells|
  {
    var shots := [Coord(0, 2), Coord(2, 2)];
    assert shots[..1] == [Coord(0, 2)];
    assert [Coord(0, 2)][..0] == [];
    assert Coord(1, 2) !in shots;
  }

  /** The cells of a board that map to `ship`. */
  function CellsOf(ships: map<Coord, Ship>, ship: Ship): set<Coord>
  {
    set c | c in ships && ships[c] == ship
  }

  /** No shot lands on the empty set of cells. */
  lemma {:induction false} ShotsOnNoCells(shots: seq<Coord>)
    ensures ShotsOn({}, shots) == 0
    decreases |shots|
  {
    if shots != [] {
      ShotsOnNoCells(shots[..|shots| - 1]);
    }
  }

  /** After `ship` is placed on `cells`, it owns its old cells plus `cells`; every other ship keeps its cells. */
  lemma CellsOfAfterPlacement(before: map<Coord, Ship>, after: map<Coord, Ship>, cells: seq<Coord>,
                              ship: Ship, s: Ship)
    requires Reached(cells) !! before.Keys
    requires after.Keys == before.Keys + Reached(cells)
    requires forall c :: c in after ==> after[c] == if c in cells then ship else before[c]
    ensures CellsOf(after, s) == if s == ship then CellsOf(before, s) + Reached(cells) else CellsOf(before, s)
  {
    forall c
      ensures c in CellsOf(after, s) <==> c in (if s == ship then CellsOf(before, s) + Reached(cells) else CellsOf(before, s))
    {
      if c in cells {
        assert c in after && after[c] == ship;
      }
    }
  }

  /**
   * Placing `ship` on free, distinct cells that no shot has reached keeps
   * its account: it covers at least its size in cells and has counted the
   * shots on them.
   */
  lemma PlacedShipAccounted(before: set<Coord>, placed: seq<Coord>, ship: Ship, shots: seq<Coord>)
    requires ship.size == |placed|
    requires forall i, j :: 0 <= i < j < |placed| ==> placed[i] != placed[j]
    requires Reached(placed) !! before && Reached(placed) !! Reached(shots)
    requires ShotsOn(before, shots) <= ship.hits
    ensures ship.size <= |before + Reached(placed)| && ShotsOn(before + Reached(placed), shots) <= ship.hits
  {
    DistinctCellsCount(placed);
    ShotsOnUnreachedCells(before, Reached(placed), shots);
  }

  /**
   * Placing `ship` on free, distinct cells, when every shot so far hit an
   * occupied cell, keeps every ship's account.
   */
  lemma PlacementKeepsAccount(before: map<Coord, Ship>, after: map<Coord, Ship>, cells: seq<Coord>,
                              ship: Ship, shots: seq<Coord>)
    requires forall t :: t in before.Values ==>
      t.size <= |CellsOf(before, t)| && ShotsOn(CellsOf(before, t), shots) <= t.hits
    requires forall k :: 0 <= k < |shots| ==> shots[k] in before
    requires Free(cells, before.Keys) && |cells| == ship.size
    requires forall i, j :: 0 <= i < j < |cells| ==> cells[i] != cells[j]
    requires after.Keys == before.Keys + Reached(cells)
    requires forall c :: c in after ==> after[c] == if c in cells then ship else before[c]
    ensures forall s :: s in after.Values ==>
      s.size <= |CellsOf(after, s)| && ShotsOn(CellsOf(after, s), shots) <= s.hits
  {
    assert Reached(cells) !! before.Keys;
    assert Reached(cells) !! Reached(shots);
    forall s | s in after.Values
      ensures s.size <= |CellsOf(after, s)| && ShotsOn(CellsOf(after, s), shots) <= s.hits
    {
      CellsOfAfterPlacement(before, after, cells, ship, s);
      if s == ship {
        if ship !in before.Values {
          assert CellsOf(before, ship) == {};
          ShotsOnNoCells(shots);
        }
        PlacedShipAccounted(CellsOf(before, ship), cells, ship, shots);
      } else {
        var c :| c in after && after[c] == s;
        assert s in before.Values;
      }
    }
  }

  class Board {
    /** The grid has `gridSize` row letters and the numbers 1 to `gridSize`. */
    const gridSize: nat
    /** Each occupied cell, mapped to the ship covering it; a ship of size n has n entries. */
    var ships: map<Coord, Ship>
    /** The shots that found a ship, in order. */
    var hits: seq<Coord>
    /** The shots that found no ship, in order. */
    var misses: seq<Coord>

    /**
     * Every occupied cell is on the grid, every recorded hit is an occupied
     * cell, and every ship on the board covers at least `size` cells and has
     * counted at least the hits logged on its cells.
     */
    ghost predicate Valid()
      reads this, ships.Values
    {
      && (forall c :: c in ships ==> InBounds(c, gridSize))
      && (forall i :: 0 <= i < |hits| ==> hits[i] in ships)
      && (forall s :: s in ships.Values ==>
            s.size <= |CellsOf(ships, s)| && ShotsOn(CellsOf(ships, s), hits) <= s.hits)
    }

    /** An empty board with a `gridSize` by `gridSize` grid. */
    constructor (gridSize: nat)
      ensures Valid()
      ensures this.gridSize == gridSize && ships == map[] && hits == [] && misses == []
    {
      this.gridSize := gridSize;
      ships, hits, misses := map[], [], [];
    }

    /** An empty board with the default grid size. */
    constructor Default()
      ensures Valid()
      ensures gridSize == DEFAULT_GRID_SIZE && ships == map[] && hits == [] && misses == []
    {
      gridSize := DEFAULT_GRID_SIZE;
      ships, hits, misses := map[], [], [];
    }

    /**
     * Checks a prospective placement: first that every cell is on the grid,
     * then that no cell is already occupied.
     */
    method Validate(cells: seq<Coord>) returns (err: Option<PlaceError>)
      ensures err == None <==> AllInBounds(cells, gridSize) && Free(cells, ships.Keys)
      ensures err == Some(InvalidCoordinate) <==> !AllInBounds(cells, gridSize)
      ensures err == Some(ShipsOverlap) <==> AllInBounds(cells, gridSize) && !Free(cells, ships.Keys)
    {
      var i := 0;
      while i < |cells|
        invariant 0 <= i <= |cells|
        invariant forall j :: 0 <= j < i ==> InBounds(cells[j], gridSize)
      {
        if !InBounds(cells[i], gridSize) {
          return Some(InvalidCoordinate);
        }
        i := i + 1;
      }
      i := 0;
      while i < |cells|
        invariant 0 <= i <= |cells|
        invariant forall j :: 0 <= j < i ==> cells[j] !in ships
      {
        if cells[i] in ships {
          return Some(ShipsOverlap);
        }
        i := i + 1;
      }
      return None;
    }

    /**
     * Lays `ship` out from `start` along `dir`. On success every cell of the
     * layout maps to `ship` and the layout is returned; an off-grid cell or
     * an occupied cell refuses the placement and leaves the board as it was.
     */
    method PlaceShip(ship: Ship, dir: Direction, start: Coord) returns (r: Result<seq<Coord>, PlaceError>)
      requires Valid()
      modifies this`ships
      ensures Valid()
      ensures var cells := CoordinatesFor(ship.size, start, dir);
        && (!AllInBounds(cells, gridSize) ==> r == Err(InvalidCoordinate))
        && (AllInBounds(cells, gridSize) && !Free(cells, old(ships).Keys) ==> r == Err(ShipsOverlap))
        && (AllInBounds(cells, gridSize) && Free(cells, old(ships).Keys) ==> r == Ok(cells))
      ensures r.Err? ==> ships == old(ships)
      ensures r.Ok? ==> ships.Keys == old(ships).Keys + Reached(r.value)
      ensures r.Ok? ==> forall c :: c in ships ==> ships[c] == if c in r.value then ship else old(ships)[c]
    {
      var cells := CoordinatesFor(ship.size, start, dir);
      var err := Validate(cells);
      if err.Some? {
        return Err(err.value);
      }
      var i := 0;
      while i < |cells|
        invariant 0 <= i <= |cells|
        invariant ships.Keys == old(ships).Keys + Reached(cells[..i])
        invariant forall c :: c in ships ==> ships[c] == if c in cells[..i] then ship else old(ships)[c]
        invariant forall c :: c in ships ==> InBounds(c, gridSize)
        invariant forall k :: 0 <= k < |hits| ==> hits[k] in ships
      {
        assert cells[..i + 1] == cells[..i] + [cells[i]];
        ships := ships[cells[i] := ship];
        i := i + 1;
      }
      assert cells[..i] == cells;
      r := Ok(cells);
      PlacementKeepsAccount(old(ships), ships, cells, ship, hits);
    }

    /**
     * Every occupied cell has been hit: decided from the board's own logs,
     * without asking any ship. A board with no ships counts as cleared.
     */
    predicate AllShipsSunk()
      reads this
      ensures AllShipsSunk() <==> ships.Keys <= Reached(hits)
      ensures ships == map[] ==> AllShipsSunk()
    {
      Covered(ships.Keys, hits)
    }

    /** "HIT!" for a cell that a shot has hit; `None` for any other cell. */
    function CollectHits(c: Coord): (r: Option<string>)
      reads this
      ensures r.Some? <==> c in hits
      ensures r.Some? ==> r.value == "HIT!"
    {
      if c in hits then Some("HIT!") else None
    }

    /**
     * Resolves a shot at `c`. An occupied cell is logged as a hit and its
     * ship takes one hit; any other cell, on the grid or not, is logged as a
     * miss. No other ship is touched.
     */
    method Checks(c: Coord)
      requires Valid()
      modifies this`hits, this`misses, ships.Values
      ensures Valid()
      ensures c in ships ==> hits == old(hits) + [c] && misses == old(misses)
      ensures c in ships ==> ships[c].hits == old(ships[c].hits) + 1
      ensures c !in ships ==> misses == old(misses) + [c] && hits == old(hits)
      ensures forall s :: s in ships.Values && (c !in ships || s != ships[c]) ==> s.hits == old(s.hits)
      ensures c in ships ==> CollectHits(c) == Some("HIT!")
      ensures old(AllShipsSunk()) ==> AllShipsSunk()
      ensures c !in ships ==> (AllShipsSunk() <==> old(AllShipsSunk()))
    {
      if c in ships {
        ghost var before := hits;
        ships[c].GetHit();
        hits := hits + [c];
        forall s | s in ships.Values
          ensures ShotsOn(CellsOf(ships, s), hits) <= s.hits
        {
          ShotsOnAppend(CellsOf(ships, s), before, c);
        }
      } else {
        misses := misses + [c];
      }
    }

    /**
     * A cleared board has sunk every ship on it: the board's own game-over
     * test implies the ships' `sunk?` without asking them.
     */
    lemma ClearedBoardSinksEveryShip()
      requires Valid()
      ensures AllShipsSunk() ==> forall s :: s in ships.Values ==> s.Sunk()
    {
      if AllShipsSunk() {
        forall s | s in ships.Values
          ensures s.Sunk()
        {
          CoveredShipIsSunk(s, CellsOf(ships, s), hits);
        }
      }
    }
  }
}
