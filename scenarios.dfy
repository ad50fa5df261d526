/**
 * Client runs of the rules engine that replay the game's own examples:
 * each method builds fresh objects, drives them through the public
 * operations and states the observable outcome.
 */
module Scenarios {
  import opened Results
  import opened Coords
  import opened Ships
  import opened Boards

  /** The labels the examples use name these cells. */
  lemma ExampleLabels()
    ensures ParseLabel("A2") == Some(Coord(0, 2))
    ensures ParseLabel("B2") == Some(Coord(1, 2))
    ensures ParseLabel("C2") == Some(Coord(2, 2))
    ensures ParseLabel("Z0") == Some(Coord(25, 0))
    ensures ParseLabel("Z10") == Some(Coord(25, 10))
    ensures ParseLabel("Z50") == Some(Coord(25, 50))
  {
    assert DigitsValue("2") == 2;
    assert DigitsValue("0") == 0;
    assert "10"[..1] == "1" && DigitsValue("10") == 10;
    assert "50"[..1] == "5" && DigitsValue("50") == 50;
    assert "A2"[1..] == "2" && "B2"[1..] == "2" && "C2"[1..] == "2";
    assert "Z0"[1..] == "0" && "Z10"[1..] == "10" && "Z50"[1..] == "50";
  }

  /** The factories build ships of sizes 2, 3, 3, 4 and 5, none of them hit. */
  method FactorySizes() returns (sizes: seq<nat>, hits: seq<nat>)
    ensures sizes == [2, 3, 3, 4, 5]
    ensures hits == [0, 0, 0, 0, 0]
  {
    var boat := Ship.Boat();
    var submarine := Ship.Submarine();
    var destroyer := Ship.Destroyer();
    var warrior := Ship.Warrior();
    var carrier := Ship.AircraftCarrier();
    sizes := [boat.size, submarine.size, destroyer.size, warrior.size, carrier.size];
    hits := [boat.hits, submarine.hits, destroyer.hits, warrior.hits, carrier.hits];
  }

  /** One hit raises a boat's counter to 1; `size` hits sink it. */
  method SinkBoat() returns (afterOne: nat, sunk: bool)
    ensures afterOne == 1
    ensures sunk
  {
    var boat := Ship.Boat();
    boat.GetHit();
    afterOne := boat.hits;
    boat := Ship.Boat();
    var i := 0;
    while i < boat.size
      invariant 0 <= i <= boat.size
      invariant boat.hits == i
    {
      boat.GetHit();
      i := i + 1;
    }
    sunk := boat.Sunk();
  }

  /**
   * A two-cell ship placed at A2 with any token but horizontal covers A2 and
   * B2, and A2 becomes a key of the board.
   */
  method PlaceWithUnknownToken() returns (placed: Result<seq<string>, PlaceError>, occupied: set<Coord>)
    ensures placed == Ok(["A2", "B2"])
    ensures Coord(0, 2) in occupied && Coord(1, 2) in occupied
  {
    var board, ship, r := PlacedAtA2("spaghetti");
    assert Labels(r.value) == ["A2", "B2"] by {
      assert Label(Coord(0, 2)) == "A2" && Label(Coord(1, 2)) == "B2";
    }
    placed := Ok(Labels(r.value));
    occupied := board.ships.Keys;
  }

  /** A horizontal ship from A2 crosses the vertical ship already at A2 and B2. */
  method OverlapRefused() returns (first: Result<seq<Coord>, PlaceError>, second: Result<seq<Coord>, PlaceError>)
    ensures first == Ok([Coord(0, 2), Coord(1, 2)])
    ensures second == Err(ShipsOverlap) && second.error.Message() == "Ships cannot overlap"
  {
    var board, ship;
    board, ship, first := PlacedAtA2("vertical");
    var across := CoordinatesFor(2, Coord(0, 2), HORIZONTAL);
    assert across[0] == Coord(0, 2) && across[1] == Coord(0, 3);
    assert AllInBounds(across, board.gridSize) && !Free(across, board.ships.Keys);
    second := board.PlaceShip(ship, HORIZONTAL, Coord(0, 2));
  }

  /** A default board is 10 by 10 and refuses ships at Z0 and at Z50. */
  method OffGridRefused() returns (size: nat, atZ0: Result<seq<Coord>, PlaceError>, atZ50: Result<seq<Coord>, PlaceError>)
    ensures size == DEFAULT_GRID_SIZE == 10
    ensures atZ0 == Err(InvalidCoordinate) && atZ50 == Err(InvalidCoordinate)
    ensures atZ0.error.Message() == "Invalid coordinate"
  {
    var board := new Board.Default();
    size := board.gridSize;
    var ship := new Ship(2);
    assert CoordinatesFor(2, Coord(25, 0), "vertical")[0] == Coord(25, 0);
    atZ0 := board.PlaceShip(ship, "vertical", Coord(25, 0));
    assert CoordinatesFor(2, Coord(25, 50), "vertical")[0] == Coord(25, 50);
    atZ50 := board.PlaceShip(ship, "vertical", Coord(25, 50));
  }

  /** A shot at A2 is logged as a hit and reported as "HIT!"; a shot at Z10 is logged as a miss. */
  method ShotsLogged() returns (hits: seq<Coord>, misses: seq<Coord>, report: Option<string>)
    ensures Coord(0, 2) in hits && Coord(25, 10) in misses
    ensures report == Some("HIT!")
  {
    var board, ship, placed := PlacedAtA2("vertical");
    board.Checks(Coord(0, 2));
    report := board.CollectHits(Coord(0, 2));
    board.Checks(Coord(25, 10));
    hits, misses := board.hits, board.misses;
  }

  /** With a ship at A2 and B2, shots at A2 and B2 clear the board and sink the ship. */
  method ClearedAfterBothCells() returns (cleared: bool, sunk: bool)
    ensures cleared && sunk
  {
    var board, ship, placed := PlacedAtA2("vertical");
    board.Checks(Coord(0, 2));
    board.Checks(Coord(1, 2));
    assert board.hits == [Coord(0, 2), Coord(1, 2)];
    cleared := board.AllShipsSunk();
    board.ClearedBoardSinksEveryShip();
    sunk := ship.Sunk();
  }

  /** With a ship at A2 and B2, shots at A2 and C2 (a miss) do not clear the board. */
  method NotClearedAfterMiss() returns (cleared: bool)
    ensures !cleared
  {
    var board, ship, placed := PlacedAtA2("vertical");
    board.Checks(Coord(0, 2));
    board.Checks(Coord(2, 2));
    assert Coord(1, 2) in board.ships && Coord(1, 2) !in board.hits;
    cleared := board.AllShipsSunk();
  }

  /** The cells of a two-cell ship laid out from A2 along any token but horizontal. */
  lemma DownFromA2(token: Direction)
    requires token != HORIZONTAL
    ensures var cells := CoordinatesFor(2, Coord(0, 2), token);
      && cells == [Coord(0, 2), Coord(1, 2)]
      && AllInBounds(cells, DEFAULT_GRID_SIZE)
      && Free(cells, {})
      && Reached(cells) == {Coord(0, 2), Coord(1, 2)}
  {
    var cells := CoordinatesFor(2, Coord(0, 2), token);
    assert cells == [Coord(0, 2), Coord(1, 2)];
    assert forall c :: c in cells <==> c == Coord(0, 2) || c == Coord(1, 2);
  }

  /** A fresh default board holding one two-cell ship laid out from A2 over A2 and B2. */
  method PlacedAtA2(token: Direction) returns (board: Board, ship: Ship, placed: Result<seq<Coord>, PlaceError>)
    requires token != HORIZONTAL
    ensures fresh(board) && fresh(ship) && board.Valid() && ship.size == 2
    ensures board.gridSize == DEFAULT_GRID_SIZE
    ensures placed == Ok([Coord(0, 2), Coord(1, 2)])
    ensures board.ships.Keys == {Coord(0, 2), Coord(1, 2)} && board.ships.Values == {ship}
    ensures board.hits == [] && board.misses == []
  {
    board := new Board.Default();
    ship := new Ship(2);
    DownFromA2(token);
    placed := board.PlaceShip(ship, token, Coord(0, 2));
  }
}
