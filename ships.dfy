/** A ship: a fixed size, set by a named factory, and a hit counter. */
module Ships {

  class Ship {
    /** The number of cells the ship covers, and the number of hits that sink it. */
    const size: nat
    /** How many shots have struck the ship so far. */
    var hits: nat

    /** A ship of the given size that has not been hit. */
    constructor (size: nat)
      ensures this.size == size && hits == 0
    {
      this.size := size;
      hits := 0;
    }

    static method Boat() returns (s: Ship)
      ensures fresh(s) && s.size == 2 && s.hits == 0
    {
      s := new Ship(2);
    }

    static method Submarine() returns (s: Ship)
      ensures fresh(s) && s.size == 3 && s.hits == 0
    {
      s := new Ship(3);
    }

    static method Destroyer() returns (s: Ship)
      ensures fresh(s) && s.size == 3 && s.hits == 0
    {
      s := new Ship(3);
    }

    static method Warrior() returns (s: Ship)
      ensures fresh(s) && s.size == 4 && s.hits == 0
    {
      s := new Ship(4);
    }

    static method AircraftCarrier() returns (s: Ship)
      ensures fresh(s) && s.size == 5 && s.hits == 0
    {
      s := new Ship(5);
    }

    /** The ship is sunk once it has taken as many hits as it has cells; an unhit ship of positive size is afloat. */
    predicate Sunk()
      reads this
      ensures hits == 0 && size > 0 ==> !Sunk()
    {
      hits >= size
    }

    /** Records one more hit. A sunk ship stays sunk. */
    method GetHit()
      modifies this
      ensures hits == old(hits) + 1
      ensures old(Sunk()) ==> Sunk()
      ensures Sunk() <==> old(hits) + 1 >= size
    {
      hits := hits + 1;
    }
  }
}
