/** A player: a name and a hand of tiles, played from the end. */
module Players {
  import opened Tiles

  class Player {
    const name: string
    var dominoes: seq<Tile>

    constructor(name: string)
      ensures this.name == name && dominoes == []
    {
      this.name := name;
      dominoes := [];
    }

    /** `assign`: the hand becomes the given tiles, in the given order. */
    method Assign(d: seq<Tile>)
      modifies this
      ensures dominoes == d
    {
      dominoes := d;
    }

    /**
     * `play`: remove and return the last tile of the hand; the tiles before it
     * stay in order. Popping an empty hand is an error, hence the requires.
     */
    method Play() returns (d: Tile)
      requires dominoes != []
      modifies this
      ensures old(dominoes) == dominoes + [d]
    {
      d := dominoes[|dominoes| - 1];
      dominoes := dominoes[..|dominoes| - 1];
    }
  }
}
