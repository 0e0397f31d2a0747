/**
 * A domino as the engine handles it: two pip counts. The engine keeps every
 * tile as a two-element list, so a tile carries an orientation (a left and a
 * right pip); the physical domino is the same whichever way round it lies.
 */
module Tiles {

  datatype Tile = Tile(left: int, right: int)

  /** The same domino turned end for end (the list's `reverse()`). */
  function Flip(t: Tile): Tile
  {
    Tile(t.right, t.left)
  }

  /** `v in domino`: one of the tile's two pips is `v`. */
  predicate Has(t: Tile, v: int)
  {
    t.left == v || t.right == v
  }

  /** The pip at the other end from a pip `v` the tile has. */
  function Other(t: Tile, v: int): (r: int)
    requires Has(t, v)
    ensures Has(t, r) && (Tile(v, r) == t || Tile(v, r) == Flip(t))
  {
    if t.left == v then t.right else t.left
  }

  /** The physical domino a tile stands for: its smaller pip first. */
  function Canon(t: Tile): (r: Tile)
    ensures r.left <= r.right
    ensures r == t || r == Flip(t)
  {
    if t.left <= t.right then t else Flip(t)
  }

  /** The dominoes of a line of tiles, as a multiset of physical dominoes. */
  function Dominoes(s: seq<Tile>): multiset<Tile>
  {
    if s == [] then multiset{} else multiset{Canon(s[0])} + Dominoes(s[1..])
  }

  lemma {:induction false} DominoesAppend(a: seq<Tile>, b: seq<Tile>)
    ensures Dominoes(a + b) == Dominoes(a) + Dominoes(b)
  {
    if a == [] {
      assert a + b == b;
    } else {
      assert (a + b)[1..] == a[1..] + b;
      DominoesAppend(a[1..], b);
    }
  }

  /** Turning tiles round does not change which dominoes a line holds. */
  lemma {:induction false} DominoesOfCanonical(s: seq<Tile>)
    requires forall i :: 0 <= i < |s| ==> s[i].left <= s[i].right
    ensures Dominoes(s) == multiset(s)
  {
    if s != [] {
      assert s == [s[0]] + s[1..];
      DominoesOfCanonical(s[1..]);
    }
  }
}
