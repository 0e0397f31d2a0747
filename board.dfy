/**
 * The line of play: an ordered sequence of oriented tiles, the query for its
 * two open ends, and the placement rule that extends it at one end.
 */
module Boards {
  import opened Tiles

  function Last(s: seq<Tile>): Tile
    requires s != []
  {
    s[|s| - 1]
  }

  /**
   * `available_plays`: every pip value on an empty board, otherwise the left
   * pip of the first tile and the right pip of the last one.
   */
  function AvailablePlays(board: seq<Tile>): seq<int>
  {
    if board != [] then [board[0].left, Last(board).right] else [0, 1, 2, 3, 4, 5, 6]
  }

  /** The tile can be put down: the board is empty or the tile has one of its open pips. */
  predicate Fits(board: seq<Tile>, t: Tile)
  {
    board == [] || Has(t, board[0].left) || Has(t, Last(board).right)
  }

  /** Adjacent tiles touch with equal pips. */
  predicate Chained(board: seq<Tile>)
  {
    forall i :: 0 <= i < |board| - 1 ==> board[i].right == board[i + 1].left
  }

  /**
   * The board after `putdown`. The front end is tried first; the tile is
   * turned so that its touching pip meets the open pip; a tile that meets
   * neither end leaves the board as it was.
   */
  function AfterPutdown(board: seq<Tile>, t: Tile): (r: seq<Tile>)
    ensures board == [] ==> r == [t]
    ensures board != [] && Has(t, board[0].left) ==>
      |r| == |board| + 1 && r[1..] == board &&
      r[0].right == board[0].left && (r[0] == t || r[0] == Flip(t))
    ensures board != [] && !Has(t, board[0].left) && Has(t, Last(board).right) ==>
      |r| == |board| + 1 && r[..|board|] == board &&
      r[|board|].left == Last(board).right && (r[|board|] == t || r[|board|] == Flip(t))
    ensures !Fits(board, t) ==> r == board
  {
    if board == [] then [t]
    else if Has(t, board[0].left) then
      [if t.left == board[0].left then Flip(t) else t] + board
    else if Has(t, Last(board).right) then
      board + [if t.right == Last(board).right then Flip(t) else t]
    else board
  }

  /**
   * The open ends reported by `available_plays` decide exactly which
   * double-six tiles `putdown` accepts.
   */
  lemma AvailablePlaysDecideFit(board: seq<Tile>, t: Tile)
    requires 0 <= t.left <= 6 && 0 <= t.right <= 6
    ensures Fits(board, t) <==> exists v :: v in AvailablePlays(board) && Has(t, v)
  {
    var ends := AvailablePlays(board);
    if board == [] {
      assert t.left in ends && Has(t, t.left);
    } else if Has(t, board[0].left) {
      assert board[0].left in ends;
    } else if Has(t, Last(board).right) {
      assert Last(board).right in ends;
    }
  }

  /** After a tile is placed, the end it met now shows the tile's other pip. */
  lemma EndsAfterPutdown(board: seq<Tile>, t: Tile)
    ensures board == [] ==> AvailablePlays(AfterPutdown(board, t)) == [t.left, t.right]
    ensures board != [] && Has(t, board[0].left) ==>
      AvailablePlays(AfterPutdown(board, t)) == [Other(t, board[0].left), Last(board).right]
    ensures board != [] && !Has(t, board[0].left) && Has(t, Last(board).right) ==>
      AvailablePlays(AfterPutdown(board, t)) == [board[0].left, Other(t, Last(board).right)]
    ensures !Fits(board, t) ==> AvailablePlays(AfterPutdown(board, t)) == AvailablePlays(board)
  {
    var r := AfterPutdown(board, t);
    if board != [] && Has(t, board[0].left) {
      assert Last(r) == Last(board) by { assert r[|r| - 1] == r[1..][|board| - 1]; }
    } else if board != [] && Has(t, Last(board).right) {
      assert r[0] == r[..|board|][0];
    }
  }

  /** Every placement keeps touching pips equal. */
  lemma PutdownKeepsChain(board: seq<Tile>, t: Tile)
    requires Chained(board)
    ensures Chained(AfterPutdown(board, t))
  {
    var r := AfterPutdown(board, t);
    if board != [] && Has(t, board[0].left) {
      forall i | 0 <= i < |r| - 1 ensures r[i].right == r[i + 1].left {
        if i > 0 {
          assert r[i] == board[i - 1] && r[i + 1] == board[i];
        }
      }
    } else if board != [] && Has(t, Last(board).right) {
      forall i | 0 <= i < |r| - 1 ensures r[i].right == r[i + 1].left {
        if i < |board| - 1 {
          assert r[i] == board[i] && r[i + 1] == board[i + 1];
        }
      }
    }
  }

  /**
   * Once a tile is down, which way round it was handed in no longer matters:
   * on a non-empty board a tile and its flip give the same board.
   */
  lemma PutdownIgnoresOrientation(board: seq<Tile>, t: Tile)
    requires board != []
    ensures AfterPutdown(board, t) == AfterPutdown(board, Flip(t))
  {
  }

  lemma {:induction false} PutFrontConservesDominoes(board: seq<Tile>, t: Tile)
    requires board != [] && Has(t, board[0].left)
    ensures Dominoes(AfterPutdown(board, t)) == Dominoes(board) + multiset{Canon(t)}
  {
    var r := AfterPutdown(board, t);
    assert r == [r[0]] + board;
    DominoesAppend([r[0]], board);
    assert Dominoes([r[0]]) == multiset{Canon(t)};
  }

  lemma {:induction false} PutBackConservesDominoes(board: seq<Tile>, t: Tile)
    requires board != [] && !Has(t, board[0].left) && Has(t, Last(board).right)
    ensures Dominoes(AfterPutdown(board, t)) == Dominoes(board) + multiset{Canon(t)}
  {
    var r := AfterPutdown(board, t);
    assert r == board + [r[|board|]];
    DominoesAppend(board, [r[|board|]]);
    assert Dominoes([r[|board|]]) == multiset{Canon(t)};
  }

  /** A placement adds exactly the submitted domino, or nothing when it is rejected. */
  lemma {:induction false} PutdownConservesDominoes(board: seq<Tile>, t: Tile)
    ensures Fits(board, t) ==> Dominoes(AfterPutdown(board, t)) == Dominoes(board) + multiset{Canon(t)}
    ensures !Fits(board, t) ==> Dominoes(AfterPutdown(board, t)) == Dominoes(board)
  {
    if board == [] {
      assert AfterPutdown(board, t) == [t];
      assert Dominoes([t]) == multiset{Canon(t)} + Dominoes([]);
    } else if Has(t, board[0].left) {
      PutFrontConservesDominoes(board, t);
    } else if Has(t, Last(board).right) {
      PutBackConservesDominoes(board, t);
    }
  }

  /** The board after a sequence of `putdown` calls. */
  function PutAll(board: seq<Tile>, ts: seq<Tile>): seq<Tile>
    decreases |ts|
  {
    if ts == [] then board else PutAll(AfterPutdown(board, ts[0]), ts[1..])
  }

  /** The tiles that a sequence of `putdown` calls rejects, in order. */
  function Discards(board: seq<Tile>, ts: seq<Tile>): seq<Tile>
    decreases |ts|
  {
    if ts == [] then []
    else Rejected(board, ts[0]) + Discards(AfterPutdown(board, ts[0]), ts[1..])
  }

  /** What one `putdown` call rejects: the tile itself when it fits neither end. */
  function Rejected(board: seq<Tile>, t: Tile): (r: seq<Tile>)
    ensures r == [] <==> |AfterPutdown(board, t)| == |board| + 1
    ensures r != [] ==> r == [t] && AfterPutdown(board, t) == board
  {
    if Fits(board, t) then [] else [t]
  }

  lemma {:induction false} PutAllKeepsChain(board: seq<Tile>, ts: seq<Tile>)
    requires Chained(board)
    ensures Chained(PutAll(board, ts))
    decreases |ts|
  {
    if ts != [] {
      PutdownKeepsChain(board, ts[0]);
      PutAllKeepsChain(AfterPutdown(board, ts[0]), ts[1..]);
    }
  }

  /**
   * No domino is duplicated or lost: what lies on the board at the end,
   * together with what was rejected, is what lay there before plus what
   * was submitted.
   */
  lemma {:induction false} PutAllConservesDominoes(board: seq<Tile>, ts: seq<Tile>)
    ensures Dominoes(PutAll(board, ts)) + Dominoes(Discards(board, ts)) == Dominoes(board) + Dominoes(ts)
    decreases |ts|
  {
    if ts == [] {
      assert PutAll(board, ts) == board && Discards(board, ts) == [];
    } else {
      var t, rest := ts[0], ts[1..];
      var next := AfterPutdown(board, t);
      PutAllConservesDominoes(next, rest);
      DominoesAppend(Rejected(board, t), Discards(next, rest));
      assert ts == [t] + rest;
      DominoesAppend([t], rest);
      StepConservesDominoes(board, t);
      Regroup(Dominoes(PutAll(next, rest)), Dominoes(Discards(next, rest)), Dominoes(Rejected(board, t)),
        Dominoes(next), Dominoes(rest), Dominoes(board), Dominoes([t]));
    }
  }

  /** One `putdown` call, counting the tile it rejects. */
  lemma StepConservesDominoes(board: seq<Tile>, t: Tile)
    ensures Dominoes(AfterPutdown(board, t)) + Dominoes(Rejected(board, t)) == Dominoes(board) + Dominoes([t])
  {
    assert Dominoes([t]) == multiset{Canon(t)} + Dominoes([]);
    PutdownConservesDominoes(board, t);
  }

  /** The multiset bookkeeping of one step of the induction above. */
  lemma Regroup(after: multiset<Tile>, later: multiset<Tile>, now: multiset<Tile>,
                next: multiset<Tile>, rest: multiset<Tile>, before: multiset<Tile>, first: multiset<Tile>)
    requires after + later == next + rest
    requires next + now == before + first
    ensures after + (now + later) == before + (first + rest)
  {
    forall x ensures (after + (now + later))[x] == (before + (first + rest))[x] {
      assert (after + later)[x] == (next + rest)[x];
      assert (next + now)[x] == (before + first)[x];
    }
  }

  lemma {:induction false} PutAllCountsTiles(board: seq<Tile>, ts: seq<Tile>)
    ensures |PutAll(board, ts)| + |Discards(board, ts)| == |board| + |ts|
    ensures |board| <= |PutAll(board, ts)| <= |board| + |ts|
    decreases |ts|
  {
    if ts != [] {
      PutAllCountsTiles(AfterPutdown(board, ts[0]), ts[1..]);
    }
  }

  /** Putting down one sequence of tiles and then another is putting down both in turn. */
  lemma {:induction false} PutAllAppend(board: seq<Tile>, a: seq<Tile>, b: seq<Tile>)
    ensures PutAll(board, a + b) == PutAll(PutAll(board, a), b)
    decreases |a|
  {
    if a == [] {
      assert a + b == b;
    } else {
      assert (a + b)[0] == a[0] && (a + b)[1..] == a[1..] + b;
      PutAllAppend(AfterPutdown(board, a[0]), a[1..], b);
    }
  }

  /** Putting down one more tile after a sequence of them. */
  lemma PutAllSnoc(board: seq<Tile>, ts: seq<Tile>, t: Tile)
    ensures PutAll(board, ts + [t]) == AfterPutdown(PutAll(board, ts), t)
  {
    PutAllAppend(board, ts, [t]);
    assert PutAll(PutAll(board, ts), [t]) == PutAll(AfterPutdown(PutAll(board, ts), t), []);
  }

  /** `small` lies as a run inside `big`, starting at index `k`. */
  predicate RunAt(big: seq<Tile>, small: seq<Tile>, k: int)
  {
    0 <= k <= |big| - |small| && big[k..k + |small|] == small
  }

  /** How many of the tiles `ts` go in at the front of the line. */
  function FrontPlays(board: seq<Tile>, ts: seq<Tile>): nat
    decreases |ts|
  {
    if ts == [] then 0
    else FrontPlay(board, ts[0]) + FrontPlays(AfterPutdown(board, ts[0]), ts[1..])
  }

  /** 1 when `putdown` puts `t` in at the front of the line, else 0. */
  function FrontPlay(board: seq<Tile>, t: Tile): nat
  {
    if board != [] && Has(t, board[0].left) then 1 else 0
  }

  lemma RunAtTrans(big: seq<Tile>, mid: seq<Tile>, small: seq<Tile>, i: int, j: int)
    requires RunAt(big, mid, i) && RunAt(mid, small, j)
    ensures RunAt(big, small, i + j)
  {
    assert big[i..i + |mid|] == mid;
    forall x | 0 <= x < |small| ensures big[i + j + x] == small[x] {
      assert big[i + j + x] == big[i..i + |mid|][j + x];
    }
  }

  lemma PutdownKeepsOldLine(board: seq<Tile>, t: Tile)
    ensures RunAt(AfterPutdown(board, t), board, FrontPlay(board, t))
  {
  }

  /**
   * The board only grows at its ends: the earlier board lies unchanged
   * inside the later one, behind the tiles that went in at the front.
   */
  lemma {:induction false} PutAllKeepsOldLine(board: seq<Tile>, ts: seq<Tile>)
    ensures RunAt(PutAll(board, ts), board, FrontPlays(board, ts))
    decreases |ts|
  {
    if ts == [] {
      assert board[0..|board|] == board;
    } else {
      var next := AfterPutdown(board, ts[0]);
      PutdownKeepsOldLine(board, ts[0]);
      PutAllKeepsOldLine(next, ts[1..]);
      RunAtTrans(PutAll(next, ts[1..]), next, board, FrontPlays(next, ts[1..]), FrontPlay(board, ts[0]));
    }
  }

  /** The examples of the game's rules worked through on small boards. */
  lemma Scenarios()
    ensures AvailablePlays([]) == [0, 1, 2, 3, 4, 5, 6]
    ensures AfterPutdown([], Tile(3, 5)) == [Tile(3, 5)] && AvailablePlays([Tile(3, 5)]) == [3, 5]
    ensures AfterPutdown([Tile(3, 5)], Tile(5, 2)) == [Tile(3, 5), Tile(5, 2)]
    ensures AvailablePlays([Tile(3, 5), Tile(5, 2)]) == [3, 2]
    ensures AfterPutdown([Tile(3, 5)], Tile(1, 4)) == [Tile(3, 5)]
    ensures AvailablePlays(AfterPutdown([], Tile(4, 4))) == [4, 4]
    ensures AfterPutdown([Tile(3, 5)], Tile(3, 5)) == [Tile(5, 3), Tile(3, 5)]
  {
  }

  /** The shared line of play, updated in place by `putdown`. */
  class Board {
    var played: seq<Tile>

    constructor()
      ensures played == []
    {
      played := [];
    }

    /**
     * `putdown`: place a tile at the front or the back, or reject it.
     * `placed` is false exactly when the tile was rejected.
     */
    method Putdown(domino: Tile) returns (placed: bool)
      modifies this
      ensures placed == Fits(old(played), domino)
      ensures played == AfterPutdown(old(played), domino)
    {
      var d := domino;
      if played != [] {
        var beginning := played[0].left;
        if Has(d, beginning) {
          if beginning == d.left {
            d := Flip(d);
          }
          played := [d] + played;
          placed := true;
        } else {
          var end := played[|played| - 1].right;
          if Has(d, end) {
            if end == d.right {
              d := Flip(d);
            }
            played := played + [d];
            placed := true;
          } else {
            placed := false;
          }
        }
      } else {
        played := [d];
        placed := true;
      }
    }
  }
}
