/**
 * The four-player game: the 28-tile double-six set, the shuffle and deal
 * into four hands of seven, and the turn loop that feeds every player's last
 * tile to the board, rotation after rotation.
 */
module Games {
  import opened Tiles
  import opened Boards
  import opened Players

  /** A tile of the double-six set, written with its smaller pip first. */
  predicate IsDoubleSix(t: Tile)
  {
    0 <= t.left <= t.right <= 6
  }

  /**
   * How often the deal's nested loops have made `t` once they reach `[i, j]`:
   * once for each double-six tile in an earlier row, or earlier in row `i`.
   */
  function Made(i: int, j: int, t: Tile): int
  {
    if IsDoubleSix(t) && (t.left < i || (t.left == i && t.right < j)) then 1 else 0
  }

  /** `m` holds each tile exactly as often as `Made(i, j, _)` says. */
  ghost predicate MadeSoFar(m: multiset<Tile>, i: int, j: int)
  {
    forall t :: m[t] == Made(i, j, t)
  }

  /** Tiles made by the first `i` passes of the outer loop: 7 + 6 + ... + (8 - i). */
  function RowsMade(i: int): int
    requires 0 <= i <= 7
  {
    if i == 0 then 0 else RowsMade(i - 1) + 8 - i
  }

  /** The inner loop appends `[i, j]`, which had not been made yet. */
  lemma MakeTile(m: multiset<Tile>, i: int, j: int)
    requires 0 <= i <= j < 7
    requires MadeSoFar(m, i, j)
    ensures MadeSoFar(m + multiset{Tile(i, j)}, i, j + 1)
  {
    forall t ensures (m + multiset{Tile(i, j)})[t] == Made(i, j + 1, t) {
      assert m[t] == Made(i, j, t);
    }
  }

  /** A row runs out at `[i, 6]`; the next row starts at its double `[i + 1, i + 1]`. */
  lemma NextRow(m: multiset<Tile>, i: int)
    requires MadeSoFar(m, i, 7)
    ensures MadeSoFar(m, i + 1, i + 1)
  {
    forall t ensures m[t] == Made(i + 1, i + 1, t) {
      assert m[t] == Made(i, 7, t);
    }
  }

  /** After all seven rows, every double-six tile has been made once and nothing else. */
  lemma AllRows(s: seq<Tile>, i: int)
    requires i == 7 && |s| == RowsMade(i)
    requires MadeSoFar(multiset(s), i, i)
    ensures IsDoubleSixSet(s)
  {
    assert RowsMade(i) == 28;
    forall t ensures multiset(s)[t] == if IsDoubleSix(t) then 1 else 0 {
      assert multiset(s)[t] == Made(i, i, t);
    }
  }

  /** A line of tiles holding every double-six domino exactly once, and nothing else. */
  ghost predicate IsDoubleSixSet(s: seq<Tile>)
  {
    |s| == 28 && forall t :: multiset(s)[t] == if IsDoubleSix(t) then 1 else 0
  }

  /** The deal's nested loops: make the 28 tiles `[i, j]` with `0 <= i <= j <= 6`. */
  method BuildSet() returns (dominoes: seq<Tile>)
    ensures IsDoubleSixSet(dominoes)
  {
    dominoes := [];
    for i := 0 to 7
      invariant |dominoes| == RowsMade(i)
      invariant MadeSoFar(multiset(dominoes), i, i)
    {
      for j := i to 7
        invariant |dominoes| == RowsMade(i) + (j - i)
        invariant MadeSoFar(multiset(dominoes), i, j)
      {
        MakeTile(multiset(dominoes), i, j);
        dominoes := dominoes + [Tile(i, j)];
      }
      NextRow(multiset(dominoes), i);
    }
    AllRows(dominoes, 7);
  }

  /**
   * The random draws of a shuffle of `n` items: one draw `j <= i` for each
   * position `i` from `n - 1` down to 1, as the standard library's shuffle
   * makes them.
   */
  predicate ValidDraws(n: nat, draws: seq<int>)
  {
    |draws| == (if n == 0 then 0 else n - 1) &&
    forall k :: 0 <= k < |draws| ==> 0 <= draws[k] <= n - 1 - k
  }

  /**
   * `random.shuffle`: swap each position, last to first, with a drawn
   * position at or before it. Whatever the draws, the result is a
   * permutation of the input.
   */
  method Shuffle(s: seq<Tile>, draws: seq<int>) returns (r: seq<Tile>)
    requires ValidDraws(|s|, draws)
    ensures |r| == |s| && multiset(r) == multiset(s)
  {
    r := s;
    for k := 0 to |draws|
      invariant |r| == |s| && multiset(r) == multiset(s)
    {
      var i, j := |s| - 1 - k, draws[k];
      r := r[i := r[j]][j := r[i]];
    }
  }

  /** All hands, one after the other. */
  function Flatten(hands: seq<seq<Tile>>): seq<Tile>
  {
    if hands == [] then [] else hands[0] + Flatten(hands[1..])
  }

  predicate SameLength(hands: seq<seq<Tile>>)
  {
    forall k :: 0 <= k < |hands| ==> |hands[k]| == |hands[0]|
  }

  predicate AllHolding(hands: seq<seq<Tile>>)
  {
    forall k :: 0 <= k < |hands| ==> hands[k] != []
  }

  /** The tiles one rotation plays: each player's last tile, in seating order. */
  function Rotation(hands: seq<seq<Tile>>): seq<Tile>
    requires AllHolding(hands)
  {
    seq(|hands|, k requires 0 <= k < |hands| => Last(hands[k]))
  }

  /** The hands after one rotation. */
  function Drop(hands: seq<seq<Tile>>): seq<seq<Tile>>
    requires AllHolding(hands)
  {
    seq(|hands|, k requires 0 <= k < |hands| => hands[k][..|hands[k]| - 1])
  }

  /** Part-way through a rotation: the first `i` players have each lost their last tile. */
  ghost predicate PlayedUpTo(hands: seq<seq<Tile>>, now: seq<seq<Tile>>, i: int)
  {
    |now| == |hands| &&
    forall k :: 0 <= k < |hands| ==>
      now[k] == if k < i && hands[k] != [] then hands[k][..|hands[k]| - 1] else hands[k]
  }

  lemma PlayedUpToStep(hands: seq<seq<Tile>>, i: int, now: seq<seq<Tile>>, after: seq<seq<Tile>>)
    requires PlayedUpTo(hands, now, i)
    requires 0 <= i < |hands| && hands[i] != []
    requires after == now[i := hands[i][..|hands[i]| - 1]]
    ensures PlayedUpTo(hands, after, i + 1)
  {
  }

  /** What one complete rotation has played, and what it leaves in the hands. */
  lemma RotationDone(hands: seq<seq<Tile>>, played: seq<Tile>, after: seq<seq<Tile>>)
    requires |played| == |hands|
    requires forall k :: 0 <= k < |hands| ==> hands[k] != [] && played[k] == Last(hands[k])
    requires PlayedUpTo(hands, after, |hands|)
    ensures AllHolding(hands) && played == Rotation(hands) && after == Drop(hands)
  {
  }

  /**
   * A rotation stopped at the empty hand of player `i`: the players before
   * `i` all held a tile and have played it, in seating order, and nobody
   * from `i` on has played.
   */
  ghost predicate StuckAt(hands: seq<seq<Tile>>, after: seq<seq<Tile>>,
                          before: seq<Tile>, board: seq<Tile>, i: int)
  {
    0 <= i < |hands| && hands[i] == [] && AllHolding(hands[..i]) &&
    PlayedUpTo(hands, after, i) && board == PutAll(before, Rotation(hands[..i]))
  }

  lemma RotationStuck(hands: seq<seq<Tile>>, after: seq<seq<Tile>>, before: seq<Tile>,
                      played: seq<Tile>, i: int)
    requires 0 <= i < |hands| && hands[i] == [] && |played| == i
    requires forall k :: 0 <= k < i ==> hands[k] != [] && played[k] == Last(hands[k])
    requires PlayedUpTo(hands, after, i)
    ensures StuckAt(hands, after, before, PutAll(before, played), i)
  {
    assert played == Rotation(hands[..i]);
  }

  /** The tiles `play_game` submits to the board, in order, from hands of equal length. */
  function Schedule(hands: seq<seq<Tile>>): seq<Tile>
    requires SameLength(hands)
    decreases if hands == [] then 0 else |hands[0]|
  {
    if hands == [] || hands[0] == [] then []
    else Rotation(hands) + Schedule(Drop(hands))
  }

  lemma OneMoreRound(n: int, m: int)
    ensures n + n * (m - 1) == n * m
  {
  }

  /** Hands of equal length `m` make `m` rotations of one `putdown` per player. */
  lemma {:induction false} ScheduleLength(hands: seq<seq<Tile>>)
    requires SameLength(hands)
    ensures |Schedule(hands)| == if hands == [] then 0 else |hands| * |hands[0]|
    decreases if hands == [] then 0 else |hands[0]|
  {
    if hands != [] && hands[0] != [] {
      var next := Drop(hands);
      ScheduleLength(next);
      assert |Rotation(hands)| == |hands| && |next[0]| == |hands[0]| - 1;
      OneMoreRound(|hands|, |hands[0]|);
    }
  }

  lemma {:induction false} FlattenOfEmpty(hands: seq<seq<Tile>>)
    requires forall k :: 0 <= k < |hands| ==> hands[k] == []
    ensures Flatten(hands) == []
  {
    if hands != [] {
      FlattenOfEmpty(hands[1..]);
    }
  }

  /** One rotation takes each hand's last tile; together with the rest nothing is lost. */
  lemma {:induction false} RotationSplitsHands(hands: seq<seq<Tile>>)
    requires AllHolding(hands)
    ensures multiset(Rotation(hands)) + multiset(Flatten(Drop(hands))) == multiset(Flatten(hands))
  {
    if hands != [] {
      var h, tail := hands[0], hands[1..];
      RotationSplitsHands(tail);
      assert Rotation(hands) == [Last(h)] + Rotation(tail);
      assert Drop(hands) == [h[..|h| - 1]] + Drop(tail);
      assert Drop(hands)[1..] == Drop(tail);
      assert h == h[..|h| - 1] + [Last(h)];
      assert multiset(h) == multiset(h[..|h| - 1]) + multiset{Last(h)};
    }
  }

  /** The turn loop plays every dealt tile exactly once. */
  lemma {:induction false} ScheduleIsPermutation(hands: seq<seq<Tile>>)
    requires SameLength(hands)
    ensures multiset(Schedule(hands)) == multiset(Flatten(hands))
    decreases if hands == [] then 0 else |hands[0]|
  {
    if hands == [] || hands[0] == [] {
      FlattenOfEmpty(hands);
    } else {
      ScheduleIsPermutation(Drop(hands));
      RotationSplitsHands(hands);
    }
  }

  predicate AllEmpty(hands: seq<seq<Tile>>)
  {
    forall k :: 0 <= k < |hands| ==> hands[k] == []
  }

  /**
   * Where `play_game` stands after `r` complete rotations from `start`: the
   * hands have lost their last `r` tiles and, when the hands started out of
   * equal length, playing what is left onto `played` reaches `target`.
   */
  ghost predicate Tracking(start: seq<seq<Tile>>, r: nat, hands: seq<seq<Tile>>,
                           played: seq<Tile>, target: seq<Tile>)
  {
    |hands| == |start| &&
    (forall k :: 0 <= k < |start| ==> |hands[k]| + r == |start[k]|) &&
    (SameLength(start) ==> SameLength(hands) && PutAll(played, Schedule(hands)) == target)
  }

  ghost function Target(start: seq<seq<Tile>>, played: seq<Tile>): seq<Tile>
  {
    if SameLength(start) then PutAll(played, Schedule(start)) else []
  }

  lemma TrackingStart(start: seq<seq<Tile>>, played: seq<Tile>)
    ensures Tracking(start, 0, start, played, Target(start, played))
  {
  }

  /** A complete rotation moves the game one step on towards the same target. */
  lemma TrackingStep(start: seq<seq<Tile>>, r: nat, next: nat, hands: seq<seq<Tile>>,
                     played: seq<Tile>, target: seq<Tile>)
    requires Tracking(start, r, hands, played, target)
    requires AllHolding(hands) && next == r + 1
    ensures Tracking(start, next, Drop(hands), PutAll(played, Rotation(hands)), target)
    ensures |start| > 0 ==> next <= |start[0]|
  {
    if |start| > 0 {
      assert hands[0] != [];
    }
    if SameLength(start) {
      PutAllAppend(played, Rotation(hands), Schedule(Drop(hands)));
    }
  }

  /** A rotation that meets an empty hand while another still holds tiles means the hands were uneven. */
  lemma TrackingUneven(start: seq<seq<Tile>>, r: nat, hands: seq<seq<Tile>>,
                       played: seq<Tile>, target: seq<Tile>)
    requires Tracking(start, r, hands, played, target)
    requires !AllHolding(hands) && !AllEmpty(hands)
    ensures !SameLength(start)
  {
    var k :| 0 <= k < |hands| && hands[k] == [];
    var j :| 0 <= j < |hands| && hands[j] != [];
    assert |start[j]| > r == |start[k]|;
  }

  /** Once every hand is empty the hands were even and the board holds the target line. */
  lemma TrackingDone(start: seq<seq<Tile>>, r: nat, hands: seq<seq<Tile>>,
                     played: seq<Tile>, target: seq<Tile>)
    requires Tracking(start, r, hands, played, target)
    requires AllEmpty(hands)
    ensures SameLength(start) && played == target
  {
    forall k | 0 <= k < |start| ensures |start[k]| == r {
      assert |hands[k]| == 0;
    }
    assert SameLength(hands) && Schedule(hands) == [];
  }

  /**
   * A whole game from a deal: 28 `putdown` calls; the line stays chained; and
   * each double-six domino ends either on the board or among the rejected
   * tiles, exactly once.
   */
  lemma WholeGame(hands: seq<seq<Tile>>)
    requires |hands| == 4 && forall k :: 0 <= k < 4 ==> |hands[k]| == 7
    requires IsDoubleSixSet(Flatten(hands))
    ensures |Schedule(hands)| == 28
    ensures Chained(PutAll([], Schedule(hands)))
    ensures |PutAll([], Schedule(hands))| + |Discards([], Schedule(hands))| == 28
    ensures forall t ::
      (Dominoes(PutAll([], Schedule(hands))) + Dominoes(Discards([], Schedule(hands))))[t] ==
      if IsDoubleSix(t) then 1 else 0
  {
    var s := Schedule(hands);
    ScheduleLength(hands);
    ScheduleIsPermutation(hands);
    PutAllKeepsChain([], s);
    PutAllCountsTiles([], s);
    PutAllConservesDominoes([], s);
    forall i | 0 <= i < |s| ensures s[i].left <= s[i].right {
      assert multiset(s)[s[i]] > 0;
    }
    DominoesOfCanonical(s);
    assert Dominoes([]) == multiset{};
  }

  predicate Distinct4(ps: seq<Player>)
    requires |ps| == 4
  {
    ps[0] != ps[1] && ps[0] != ps[2] && ps[0] != ps[3] &&
    ps[1] != ps[2] && ps[1] != ps[3] && ps[2] != ps[3]
  }

  /** One game: a board and four players, seated in a fixed order. */
  class Game {
    const board: Board
    const players: seq<Player>

    /** Four players, four distinct objects. */
    ghost predicate Valid()
    {
      |players| == 4 && Distinct4(players)
    }

    constructor(players: seq<Player>)
      requires |players| == 4
      requires Distinct4(players)
      ensures Valid() && this.players == players
      ensures fresh(board) && board.played == []
    {
      board := new Board();
      this.players := players;
    }

    /** The four hands, in seating order. */
    ghost function Hands(): seq<seq<Tile>>
      reads players
      requires |players| == 4
    {
      [players[0].dominoes, players[1].dominoes, players[2].dominoes, players[3].dominoes]
    }

    /**
     * `deal`: build the set, shuffle it with the given draws and hand out
     * four consecutive slices of seven.
     */
    method Deal(draws: seq<int>)
      requires Valid()
      requires ValidDraws(28, draws)
      modifies players
      ensures forall k :: 0 <= k < 4 ==> |players[k].dominoes| == 7
      ensures IsDoubleSixSet(Flatten(Hands()))
    {
      var dominoes := BuildSet();
      dominoes := Shuffle(dominoes, draws);
      players[0].Assign(dominoes[0..7]);
      players[1].Assign(dominoes[7..14]);
      players[2].Assign(dominoes[14..21]);
      players[3].Assign(dominoes[21..28]);
      var h := Hands();
      assert Flatten(h[3..]) == dominoes[21..28];
      assert Flatten(h[2..]) == dominoes[14..28];
      assert Flatten(h[1..]) == dominoes[7..28];
      assert Flatten(h) == dominoes;
    }

    /**
     * One turn of `play_game`'s inner loop: player `i` pops the last tile of
     * their hand and puts it down on the board. Popping an empty hand fails
     * the turn, reported as `ok == false`, before anything changes.
     */
    method Turn(i: int) returns (ok: bool, d: Tile)
      requires Valid() && 0 <= i < 4
      modifies board, players[i]
      ensures ok <==> old(players[i].dominoes) != []
      ensures ok ==> old(players[i].dominoes) == players[i].dominoes + [d]
      ensures ok ==> board.played == AfterPutdown(old(board.played), d)
      ensures !ok ==> unchanged(board, players[i])
      ensures Hands() == old(Hands())[i := players[i].dominoes]
    {
      if players[i].dominoes == [] {
        return false, Tile(0, 0);
      }
      d := players[i].Play();
      var placed := board.Putdown(d);
      ok := true;
    }

    /**
     * One pass of `play_game`'s inner loop: every player in seating order
     * plays the last tile of their hand onto the board. Popping an empty
     * hand fails the pass, reported as `ok == false`: the players seated
     * before the first empty hand have played, the rest have not.
     */
    method PlayRotation() returns (ok: bool)
      requires Valid()
      modifies board, players
      ensures ok <==> AllHolding(old(Hands()))
      ensures ok ==> Hands() == Drop(old(Hands()))
      ensures ok ==> board.played == PutAll(old(board.played), Rotation(old(Hands())))
      ensures !ok ==> exists i :: StuckAt(old(Hands()), Hands(), old(board.played), board.played, i)
    {
      ghost var hands := Hands();
      ghost var before := board.played;
      ghost var played: seq<Tile> := [];
      for i := 0 to 4
        invariant |played| == i
        invariant forall k :: 0 <= k < i ==> hands[k] != [] && played[k] == Last(hands[k])
        invariant PlayedUpTo(hands, Hands(), i)
        invariant board.played == PutAll(before, played)
      {
        ghost var now := Hands();
        var turned, d := Turn(i);
        if !turned {
          RotationStuck(hands, Hands(), before, played, i);
          assert StuckAt(hands, Hands(), before, board.played, i);
          return false;
        }
        PutAllSnoc(before, played, d);
        played := played + [d];
        PlayedUpToStep(hands, i, now, Hands());
      }
      RotationDone(hands, played, Hands());
      ok := true;
    }

    /**
     * `play_game`: while some hand holds a tile, every player in turn plays
     * the last tile of their hand onto the board. There is no check for an
     * empty hand: popping one fails the game, reported as `completed == false`.
     */
    method PlayGame() returns (completed: bool)
      requires Valid()
      modifies board, players
      ensures completed <==> SameLength(old(Hands()))
      ensures completed ==> forall k :: 0 <= k < 4 ==> players[k].dominoes == []
      ensures completed ==> board.played == PutAll(old(board.played), Schedule(old(Hands())))
    {
      ghost var start := Hands();
      ghost var target := Target(start, board.played);
      ghost var r: nat := 0;
      TrackingStart(start, board.played);
      while players[0].dominoes != [] || players[1].dominoes != [] ||
            players[2].dominoes != [] || players[3].dominoes != []
        invariant r <= |start[0]|
        invariant Tracking(start, r, Hands(), board.played, target)
        decreases |start[0]| - r
      {
        ghost var hands := Hands();
        ghost var before := board.played;
        assert hands[0] != [] || hands[1] != [] || hands[2] != [] || hands[3] != [];
        var ok := PlayRotation();
        if !ok {
          assert !AllEmpty(hands);
          TrackingUneven(start, r, hands, before, target);
          return false;
        }
        TrackingStep(start, r, r + 1, hands, before, target);
        r := r + 1;
      }
      TrackingDone(start, r, Hands(), board.played, target);
      completed := true;
    }
  }
}
