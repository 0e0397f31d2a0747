# Double-six dominoes engine, modelled in Dafny

The engine in `doublesix.py` plays a four-player game of double-six dominoes.

- **Board.** The board is a line of oriented tiles. Each tile is a pair of pips `[left, right]`.
  - `available_plays` reports the line's two open pips. On an empty line it reports every pip value.
  - `putdown` places a tile at the front of the line, else at the back, else rejects it.
  - The tile is turned end for end when needed, so that touching pips are equal.
- **Player.** A player holds a hand of tiles and always plays the last one.
- **Game.** A game seats four players. `deal` builds the 28 tiles `[i, j]` with `0 <= i <= j <= 6`, shuffles them, and hands out four consecutive slices of seven. `play_game` then runs rotations while any hand holds a tile. In each rotation every player, in seating order, pops a tile and submits it to the board.

The project has four modules:

- `Tiles` (`tiles.dfy`): the tile value, its flip, and the physical domino it stands for.
- `Boards` (`board.dfy`):
  - the placement rule as pure functions on the line;
  - the class `Board`, whose `Putdown` updates the line in place;
  - lemmas about single placements and sequences of placements.
- `Players` (`player.dfy`): the class `Player` and its hand.
- `Games` (`game.dfy`):
  - building the set with the deal's nested loops;
  - the shuffle, as CPython's swap loop driven by given draws;
  - the order in which `play_game` submits tiles (`Schedule`);
  - the class `Game` with `Deal`, `Turn`, `PlayRotation` and `PlayGame`.

The main results are these:

- **Chain invariant.** Every placement keeps touching pips equal.
- **Open ends.** The reported open ends decide exactly which tiles fit. After a placement, the end that was met shows the placed tile's other pip.
- **Line growth.** The board only grows at its ends. The earlier line stays intact inside the later one.
- **Nothing duplicated or lost.** The final board plus the rejected tiles hold exactly the dominoes submitted.
- **The deal.** The deal gives four hands of seven that together hold every double-six domino exactly once.
- **When `play_game` finishes.** `play_game` finishes exactly when the four hands start out of equal length. It then plays every tile, in the order `Schedule` gives. After a deal that is 28 `putdown` calls.

Behaviour of the code that the model keeps as it is:

- **No empty-hand guard.** `play_game` calls `play` on every player in every rotation without checking the hand (`doublesix.py:79-80`). A player whose hand is empty raises `IndexError` from `pop`. The model reports this as `PlayGame` returning `false`, and proves that it happens exactly when the four hands start out of unequal length.
- **Open ends are a list.** `available_plays` returns a two-element list, `[first[0], last[-1]]` (`doublesix.py:27`). The two pips may be equal, for example after a double on an empty board.
- **The first tile keeps its orientation.** On an empty board `putdown` stores the tile exactly as given (`doublesix.py:51`). So a tile and its reversal give the same board only when the board is non-empty (`PutdownIgnoresOrientation`).
- **Rejected tiles leave the game.** A tile that fits neither end is neither placed nor returned to its player (`doublesix.py:48-49`). The conservation results therefore count the rejected tiles (`Discards`) alongside the board.

## Model

| member | source | states |
|---|---|---|
| `Boards.AvailablePlaysDecideFit` | doublesix.py:23-48 | For a tile with pips in 0..6, `putdown` accepts it exactly when it has one of the pips `available_plays` reports. |
| `Boards.AfterPutdown` | doublesix.py:32-51 | Empty board: the tile becomes the only element, as given. Front pip in the tile: the tile goes in at index 0, turned so its right pip meets the old front, with the old line following unchanged, even if the back would also match. Otherwise, back pip in the tile: the tile is appended, turned so its left pip meets the old back. Neither: the board is unchanged. |
| `Boards.Rejected` | doublesix.py:42-49 | A `putdown` rejects nothing exactly when the line grows by one tile. When it rejects, it rejects exactly the submitted tile, and the line stays as it was. |
| `Boards.EndsAfterPutdown` | doublesix.py:23-51 | After a placement, the open end that was met is replaced by the placed tile's other pip. The other end is kept. A rejected tile leaves both ends as they were. |
| `Boards.PutdownKeepsChain` | doublesix.py:32-51 | If adjacent tiles share a pip before a `putdown`, they still do after it. |
| `Boards.PutdownIgnoresOrientation` | doublesix.py:36-47 | On a non-empty board, a tile and its reversal produce the same board. |
| `Boards.PutdownConservesDominoes` | doublesix.py:32-51 | An accepted tile adds exactly its own domino to the board's dominoes. A rejected tile adds nothing. |
| `Boards.StepConservesDominoes` | doublesix.py:32-51 | One `putdown`: the new board's dominoes plus the rejected tile equal the old board's dominoes plus the submitted tile. |
| `Boards.PutdownKeepsOldLine` | doublesix.py:36-51 | The old line lies unchanged inside the new one, shifted by one exactly when the tile went in at the front. |
| `Boards.PutAllKeepsChain` | doublesix.py:77-83 | Any sequence of `putdown` calls on a chained board leaves it chained. |
| `Boards.PutAllConservesDominoes` | doublesix.py:77-83 | After any sequence of `putdown` calls, the board's dominoes plus the rejected tiles are the starting board's dominoes plus the submitted tiles. No domino is duplicated or lost. |
| `Boards.PutAllCountsTiles` | doublesix.py:77-83 | Each submitted tile is either placed or rejected. The board never shrinks and grows by at most the number of tiles submitted. |
| `Boards.PutAllKeepsOldLine` | doublesix.py:77-83 | The board only grows at its ends. The earlier line lies unchanged inside the later one, behind the tiles that went in at the front. |
| `Boards.Scenarios` | doublesix.py:23-51 | Worked examples: empty board open ends; `[3,5]` on an empty board; `[5,2]` appended at the back; `[1,4]` rejected; the double `[4,4]` giving ends 4 and 4; a tile matching the front turned round. |
| `Boards.Board.constructor` | doublesix.py:20-21 | A new board is empty. |
| `Boards.Board.Putdown` | doublesix.py:32-51 | Updates the line in place to `AfterPutdown` of the old line. Reports `placed == false` exactly when the tile was rejected. |
| `Players.Player.constructor` | doublesix.py:4-6 | A new player has the given name and an empty hand. |
| `Players.Player.Assign` | doublesix.py:8-9 | The hand becomes the given tiles, in order. |
| `Players.Player.Play` | doublesix.py:11-12 | Returns the last tile of a non-empty hand. The hand loses exactly that tile, and the others keep their order. |
| `Games.BuildSet` | doublesix.py:67-70 | The nested loops produce 28 tiles holding every double-six domino `[i, j]`, `0 <= i <= j <= 6`, exactly once, and nothing else. |
| `Games.Shuffle` | doublesix.py:71 | For any valid draws, the shuffled list is a permutation of the input. |
| `Games.ScheduleLength` | doublesix.py:77-83 | Hands of equal length `m` lead to `m` rotations, one `putdown` per player each, so the number of hands times `m` submissions. |
| `Games.RotationSplitsHands` | doublesix.py:79-80 | One rotation takes each hand's last tile. The tiles played plus the tiles left are the tiles held before. |
| `Games.ScheduleIsPermutation` | doublesix.py:77-83 | Playing out hands of equal length submits every held tile exactly once. |
| `Games.WholeGame` | doublesix.py:66-83 | For a deal of four hands of seven holding the double-six set: 28 `putdown` calls, a chained final board, and placed plus rejected tiles together holding every double-six domino exactly once. |
| `Games.Game.constructor` | doublesix.py:60-64 | Exactly four players, kept in order, and a fresh empty board. |
| `Games.Game.Deal` | doublesix.py:66-75 | Each of the four players receives seven tiles. The four hands in seating order together hold every double-six domino exactly once. |
| `Games.Game.Turn` | doublesix.py:80-83 | A turn succeeds exactly when the player's hand is non-empty. It then pops the last tile, and the board becomes `AfterPutdown` of it. Only that player's hand changes. A failed turn changes nothing. |
| `Games.Game.PlayRotation` | doublesix.py:79-83 | A rotation succeeds exactly when every hand holds a tile. It then removes each hand's last tile and puts those tiles down in seating order. When it fails, some player `i` has an empty hand. The players before `i` all held a tile and have played it onto the board, in order. Nobody from `i` on has played. |
| `Games.Game.PlayGame` | doublesix.py:77-83 | The loop finishes exactly when all four hands start out of equal length. It then leaves every hand empty and the board equal to the starting board after the whole schedule of `putdown` calls. |

## Left out

- The `print` calls and the `__repr__` methods of `Player` and `Board` are left out. Output does not affect the game's state. The "can't play" message becomes the `placed` flag of `Putdown` and the `Discards` sequence.
- `mkdom.py`, an SVG asset generator, is not part of this model. Neither is `main.py`, a command-line script that builds four players and prints.
- `random.shuffle` is a randomness source. `Shuffle` models CPython's swap loop, with the random draws as a parameter, and proves the result a permutation for every valid sequence of draws. Uniformity of the draws is not modelled.
- In `assign`, the hand shares the list it was given with the caller. In the model each hand owns its own sequence; the aliasing is not modelled.
- Games.Game.constructor: also requires the four players to be four distinct objects. The source accepts the same `Player` object in two seats; the model does not cover that aliasing.
- Games.Game.constructor: represents the `isinstance(players, list)` test by the parameter's type, `seq<Player>`.
- Players.Player.Play: requires a non-empty hand. In the source, `pop` on an empty list raises `IndexError`. That error path is modelled one level up: `Turn`, `PlayRotation` and `PlayGame` return `false`.
- Games.Game.PlayGame: does not state the board and hands it leaves behind when it returns `false`. It states only that this happens exactly when the hands were uneven. `PlayRotation` does state the state after the failing rotation, but `PlayGame` does not carry that through the rotations that completed before it.
- Games.Game.Deal: states that the four hands together are the double-six set, in seating order. It does not state which shuffled list they were cut from.
- Tiles are pairs of unbounded integers. The source's `list(domino)` accepts any sequence, but the engine only ever handles two-element tiles.
