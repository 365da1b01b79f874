# Clonium board state machine

A model of the board of clonium-rs, a "chain reaction" game. The board is a fixed 5x5 grid. Its
positions are stored flat, in row-major order, at index `x + y*5`. Each position is empty or
holds a `StaticCell`: an owner (`PlayerId`) and one, two or three dots (`Dots`).

- `Grid.Put` places one marker for a player. An empty position is left alone. One dot becomes
  two and two dots become three; the position passes to the placing player. Three dots clear
  the position. The call then returns one particle (`Cell`) per neighbour on the board, in the
  order Up, Right, Down, Left. Put does one level of explosion and never recurses; the caller
  animates the particles and calls Put again where each one lands.
- `Grid.Get` and `Grid.Set` read and write one position.
- `Grid.GetWinner` scans the board with two loops. It returns the owner of the first occupied
  position when every occupied position has that owner, and nothing otherwise.

`clonium.dfy` holds the module `Clonium`. It has the enums and records, the pure transition
functions (`Promote`, `Explosion`) and the class `Grid`, which holds a 25-element array.
`Grid.Get` is a function that reads the array, so it has no side effect. Its contract gives the
row-major layout; what it returns after a write is stated in the contract of `Grid.Set`. The source's constructors `StaticCell::new` and
`Cell::new` are the datatype constructors `StaticCell(..)` and `Cell(..)`.

`scenarios.dfy` holds the module `Scenarios`. Its methods play small games on a fresh board. They
show what a caller can conclude from the contracts of `Grid` alone.

Where the code and the game's documented intent differ, the model follows the code:

- Placing on an empty position does nothing. No rule creates a first dot.
- An index outside the array makes the Rust program panic. Here that is a precondition on the
  flat index, `x + y*5 < 25`, and not a reported error.

The Rust array checks only the flat index. So `Get`, `Set` and `Put` accept an `x` of 5 or more
when `y` is small enough, and such a call touches another row. Every "other positions are
unchanged" clause is therefore stated for on-board coordinates, `x < 5 && y < 5`.

## Model

| member | source | states |
|---|---|---|
| `Clonium.Offset` | src/main.rs:41-46 | each direction moves exactly one step along exactly one axis: Up and Down along y, Up decreasing it and Down increasing it; Right and Left along x, Right increasing it and Left decreasing it |
| `Clonium.IndexInjective` | src/main.rs:113-115 | two on-board positions share a flat index `x + y*5` only if they are the same position |
| `Clonium.Promote` | src/main.rs:80-91 | a placement empties the position exactly when it was empty or held three dots; otherwise the position is owned by the placing player and holds one more dot than before |
| `Clonium.Explosion` | src/main.rs:92-105 | every particle is owned by the placing player and starts at (x, y); directions strictly follow the order Up, Right, Down, Left; no two particles land on the same position; from an on-board position every particle lands on the board, and there are 2 at a corner, 3 on an edge and 4 inside |
| `Clonium.ExplosionNeighbours` | src/main.rs:93-104 | from an on-board position a particle is sent in direction d exactly when the neighbour in direction d is on the board |
| `Clonium.SoleOwner` | src/main.rs:125-135 | if one position is occupied by w and every occupied position is owned by w, then w is the only owner on the board |
| `Clonium.MixedOwners` | src/main.rs:126-132 | two occupied positions with different owners mean at least two owners on the board |
| `Clonium.Grid.constructor` | src/main.rs:75-77 | a new board has all 25 positions empty |
| `Clonium.Grid.Get` | src/main.rs:113-115 | reads the position at flat index `x + y*5`: for an on-board position, entry x of row y, where row y is the y-th block of 5 consecutive entries; a function, so it has no side effect (the value after a write is given by `Grid.Set`) |
| `Clonium.Grid.Set` | src/main.rs:138-140 | the array changes at index `x + y*5` only; `Get(x, y)` then returns the value written; every other on-board position reads as before |
| `Clonium.Grid.Put` | src/main.rs:79-111 | the position at `x + y*5` becomes `Promote` of its old content and no other index changes; on an empty position the whole board is unchanged; particles are returned exactly when the position held three dots, and they are `Explosion(player, x, y)` |
| `Clonium.Grid.GetWinner` | src/main.rs:117-136 | returns `Some(w)` only when w is the one and only owner of the occupied positions; returns none only when the board is empty or has two or more owners |
| `Scenarios.NewGridHasNoWinner` | src/main.rs:117-124 | a new board has no winner |
| `Scenarios.PutOnEmptyPosition` | src/main.rs:108-110 | placing on an empty position returns no particles and leaves it empty |
| `Scenarios.CentreChain` | src/main.rs:82-105 | one dot at the centre becomes two dots, then three dots, owned by the player after each placement; the third placement clears it and returns Up, Right, Down and Left particles from (2, 2) |
| `Scenarios.CornerExplosion` | src/main.rs:90-105 | three dots at corner (0, 0) explode into exactly two particles, Right then Down, owned by the placing player |
| `Scenarios.LoneOwnerWins` | src/main.rs:117-136 | a board whose only occupied position is (1, 1), owned by p, is won by p |
| `Scenarios.MixedBoardHasNoWinner` | src/main.rs:126-133 | two positions owned by different players give no winner |

## Left out

- `Cell::is_completed`, `Cell::step` and `CELL_SPEED` (src/main.rs:11, 31-50). They move a particle in `f32` steps of 0.02 and round its position at the end. Floating point is not modelled. A particle keeps only its owner, integer origin and direction. `Destination` is the integer position it lands on, using the same direction-to-axis mapping as `step`.
- `main` (src/main.rs:143-145). It only prints a greeting.
- The chain-reaction driver and the animation loop. They are not part of this repository.
- Out-of-range indices. The Rust program panics on them. Here they are excluded by preconditions rather than modelled as an error path.
- `Clonium.Index`: `usize` overflow of `x + y*5` is not modelled. Integers are unbounded here. Such an overflow needs coordinates near 2^64 / 5, and none of those lie on the board.
- `Clonium.Explosion`: the count of 2, 3 or 4 particles and the on-board landing are stated only for on-board coordinates. For an `x` of 5 or more, the code's four edge tests do not describe the neighbours of the aliased position.
- `PlayerId` is an unbounded natural number, not a `usize`. Only equality is used on it.
