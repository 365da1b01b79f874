/**
 * The board state machine of a Clonium-style "chain reaction" game: a fixed
 * 5x5 grid of owned cells holding one to three dots.  Placing on a cell
 * promotes its dots; placing on a cell with three dots clears it and emits one
 * particle towards every neighbour on the board.  The caller animates the
 * particles and places again where each one lands.
 */
module Clonium {

  datatype Option<T> = None | Some(value: T)

  /** Side length of the square board. */
  const MapSize: nat := 5

  /** The direction in which an explosion particle travels. */
  datatype Direction = Up | Right | Down | Left

  /** Position of a direction in the declaration order Up, Right, Down, Left. */
  function Ordinal(d: Direction): nat
  {
    match d
    case Up => 0
    case Right => 1
    case Down => 2
    case Left => 3
  }

  /**
   * The unit move of a particle travelling in direction `d`: the y axis
   * grows downwards, so Up decreases y.
   */
  function Offset(d: Direction): (delta: (int, int))
    ensures (delta.0 == 0) != (delta.1 == 0)
    ensures -1 <= delta.0 <= 1 && -1 <= delta.1 <= 1
    ensures (d == Up || d == Down) <==> delta.0 == 0
    ensures d == Up ==> delta.1 < 0
    ensures d == Down ==> delta.1 > 0
    ensures d == Right ==> delta.0 > 0
    ensures d == Left ==> delta.0 < 0
  {
    match d
    case Up => (0, -1)
    case Right => (1, 0)
    case Down => (0, 1)
    case Left => (-1, 0)
  }

  datatype PlayerId = PlayerId(id: nat)

  /**
   * An explosion particle: its owner, the integer board position it starts
   * from and the direction it travels in.  Its floating-point position and
   * progress are not part of this model.
   */
  datatype Cell = Cell(playerId: PlayerId, x: nat, y: nat, direction: Direction)

  /** The board position a particle lands on once its animation completes. */
  function Destination(c: Cell): (int, int)
  {
    (c.x + Offset(c.direction).0, c.y + Offset(c.direction).1)
  }

  predicate OnBoard(pos: (int, int))
  {
    0 <= pos.0 < MapSize && 0 <= pos.1 < MapSize
  }

  /** The number of dots on an occupied board position. */
  datatype Dots = One | Two | Three

  function DotCount(d: Dots): nat
  {
    match d
    case One => 1
    case Two => 2
    case Three => 3
  }

  datatype StaticCell = StaticCell(playerId: PlayerId, value: Dots)

  /** Row-major flat index of board position (x, y). */
  function Index(x: nat, y: nat): nat
  {
    x + y * MapSize
  }

  /** Distinct on-board positions never share a flat index. */
  lemma IndexInjective(x: nat, y: nat, x': nat, y': nat)
    requires x < MapSize && x' < MapSize
    ensures Index(x, y) == Index(x', y') <==> x == x' && y == y'
  {
  }

  /**
   * What one placement by `p` does to the content of a board position: an
   * empty position stays empty, one and two dots gain a dot and pass to `p`,
   * three dots explode and leave the position empty.
   */
  function Promote(c: Option<StaticCell>, p: PlayerId): (r: Option<StaticCell>)
    ensures r.None? <==> c.None? || c.value.value == Three
    ensures r.Some? ==> r.value.playerId == p && DotCount(r.value.value) == DotCount(c.value.value) + 1
  {
    match c
    case None => None
    case Some(StaticCell(_, One)) => Some(StaticCell(p, Two))
    case Some(StaticCell(_, Two)) => Some(StaticCell(p, Three))
    case Some(StaticCell(_, Three)) => None
  }

  /** True when placing on `c` makes it explode. */
  predicate Explodes(c: Option<StaticCell>)
  {
    c.Some? && c.value.value == Three
  }

  predicate HasDirection(particles: seq<Cell>, d: Direction)
  {
    exists i :: 0 <= i < |particles| && particles[i].direction == d
  }

  /** The position next to (x, y) in direction `d`. */
  function Neighbour(x: nat, y: nat, d: Direction): (int, int)
  {
    (x + Offset(d).0, y + Offset(d).1)
  }

  predicate OnEdge(v: nat)
  {
    v == 0 || v == MapSize - 1
  }

  /**
   * The particles emitted when the position (x, y) explodes under player `p`:
   * one per direction whose neighbour is on the board, in the order Up,
   * Right, Down, Left, all owned by `p` and starting at (x, y).  There are
   * two at a corner, three elsewhere on an edge and four inside.
   */
  function Explosion(p: PlayerId, x: nat, y: nat): (r: seq<Cell>)
    ensures forall c :: c in r ==> c.playerId == p && c.x == x && c.y == y
    ensures forall i, j :: 0 <= i < j < |r| ==> Ordinal(r[i].direction) < Ordinal(r[j].direction)
    ensures forall i, j :: 0 <= i < j < |r| ==> Destination(r[i]) != Destination(r[j])
    ensures x < MapSize && y < MapSize ==>
      forall c :: c in r ==> OnBoard(Destination(c))
    ensures x < MapSize && y < MapSize ==>
      |r| == (if OnEdge(x) && OnEdge(y) then 2 else if OnEdge(x) || OnEdge(y) then 3 else 4)
  {
    (if y > 0 then [Cell(p, x, y, Up)] else [])
    + (if x < MapSize - 1 then [Cell(p, x, y, Right)] else [])
    + (if y < MapSize - 1 then [Cell(p, x, y, Down)] else [])
    + (if x > 0 then [Cell(p, x, y, Left)] else [])
  }

  /**
   * Seen from an on-board position, the explosion sends a particle in
   * direction `d` exactly when the neighbour in that direction is on the
   * board: no particle leaves the board and no neighbour is skipped.
   */
  lemma {:induction false} ExplosionNeighbours(p: PlayerId, x: nat, y: nat, d: Direction)
    requires x < MapSize && y < MapSize
    ensures HasDirection(Explosion(p, x, y), d) <==> OnBoard(Neighbour(x, y, d))
  {
    var r := Explosion(p, x, y);
    if OnBoard(Neighbour(x, y, d)) {
      var k := match d
        case Up => 0
        case Right => if y > 0 then 1 else 0
        case Down => (if y > 0 then 1 else 0) + (if x < MapSize - 1 then 1 else 0)
        case Left => |r| - 1;
      assert r[k].direction == d;
    }
  }

  /** The set of players owning at least one occupied position of `board`. */
  ghost function Owners(board: seq<Option<StaticCell>>): set<PlayerId>
  {
    set i | 0 <= i < |board| && board[i].Some? :: board[i].value.playerId
  }

  /** A board owned wholly by `w` from some occupied index on has `w` as sole owner. */
  lemma SoleOwner(board: seq<Option<StaticCell>>, k: nat, w: PlayerId)
    requires k < |board| && board[k].Some? && board[k].value.playerId == w
    requires forall j :: 0 <= j < |board| && board[j].Some? ==> board[j].value.playerId == w
    ensures Owners(board) == {w}
  {
  }

  /** Two occupied positions with different owners give at least two owners. */
  lemma {:induction false} MixedOwners(board: seq<Option<StaticCell>>, i: nat, j: nat)
    requires i < |board| && j < |board| && board[i].Some? && board[j].Some?
    requires board[i].value.playerId != board[j].value.playerId
    ensures |Owners(board)| >= 2
  {
    var owners := Owners(board);
    var pair := {board[i].value.playerId, board[j].value.playerId};
    assert board[i].value.playerId in owners && board[j].value.playerId in owners;
    assert owners == (owners - pair) + pair;
    assert |pair| == 2;
  }

  /** The game board: 25 positions stored in row-major order. */
  class Grid {
    const cells: array<Option<StaticCell>>

    ghost predicate Valid()
    {
      cells.Length == MapSize * MapSize
    }

    /** A fresh board has every position empty. */
    constructor ()
      ensures Valid() && fresh(cells)
      ensures forall i :: 0 <= i < cells.Length ==> cells[i] == None
    {
      cells := new Option<StaticCell>[MapSize * MapSize](_ => None);
    }

    /**
     * The content of board position (x, y); the flat index must lie in the
     * array.  Row y is the y-th block of MapSize consecutive entries.
     */
    function Get(x: nat, y: nat): (c: Option<StaticCell>)
      reads cells
      requires Valid() && Index(x, y) < cells.Length
      ensures x < MapSize && y < MapSize ==> c == cells[..][y * MapSize .. (y + 1) * MapSize][x]
    {
      cells[Index(x, y)]
    }

    method Set(x: nat, y: nat, value: Option<StaticCell>)
      requires Valid() && Index(x, y) < cells.Length
      modifies cells
      ensures Valid()
      ensures cells[..] == old(cells[..])[Index(x, y) := value]
      ensures Get(x, y) == value
      ensures x < MapSize && y < MapSize ==>
        forall x': nat, y': nat :: x' < MapSize && y' < MapSize && (x' != x || y' != y) ==>
          Get(x', y') == old(Get(x', y'))
    {
      cells[Index(x, y)] := value;
      forall x': nat, y': nat | x < MapSize && y < MapSize && x' < MapSize && y' < MapSize && (x' != x || y' != y)
        ensures Index(x', y') != Index(x, y)
      {
        IndexInjective(x, y, x', y');
      }
    }

    /**
     * One placement by `playerId` at (x, y): the position's content becomes
     * Promote of its old content and nothing else changes; particles are
     * returned exactly when the position held three dots.
     */
    method Put(playerId: PlayerId, x: nat, y: nat) returns (particles: Option<seq<Cell>>)
      requires Valid() && Index(x, y) < cells.Length
      modifies cells
      ensures Valid()
      ensures cells[..] == old(cells[..])[Index(x, y) := Promote(old(Get(x, y)), playerId)]
      ensures old(Get(x, y)).None? ==> cells[..] == old(cells[..])
      ensures particles.Some? <==> Explodes(old(Get(x, y)))
      ensures particles.Some? ==> particles.value == Explosion(playerId, x, y)
      ensures x < MapSize && y < MapSize ==>
        forall x': nat, y': nat :: x' < MapSize && y' < MapSize && (x' != x || y' != y) ==>
          Get(x', y') == old(Get(x', y'))
    {
      var cell := Get(x, y);
      if cell.Some? {
        match cell.value.value
        case One =>
          Set(x, y, Some(StaticCell(playerId, Two)));
          particles := None;
        case Two =>
          Set(x, y, Some(StaticCell(playerId, Three)));
          particles := None;
        case Three =>
          Set(x, y, None);
          var animationList := [];
          if y > 0 {
            animationList := animationList + [Cell(playerId, x, y, Up)];
          }
          if x < MapSize - 1 {
            animationList := animationList + [Cell(playerId, x, y, Right)];
          }
          if y < MapSize - 1 {
            animationList := animationList + [Cell(playerId, x, y, Down)];
          }
          if x > 0 {
            animationList := animationList + [Cell(playerId, x, y, Left)];
          }
          particles := Some(animationList);
      } else {
        particles := None;
        assert cells[..] == old(cells[..])[Index(x, y) := None];
      }
    }

    /**
     * The sole owner of every occupied position, if there is exactly one:
     * no winner on an empty board or on a board with two or more owners.
     */
    method GetWinner() returns (winner: Option<PlayerId>)
      requires Valid()
      ensures winner.Some? ==> Owners(cells[..]) == {winner.value}
      ensures winner.None? ==> Owners(cells[..]) == {} || |Owners(cells[..])| >= 2
    {
      var i := 0;
      while i < cells.Length && cells[i].None?
        invariant 0 <= i <= cells.Length
        invariant forall j :: 0 <= j < i ==> cells[j].None?
      {
        i := i + 1;
      }
      if i >= cells.Length {
        assert Owners(cells[..]) == {};
        return None;
      }
      ghost var first := i;
      var winnerId := cells[i].value.playerId;
      while i < cells.Length && (cells[i].None? || cells[i].value.playerId == winnerId)
        invariant first <= i <= cells.Length
        invariant forall j :: 0 <= j < i ==> cells[j].None? || cells[j].value.playerId == winnerId
      {
        i := i + 1;
      }
      if i < cells.Length {
        MixedOwners(cells[..], first, i);
        winner := None;
      } else {
        SoleOwner(cells[..], first, winnerId);
        winner := Some(winnerId);
      }
    }
  }
}
