/**
 * Worked games on a fresh board, written as clients of the Grid interface:
 * what the contracts of Put, Set and GetWinner let a caller conclude.
 */
module Scenarios {
  import opened Clonium

  /** A fresh board has no winner. */
  method NewGridHasNoWinner() returns (winner: Option<PlayerId>)
    ensures winner == None
  {
    var grid := new Grid();
    assert Owners(grid.cells[..]) == {};
    winner := grid.GetWinner();
  }

  /** Placing on an empty position of a fresh board neither fills it nor emits particles. */
  method PutOnEmptyPosition(p: PlayerId) returns (particles: Option<seq<Cell>>, after: Option<StaticCell>)
    ensures particles == None && after == None
  {
    var grid := new Grid();
    particles := grid.Put(p, 2, 2);
    after := grid.Get(2, 2);
  }

  /**
   * The centre position, starting at one dot, is promoted twice by `p` and
   * then explodes into four particles owned by `p`, leaving it empty.
   */
  method CentreChain(p: PlayerId)
    returns (first: Option<seq<Cell>>, second: Option<seq<Cell>>, third: Option<seq<Cell>>,
             afterFirst: Option<StaticCell>, afterSecond: Option<StaticCell>, afterThird: Option<StaticCell>)
    ensures first == None && second == None
    ensures afterFirst == Some(StaticCell(p, Two))
    ensures afterSecond == Some(StaticCell(p, Three))
    ensures third == Some([Cell(p, 2, 2, Up), Cell(p, 2, 2, Right), Cell(p, 2, 2, Down), Cell(p, 2, 2, Left)])
    ensures afterThird == None
  {
    var grid := new Grid();
    grid.Set(2, 2, Some(StaticCell(p, One)));
    first := grid.Put(p, 2, 2);
    afterFirst := grid.Get(2, 2);
    second := grid.Put(p, 2, 2);
    afterSecond := grid.Get(2, 2);
    third := grid.Put(p, 2, 2);
    assert Explosion(p, 2, 2) == [Cell(p, 2, 2, Up), Cell(p, 2, 2, Right), Cell(p, 2, 2, Down), Cell(p, 2, 2, Left)];
    afterThird := grid.Get(2, 2);
  }

  /** A three-dot corner captured by `q` sends exactly two particles, Right then Down. */
  method CornerExplosion(p: PlayerId, q: PlayerId) returns (particles: Option<seq<Cell>>)
    ensures particles == Some([Cell(q, 0, 0, Right), Cell(q, 0, 0, Down)])
  {
    var grid := new Grid();
    grid.Set(0, 0, Some(StaticCell(p, Three)));
    particles := grid.Put(q, 0, 0);
    assert Explosion(q, 0, 0) == [Cell(q, 0, 0, Right), Cell(q, 0, 0, Down)];
  }

  /** A board whose only occupied position is (1, 1), owned by `p`, is won by `p`. */
  method LoneOwnerWins(p: PlayerId) returns (winner: Option<PlayerId>)
    ensures winner == Some(p)
  {
    var grid := new Grid();
    grid.Set(1, 1, Some(StaticCell(p, One)));
    SoleOwner(grid.cells[..], Index(1, 1), p);
    winner := grid.GetWinner();
  }

  /** Two positions owned by different players give no winner. */
  method MixedBoardHasNoWinner(p: PlayerId, q: PlayerId) returns (winner: Option<PlayerId>)
    requires p != q
    ensures winner == None
  {
    var grid := new Grid();
    grid.Set(0, 0, Some(StaticCell(p, One)));
    grid.Set(4, 4, Some(StaticCell(q, Two)));
    MixedOwners(grid.cells[..], Index(0, 0), Index(4, 4));
    winner := grid.GetWinner();
  }
}
